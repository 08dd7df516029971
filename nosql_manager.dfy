/**
 * The collection editor of src/components/nosql/NoSQLManager.tsx: the list of
 * collections, the selected collection, the document text of the insert form
 * and the results of the last query, with the handlers that change them.
 */
module NoSqlManager {
  import opened Wrappers
  import opened Auth

  /**
   * A document of the canned query result; `id` holds the document's `_id`
   * key (a Dafny name cannot start with an underscore), and prices are kept
   * as exact decimals.
   */
  datatype Document = Document(id: string, name: string, price: real, category: string)

  /** What an insert reports: the selection or text was missing, the text was not JSON, or done. */
  datatype InsertOutcome = MissingInformation | InvalidJson | Inserted

  const InitialCollections: seq<string> := ["users", "products", "logs"]

  /** The document text the insert form starts with. */
  const InitialJson: string := "{\n  \"key\": \"value\"\n}"

  /** The three documents every query returns. */
  const MockDocuments: seq<Document> := [
    Document("1", "Product A", 29.99, "electronics"),
    Document("2", "Product B", 49.99, "books"),
    Document("3", "Product C", 19.99, "clothing")
  ]

  /** `canModify`: the create and insert tabs show for Admin and Developer only. */
  function CanModify(user: Option<User>): (r: bool)
    ensures r <==> user.Some? && (user.value.role == "Admin" || user.value.role == "Developer")
  {
    HasRole(user, "Admin") || HasRole(user, "Developer")
  }

  class NoSqlManager {
    var collections: seq<string>
    var selectedCollection: string
    var newCollectionName: string
    var jsonData: string
    var queryResults: seq<Document>

    constructor ()
      ensures collections == InitialCollections && selectedCollection == "" && newCollectionName == ""
      ensures jsonData == InitialJson && queryResults == []
    {
      collections := InitialCollections;
      selectedCollection := "";
      newCollectionName := "";
      jsonData := InitialJson;
      queryResults := [];
    }

    method SetNewCollectionName(name: string)
      modifies this`newCollectionName
      ensures newCollectionName == name
    {
      newCollectionName := name;
    }

    method SelectCollection(name: string)
      modifies this`selectedCollection
      ensures selectedCollection == name
    {
      selectedCollection := name;
    }

    method SetJsonData(text: string)
      modifies this`jsonData
      ensures jsonData == text
    {
      jsonData := text;
    }

    /**
     * `createCollection`: with a name, append it (duplicates allowed) and clear
     * the name; otherwise change nothing.
     */
    method CreateCollection() returns (created: bool)
      modifies this`collections, this`newCollectionName
      ensures created <==> old(newCollectionName) != ""
      ensures created ==> collections == old(collections) + [old(newCollectionName)] && newCollectionName == ""
      ensures !created ==> collections == old(collections) && newCollectionName == old(newCollectionName)
    {
      if newCollectionName == "" {
        return false;
      }
      collections := collections + [newCollectionName];
      newCollectionName := "";
      created := true;
    }

    /**
     * `insertDocument`: rejected without a selected collection or document
     * text; otherwise `parses` (whether `JSON.parse` accepts the text) decides
     * between the error and success reports. No state changes.
     */
    method InsertDocument(parses: bool) returns (outcome: InsertOutcome)
      ensures outcome == MissingInformation <==> selectedCollection == "" || jsonData == ""
      ensures outcome == InvalidJson <==> selectedCollection != "" && jsonData != "" && !parses
      ensures outcome == Inserted <==> selectedCollection != "" && jsonData != "" && parses
    {
      if selectedCollection == "" || jsonData == "" {
        return MissingInformation;
      }
      if !parses {
        return InvalidJson;
      }
      outcome := Inserted;
    }

    /** `queryDocuments`: with a collection selected, show the canned documents; otherwise change nothing. */
    method QueryDocuments() returns (ok: bool)
      modifies this`queryResults
      ensures ok <==> selectedCollection != ""
      ensures ok ==> queryResults == MockDocuments
      ensures !ok ==> queryResults == old(queryResults)
    {
      if selectedCollection == "" {
        return false;
      }
      queryResults := MockDocuments;
      ok := true;
    }

    /** `exportData`: rejected without a selected collection; changes no state either way. */
    method ExportData() returns (ok: bool)
      ensures ok <==> selectedCollection != ""
    {
      ok := selectedCollection != "";
    }
  }
}
