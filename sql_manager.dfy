/**
 * The table editor of src/components/sql/SQLManager.tsx: the list of tables,
 * the field list of the "create table" form, the selected table and the
 * results of the last query, with the handlers that change them.
 */
module SqlManager {
  import opened Wrappers
  import opened Auth

  /** A column of the table being designed. */
  datatype Field = Field(name: string, sqlType: string)

  /** The attribute of a field an edit changes. */
  datatype FieldAttr = Name | Type

  /** A row of the canned query result. */
  datatype Row = Row(id: int, name: string, email: string)

  /** The field the form starts with and that "Add Field" appends. */
  const DefaultField: Field := Field("", "VARCHAR(255)")

  const InitialTables: seq<string> := ["users", "orders", "products"]

  /** The three rows every query returns. */
  const MockRows: seq<Row> := [
    Row(1, "John Doe", "john@example.com"),
    Row(2, "Jane Smith", "jane@example.com"),
    Row(3, "Bob Johnson", "bob@example.com")
  ]

  /**
   * `fields.filter((_, i) => i !== index)`: drop the entry at `index`, keep
   * the rest in order; an index outside the list drops nothing.
   */
  function WithoutIndex(fields: seq<Field>, index: int): (r: seq<Field>)
    ensures r == if 0 <= index < |fields| then fields[..index] + fields[index + 1..] else fields
    decreases |fields|
  {
    if fields == [] then []
    else (if index == 0 then [] else [fields[0]]) + WithoutIndex(fields[1..], index - 1)
  }

  /** Removing from a list of more than one field leaves at least one. */
  lemma WithoutIndexKeepsOne(fields: seq<Field>, index: int)
    requires |fields| > 1
    ensures |WithoutIndex(fields, index)| >= 1
  {
  }

  /** A field with one attribute replaced. */
  function WithAttr(f: Field, attr: FieldAttr, value: string): Field
  {
    match attr
    case Name => f.(name := value)
    case Type => f.(sqlType := value)
  }

  /** `fields.some(f => !f.name)`. */
  function HasUnnamedField(fields: seq<Field>): (r: bool)
    ensures r <==> exists i :: 0 <= i < |fields| && fields[i].name == ""
    decreases |fields|
  {
    if fields == [] then false
    else fields[0].name == "" || HasUnnamedField(fields[1..])
  }

  /** `canModify`: the create and insert tabs show for Admin and Developer only. */
  function CanModify(user: Option<User>): (r: bool)
    ensures r <==> user.Some? && (user.value.role == "Admin" || user.value.role == "Developer")
  {
    HasRole(user, "Admin") || HasRole(user, "Developer")
  }

  class SqlManager {
    var tables: seq<string>
    var selectedTable: string
    var newTableName: string
    var tableFields: seq<Field>
    var queryResults: seq<Row>

    /** The form always shows at least one field. */
    ghost predicate Valid()
      reads this
    {
      |tableFields| >= 1
    }

    /** The remove button is rendered only while there is more than one field. */
    predicate CanRemoveField()
      reads this
    {
      |tableFields| > 1
    }

    constructor ()
      ensures Valid()
      ensures tables == InitialTables && selectedTable == "" && newTableName == ""
      ensures tableFields == [DefaultField] && queryResults == []
    {
      tables := InitialTables;
      selectedTable := "";
      newTableName := "";
      tableFields := [DefaultField];
      queryResults := [];
    }

    /** `addTableField`: append one default field. */
    method AddTableField()
      requires Valid()
      modifies this`tableFields
      ensures Valid()
      ensures tableFields == old(tableFields) + [DefaultField]
    {
      tableFields := tableFields + [DefaultField];
    }

    /** `removeTableField`: drop the field at `index`, if there is one. */
    method RemoveTableField(index: int)
      requires Valid()
      modifies this`tableFields
      ensures tableFields == WithoutIndex(old(tableFields), index)
      ensures old(CanRemoveField()) ==> Valid()
    {
      tableFields := WithoutIndex(tableFields, index);
    }

    /** `updateTableField`: set one attribute of the field at `index`. */
    method UpdateTableField(index: nat, attr: FieldAttr, value: string)
      requires Valid()
      requires index < |tableFields|
      modifies this`tableFields
      ensures Valid()
      ensures |tableFields| == old(|tableFields|)
      ensures forall i :: 0 <= i < |tableFields| && i != index ==> tableFields[i] == old(tableFields[i])
      ensures attr == Name ==>
        tableFields[index].name == value && tableFields[index].sqlType == old(tableFields[index].sqlType)
      ensures attr == Type ==>
        tableFields[index].sqlType == value && tableFields[index].name == old(tableFields[index].name)
    {
      var updated := tableFields;
      updated := updated[index := WithAttr(updated[index], attr, value)];
      tableFields := updated;
    }

    method SetNewTableName(name: string)
      modifies this`newTableName
      ensures newTableName == name
    {
      newTableName := name;
    }

    method SelectTable(name: string)
      modifies this`selectedTable
      ensures selectedTable == name
    {
      selectedTable := name;
    }

    /**
     * `createTable`: with a table name and every field named, append the name
     * (duplicates allowed) and reset the form; otherwise change nothing.
     */
    method CreateTable() returns (created: bool)
      requires Valid()
      modifies this`tables, this`newTableName, this`tableFields
      ensures Valid()
      ensures created <==>
        old(newTableName) != "" && forall i :: 0 <= i < old(|tableFields|) ==> old(tableFields[i].name) != ""
      ensures created ==>
        tables == old(tables) + [old(newTableName)] && newTableName == "" && tableFields == [DefaultField]
      ensures !created ==>
        tables == old(tables) && newTableName == old(newTableName) && tableFields == old(tableFields)
    {
      if newTableName == "" || HasUnnamedField(tableFields) {
        return false;
      }
      tables := tables + [newTableName];
      newTableName := "";
      tableFields := [DefaultField];
      created := true;
    }

    /** `executeQuery`: with a table selected, show the canned rows; otherwise change nothing. */
    method ExecuteQuery() returns (ok: bool)
      modifies this`queryResults
      ensures ok <==> selectedTable != ""
      ensures ok ==> queryResults == MockRows
      ensures !ok ==> queryResults == old(queryResults)
    {
      if selectedTable == "" {
        return false;
      }
      queryResults := MockRows;
      ok := true;
    }

    /** `exportData`: rejected without a selected table; changes no state either way. */
    method ExportData() returns (ok: bool)
      ensures ok <==> selectedTable != ""
    {
      ok := selectedTable != "";
    }
  }

  /**
   * Not a handler of the component: a usage check showing that the handlers'
   * contracts are enough for a caller to follow a short editing session
   * (the field list never empties and a created table is listed last).
   */
  method EditorSession(name: string)
    requires name != ""
  {
    var m := new SqlManager();
    m.AddTableField();
    assert m.CanRemoveField();
    m.RemoveTableField(0);
    assert m.tableFields == [DefaultField];
    m.UpdateTableField(0, Name, "id");
    m.SetNewTableName(name);
    var created := m.CreateTable();
    assert created && m.tables == InitialTables + [name];
    assert m.tableFields == [DefaultField] && m.newTableName == "";
    created := m.CreateTable();
    assert !created;
  }
}
