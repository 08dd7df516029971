/**
 * The export form of src/components/export/ExportPage.tsx: the chosen
 * database type and table, the format badge, and the file name an export
 * produces.
 */
module Export {
  import Text

  const SqlTables: seq<string> := ["users", "orders", "products"]
  const NoSqlTables: seq<string> := ["users", "products", "logs"]

  /** What the export button reports: a missing selection, or the format and file name produced. */
  datatype ExportOutcome = MissingSelection | Exported(format: string, fileName: string)

  /** The format of an export: CSV for the SQL database, JSON for any other value. */
  function ExportFormat(database: string): (format: string)
    ensures format == "CSV" || format == "JSON"
    ensures format == "CSV" <==> database == "sql"
    ensures Text.ToLower(format) == if database == "sql" then "csv" else "json"
  {
    if database == "sql" then "CSV" else "JSON"
  }

  /** The file an export writes: the table name, a dot, and the lower-cased format. */
  function ExportFileName(table: string, database: string): (r: string)
    ensures database == "sql" ==> r == table + ".csv"
    ensures database != "sql" ==> r == table + ".json"
  {
    table + "." + Text.ToLower(ExportFormat(database))
  }

  /** The table choices offered for a database type: none for a value that is neither. */
  function AvailableTables(database: string): seq<string>
  {
    if database == "sql" then SqlTables
    else if database == "nosql" then NoSqlTables
    else []
  }

  /** The format badge after the table choices are listed: set for "sql" and "nosql", kept otherwise. */
  function FormatBadge(database: string, current: string): string
  {
    if database == "sql" then "CSV"
    else if database == "nosql" then "JSON"
    else current
  }

  /**
   * For the two database types the selector offers, the badge shows the
   * format the export uses, and the file's extension is that badge lower-cased.
   */
  lemma BadgeMatchesExport(database: string, current: string, table: string)
    requires database == "sql" || database == "nosql"
    ensures FormatBadge(database, current) == ExportFormat(database)
    ensures ExportFileName(table, database) == table + "." + Text.ToLower(FormatBadge(database, current))
    ensures |AvailableTables(database)| == 3
  {
  }

  class ExportPage {
    var selectedDatabase: string
    var selectedTable: string
    var exportFormat: string

    constructor ()
      ensures selectedDatabase == "" && selectedTable == "" && exportFormat == ""
    {
      selectedDatabase := "";
      selectedTable := "";
      exportFormat := "";
    }

    /** The database selector's change handler: take the new type and clear the table choice. */
    method ChangeDatabase(value: string)
      modifies this`selectedDatabase, this`selectedTable
      ensures selectedDatabase == value && selectedTable == ""
    {
      selectedDatabase := value;
      selectedTable := "";
    }

    method SelectTable(table: string)
      modifies this`selectedTable
      ensures selectedTable == table
    {
      selectedTable := table;
    }

    /** `getAvailableTables`: list the choices for the selected type, setting the format badge. */
    method GetAvailableTables() returns (tables: seq<string>)
      modifies this`exportFormat
      ensures tables == AvailableTables(selectedDatabase)
      ensures exportFormat == FormatBadge(selectedDatabase, old(exportFormat))
    {
      if selectedDatabase == "sql" {
        exportFormat := "CSV";
        return SqlTables;
      } else if selectedDatabase == "nosql" {
        exportFormat := "JSON";
        return NoSqlTables;
      }
      return [];
    }

    /** `handleExport`: rejected unless both a type and a table are chosen; no state changes. */
    method HandleExport() returns (outcome: ExportOutcome)
      ensures outcome.MissingSelection? <==> selectedDatabase == "" || selectedTable == ""
      ensures outcome.Exported? ==>
        outcome.format == (if selectedDatabase == "sql" then "CSV" else "JSON")
        && outcome.fileName == selectedTable + "." + (if selectedDatabase == "sql" then "csv" else "json")
    {
      if selectedDatabase == "" || selectedTable == "" {
        return MissingSelection;
      }
      var format := ExportFormat(selectedDatabase);
      outcome := Exported(format, ExportFileName(selectedTable, selectedDatabase));
    }
  }
}
