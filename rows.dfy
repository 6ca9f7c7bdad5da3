/**
 * Rows as the storage layer hands them to the models: maps from column name to
 * value. MySQL returns every column as a string, so a stored value is `Text`;
 * `Nested` only appears in page data after an embedded template has been
 * expanded into it. Tables are sequences of rows in storage order.
 */
module Rows {
  import opened Wrappers
  import opened Strings

  datatype Value = Null | Text(s: string) | Nested(fields: map<string, Value>)

  type Row = map<string, Value>

  /** `$row[$k]`: a missing column reads as null. */
  function Get(r: Row, k: string): Value {
    if k in r then r[k] else Null
  }

  /** PHP `isset($row[$k])`: present and not null. */
  predicate IsSet(r: Row, k: string) {
    k in r && r[k] != Null
  }

  /** A value interpolated into a string: null is "", an array is "Array". */
  function AsString(v: Value): string {
    match v
    case Null => ""
    case Text(s) => s
    case Nested(_) => "Array"
  }

  function Field(r: Row, k: string): string {
    AsString(Get(r, k))
  }

  /** The numeric reading of a row's `ID` column. */
  function IdOf(r: Row): nat {
    NumVal(Field(r, "ID"))
  }

  /**
   * A model's `pageData`: `Unset` is PHP null (never initialised), `NoRow` is the
   * `false` that `end()` gives for an empty path, `Loaded` is a row.
   */
  datatype PageData = Unset | NoRow | Loaded(row: Row)

  /** `$pageData[$k]` where indexing null or false reads null. */
  function PageField(pd: PageData, k: string): Value {
    if pd.Loaded? then Get(pd.row, k) else Null
  }

  /**
   * What makes a request fail hard: the exceptions of the source, its fatal
   * configuration errors (an unknown structure name, a parent key naming no
   * structure), an ancestry chain that does not end, a query the database
   * rejects, a division by a zero page size, and a medium whose configuration
   * file does not load.
   */
  datatype Error =
    | UnknownStructure(name: string)
    | UnknownType(kind: string)
    | MissingTemplateConfig(name: string)
    | NoTemplateOwner
    | NotOverridden(member: string)
    | UnknownParent(key: string)
    | AncestryTooDeep
    | QueryRejected
    | ZeroPageSize
    | MissingMediumConfig(file: string)

  /** The storage collaborator: named tables of rows. */
  class Database {
    var tables: map<string, seq<Row>>

    constructor (tables: map<string, seq<Row>>)
      ensures this.tables == tables
    {
      this.tables := tables;
    }
  }

  /** The rows of a table; a table that does not exist reads as empty. */
  function TableRows(tables: map<string, seq<Row>>, name: string): seq<Row> {
    if name in tables then tables[name] else []
  }

  /** `SELECT * FROM t WHERE ID = id`, first row in storage order. */
  function FindById(rows: seq<Row>, id: nat): (r: Option<Row>)
    ensures r.Some? ==> r.value in rows && IdOf(r.value) == id
    ensures r.None? ==> forall i :: 0 <= i < |rows| ==> IdOf(rows[i]) != id
  {
    if rows == [] then None
    else if IdOf(rows[0]) == id then Some(rows[0])
    else FindById(rows[1..], id)
  }
}
