/**
 * Media: the helpers behind multi-select fields. A medium names the link
 * table that ties an owner element to the elements chosen for it, reads the
 * chosen elements back, and writes the SQL that replaces an owner's links.
 */
module Medium {
  import opened Wrappers
  import opened Strings
  import opened Rows
  import opened Registry
  import opened CoreModel

  // ---------------------------------------------------------------------------
  // The medium's identity

  /** What a medium's `config.php` holds: its params and the names of its `fields`, in order. */
  datatype MediumConfig = MediumConfig(params: Row, fields: seq<string>)

  /** The class name split on runs of `_` and `\`, as `preg_split('/[_\\\\]+/', ...)` does. */
  function ClassPieces(className: string): seq<string> {
    SplitRuns(className)
  }

  /** The link table: the prefix and the first three pieces of the class name, lower-cased. */
  function MediumTable(prefix: string, className: string): string {
    var parts := ClassPieces(className);
    ToLower(prefix + PartAt(parts, 0) + "_" + PartAt(parts, 1) + "_" + PartAt(parts, 2))
  }

  /** The configuration file of the medium: `Medium/<Name>/config.php`, under `<Module>/` outside the `Ideal` module. */
  function ConfigFile(className: string): string {
    var parts := ClassPieces(className);
    var moduleDir := if PartAt(parts, 0) == "Ideal" then "" else PartAt(parts, 0) + "/";
    moduleDir + "Medium/" + PartAt(parts, 2) + "/config.php"
  }

  /** A medium class `<Module>\Medium\<Name>\Model` with identifier pieces. */
  function MediumClass(moduleName: string, name: string): string {
    Join([moduleName, "Medium", name, "Model"], '\\')
  }

  /** The link table of `<Module>\Medium\<Name>\Model` is `<prefix><module>_medium_<name>` in lower case. */
  lemma MediumTableOfClass(prefix: string, moduleName: string, name: string)
    requires |moduleName| > 0 && NoClassSep(moduleName) && |name| > 0 && NoClassSep(name)
    ensures MediumTable(prefix, MediumClass(moduleName, name)) == ToLower(prefix + moduleName + "_Medium_" + name)
    ensures ConfigFile(MediumClass(moduleName, name)) ==
      (if moduleName == "Ideal" then "" else moduleName + "/") + "Medium/" + name + "/config.php"
  {
    var parts := [moduleName, "Medium", name, "Model"];
    assert NoClassSep("Medium") && NoClassSep("Model");
    SplitRunsJoin(parts);
    assert prefix + moduleName + "_" + "Medium" + "_" + name == prefix + moduleName + "_Medium_" + name;
  }

  /** The first field names the owner column of the link table, the second the element column. */
  function OwnerField(fields: seq<string>): string {
    PartAt(fields, 0)
  }

  function ElementField(fields: seq<string>): string {
    PartAt(fields, 1)
  }

  // ---------------------------------------------------------------------------
  // Reading the links

  /** `SELECT ... WHERE <owner field> = '<owner id>'`: the owner's link rows, in table order. */
  function Owned(rows: seq<Row>, ownerField: string, ownerId: string): seq<Row> {
    if rows == [] then []
    else
      var last := rows[|rows| - 1];
      Owned(rows[..|rows| - 1], ownerField, ownerId) + (if Field(last, ownerField) == ownerId then [last] else [])
  }

  /** One column of each row, in order. */
  function Column(rows: seq<Row>, field: string): seq<Value> {
    seq(|rows|, i requires 0 <= i < |rows| => Get(rows[i], field))
  }

  /** The elements chosen for the owner `ownerId`, as `getValues` reads them. */
  function ChosenValues(rows: seq<Row>, fields: seq<string>, ownerId: string): seq<Value> {
    Column(Owned(rows, OwnerField(fields), ownerId), ElementField(fields))
  }

  lemma {:induction false} OwnedAppend(s: seq<Row>, t: seq<Row>, ownerField: string, ownerId: string)
    ensures Owned(s + t, ownerField, ownerId) == Owned(s, ownerField, ownerId) + Owned(t, ownerField, ownerId)
    decreases |t|
  {
    if t == [] {
      assert s + t == s;
    } else {
      var u := t[..|t| - 1];
      assert (s + t)[..|s + t| - 1] == s + u;
      OwnedAppend(s, u, ownerField, ownerId);
    }
  }

  // ---------------------------------------------------------------------------
  // Writing the links

  /** The placeholder the caller replaces with the owner's ID. */
  const ObjectId := "{{ objectId }}"

  /** The statements `getSqlAdd` writes. */
  datatype Statement =
    | DeleteLinks(table: string, ownerField: string)
    | InsertLink(table: string, ownerField: string, elementField: string, value: string)

  /** The pieces one after another. */
  function Concat(pieces: seq<string>): string {
    if pieces == [] then "" else Concat(pieces[..|pieces| - 1]) + pieces[|pieces| - 1]
  }

  function Render(st: Statement): string {
    match st
    case DeleteLinks(t, o) => Concat(["DELETE FROM ", t, " WHERE ", o, "='", ObjectId, "';"])
    case InsertLink(t, o, e, v) => Concat(["INSERT INTO ", t, " SET ", o, "='", ObjectId, "', ", e, "='", v, "';"])
  }

  /** The statements one after another. */
  function RenderAll(sts: seq<Statement>): string {
    if sts == [] then "" else RenderAll(sts[..|sts| - 1]) + Render(sts[|sts| - 1])
  }

  /** One insert per value, in order. */
  function Inserts(table: string, fields: seq<string>, values: seq<string>): seq<Statement> {
    seq(|values|, i requires 0 <= i < |values| => InsertLink(table, OwnerField(fields), ElementField(fields), values[i]))
  }

  /** What `getSqlAdd` asks for: drop the owner's links, then link each chosen value. */
  function LinkStatements(table: string, fields: seq<string>, values: seq<string>): seq<Statement> {
    [DeleteLinks(table, OwnerField(fields))] + Inserts(table, fields, values)
  }

  /** The text of the DELETE and of the INSERTs for the first `n` values. */
  function TextUpTo(table: string, fields: seq<string>, values: seq<string>, n: nat): string
    requires n <= |values|
  {
    if n == 0 then Render(DeleteLinks(table, OwnerField(fields)))
    else TextUpTo(table, fields, values, n - 1) + Render(InsertLink(table, OwnerField(fields), ElementField(fields), values[n - 1]))
  }

  /** The text so far is the rendering of the statements for the first `n` values. */
  lemma {:induction false} TextUpToRenders(table: string, fields: seq<string>, values: seq<string>, n: nat)
    requires n <= |values|
    ensures TextUpTo(table, fields, values, n) == RenderAll(LinkStatements(table, fields, values[..n]))
  {
    if n == 0 {
      RenderNoLinks(table, fields);
      assert values[..0] == [];
    } else {
      TextUpToRenders(table, fields, values, n - 1);
      PrefixSnoc(values, n);
      RenderLinksSnoc(table, fields, values[..n - 1], values[n - 1]);
    }
  }

  /** A prefix one longer is the shorter prefix and the next value. */
  lemma PrefixSnoc(values: seq<string>, n: nat)
    requires 0 < n <= |values|
    ensures values[..n] == values[..n - 1] + [values[n - 1]]
  {
  }

  /** With no chosen values only the DELETE is written. */
  lemma RenderNoLinks(table: string, fields: seq<string>)
    ensures RenderAll(LinkStatements(table, fields, [])) == Render(DeleteLinks(table, OwnerField(fields)))
  {
    assert LinkStatements(table, fields, []) == [DeleteLinks(table, OwnerField(fields))];
  }

  /** One more chosen value adds one INSERT at the end of the text. */
  lemma RenderLinksSnoc(table: string, fields: seq<string>, values: seq<string>, v: string)
    ensures RenderAll(LinkStatements(table, fields, values + [v])) ==
      RenderAll(LinkStatements(table, fields, values)) + Render(InsertLink(table, OwnerField(fields), ElementField(fields), v))
  {
    var sts := LinkStatements(table, fields, values + [v]);
    assert sts[..|sts| - 1] == LinkStatements(table, fields, values);
  }

  /** All the chosen values written out are the text of `LinkStatements`. */
  lemma TextOfAllLinks(table: string, fields: seq<string>, values: seq<string>)
    ensures TextUpTo(table, fields, values, |values|) == RenderAll(LinkStatements(table, fields, values))
  {
    TextUpToRenders(table, fields, values, |values|);
    assert values[..|values|] == values;
  }

  /** A link row as an insert leaves it. */
  function LinkRow(ownerField: string, elementField: string, ownerId: string, value: string): Row {
    map[ownerField := Text(ownerId), elementField := Text(value)]
  }

  /** What a statement does to the tables once the placeholder reads `ownerId`. */
  function Execute(st: Statement, tables: map<string, seq<Row>>, ownerId: string): map<string, seq<Row>> {
    match st
    case DeleteLinks(t, o) =>
      tables[t := Without(TableRows(tables, t), o, ownerId)]
    case InsertLink(t, o, e, v) =>
      tables[t := TableRows(tables, t) + [LinkRow(o, e, ownerId, v)]]
  }

  /** `DELETE ... WHERE <owner field> = '<owner id>'`: the rows of other owners, in order. */
  function Without(rows: seq<Row>, ownerField: string, ownerId: string): seq<Row> {
    if rows == [] then []
    else
      var last := rows[|rows| - 1];
      Without(rows[..|rows| - 1], ownerField, ownerId) + (if Field(last, ownerField) != ownerId then [last] else [])
  }

  /** The statements in order. */
  function ExecuteAll(sts: seq<Statement>, tables: map<string, seq<Row>>, ownerId: string): map<string, seq<Row>>
    decreases |sts|
  {
    if sts == [] then tables else ExecuteAll(sts[1..], Execute(sts[0], tables, ownerId), ownerId)
  }

  lemma {:induction false} WithoutLeavesNone(rows: seq<Row>, ownerField: string, ownerId: string)
    ensures Owned(Without(rows, ownerField, ownerId), ownerField, ownerId) == []
  {
    if rows != [] {
      var front := rows[..|rows| - 1];
      var last := rows[|rows| - 1];
      WithoutLeavesNone(front, ownerField, ownerId);
      var tail := if Field(last, ownerField) != ownerId then [last] else [];
      OwnedAppend(Without(front, ownerField, ownerId), tail, ownerField, ownerId);
      assert tail != [] ==> tail[..0] == [];
    }
  }

  lemma {:induction false} WithoutKeepsOthers(rows: seq<Row>, ownerField: string, ownerId: string, other: string)
    requires other != ownerId
    ensures Owned(Without(rows, ownerField, ownerId), ownerField, other) == Owned(rows, ownerField, other)
  {
    if rows != [] {
      var front := rows[..|rows| - 1];
      var last := rows[|rows| - 1];
      WithoutKeepsOthers(front, ownerField, ownerId, other);
      var tail := if Field(last, ownerField) != ownerId then [last] else [];
      OwnedAppend(Without(front, ownerField, ownerId), tail, ownerField, other);
      assert tail != [] ==> tail[..0] == [];
    }
  }

  /** The inserts append one link row per value to the table, in order. */
  lemma {:induction false} InsertsAppend(table: string, fields: seq<string>, values: seq<string>,
                                         tables: map<string, seq<Row>>, ownerId: string)
    ensures var after := ExecuteAll(Inserts(table, fields, values), tables, ownerId);
      TableRows(after, table) == TableRows(tables, table) + LinksFor(OwnerField(fields), ElementField(fields), ownerId, values)
    ensures forall t :: t != table ==> TableRows(ExecuteAll(Inserts(table, fields, values), tables, ownerId), t) == TableRows(tables, t)
    decreases |values|
  {
    var o := OwnerField(fields);
    var e := ElementField(fields);
    var links := LinksFor(o, e, ownerId, values);
    if values != [] {
      var sts := Inserts(table, fields, values);
      assert sts[0] == InsertLink(table, o, e, values[0]);
      assert sts[1..] == Inserts(table, fields, values[1..]);
      var next := Execute(sts[0], tables, ownerId);
      InsertsAppend(table, fields, values[1..], next, ownerId);
      var rest := seq(|values| - 1, i requires 0 <= i < |values| - 1 => LinkRow(o, e, ownerId, values[1..][i]));
      assert links == [LinkRow(o, e, ownerId, values[0])] + rest;
    }
  }

  /** The rows inserted for `ownerId`, one per value. */
  function LinksFor(ownerField: string, elementField: string, ownerId: string, values: seq<string>): seq<Row> {
    seq(|values|, i requires 0 <= i < |values| => LinkRow(ownerField, elementField, ownerId, values[i]))
  }

  lemma LinksName(ownerField: string, elementField: string, ownerId: string, values: seq<string>)
    requires ownerField != elementField
    ensures var links := LinksFor(ownerField, elementField, ownerId, values);
      (forall i :: 0 <= i < |links| ==> Field(links[i], ownerField) == ownerId) &&
      Column(links, elementField) == seq(|values|, i requires 0 <= i < |values| => Text(values[i]))
  {
  }

  /** The owner's link rows among freshly inserted ones are all of them. */
  lemma {:induction false} OwnedLinks(links: seq<Row>, ownerField: string, ownerId: string)
    requires forall i :: 0 <= i < |links| ==> Field(links[i], ownerField) == ownerId
    ensures Owned(links, ownerField, ownerId) == links
  {
    if links != [] {
      OwnedLinks(links[..|links| - 1], ownerField, ownerId);
    }
  }

  /** Other owners have no link rows among those inserted for `ownerId`. */
  lemma {:induction false} OwnedLinksOther(links: seq<Row>, ownerField: string, ownerId: string, other: string)
    requires forall i :: 0 <= i < |links| ==> Field(links[i], ownerField) == ownerId
    requires other != ownerId
    ensures Owned(links, ownerField, other) == []
  {
    if links != [] {
      OwnedLinksOther(links[..|links| - 1], ownerField, ownerId, other);
    }
  }

  /**
   * Running the statements `getSqlAdd` writes for owner `ownerId` and reading the
   * owner's values back gives exactly the chosen values, in order.
   */
  lemma LinksRoundTrip(table: string, fields: seq<string>, values: seq<string>,
                       tables: map<string, seq<Row>>, ownerId: string)
    requires OwnerField(fields) != ElementField(fields)
    ensures var after := ExecuteAll(LinkStatements(table, fields, values), tables, ownerId);
      ChosenValues(TableRows(after, table), fields, ownerId) ==
        seq(|values|, i requires 0 <= i < |values| => Text(values[i]))
  {
    var o := OwnerField(fields);
    var e := ElementField(fields);
    var sts := LinkStatements(table, fields, values);
    var cleared := Execute(sts[0], tables, ownerId);
    assert sts[1..] == Inserts(table, fields, values);
    InsertsAppend(table, fields, values, cleared, ownerId);
    var links := LinksFor(o, e, ownerId, values);
    var kept := Without(TableRows(tables, table), o, ownerId);
    assert TableRows(cleared, table) == kept;
    LinksName(o, e, ownerId, values);
    OwnedAppend(kept, links, o, ownerId);
    WithoutLeavesNone(TableRows(tables, table), o, ownerId);
    OwnedLinks(links, o, ownerId);
    assert kept + links == TableRows(ExecuteAll(sts, tables, ownerId), table);
  }

  /** The statements for one owner leave every other owner's values as they were. */
  lemma LinksKeepOtherOwners(table: string, fields: seq<string>, values: seq<string>,
                             tables: map<string, seq<Row>>, ownerId: string, other: string)
    requires OwnerField(fields) != ElementField(fields) && other != ownerId
    ensures var after := ExecuteAll(LinkStatements(table, fields, values), tables, ownerId);
      ChosenValues(TableRows(after, table), fields, other) == ChosenValues(TableRows(tables, table), fields, other)
  {
    var o := OwnerField(fields);
    var e := ElementField(fields);
    var sts := LinkStatements(table, fields, values);
    var cleared := Execute(sts[0], tables, ownerId);
    assert sts[1..] == Inserts(table, fields, values);
    InsertsAppend(table, fields, values, cleared, ownerId);
    var links := LinksFor(o, e, ownerId, values);
    var kept := Without(TableRows(tables, table), o, ownerId);
    assert TableRows(cleared, table) == kept;
    LinksName(o, e, ownerId, values);
    OwnedAppend(kept, links, o, other);
    WithoutKeepsOthers(TableRows(tables, table), o, ownerId, other);
    OwnedLinksOther(links, o, ownerId, other);
    assert kept + links == TableRows(ExecuteAll(sts, tables, ownerId), table);
  }

  // ---------------------------------------------------------------------------
  // The medium object

  class MediumModel {
    /** The model of the element being edited, whose field this medium serves. */
    const owner: ContentModel
    const fieldName: string
    const className: string
    const table: string
    const params: Row
    const fields: seq<string>

    constructor (owner: ContentModel, fieldName: string, className: string, table: string, config: MediumConfig)
      ensures this.owner == owner && this.fieldName == fieldName && this.className == className && this.table == table
      ensures params == config.params && fields == config.fields
    {
      this.owner := owner;
      this.fieldName := fieldName;
      this.className := className;
      this.table := table;
      params := config.params;
      fields := config.fields;
    }

    /** `getList()` is for the concrete media to provide: here it always throws. */
    function GetList(): (r: Result<seq<Row>, Error>)
      ensures r.Failure? && r.error == NotOverridden("getList")
    {
      Failure(NotOverridden("getList"))
    }

    /**
     * `getValues()`: the element column of the owner's link rows, one entry per
     * row in table order; the owner's page data is initialised first when needed.
     */
    method GetValues(cfg: Config, tpl: TemplateData, db: Database) returns (r: Result<seq<Value>, Error>)
      modifies owner
      ensures !old(owner.pageData).Unset? ==> owner.pageData == old(owner.pageData) && r.Success?
      ensures old(owner.pageData).Unset? ==>
        match ExpandFields(cfg, owner.cls, old(owner.path), owner.fields, LastOf(old(owner.path)), tpl)
        case Success(pd) => owner.pageData == pd && r.Success?
        case Failure(e) => owner.pageData == LastOf(old(owner.path)) && r == Failure(e)
      ensures owner.prevStructure == old(owner.prevStructure) && owner.path == old(owner.path) &&
        owner.parentUrl == old(owner.parentUrl) && owner.is404 == old(owner.is404)
      ensures r.Success? ==>
        r.value == ChosenValues(TableRows(db.tables, table), fields, AsString(PageField(owner.pageData, "ID")))
    {
      var ownerField := OwnerField(fields);
      var elementField := ElementField(fields);
      var pd :- owner.GetPageData(cfg, tpl);
      var arr := Owned(TableRows(db.tables, table), ownerField, AsString(PageField(pd, "ID")));
      var list: seq<Value> := [];
      var i := 0;
      while i < |arr|
        invariant 0 <= i <= |arr|
        invariant list == Column(arr[..i], elementField)
      {
        list := list + [Get(arr[i], elementField)];
        i := i + 1;
      }
      assert arr[..|arr|] == arr;
      return Success(list);
    }

    /**
     * `getSqlAdd($newValue)`: one DELETE of the owner's links, then one INSERT
     * per chosen value, in order.
     */
    method GetSqlAdd(newValue: seq<string>) returns (sql: string)
      ensures sql == RenderAll(LinkStatements(table, fields, newValue))
      ensures newValue == [] ==> sql == Render(DeleteLinks(table, OwnerField(fields)))
    {
      sql := LinkText(table, fields, newValue);
      if newValue == [] {
        RenderNoLinks(table, fields);
      }
    }
  }

  /** The text of `getSqlAdd`: the DELETE, then each INSERT appended in turn. */
  method LinkText(table: string, fields: seq<string>, newValue: seq<string>) returns (sql: string)
    ensures sql == RenderAll(LinkStatements(table, fields, newValue))
  {
    var ownerField := OwnerField(fields);
    var elementField := ElementField(fields);
    sql := Render(DeleteLinks(table, ownerField));
    var i := 0;
    while i < |newValue|
      invariant 0 <= i <= |newValue|
      invariant sql == TextUpTo(table, fields, newValue, i)
    {
      sql := sql + Render(InsertLink(table, ownerField, elementField, newValue[i]));
      i := i + 1;
    }
    TextOfAllLinks(table, fields, newValue);
  }

  /**
   * `new <medium>($obj, $fieldName)`: the link table comes from the class name;
   * a configuration file that does not load is an error naming the file.
   */
  method NewMedium(cfg: Config, className: string, owner: ContentModel, fieldName: string, config: Option<MediumConfig>)
      returns (r: Result<MediumModel, Error>)
    ensures config.None? ==> r == Failure(MissingMediumConfig(ConfigFile(className)))
    ensures config.Some? ==>
      r.Success? && fresh(r.value) && r.value.owner == owner && r.value.fieldName == fieldName &&
      r.value.table == MediumTable(cfg.dbPrefix, className) &&
      r.value.params == config.value.params && r.value.fields == config.value.fields
  {
    var table := MediumTable(cfg.dbPrefix, className);
    if config.None? {
      return Failure(MissingMediumConfig(ConfigFile(className)));
    }
    var m := new MediumModel(owner, fieldName, className, table, config.value);
    return Success(m);
  }
}
