/**
 * The admin model of list ("roster") structures: the walk from the numeric
 * ids of an admin URL to the element they name, deleting an element with the
 * renumbering of its siblings' `pos`, and the position a new element gets.
 * A roster admin model is a `ContentModel` of an `Admin` class; its methods
 * take the model they run on as `m`.
 */
module RosterAdmin {
  import opened Wrappers
  import opened Strings
  import opened Rows
  import opened Registry
  import opened CoreModel

  // ---------------------------------------------------------------------------
  // detectPageByIds

  /** `SELECT * FROM t WHERE ID = id`, kept only when its first row has an `ID`. */
  function LookupId(rows: seq<Row>, id: nat): (r: Option<Row>)
    ensures r.Some? ==> r.value in rows && IdOf(r.value) == id && IsSet(r.value, "ID")
  {
    match FindById(rows, id)
    case Some(row) => if IsSet(row, "ID") then Some(row) else None
    case None => None
  }

  /** The element before the last one of `p`, or null (an empty row) when there is none. */
  function Before(p: seq<Row>): Row {
    if |p| >= 2 then p[|p| - 2] else map[]
  }

  /** The class and parent key of a model the walk opened. */
  datatype Scope = Scope(cls: ModelClass, key: string)

  /**
   * Where the walk ends: the path it built, whether it stopped on an id with no
   * row, and the scope of the last nested model it opened (none when the walk
   * never left the model it started in).
   */
  datatype IdWalk = IdWalk(path: seq<Row>, missed: bool, scope: Option<Scope>)

  /** An id list is over at its end and at an empty id (which PHP compares equal to null). */
  predicate IdsDone(ids: seq<string>) {
    ids == [] || ids[0] == ""
  }

  /**
   * The step down from `row`, found at the end of `p`: the class of the row's
   * structure, the key "<id of the previous element's structure>-<row ID>", and
   * the table the new model reads.
   */
  function Descent(cfg: Config, p: seq<Row>, row: Row): Result<(Scope, string), Error> {
    var c := ClassFor(Field(row, "structure"), "Structure", "Admin");
    var key :- ParentKey(cfg, Before(p), row);
    var s :- ResolveSetup(cfg, c);
    Success((Scope(c, key), s.table))
  }

  /**
   * The walk over any lookup `find` (a table and an id to the row found) and any
   * step down `descend` (the scope and table of the model that goes on from a
   * row): look the first id up, stop on a miss, append the row on a hit and,
   * when ids remain, go on from the row.
   */
  function Chase(find: (string, nat) -> Option<Row>, descend: (seq<Row>, Row) -> Result<(Scope, string), Error>,
                 table: string, path: seq<Row>, ids: seq<string>): Result<IdWalk, Error>
    decreases |ids|
  {
    if IdsDone(ids) then Success(IdWalk(path, false, None))
    else match find(table, NumVal(ids[0]))
      case None => Success(IdWalk(path, true, None))
      case Some(row) =>
        var p := path + [row];
        if |ids| == 1 then Success(IdWalk(p, false, None))
        else
          var next :- descend(p, row);
          var w :- Chase(find, descend, next.1, p, ids[1..]);
          Success(if w.scope.Some? then w else IdWalk(w.path, w.missed, Some(next.0)))
  }

  function Finder(tables: map<string, seq<Row>>): (string, nat) -> Option<Row> {
    (t: string, id: nat) => LookupId(TableRows(tables, t), id)
  }

  function Descender(cfg: Config): (seq<Row>, Row) -> Result<(Scope, string), Error> {
    (p: seq<Row>, row: Row) => Descent(cfg, p, row)
  }

  /** `detectPageByIds($path, $ids)` on a model reading `table`. */
  function WalkIds(cfg: Config, tables: map<string, seq<Row>>, table: string, path: seq<Row>, ids: seq<string>)
    : Result<IdWalk, Error>
  {
    Chase(Finder(tables), Descender(cfg), table, path, ids)
  }

  /**
   * What the first call leaves on the model it runs on: the given path with the
   * row of the first id when there is one, and whether that id missed.
   */
  function FirstHop(tables: map<string, seq<Row>>, table: string, path: seq<Row>, ids: seq<string>): (seq<Row>, bool) {
    if IdsDone(ids) then (path, false)
    else match LookupId(TableRows(tables, table), NumVal(ids[0]))
      case None => (path, true)
      case Some(row) => (path + [row], false)
  }

  /** Rows the lookup finds carry the id they were looked up by. */
  ghost predicate FindsById(find: (string, nat) -> Option<Row>) {
    forall t, id :: find(t, id).Some? ==> IdOf(find(t, id).value) == id
  }

  /**
   * Each consumed id adds exactly one element, the row with that id, after the
   * given path; a walk that missed stopped before its last id, and one that did
   * not miss used up the ids or stopped at an empty one.
   */
  predicate ConsumesIds(path: seq<Row>, ids: seq<string>, w: IdWalk) {
    var k := |w.path| - |path|;
    |path| <= |w.path| <= |path| + |ids| && w.path[..|path|] == path &&
    (forall i :: 0 <= i < k ==> ids[i] != "" && IdOf(w.path[|path| + i]) == NumVal(ids[i])) &&
    (w.missed ==> k < |ids| && ids[k] != "") &&
    (!w.missed ==> k == |ids| || ids[k] == "")
  }

  lemma {:induction false} ChaseShape(find: (string, nat) -> Option<Row>, descend: (seq<Row>, Row) -> Result<(Scope, string), Error>,
                                      table: string, path: seq<Row>, ids: seq<string>)
    requires FindsById(find) && Chase(find, descend, table, path, ids).Success?
    ensures ConsumesIds(path, ids, Chase(find, descend, table, path, ids).value)
    decreases |ids|
  {
    if !IdsDone(ids) && find(table, NumVal(ids[0])).Some? && |ids| > 1 {
      var row := find(table, NumVal(ids[0])).value;
      var p := path + [row];
      var next := descend(p, row).value;
      ChaseShape(find, descend, next.1, p, ids[1..]);
      var w := Chase(find, descend, next.1, p, ids[1..]).value;
      var r := Chase(find, descend, table, path, ids).value;
      assert r.path == w.path && r.missed == w.missed;
      ConsumesOneMore(path, row, ids, w, r);
    }
  }

  /** A walk that consumed the rest of the ids after `row` consumed all of them from `path`. */
  lemma ConsumesOneMore(path: seq<Row>, row: Row, ids: seq<string>, w: IdWalk, r: IdWalk)
    requires |ids| > 1 && ids[0] != "" && IdOf(row) == NumVal(ids[0])
    requires ConsumesIds(path + [row], ids[1..], w)
    requires r.path == w.path && r.missed == w.missed
    ensures ConsumesIds(path, ids, r)
  {
    var p := path + [row];
    assert w.path[..|path|] == w.path[..|p|][..|path|];
    forall i | 0 < i < |w.path| - |path|
      ensures ids[i] != "" && IdOf(w.path[|path| + i]) == NumVal(ids[i])
    {
      assert ids[1..][i - 1] == ids[i];
      assert w.path[|p| + (i - 1)] == w.path[|path| + i];
    }
    assert w.path[|path|] == w.path[..|p|][|path|] == row;
  }

  /** `detectPageByIds` consumes its ids one row each, as `ConsumesIds` says. */
  lemma WalkIdsShape(cfg: Config, tables: map<string, seq<Row>>, table: string, path: seq<Row>, ids: seq<string>)
    requires WalkIds(cfg, tables, table, path, ids).Success?
    ensures ConsumesIds(path, ids, WalkIds(cfg, tables, table, path, ids).value)
  {
    assert FindsById(Finder(tables));
    ChaseShape(Finder(tables), Descender(cfg), table, path, ids);
  }

  lemma {:induction false} ChaseStopsAtMiss(find: (string, nat) -> Option<Row>, descend: (seq<Row>, Row) -> Result<(Scope, string), Error>,
                                            table: string, path: seq<Row>, ids: seq<string>, more: seq<string>)
    requires Chase(find, descend, table, path, ids).Success? && Chase(find, descend, table, path, ids).value.missed
    ensures Chase(find, descend, table, path, ids + more) == Chase(find, descend, table, path, ids)
    decreases |ids|
  {
    assert (ids + more)[0] == ids[0];
    var found := find(table, NumVal(ids[0]));
    if found.Some? {
      var row := found.value;
      var next := descend(path + [row], row).value;
      ChaseStopsAtMiss(find, descend, next.1, path + [row], ids[1..], more);
      assert (ids + more)[1..] == ids[1..] + more;
    }
  }

  /** The walk stops on the first miss: the ids after it are never looked up. */
  lemma WalkIdsStopsAtMiss(cfg: Config, tables: map<string, seq<Row>>, table: string, path: seq<Row>,
                           ids: seq<string>, more: seq<string>)
    requires WalkIds(cfg, tables, table, path, ids).Success? && WalkIds(cfg, tables, table, path, ids).value.missed
    ensures WalkIds(cfg, tables, table, path, ids + more) == WalkIds(cfg, tables, table, path, ids)
  {
    ChaseStopsAtMiss(Finder(tables), Descender(cfg), table, path, ids, more);
  }

  /**
   * `detectPageByIds`: the model's path becomes `path`; on an empty id list it is
   * the answer. A missing row sets its 404 flag and ends the walk; a found row is
   * appended, and with ids left the walk goes on in a new model of that row's
   * structure, whose answer is returned.
   */
  method DetectPageByIds(cfg: Config, db: Database, m: ContentModel, path: seq<Row>, ids: seq<string>)
      returns (r: Result<ContentModel, Error>)
    modifies m
    decreases |ids|
    ensures var hop := FirstHop(db.tables, m.table, path, ids);
      m.path == hop.0 && m.is404 == (old(m.is404) || hop.1) &&
      m.prevStructure == old(m.prevStructure) && m.parentUrl == old(m.parentUrl) && m.pageData == old(m.pageData)
    ensures match WalkIds(cfg, db.tables, m.table, path, ids)
      case Failure(e) => r == Failure(e)
      case Success(w) =>
        r.Success? && r.value.path == w.path &&
        (w.scope.None? ==> r.value == m && r.value.is404 == (old(m.is404) || w.missed)) &&
        (w.scope.Some? ==> fresh(r.value) && r.value.cls == w.scope.value.cls &&
                           r.value.prevStructure == w.scope.value.key && r.value.is404 == w.missed)
  {
    m.path := path;
    if IdsDone(ids) {
      return Success(m);
    }
    var found := LookupId(TableRows(db.tables, m.table), NumVal(ids[0]));
    if found.None? {
      m.is404 := true;
      return Success(m);
    }
    var row := found.value;
    m.path := m.path + [row];
    if |ids| == 1 {
      return Success(m);
    }
    var p := m.path;
    var c := ClassFor(Field(row, "structure"), "Structure", "Admin");
    var key :- ParentKey(cfg, Before(p), row);
    var next :- NewModel(cfg, c, key);
    assert Descender(cfg)(p, row) == Success((Scope(c, key), next.table));
    r := DetectPageByIds(cfg, db, next, p, ids[1..]);
  }

  // ---------------------------------------------------------------------------
  // delete

  /** A row's `pos`, read as a number. */
  function PosOf(r: Row): nat {
    NumVal(Field(r, "pos"))
  }

  /** The ID of the element a model's page data holds. */
  function PageId(pd: PageData): nat {
    NumVal(AsString(PageField(pd, "ID")))
  }

  /** `DELETE FROM t WHERE ID = id`: the rows with another ID, in order. */
  function WithoutId(rows: seq<Row>, id: nat): seq<Row> {
    if rows == [] then []
    else WithoutId(rows[..|rows| - 1], id) + (if IdOf(rows[|rows| - 1]) != id then [rows[|rows| - 1]] else [])
  }

  /** `pos = pos - 1` for a row under `key` whose `pos` is above `p`; any other row as it was. */
  function Lowered(r: Row, key: string, p: nat): Row {
    if Field(r, "prev_structure") == key && PosOf(r) > p then r["pos" := Text(NatToString(PosOf(r) - 1))] else r
  }

  /** The `UPDATE` of `delete` over a whole table. */
  function LowerAll(rows: seq<Row>, key: string, p: nat): (t: seq<Row>)
    ensures |t| == |rows|
  {
    seq(|rows|, i requires 0 <= i < |rows| => Lowered(rows[i], key, p))
  }

  /**
   * The table after `delete` on a model keyed `key` holding `pd`: the element's
   * row gone and, when the element has a `pos`, its later siblings moved up one.
   */
  function AfterDelete(rows: seq<Row>, key: string, pd: PageData): seq<Row> {
    var kept := WithoutId(rows, PageId(pd));
    if PageField(pd, "pos") != Null then LowerAll(kept, key, NumVal(AsString(PageField(pd, "pos")))) else kept
  }

  /** Moving up changes `pos` alone, by exactly one; any other row stays as it was. */
  lemma LoweredRow(r: Row, key: string, p: nat)
    ensures Field(r, "prev_structure") == key && PosOf(r) > p ==>
      PosOf(Lowered(r, key, p)) == PosOf(r) - 1 &&
      forall k :: k != "pos" ==> Get(Lowered(r, key, p), k) == Get(r, k)
    ensures !(Field(r, "prev_structure") == key && PosOf(r) > p) ==> Lowered(r, key, p) == r
    ensures Field(Lowered(r, key, p), "prev_structure") == Field(r, "prev_structure")
    ensures IdOf(Lowered(r, key, p)) == IdOf(r)
  {
    if Field(r, "prev_structure") == key && PosOf(r) > p {
      NumValOfNatToString(PosOf(r) - 1);
    }
  }

  /** `$db->delete($table, $id)`: the table loses its rows with that ID. */
  method DeleteRow(db: Database, table: string, id: nat)
    requires table in db.tables
    modifies db
    ensures db.tables == old(db.tables)[table := WithoutId(old(db.tables)[table], id)]
  {
    var rows := db.tables[table];
    var kept: seq<Row> := [];
    var i := 0;
    while i < |rows|
      invariant 0 <= i <= |rows|
      invariant kept == WithoutId(rows[..i], id)
    {
      assert rows[..i + 1][..i] == rows[..i];
      if IdOf(rows[i]) != id {
        kept := kept + [rows[i]];
      }
      i := i + 1;
    }
    assert rows[..|rows|] == rows;
    db.tables := db.tables[table := kept];
  }

  /** `UPDATE t SET pos = pos - 1 WHERE prev_structure = key AND pos > p`. */
  method LowerSiblings(db: Database, table: string, key: string, p: nat)
    requires table in db.tables
    modifies db
    ensures db.tables == old(db.tables)[table := LowerAll(old(db.tables)[table], key, p)]
  {
    var rows := db.tables[table];
    ghost var before := rows;
    var j := 0;
    while j < |rows|
      invariant 0 <= j <= |rows| == |before|
      invariant forall k :: 0 <= k < j ==> rows[k] == Lowered(before[k], key, p)
      invariant forall k :: j <= k < |rows| ==> rows[k] == before[k]
    {
      rows := rows[j := Lowered(rows[j], key, p)];
      j := j + 1;
    }
    assert rows == LowerAll(before, key, p);
    db.tables := db.tables[table := rows];
  }

  /**
   * `delete()`: removes the row of the page data's ID, then moves the later
   * siblings under the model's key up one when the page data has a `pos`;
   * always answers 1. A table the database does not have stays missing.
   */
  method Delete(db: Database, m: ContentModel) returns (n: int)
    modifies db
    ensures n == 1
    ensures m.table !in old(db.tables) ==> db.tables == old(db.tables)
    ensures m.table in old(db.tables) ==>
      db.tables == old(db.tables)[m.table := AfterDelete(old(db.tables)[m.table], m.prevStructure, m.pageData)]
  {
    if m.table !in db.tables {
      return 1;
    }
    DeleteRow(db, m.table, PageId(m.pageData));
    if PageField(m.pageData, "pos") != Null {
      LowerSiblings(db, m.table, m.prevStructure, NumVal(AsString(PageField(m.pageData, "pos"))));
    }
    return 1;
  }

  lemma {:induction false} WithoutIdDrops(rows: seq<Row>, id: nat)
    ensures forall i :: 0 <= i < |WithoutId(rows, id)| ==> IdOf(WithoutId(rows, id)[i]) != id
  {
    if rows != [] {
      WithoutIdDrops(rows[..|rows| - 1], id);
    }
  }

  /** The deleted element's ID is gone from the table. */
  lemma DeleteRemovesElement(rows: seq<Row>, key: string, pd: PageData)
    ensures forall i :: 0 <= i < |AfterDelete(rows, key, pd)| ==> IdOf(AfterDelete(rows, key, pd)[i]) != PageId(pd)
  {
    var kept := WithoutId(rows, PageId(pd));
    WithoutIdDrops(rows, PageId(pd));
    forall i | 0 <= i < |AfterDelete(rows, key, pd)|
      ensures IdOf(AfterDelete(rows, key, pd)[i]) != PageId(pd)
    {
      LoweredRow(kept[i], key, NumVal(AsString(PageField(pd, "pos"))));
    }
  }

  // ---------------------------------------------------------------------------
  // Sibling positions

  /** The `pos` values of the rows under `key`, in table order. */
  function SiblingPositions(rows: seq<Row>, key: string): seq<nat> {
    if rows == [] then []
    else
      var last := rows[|rows| - 1];
      SiblingPositions(rows[..|rows| - 1], key) + (if Field(last, "prev_structure") == key then [PosOf(last)] else [])
  }

  /** How often `v` occurs in `s`. */
  function Count(s: seq<nat>, v: nat): nat {
    if s == [] then 0 else Count(s[..|s| - 1], v) + (if s[|s| - 1] == v then 1 else 0)
  }

  /** `s` holds the positions 1..n, each once, and nothing else. */
  ghost predicate Contiguous(s: seq<nat>, n: nat) {
    forall v: nat :: Count(s, v) == if 1 <= v <= n then 1 else 0
  }

  /** Each position moved up one when it is above `p`. */
  function Lower(v: nat, p: nat): nat {
    if v > p then v - 1 else v
  }

  function LowerPositions(s: seq<nat>, p: nat): (t: seq<nat>)
    ensures |t| == |s|
  {
    if s == [] then [] else LowerPositions(s[..|s| - 1], p) + [Lower(s[|s| - 1], p)]
  }

  lemma {:induction false} WithoutIdAppend(s: seq<Row>, t: seq<Row>, id: nat)
    ensures WithoutId(s + t, id) == WithoutId(s, id) + WithoutId(t, id)
    decreases |t|
  {
    if t == [] {
      assert s + t == s;
    } else {
      var u := t[..|t| - 1];
      assert (s + t)[..|s + t| - 1] == s + u;
      WithoutIdAppend(s, u, id);
    }
  }

  lemma {:induction false} WithoutIdNone(rows: seq<Row>, id: nat)
    requires forall i :: 0 <= i < |rows| ==> IdOf(rows[i]) != id
    ensures WithoutId(rows, id) == rows
  {
    if rows != [] {
      WithoutIdNone(rows[..|rows| - 1], id);
    }
  }

  lemma {:induction false} SiblingPositionsAppend(s: seq<Row>, t: seq<Row>, key: string)
    ensures SiblingPositions(s + t, key) == SiblingPositions(s, key) + SiblingPositions(t, key)
    decreases |t|
  {
    if t == [] {
      assert s + t == s;
    } else {
      var u := t[..|t| - 1];
      assert (s + t)[..|s + t| - 1] == s + u;
      SiblingPositionsAppend(s, u, key);
    }
  }

  /** The positions after the update are the positions before it, each moved up when above `p`. */
  lemma {:induction false} SiblingPositionsLowered(rows: seq<Row>, key: string, p: nat)
    ensures SiblingPositions(LowerAll(rows, key, p), key) == LowerPositions(SiblingPositions(rows, key), p)
  {
    if rows != [] {
      var front := rows[..|rows| - 1];
      var last := rows[|rows| - 1];
      SiblingPositionsLowered(front, key, p);
      assert LowerAll(rows, key, p)[..|rows| - 1] == LowerAll(front, key, p);
      LoweredRow(last, key, p);
      var tail: seq<nat> := if Field(last, "prev_structure") == key then [PosOf(last)] else [];
      LowerPositionsAppend(SiblingPositions(front, key), tail, p);
    }
  }

  lemma {:induction false} LowerPositionsAppend(s: seq<nat>, t: seq<nat>, p: nat)
    ensures LowerPositions(s + t, p) == LowerPositions(s, p) + LowerPositions(t, p)
    decreases |t|
  {
    if t == [] {
      assert s + t == s;
    } else {
      var u := t[..|t| - 1];
      assert (s + t)[..|s + t| - 1] == s + u;
      LowerPositionsAppend(s, u, p);
    }
  }

  lemma {:induction false} CountAppend(s: seq<nat>, t: seq<nat>, v: nat)
    ensures Count(s + t, v) == Count(s, v) + Count(t, v)
    decreases |t|
  {
    if t == [] {
      assert s + t == s;
    } else {
      var u := t[..|t| - 1];
      assert (s + t)[..|s + t| - 1] == s + u;
      CountAppend(s, u, v);
    }
  }

  /** How often `v` occurs once positions above `p` have moved up one. */
  lemma {:induction false} LowerPositionsCount(s: seq<nat>, p: nat, v: nat)
    ensures Count(LowerPositions(s, p), v) ==
      if v < p then Count(s, v) else if v == p then Count(s, p) + Count(s, p + 1) else Count(s, v + 1)
  {
    if s != [] {
      LowerPositionsCount(s[..|s| - 1], p, v);
    }
  }

  /** Taking position `p` out of 1..n and moving the ones above it up leaves 1..n-1. */
  lemma ClosingTheGap(s: seq<nat>, t: seq<nat>, p: nat, n: nat)
    requires Contiguous(s + [p] + t, n)
    ensures n > 0 && Contiguous(LowerPositions(s + t, p), n - 1)
  {
    forall v: nat
      ensures Count(s + [p] + t, v) == Count(s + t, v) + (if v == p then 1 else 0)
    {
      CountAppend(s + [p], t, v);
      CountAppend(s, [p], v);
      CountAppend(s, t, v);
      assert [p][..0] == [];
    }
    assert Count(s + [p] + t, p) == 1;
    forall v: nat
      ensures Count(LowerPositions(s + t, p), v) == if 1 <= v <= n - 1 then 1 else 0
    {
      LowerPositionsCount(s + t, p, v);
      assert Count(s + [p] + t, v) == if 1 <= v <= n then 1 else 0;
      assert Count(s + [p] + t, v + 1) == if 1 <= v + 1 <= n then 1 else 0;
    }
  }

  /** Deleting by a unique ID removes that one row. */
  lemma WithoutUniqueId(a: seq<Row>, x: Row, b: seq<Row>)
    requires forall i :: 0 <= i < |a| ==> IdOf(a[i]) != IdOf(x)
    requires forall i :: 0 <= i < |b| ==> IdOf(b[i]) != IdOf(x)
    ensures WithoutId(a + [x] + b, IdOf(x)) == a + b
  {
    var id := IdOf(x);
    WithoutIdNone(a, id);
    WithoutIdNone(b, id);
    assert WithoutId([x], id) == [] by {
      assert [x][..0] == [];
    }
    WithoutIdAppend(a, [x], id);
    assert WithoutId(a + [x], id) == a;
    WithoutIdAppend(a + [x], b, id);
  }

  lemma SiblingPositionsAround(a: seq<Row>, x: Row, b: seq<Row>, key: string)
    requires Field(x, "prev_structure") == key
    ensures SiblingPositions(a + [x] + b, key) == SiblingPositions(a, key) + [PosOf(x)] + SiblingPositions(b, key)
  {
    SiblingPositionsAppend(a + [x], b, key);
    SiblingPositionsAppend(a, [x], key);
    assert SiblingPositions([x], key) == [PosOf(x)] by {
      assert [x][..0] == [];
    }
  }

  /**
   * Deleting an element whose siblings (itself included) are at positions 1..n
   * leaves them at positions 1..n-1, when its ID is the only row with that ID.
   */
  lemma DeleteKeepsPositionsContiguous(a: seq<Row>, x: Row, b: seq<Row>, key: string, n: nat)
    requires Field(x, "prev_structure") == key && IsSet(x, "pos")
    requires forall i :: 0 <= i < |a| ==> IdOf(a[i]) != IdOf(x)
    requires forall i :: 0 <= i < |b| ==> IdOf(b[i]) != IdOf(x)
    requires Contiguous(SiblingPositions(a + [x] + b, key), n)
    ensures n > 0 && Contiguous(SiblingPositions(AfterDelete(a + [x] + b, key, Loaded(x)), key), n - 1)
  {
    var p := PosOf(x);
    assert PageId(Loaded(x)) == IdOf(x);
    WithoutUniqueId(a, x, b);
    assert AfterDelete(a + [x] + b, key, Loaded(x)) == LowerAll(a + b, key, p);
    SiblingPositionsLowered(a + b, key, p);
    SiblingPositionsAppend(a, b, key);
    SiblingPositionsAround(a, x, b, key);
    ClosingTheGap(SiblingPositions(a, key), SiblingPositions(b, key), p, n);
  }

  // ---------------------------------------------------------------------------
  // getNewPos

  /**
   * `getNewPos()`: one more than the highest `pos` among the rows under `key`,
   * or 1 when there are none.
   */
  function NewPos(rows: seq<Row>, key: string): (r: nat)
    ensures r >= 1
    ensures forall i :: 0 <= i < |rows| && Field(rows[i], "prev_structure") == key ==> PosOf(rows[i]) < r
    ensures r == 1 || exists i :: 0 <= i < |rows| && Field(rows[i], "prev_structure") == key && PosOf(rows[i]) == r - 1
  {
    if rows == [] then 1
    else
      var rest := NewPos(rows[1..], key);
      if Field(rows[0], "prev_structure") == key && PosOf(rows[0]) + 1 > rest then PosOf(rows[0]) + 1
      else
        assert forall i :: 1 <= i < |rows| ==> rows[i] == rows[1..][i - 1];
        rest
  }

  /** A sibling's position is among the sibling positions. */
  lemma {:induction false} SiblingPositionsHas(rows: seq<Row>, key: string, i: nat)
    requires i < |rows| && Field(rows[i], "prev_structure") == key
    ensures Count(SiblingPositions(rows, key), PosOf(rows[i])) > 0
  {
    var front := rows[..|rows| - 1];
    var last := rows[|rows| - 1];
    var tail: seq<nat> := if Field(last, "prev_structure") == key then [PosOf(last)] else [];
    CountAppend(SiblingPositions(front, key), tail, PosOf(rows[i]));
    if i < |rows| - 1 {
      assert front[i] == rows[i];
      SiblingPositionsHas(front, key, i);
    } else {
      assert tail[..0] == [];
    }
  }

  /** Every sibling position belongs to a sibling. */
  lemma {:induction false} SiblingPositionsFrom(rows: seq<Row>, key: string, v: nat)
    requires Count(SiblingPositions(rows, key), v) > 0
    ensures exists i :: 0 <= i < |rows| && Field(rows[i], "prev_structure") == key && PosOf(rows[i]) == v
  {
    var front := rows[..|rows| - 1];
    var last := rows[|rows| - 1];
    var tail: seq<nat> := if Field(last, "prev_structure") == key then [PosOf(last)] else [];
    CountAppend(SiblingPositions(front, key), tail, v);
    if !(Field(last, "prev_structure") == key && PosOf(last) == v) {
      assert tail != [] ==> tail[..0] == [];
      SiblingPositionsFrom(front, key, v);
      var i :| 0 <= i < |front| && Field(front[i], "prev_structure") == key && PosOf(front[i]) == v;
      assert rows[i] == front[i];
    }
  }

  lemma NewPosAtMost(rows: seq<Row>, key: string, n: nat)
    requires Contiguous(SiblingPositions(rows, key), n)
    ensures NewPos(rows, key) <= n + 1
  {
    var r := NewPos(rows, key);
    if r != 1 {
      var i :| 0 <= i < |rows| && Field(rows[i], "prev_structure") == key && PosOf(rows[i]) == r - 1;
      SiblingPositionsHas(rows, key, i);
      assert Count(SiblingPositions(rows, key), r - 1) > 0;
    }
  }

  lemma NewPosAbove(rows: seq<Row>, key: string, n: nat)
    requires Contiguous(SiblingPositions(rows, key), n)
    ensures NewPos(rows, key) > n
  {
    if n > 0 {
      assert Count(SiblingPositions(rows, key), n) == 1;
      SiblingPositionsFrom(rows, key, n);
    }
  }

  /** Under siblings at positions 1..n, a new element goes to position n+1. */
  lemma NewPosAfterContiguous(rows: seq<Row>, key: string, n: nat)
    requires Contiguous(SiblingPositions(rows, key), n)
    ensures NewPos(rows, key) == n + 1
  {
    NewPosAtMost(rows, key, n);
    NewPosAbove(rows, key, n);
  }
}
