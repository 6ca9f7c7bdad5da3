/**
 * Sibling listing and paging as `Model::getList`, `getListCount`, `getWhere`
 * and `getPager` compute them: which rows are siblings, how they are ordered,
 * which page size applies, which window a page is, and when a page is out of range.
 */
module Listing {
  import opened Wrappers
  import opened Strings
  import opened Rows
  import opened Registry

  // ---------------------------------------------------------------------------
  // Page size: `elements_cms` for admin models, `elements_site` otherwise

  /** The params key chosen from the lower-cased class name's fourth `\`-separated piece. */
  function PageSizeParam(className: string): string {
    var parts := Explode(Trim(ToLower(className), {'\\'}), '\\');
    if PartAt(parts, 3) == "admin" then "elements_cms" else "elements_site"
  }

  function OnPage(className: string, p: Params): nat {
    if PageSizeParam(className) == "elements_cms" then p.elementsCms else p.elementsSite
  }

  /** `strtolower` on every piece. */
  function LowerAll(parts: seq<string>): (r: seq<string>)
    ensures |r| == |parts|
    ensures forall i :: 0 <= i < |parts| ==> r[i] == ToLower(parts[i])
  {
    seq(|parts|, i requires 0 <= i < |parts| => ToLower(parts[i]))
  }

  /** Lower-casing a `\`-joined name lower-cases each piece and keeps the separators. */
  lemma {:induction false} ToLowerJoin(parts: seq<string>)
    requires |parts| > 0
    ensures ToLower(Join(parts, '\\')) == Join(LowerAll(parts), '\\')
  {
    if |parts| > 1 {
      ToLowerJoin(parts[1..]);
      ToLowerConcat(parts[0] + ['\\'], Join(parts[1..], '\\'));
      ToLowerConcat(parts[0], ['\\']);
      assert LowerAll(parts)[1..] == LowerAll(parts[1..]);
    }
  }

  lemma LowerBackslashFree(s: string)
    requires NoClassSep(s)
    ensures '\\' !in ToLower(s)
  {
    assert forall i :: 0 <= i < |s| ==> ToLower(s)[i] != '\\';
  }

  /** Trimming characters that neither end holds changes nothing. */
  lemma TrimUntouched(s: string, cs: set<char>)
    requires |s| > 0 && s[0] !in cs && s[|s| - 1] !in cs
    ensures Trim(s, cs) == s
  {
    var t := TrimLeft(s, cs);
    assert |s| - |t| == 0;
    assert t == s;
    var u := TrimRight(t, cs);
    assert |u| == |t|;
  }

  /**
   * For a well-formed class the page size depends on its context alone: admin
   * models (`...\Admin\Model`) list `elements_cms` rows per page, all others
   * `elements_site`. Listing and pager both use this rule.
   */
  lemma PageSizeByContext(c: ModelClass)
    requires WellFormedClass(c)
    ensures PageSizeParam(ClassName(c)) == (if ToLower(c.context) == "admin" then "elements_cms" else "elements_site")
  {
    var parts := ClassParts(c);
    var p := LowerAll(parts);
    ClassNameIsJoin(c);
    ToLowerJoin(parts);
    var lowered := ToLower(ClassName(c));
    assert lowered == Join(p, '\\');
    forall i | 0 <= i < |p| ensures '\\' !in p[i] {
      LowerBackslashFree(parts[i]);
    }
    JoinStartsWithFirst(p, '\\');
    assert lowered[0] != '\\';
    assert lowered[|lowered| - 1] == LowerChar(ClassName(c)[|ClassName(c)| - 1]) == 'l';
    TrimUntouched(lowered, {'\\'});
    ExplodeJoin(p, '\\');
    assert PartAt(p, 3) == ToLower(c.context);
  }

  // ---------------------------------------------------------------------------
  // The WHERE fragment

  /** `preg_match('/^AND/i')` and `'/^OR/i'`. */
  predicate StartsWithWord(s: string, word: string) {
    |word| <= |s| && ToLower(s[..|word|]) == word
  }

  /**
   * `Model::getWhere`: an empty fragment stays empty; otherwise it is trimmed,
   * one leading AND or OR (any case) is cut and "WHERE " is put in front.
   */
  function GetWhere(w: string): (r: string)
    ensures r == "" <==> w == ""
    ensures r != "" ==> StartsWith(r, "WHERE ")
  {
    if w == "" then ""
    else
      var t := Trim(w, Blanks);
      var u := if StartsWithWord(t, "and") then t[3..] else if StartsWithWord(t, "or") then t[2..] else t;
      "WHERE " + u
  }

  /**
   * What follows "WHERE " is the trimmed fragment with at most one leading
   * connective removed: the fragment's own text, never anything else.
   */
  lemma GetWhereKeepsCondition(w: string)
    requires w != ""
    ensures var t := Trim(w, Blanks);
      var cond := GetWhere(w)[6..];
      |cond| <= |t| && t[|t| - |cond|..] == cond &&
      (|cond| < |t| ==> StartsWithWord(t, "and") || StartsWithWord(t, "or"))
  {
  }

  /** The fragment the listing builds for a parent key. */
  function ParentFilter(prevStructure: string): string {
    "e.prev_structure='" + prevStructure + "'"
  }

  /** The listing's parent filter passes through `getWhere` untouched, behind "WHERE ". */
  lemma GetWhereOfParentFilter(prevStructure: string)
    ensures GetWhere(ParentFilter(prevStructure)) == "WHERE " + ParentFilter(prevStructure)
  {
    var f := ParentFilter(prevStructure);
    assert f[0] == 'e' && f[|f| - 1] == '\'';
    TrimUntouched(f, Blanks);
    assert !StartsWithWord(f, "and") by {
      assert ToLower(f[..3])[0] == LowerChar(f[0]) == 'e';
    }
    assert !StartsWithWord(f, "or") by {
      assert ToLower(f[..2])[0] == LowerChar(f[0]) == 'e';
    }
  }

  // ---------------------------------------------------------------------------
  // Siblings and their order

  predicate InScope(r: Row, prevStructure: string) {
    prevStructure == "" || Field(r, "prev_structure") == prevStructure
  }

  /** The rows `getList`/`getListCount` select: all rows when the key is empty, else the key's children. */
  function Siblings(rows: seq<Row>, prevStructure: string): (s: seq<Row>)
    ensures |s| <= |rows|
    ensures forall r :: r in s <==> r in rows && InScope(r, prevStructure)
    ensures prevStructure == "" ==> s == rows
  {
    if rows == [] then []
    else if InScope(rows[0], prevStructure) then [rows[0]] + Siblings(rows[1..], prevStructure)
    else Siblings(rows[1..], prevStructure)
  }

  /** The value `ORDER BY field` compares, read as a number. */
  function SortKey(r: Row, field: string): nat {
    NumVal(Field(r, field))
  }

  predicate SortedBy(s: seq<Row>, field: string) {
    forall i, j :: 0 <= i < j < |s| ==> SortKey(s[i], field) <= SortKey(s[j], field)
  }

  function Insert(x: Row, s: seq<Row>, field: string): seq<Row> {
    if s == [] then [x]
    else if SortKey(x, field) <= SortKey(s[0], field) then [x] + s
    else [s[0]] + Insert(x, s[1..], field)
  }

  function SortBy(rows: seq<Row>, field: string): seq<Row> {
    if rows == [] then [] else Insert(rows[0], SortBy(rows[1..], field), field)
  }

  /** Every row of `s` has a key of at least `b`. */
  predicate KeysFrom(s: seq<Row>, field: string, b: nat) {
    forall i :: 0 <= i < |s| ==> b <= SortKey(s[i], field)
  }

  lemma {:induction false} InsertKeysFrom(x: Row, s: seq<Row>, field: string, b: nat)
    requires KeysFrom(s, field, b) && b <= SortKey(x, field)
    ensures KeysFrom(Insert(x, s, field), field, b)
  {
    if s != [] && SortKey(x, field) > SortKey(s[0], field) {
      InsertKeysFrom(x, s[1..], field, b);
    }
  }

  lemma ConsSorted(h: Row, t: seq<Row>, field: string)
    requires SortedBy(t, field) && KeysFrom(t, field, SortKey(h, field))
    ensures SortedBy([h] + t, field)
  {
    var s := [h] + t;
    forall i, j | 0 <= i < j < |s| ensures SortKey(s[i], field) <= SortKey(s[j], field) {
      assert s[j] == t[j - 1];
      if i > 0 {
        assert s[i] == t[i - 1];
      }
    }
  }

  lemma {:induction false} InsertPermutes(x: Row, s: seq<Row>, field: string)
    ensures multiset(Insert(x, s, field)) == multiset(s) + multiset{x}
  {
    if s == [] {
      assert Insert(x, s, field) == [x];
    } else if SortKey(x, field) <= SortKey(s[0], field) {
      assert Insert(x, s, field) == [x] + s;
    } else {
      var t := Insert(x, s[1..], field);
      assert Insert(x, s, field) == [s[0]] + t;
      InsertPermutes(x, s[1..], field);
      assert multiset([s[0]] + t) == multiset{s[0]} + multiset(t);
      assert s == [s[0]] + s[1..];
      assert multiset(s) == multiset{s[0]} + multiset(s[1..]);
    }
  }

  lemma {:induction false} InsertSorted(x: Row, s: seq<Row>, field: string)
    requires SortedBy(s, field)
    ensures SortedBy(Insert(x, s, field), field)
  {
    if s == [] {
    } else if SortKey(x, field) <= SortKey(s[0], field) {
      assert KeysFrom(s, field, SortKey(x, field));
      ConsSorted(x, s, field);
    } else {
      var k := SortKey(s[0], field);
      var t := Insert(x, s[1..], field);
      InsertSorted(x, s[1..], field);
      assert KeysFrom(s[1..], field, k);
      InsertKeysFrom(x, s[1..], field, k);
      ConsSorted(s[0], t, field);
    }
  }

  /** `ORDER BY field`: the rows again, in ascending key order. */
  lemma {:induction false} SortBySortsAndPermutes(rows: seq<Row>, field: string)
    ensures SortedBy(SortBy(rows, field), field)
    ensures multiset(SortBy(rows, field)) == multiset(rows)
  {
    if rows != [] {
      SortBySortsAndPermutes(rows[1..], field);
      InsertSorted(rows[0], SortBy(rows[1..], field), field);
      InsertPermutes(rows[0], SortBy(rows[1..], field), field);
      assert rows == [rows[0]] + rows[1..];
    }
  }

  // ---------------------------------------------------------------------------
  // The LIMIT window

  /** The requested page, with page 0 read as page 1. */
  function EffectivePage(page: int): int {
    if page == 0 then 1 else page
  }

  /** `$start = ($page - 1) * $onPage`. */
  function PageStart(page: int, onPage: nat): int {
    (EffectivePage(page) - 1) * onPage
  }

  /**
   * `LIMIT start, onPage` when a page is given, no limit otherwise. A negative
   * start (a negative page number) makes the database reject the query.
   */
  function ListWindow(rows: seq<Row>, page: Option<int>, onPage: nat): (r: Result<seq<Row>, Error>)
    ensures page.None? ==> r == Success(rows)
    ensures page.Some? ==> (r.Failure? <==> PageStart(page.value, onPage) < 0)
    ensures r.Success? && page.Some? ==>
      var start := PageStart(page.value, onPage);
      |r.value| == Min(onPage, if start < |rows| then |rows| - start else 0) &&
      forall i :: 0 <= i < |r.value| ==> r.value[i] == rows[start + i]
  {
    if page.None? then Success(rows)
    else
      var start := PageStart(page.value, onPage);
      if start < 0 then Failure(QueryRejected)
      else if start >= |rows| then Success([])
      else if start + onPage >= |rows| then Success(rows[start..])
      else Success(rows[start..start + onPage])
  }

  lemma WindowOfSorted(s: seq<Row>, page: Option<int>, onPage: nat, field: string)
    requires SortedBy(s, field)
    ensures ListWindow(s, page, onPage).Success? ==>
      SortedBy(ListWindow(s, page, onPage).value, field) &&
      forall x :: x in ListWindow(s, page, onPage).value ==> x in s
  {
    var r := ListWindow(s, page, onPage);
    if r.Success? && page.Some? {
      var start := PageStart(page.value, onPage);
      forall x | x in r.value ensures x in s {
        var i :| 0 <= i < |r.value| && r.value[i] == x;
        assert s[start + i] == x;
      }
    }
  }

  /**
   * `Model::getList` over one table: the rows under `prevStructure` (every row
   * when it is empty), ordered by `fieldSort`, cut to the page when one is given.
   */
  function ListPage(rows: seq<Row>, prevStructure: string, fieldSort: string, onPage: nat, page: Option<int>): (r: Result<seq<Row>, Error>)
    ensures page.Some? ==> (r.Failure? <==> PageStart(page.value, onPage) < 0)
    ensures page.None? ==> r.Success? && multiset(r.value) == multiset(Siblings(rows, prevStructure))
    ensures r.Success? ==> SortedBy(r.value, fieldSort)
    ensures r.Success? ==> forall x :: x in r.value ==> x in rows && InScope(x, prevStructure)
    ensures r.Success? && page.Some? ==> |r.value| <= onPage
    ensures r == ListWindow(SortBy(Siblings(rows, prevStructure), fieldSort), page, onPage)
  {
    var siblings := Siblings(rows, prevStructure);
    var sorted := SortBy(siblings, fieldSort);
    SortBySortsAndPermutes(siblings, fieldSort);
    WindowOfSorted(sorted, page, onPage, fieldSort);
    assert forall x :: x in sorted ==> x in siblings by {
      forall x | x in sorted ensures x in siblings {
        assert x in multiset(sorted);
      }
    }
    ListWindow(sorted, page, onPage)
  }

  /** The rows of pages 1 to n, one page after the other. */
  function PagesUpTo(rows: seq<Row>, onPage: nat, n: nat): seq<Row> {
    if n == 0 then [] else PagesUpTo(rows, onPage, n - 1) + ListWindow(rows, Some(n), onPage).value
  }

  function Min(a: int, b: int): int {
    if a <= b then a else b
  }

  /** Consecutive pages are consecutive stretches of the list: pages 1..n hold its first n*onPage rows. */
  lemma {:induction false} PagesTileTheList(rows: seq<Row>, onPage: nat, n: nat)
    ensures PagesUpTo(rows, onPage, n) == rows[..Min(n * onPage, |rows|)]
  {
    if n > 0 {
      PagesTileTheList(rows, onPage, n - 1);
      var start := (n - 1) * onPage;
      assert n * onPage == start + onPage;
      var w := ListWindow(rows, Some(n), onPage).value;
      assert PagesUpTo(rows, onPage, n) == rows[..Min(start, |rows|)] + w;
      WindowExtends(rows, start, onPage, w);
    }
  }

  lemma WindowExtends(rows: seq<Row>, start: nat, onPage: nat, w: seq<Row>)
    requires |w| == Min(onPage, if start < |rows| then |rows| - start else 0)
    requires forall i :: 0 <= i < |w| ==> w[i] == rows[start + i]
    ensures rows[..Min(start, |rows|)] + w == rows[..Min(start + onPage, |rows|)]
  {
  }

  function CeilDiv(a: nat, b: nat): nat
    requires b > 0
  {
    (a + b - 1) / b
  }

  /** Every row of the list is on one of the pages 1..ceil(count/onPage). */
  lemma PagesCoverTheList(rows: seq<Row>, onPage: nat)
    requires onPage > 0
    ensures PagesUpTo(rows, onPage, CeilDiv(|rows|, onPage)) == rows
  {
    var n := CeilDiv(|rows|, onPage);
    PagesTileTheList(rows, onPage, n);
    CeilDivBounds(|rows|, onPage);
    assert rows[..|rows|] == rows;
  }

  // ---------------------------------------------------------------------------
  // The pager's range check

  /**
   * `$countList > 0 && ceil($countList / $onPage) < $page`, page 0 read as 1
   * (a zero page size with a non-empty list is a division error, kept apart).
   */
  predicate PageOutOfRange(count: nat, onPage: nat, page: int) {
    count > 0 && onPage > 0 && CeilDiv(count, onPage) < EffectivePage(page)
  }

  lemma CeilDivBounds(count: nat, onPage: nat)
    requires onPage > 0
    ensures CeilDiv(count, onPage) * onPage >= count
    ensures count > 0 ==> (CeilDiv(count, onPage) - 1) * onPage < count
  {
    var q := CeilDiv(count, onPage);
    assert q * onPage <= count + onPage - 1 < q * onPage + onPage;
  }

  lemma MulMonotone(a: int, b: int, k: nat)
    requires a <= b
    ensures a * k <= b * k
  {
    assert b * k - a * k == (b - a) * k;
  }

  /**
   * For any non-negative page the pager and the listing agree: the pager accepts
   * the page exactly when the list is empty or the page's window holds a row.
   */
  lemma PagerAgreesWithWindow(rows: seq<Row>, onPage: nat, page: nat)
    requires onPage > 0
    ensures ListWindow(rows, Some(page), onPage).Success?
    ensures !PageOutOfRange(|rows|, onPage, page) <==>
      (|rows| == 0 || |ListWindow(rows, Some(page), onPage).value| > 0)
  {
    var p := EffectivePage(page);
    var q := CeilDiv(|rows|, onPage);
    var start := PageStart(page, onPage);
    assert start == (p - 1) * onPage;
    MulMonotone(0, p - 1, onPage);
    CeilDivBounds(|rows|, onPage);
    if |rows| > 0 {
      if p <= q {
        MulMonotone(p - 1, q - 1, onPage);
        assert start < |rows|;
      } else {
        MulMonotone(q, p - 1, onPage);
        assert start >= |rows|;
      }
    }
  }

  /**
   * A negative page number passes the range check (ceil(count/onPage) is never
   * below it), yet the listing query for it is rejected.
   */
  lemma NegativePagePassesPager(rows: seq<Row>, onPage: nat, page: int)
    requires onPage > 0 && page < 0
    ensures !PageOutOfRange(|rows|, onPage, page)
    ensures ListWindow(rows, Some(page), onPage).Failure?
  {
    MulMonotone(page - 1, -1, onPage);
  }
}
