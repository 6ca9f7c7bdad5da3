/**
 * The handful of PHP string built-ins the routing core relies on, written
 * out over `seq<char>`: decimal rendering and `intval`, `explode`/`implode`,
 * `preg_split('/[_\\\\]+/', ...)`, `ltrim`/`rtrim`/`trim`, `strtolower`.
 */
module Strings {

  predicate IsDigit(c: char) {
    '0' <= c <= '9'
  }

  predicate AllDigits(s: string) {
    forall i :: 0 <= i < |s| ==> IsDigit(s[i])
  }

  function DigitChar(d: nat): (c: char)
    requires d < 10
    ensures IsDigit(c) && c as int - '0' as int == d
  {
    (d + '0' as int) as char
  }

  function DigitValue(c: char): nat
    requires IsDigit(c)
  {
    c as int - '0' as int
  }

  /** Decimal rendering of a natural number, as PHP prints an integer into a string. */
  function NatToString(n: nat): (s: string)
    ensures |s| > 0 && AllDigits(s)
  {
    if n < 10 then [DigitChar(n)] else NatToString(n / 10) + [DigitChar(n % 10)]
  }

  /** Reads the leading decimal digits of `s` onto `acc`, stopping at the first non-digit. */
  function NumValFrom(s: string, acc: nat): nat {
    if |s| > 0 && IsDigit(s[0]) then NumValFrom(s[1..], acc * 10 + DigitValue(s[0])) else acc
  }

  /**
   * `intval` of a string (and the numeric reading MySQL gives a string compared
   * with an integer column): the value of its leading digits, 0 when there are none.
   */
  function NumVal(s: string): nat {
    NumValFrom(s, 0)
  }

  /** One more digit at the end of an all-digit string shifts the value and adds the digit. */
  lemma {:induction false} NumValFromSnoc(d: string, c: char, acc: nat)
    requires AllDigits(d) && IsDigit(c)
    ensures NumValFrom(d + [c], acc) == NumValFrom(d, acc) * 10 + DigitValue(c)
    decreases |d|
  {
    if d != [] {
      assert (d + [c])[1..] == d[1..] + [c];
      NumValFromSnoc(d[1..], c, acc * 10 + DigitValue(d[0]));
    }
  }

  /** Rendering a number and reading it back gives the number. */
  lemma {:induction false} NumValOfNatToString(n: nat)
    ensures NumVal(NatToString(n)) == n
  {
    if n >= 10 {
      NumValOfNatToString(n / 10);
      NumValFromSnoc(NatToString(n / 10), DigitChar(n % 10), 0);
    } else {
      var s := NatToString(n);
      assert s == [DigitChar(n)] && s[1..] == [];
      assert NumValFrom(s[1..], DigitValue(s[0])) == n;
    }
  }

  // ---------------------------------------------------------------------------
  // explode / implode

  /** PHP `explode(sep, s)`: the pieces between occurrences of `sep`, empty pieces kept. */
  function Explode(s: string, sep: char): (parts: seq<string>)
    ensures |parts| > 0
    decreases |s|
  {
    if s == [] then [""]
    else
      var rest := Explode(s[1..], sep);
      if s[0] == sep then [""] + rest else [[s[0]] + rest[0]] + rest[1..]
  }

  /** PHP `implode(sep, parts)`. */
  function Join(parts: seq<string>, sep: char): string
    requires |parts| > 0
  {
    if |parts| == 1 then parts[0] else parts[0] + [sep] + Join(parts[1..], sep)
  }

  /** Piece `i` of `parts`, or "" where PHP would read a missing index as null. */
  function PartAt(parts: seq<string>, i: nat): string {
    if i < |parts| then parts[i] else ""
  }

  lemma {:induction false} JoinExplode(s: string, sep: char)
    ensures Join(Explode(s, sep), sep) == s
    decreases |s|
  {
    if s != [] {
      var rest := Explode(s[1..], sep);
      JoinExplode(s[1..], sep);
      if s[0] == sep {
        assert Explode(s, sep)[1..] == rest;
      } else {
        var parts := Explode(s, sep);
        if |rest| > 1 {
          assert parts[1..] == rest[1..];
        }
      }
    }
  }

  lemma {:induction false} ExplodePrefix(p: string, t: string, sep: char)
    requires sep !in p
    ensures Explode(p + t, sep) == [p + Explode(t, sep)[0]] + Explode(t, sep)[1..]
    decreases |p|
  {
    if p != [] {
      assert (p + t)[1..] == p[1..] + t;
      ExplodePrefix(p[1..], t, sep);
      assert [p[0]] + (p[1..] + Explode(t, sep)[0]) == p + Explode(t, sep)[0];
    } else {
      var e := Explode(t, sep);
      assert p + t == t;
      assert p + e[0] == e[0];
      assert e == [e[0]] + e[1..];
    }
  }

  /** Splitting what was joined gives back the pieces, when no piece holds the separator. */
  lemma {:induction false} ExplodeJoin(parts: seq<string>, sep: char)
    requires |parts| > 0
    requires forall i :: 0 <= i < |parts| ==> sep !in parts[i]
    ensures Explode(Join(parts, sep), sep) == parts
  {
    if |parts| == 1 {
      ExplodePrefix(parts[0], "", sep);
      assert parts[0] + "" == parts[0];
    } else {
      var tail := Join(parts[1..], sep);
      ExplodeJoin(parts[1..], sep);
      ExplodePrefix(parts[0], [sep] + tail, sep);
      assert parts[0] + [sep] + tail == parts[0] + ([sep] + tail);
      assert ([sep] + tail)[1..] == tail;
      assert Explode([sep] + tail, sep) == [""] + parts[1..];
      assert parts[0] + "" == parts[0];
    }
  }

  // ---------------------------------------------------------------------------
  // preg_split('/[_\\\\]+/', s): split on runs of underscores and backslashes

  predicate IsClassSep(c: char) {
    c == '_' || c == '\\'
  }

  predicate NoClassSep(s: string) {
    forall i :: 0 <= i < |s| ==> !IsClassSep(s[i])
  }

  lemma NoClassSepHasNoBackslash(s: string)
    requires NoClassSep(s)
    ensures '\\' !in s && '_' !in s
  {
  }

  function DropSeps(s: string): (t: string)
    ensures |t| <= |s| && t == s[|s| - |t|..]
    ensures t == [] || !IsClassSep(t[0])
    ensures |s| > 0 && IsClassSep(s[0]) ==> |t| < |s|
  {
    if |s| > 0 && IsClassSep(s[0]) then DropSeps(s[1..]) else s
  }

  /** The pieces of `s` between maximal runs of `_` and `\`. */
  function SplitRuns(s: string): (parts: seq<string>)
    ensures |parts| > 0
    decreases |s|
  {
    if s == [] then [""]
    else if IsClassSep(s[0]) then [""] + SplitRuns(DropSeps(s))
    else
      var rest := SplitRuns(s[1..]);
      [[s[0]] + rest[0]] + rest[1..]
  }

  lemma {:induction false} SplitRunsPrefix(p: string, t: string)
    requires NoClassSep(p)
    ensures SplitRuns(p + t) == [p + SplitRuns(t)[0]] + SplitRuns(t)[1..]
    decreases |p|
  {
    var e := SplitRuns(t);
    if p != [] {
      var s := p + t;
      assert s[0] == p[0] && !IsClassSep(s[0]);
      assert s[1..] == p[1..] + t;
      SplitRunsPrefix(p[1..], t);
      var rest := SplitRuns(s[1..]);
      assert rest == [p[1..] + e[0]] + e[1..];
      assert SplitRuns(s) == [[s[0]] + rest[0]] + rest[1..];
      assert [p[0]] + (p[1..] + e[0]) == p + e[0];
    } else {
      assert p + t == t;
      assert p + e[0] == e[0];
      assert e == [e[0]] + e[1..];
    }
  }

  lemma JoinStartsWithFirst(parts: seq<string>, sep: char)
    requires |parts| > 0 && |parts[0]| > 0
    ensures |Join(parts, sep)| > 0 && Join(parts, sep)[0] == parts[0][0]
  {
  }

  /** A class name joined from non-empty, separator-free pieces splits back into them. */
  lemma {:induction false} SplitRunsJoin(parts: seq<string>)
    requires |parts| > 0
    requires forall i :: 0 <= i < |parts| ==> |parts[i]| > 0 && NoClassSep(parts[i])
    ensures SplitRuns(Join(parts, '\\')) == parts
  {
    if |parts| == 1 {
      SplitRunsPrefix(parts[0], "");
      assert parts[0] + "" == parts[0];
    } else {
      var tail := Join(parts[1..], '\\');
      SplitRunsJoin(parts[1..]);
      JoinStartsWithFirst(parts[1..], '\\');
      SplitRunsPrefix(parts[0], ['\\'] + tail);
      assert parts[0] + ['\\'] + tail == parts[0] + (['\\'] + tail);
      assert DropSeps(['\\'] + tail) == tail;
      assert SplitRuns(['\\'] + tail) == [""] + parts[1..];
      assert parts[0] + "" == parts[0];
    }
  }

  // ---------------------------------------------------------------------------
  // trim, ltrim, rtrim

  /** PHP's default `trim` character set: space, tab, newline, carriage return, NUL, vertical tab. */
  const Blanks: set<char> := {' ', '\t', '\n', '\r', '\0', '\U{0B}'}

  /** PHP `ltrim(s, cs)`. */
  function TrimLeft(s: string, cs: set<char>): (t: string)
    ensures |t| <= |s|
    ensures t == [] || t[0] !in cs
  {
    if |s| > 0 && s[0] in cs then TrimLeft(s[1..], cs) else s
  }

  /** What `ltrim` removes is a prefix made of characters of `cs`. */
  lemma {:induction false} TrimLeftIsSuffix(s: string, cs: set<char>)
    ensures var t := TrimLeft(s, cs);
      t == s[|s| - |t|..] && forall i :: 0 <= i < |s| - |t| ==> s[i] in cs
    decreases |s|
  {
    if |s| > 0 && s[0] in cs {
      TrimLeftIsSuffix(s[1..], cs);
    }
  }

  /** PHP `rtrim(s, cs)`. */
  function TrimRight(s: string, cs: set<char>): (t: string)
    ensures |t| <= |s| && t == s[..|t|]
    ensures t == [] || t[|t| - 1] !in cs
    ensures forall i :: |t| <= i < |s| ==> s[i] in cs
  {
    if |s| > 0 && s[|s| - 1] in cs then TrimRight(s[..|s| - 1], cs) else s
  }

  /** Left-trimming a concatenation trims into the second part only when the first trims away. */
  lemma {:induction false} TrimLeftAppend(s: string, x: string, cs: set<char>)
    ensures TrimLeft(s + x, cs) == if TrimLeft(s, cs) == [] then TrimLeft(x, cs) else TrimLeft(s, cs) + x
    decreases |s|
  {
    if s == [] {
      assert s + x == x;
    } else {
      assert (s + x)[0] == s[0];
      if s[0] in cs {
        assert (s + x)[1..] == s[1..] + x;
        TrimLeftAppend(s[1..], x, cs);
      }
    }
  }

  /** PHP `trim(s, cs)`. */
  function Trim(s: string, cs: set<char>): string {
    TrimRight(TrimLeft(s, cs), cs)
  }

  // ---------------------------------------------------------------------------
  // strtolower, prefixes, substrings

  function LowerChar(c: char): char {
    if 'A' <= c <= 'Z' then (c as int + 32) as char else c
  }

  /** PHP `strtolower` on ASCII letters. */
  function ToLower(s: string): (t: string)
    ensures |t| == |s|
  {
    seq(|s|, i requires 0 <= i < |s| => LowerChar(s[i]))
  }

  lemma ToLowerConcat(a: string, b: string)
    ensures ToLower(a + b) == ToLower(a) + ToLower(b)
  {
  }

  predicate StartsWith(s: string, p: string) {
    |p| <= |s| && s[..|p|] == p
  }

  predicate EndsWith(s: string, p: string) {
    |p| <= |s| && s[|s| - |p|..] == p
  }

  /** `t` occurs in `s` at index `i`. */
  predicate OccursAt(s: string, t: string, i: int) {
    0 <= i <= |s| - |t| && s[i..i + |t|] == t
  }

  /** `strpos(s, t) !== false`. */
  predicate Contains(s: string, t: string) {
    exists i | 0 <= i <= |s| - |t| :: OccursAt(s, t, i)
  }

  /** Index of the first `c` in `s`, or |s| when there is none. */
  function IndexOf(s: string, c: char): (i: nat)
    ensures i <= |s|
    ensures i < |s| ==> s[i] == c
    ensures forall j :: 0 <= j < i ==> s[j] != c
  {
    if s == [] then 0 else if s[0] == c then 0 else 1 + IndexOf(s[1..], c)
  }
}
