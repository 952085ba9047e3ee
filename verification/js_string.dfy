/** The string built-ins the front-end calls: truthiness of a nullable string,
    `String.prototype.trim`, and `s.split(sep)[1]`. */
module JsString {
  import opened Js

  /** JavaScript truthiness of a `string | null`: null and "" are falsy. */
  predicate Truthy(s: Option<string>) {
    s.Some? && s.value != ""
  }

  /** The WhiteSpace and LineTerminator code points that `trim` removes
      (section 22.1.3.32 of ECMA-262, via sections 12.2 and 12.3). */
  predicate IsJsSpace(c: char) {
    || c == '\t' || c == '\n' || c == '\U{000B}' || c == '\U{000C}' || c == '\r'
    || c == ' ' || c == '\U{00A0}' || c == '\U{1680}'
    || ('\U{2000}' <= c <= '\U{200A}')
    || c == '\U{2028}' || c == '\U{2029}' || c == '\U{202F}' || c == '\U{205F}'
    || c == '\U{3000}' || c == '\U{FEFF}'
  }

  /** The first index at or after `i` that is not white space (`|s|` when
      the rest of `s` is all white space). */
  function SkipSpaces(s: string, i: nat): (j: nat)
    requires i <= |s|
    ensures i <= j <= |s|
    ensures forall m :: i <= m < j ==> IsJsSpace(s[m])
    ensures j == |s| || !IsJsSpace(s[j])
    decreases |s| - i
  {
    if i < |s| && IsJsSpace(s[i]) then SkipSpaces(s, i + 1) else i
  }

  /** The end of `s[lo..j]` once the white space before `j` is dropped:
      the least `e >= lo` such that `s[e..j]` is all white space. */
  function BackSpaces(s: string, lo: nat, j: nat): (e: nat)
    requires lo <= j <= |s|
    ensures lo <= e <= j
    ensures forall m :: e <= m < j ==> IsJsSpace(s[m])
    ensures e == lo || !IsJsSpace(s[e - 1])
  {
    if j > lo && IsJsSpace(s[j - 1]) then BackSpaces(s, lo, j - 1) else j
  }

  /** `s.trim()`: the infix of `s` left after removing the white space at
      both ends; everything removed is white space, and none is left at
      either end. */
  function Trim(s: string): (r: string)
    ensures var k := SkipSpaces(s, 0);
              && k + |r| <= |s| && r == s[k..k + |r|]
              && (forall i :: 0 <= i < k ==> IsJsSpace(s[i]))
              && (forall i :: k + |r| <= i < |s| ==> IsJsSpace(s[i]))
    ensures r == [] || (!IsJsSpace(r[0]) && !IsJsSpace(r[|r| - 1]))
  {
    var k := SkipSpaces(s, 0);
    s[k..BackSpaces(s, k, |s|)]
  }

  /** Every character of `t` is white space. */
  predicate AllSpace(t: string) {
    forall i :: 0 <= i < |t| ==> IsJsSpace(t[i])
  }

  /** Skipping from `i` stops at the first non-space index `j`: the contract
      of SkipSpaces pins its result down. */
  lemma SkipSpacesStopsAt(s: string, i: nat, j: nat)
    requires i <= j <= |s|
    requires forall m :: i <= m < j ==> IsJsSpace(s[m])
    requires j == |s| || !IsJsSpace(s[j])
    ensures SkipSpaces(s, i) == j
  {
  }

  /** Dropping trailing white space before `j` stops at `e` when `s[e..j]`
      is white space and `s[e - 1]` is not. */
  lemma BackSpacesStopsAt(s: string, lo: nat, e: nat, j: nat)
    requires lo <= e <= j <= |s|
    requires forall m :: e <= m < j ==> IsJsSpace(s[m])
    requires e == lo || !IsJsSpace(s[e - 1])
    ensures BackSpaces(s, lo, j) == e
  {
  }

  /** Trim removes exactly the padding: with white space `p` and `q` around
      a text `t` that neither starts nor ends with white space, the result
      is `t`. */
  lemma TrimOfPadded(p: string, t: string, q: string)
    requires AllSpace(p) && AllSpace(q)
    requires t == [] || (!IsJsSpace(t[0]) && !IsJsSpace(t[|t| - 1]))
    ensures Trim(p + t + q) == t
  {
    var s := p + t + q;
    if t == [] {
      SkipSpacesStopsAt(s, 0, |s|);
      BackSpacesStopsAt(s, |s|, |s|, |s|);
    } else {
      SkipSpacesStopsAt(s, 0, |p|);
      BackSpacesStopsAt(s, |p|, |p| + |t|, |s|);
      assert s[|p|..|p| + |t|] == t;
    }
  }

  /** Trimming twice is trimming once. */
  lemma TrimIdempotent(s: string)
    ensures Trim(Trim(s)) == Trim(s)
  {
    TrimOfPadded([], Trim(s), []);
    assert [] + Trim(s) + [] == Trim(s);
  }

  /** The part of `s` before its first `sep` (all of `s` when there is none). */
  function TakeUntil(s: string, sep: char): (r: string)
    ensures sep !in r
    ensures r <= s
    ensures |r| < |s| ==> s[|r|] == sep
  {
    if s == [] || s[0] == sep then [] else [s[0]] + TakeUntil(s[1..], sep)
  }

  /** The part of `s` after its first `sep`, or None when `s` has no `sep`. */
  function DropThrough(s: string, sep: char): (r: Option<string>)
    ensures r.None? <==> sep !in s
    ensures r.Some? ==> s == TakeUntil(s, sep) + [sep] + r.value
  {
    if s == [] then None
    else if s[0] == sep then Some(s[1..])
    else
      var rest := DropThrough(s[1..], sep);
      assert s == [s[0]] + s[1..];
      rest
  }

  /** `s.split(sep)[1]`: the field between the first and the second `sep`
      (up to the end when there is no second one); `undefined` (None) when
      `s` contains no `sep`. */
  function SecondField(s: string, sep: char): (r: Option<string>)
    ensures r.None? <==> sep !in s
    ensures r.Some? ==> sep !in r.value
    ensures r.Some? ==> TakeUntil(s, sep) + [sep] + r.value <= s
    ensures r.Some? && |TakeUntil(s, sep)| + 1 + |r.value| < |s| ==>
              s[|TakeUntil(s, sep)| + 1 + |r.value|] == sep
  {
    match DropThrough(s, sep)
    case None => None
    case Some(rest) => Some(TakeUntil(rest, sep))
  }

  /** Splitting `a + sep + b` on `sep` yields `b` as its second field when
      neither part contains `sep`. */
  lemma SecondFieldOfJoin(a: string, sep: char, b: string)
    requires sep !in a && sep !in b
    ensures SecondField(a + [sep] + b, sep) == Some(b)
  {
    var s := a + [sep] + b;
    assert sep in s by { assert s[|a|] == sep; }
    var r := SecondField(s, sep);
    var p := TakeUntil(s, sep);
    // the first separator of s is the one just after a
    assert |p| == |a|;
    // the second field runs to the end, since b has no separator
    assert |p| + 1 + |r.value| == |s|;
    assert r.value == s[|a| + 1..] == b;
  }
}
