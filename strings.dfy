/** Text helpers standing in for JavaScript's `includes`, `split` and `substring`. */
module Strings {
  import opened Wrappers

  /** `t` occurs in `s` starting at index `i`. */
  predicate OccursAt(s: string, t: string, i: int) {
    0 <= i && i + |t| <= |s| && s[i..i + |t|] == t
  }

  /** `s.includes(t)`. */
  predicate Contains(s: string, t: string) {
    exists i :: 0 <= i <= |s| - |t| && OccursAt(s, t, i)
  }

  /** `s.indexOf(t)`: the first index at which `t` occurs in `s`, if any. */
  function IndexOf(s: string, t: string): (r: Option<nat>)
    ensures r.Some? ==> OccursAt(s, t, r.value)
    ensures r.Some? ==> forall j :: 0 <= j < r.value ==> !OccursAt(s, t, j)
    ensures r.None? ==> forall j :: !OccursAt(s, t, j)
    decreases |s|
  {
    if |s| < |t| then None
    else if s[..|t|] == t then Some(0)
    else
      match IndexOf(s[1..], t)
      case None =>
        assert forall j :: 1 <= j ==> (OccursAt(s, t, j) <==> OccursAt(s[1..], t, j - 1));
        None
      case Some(k) =>
        assert forall j :: 1 <= j ==> (OccursAt(s, t, j) <==> OccursAt(s[1..], t, j - 1));
        Some(k + 1)
  }

  /** `includes` holds exactly when `indexOf` finds an occurrence. */
  lemma ContainsIffIndexOf(s: string, t: string)
    ensures Contains(s, t) <==> IndexOf(s, t).Some?
  {
    if IndexOf(s, t).Some? {
      assert OccursAt(s, t, IndexOf(s, t).value);
    }
  }

  /**
   * `s.split(sep)[1]`: the text after the first occurrence of `sep` up to the
   * next occurrence (or to the end); absent when `sep` does not occur.
   */
  function SecondPart(s: string, sep: string): (r: Option<string>)
    requires |sep| > 0
    ensures r.None? <==> !Contains(s, sep)
    ensures r.Some? ==>
      exists i :: FirstAt(s, sep, i) && PieceOf(r.value, s[i + |sep|..], sep)
    ensures r.Some? ==> !Contains(r.value, sep)
  {
    ContainsIffIndexOf(s, sep);
    match IndexOf(s, sep)
    case None => None
    case Some(i) =>
      var rest := s[i + |sep|..];
      var part := SecondPartOf(rest, sep);
      assert FirstAt(s, sep, i);
      Some(part)
  }

  /** `t` occurs at `i` in `s` and nowhere before it. */
  predicate FirstAt(s: string, t: string, i: int) {
    OccursAt(s, t, i) && forall j :: 0 <= j < i ==> !OccursAt(s, t, j)
  }

  /**
   * `part` is the piece `split` cuts from the front of `rest`: a prefix that
   * is either all of `rest` (no separator in it) or ends exactly where the
   * first separator begins.
   */
  predicate PieceOf(part: string, rest: string, sep: string) {
    && IsPrefix(part, rest)
    && ((part == rest && !Contains(rest, sep))
        || (OccursAt(rest, sep, |part|) && forall j :: 0 <= j < |part| ==> !OccursAt(rest, sep, j)))
  }

  /** The text of `rest` before the first occurrence of `sep`, or all of it. */
  function SecondPartOf(rest: string, sep: string): (r: string)
    requires |sep| > 0
    ensures PieceOf(r, rest, sep) && !Contains(r, sep)
  {
    ContainsIffIndexOf(rest, sep);
    match IndexOf(rest, sep)
    case None => rest
    case Some(j) =>
      NoOccurrenceBefore(rest, sep, j);
      rest[..j]
  }

  /** A piece is never longer than another piece of the same text. */
  lemma PieceNotLonger(p: string, q: string, rest: string, sep: string)
    requires PieceOf(p, rest, sep) && PieceOf(q, rest, sep)
    ensures |q| <= |p|
  {
    if p != rest {
      assert OccursAt(rest, sep, |p|);
    }
  }

  /** `PieceOf` pins the piece: there is only one. */
  lemma PieceUnique(p: string, q: string, rest: string, sep: string)
    requires PieceOf(p, rest, sep) && PieceOf(q, rest, sep)
    ensures p == q
  {
    PieceNotLonger(p, q, rest, sep);
    PieceNotLonger(q, p, rest, sep);
  }

  /** A prefix of `s` that ends before the first occurrence of `t` does not contain `t`. */
  lemma NoOccurrenceBefore(s: string, t: string, j: nat)
    requires |t| > 0 && IndexOf(s, t) == Some(j)
    ensures !Contains(s[..j], t)
  {
    var p := s[..j];
    forall i | 0 <= i <= j - |t|
      ensures !OccursAt(p, t, i)
    {
      assert !OccursAt(s, t, i);
      assert p[i..i + |t|] == s[i..i + |t|];
    }
  }

  predicate IsPrefix(p: string, s: string) {
    |p| <= |s| && s[..|p|] == p
  }

  predicate IsSuffix(p: string, s: string) {
    |p| <= |s| && s[|s| - |p|..] == p
  }

  /**
   * `s.split(c).pop()`: the text after the last `c`, or the whole of `s`
   * when `c` does not occur in it.
   */
  function LastSegment(s: string, c: char): (r: string)
    ensures IsSuffix(r, s)
    ensures c !in r
    ensures |r| < |s| ==> s[|s| - |r| - 1] == c
    ensures c !in s ==> r == s
  {
    if s == [] then []
    else if s[|s| - 1] == c then []
    else
      var init := s[..|s| - 1];
      assert s == init + [s[|s| - 1]];
      LastSegment(init, c) + [s[|s| - 1]]
  }

  /** The decimal digits of `n`, as `String(n)` prints a non-negative integer. */
  function DecimalString(n: nat): (r: string)
    ensures |r| > 0
    ensures forall i :: 0 <= i < |r| ==> '0' <= r[i] <= '9'
    ensures r[0] == '0' <==> n == 0
  {
    var d := ['0' + (n % 10) as char];
    if n < 10 then d else DecimalString(n / 10) + d
  }

  /** The number a string of decimal digits denotes, most significant digit first. */
  function DigitsValue(s: string): int {
    if s == [] then 0 else DigitsValue(s[..|s| - 1]) * 10 + (s[|s| - 1] as int - '0' as int)
  }

  /** `DecimalString` prints exactly `n`: reading its digits back gives `n`. */
  lemma {:induction false} DecimalStringValue(n: nat)
    ensures DigitsValue(DecimalString(n)) == n
  {
    if n >= 10 {
      DecimalStringValue(n / 10);
      var s := DecimalString(n / 10) + ['0' + (n % 10) as char];
      assert s[..|s| - 1] == DecimalString(n / 10);
    }
  }
}
