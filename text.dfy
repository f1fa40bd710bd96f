// String helpers the script gets from Python built-ins: str() of an integer,
// the substring test `p in s`, and the space-joined command line.

module Text {

  predicate IsDigit(c: char) {
    '0' <= c <= '9'
  }

  function DigitChar(d: nat): (c: char)
    requires d < 10
    ensures IsDigit(c) && c as int - '0' as int == d
  {
    "0123456789"[d]
  }

  /** Decimal rendering of a natural number, as Python's str() writes it. */
  function NatToString(n: nat): (s: string)
    ensures 1 <= |s| && forall i :: 0 <= i < |s| ==> IsDigit(s[i])
    decreases n
  {
    if n < 10 then [DigitChar(n)] else NatToString(n / 10) + [DigitChar(n % 10)]
  }

  function DigitValue(c: char): nat
    requires IsDigit(c)
  {
    c as int - '0' as int
  }

  /** Value of a string of decimal digits; the inverse of NatToString. */
  function DigitsValue(s: string): nat
    requires forall i :: 0 <= i < |s| ==> IsDigit(s[i])
  {
    if s == [] then 0
    else 10 * DigitsValue(s[..|s| - 1]) + DigitValue(s[|s| - 1])
  }

  lemma {:induction false} NatToStringRoundTrip(n: nat)
    ensures DigitsValue(NatToString(n)) == n
    decreases n
  {
    var s := NatToString(n);
    if n >= 10 {
      NatToStringRoundTrip(n / 10);
      assert s[..|s| - 1] == NatToString(n / 10);
    }
  }

  /** Python's str() of an integer: a minus sign before the digits of a negative value. */
  function IntToString(n: int): (s: string)
    ensures 1 <= |s|
    ensures n >= 0 ==> s == NatToString(n)
    ensures n < 0 ==> s[0] == '-' && s[1..] == NatToString(-n)
    ensures IsDigit(s[|s| - 1])
    ensures forall i :: 0 <= i < |s| ==> IsDigit(s[i]) || s[i] == '-'
  {
    if n < 0 then "-" + NatToString(-n) else NatToString(n)
  }

  /** Python's `p in s` on strings: p occurs in s as a contiguous block. */
  ghost predicate Occurs(p: string, s: string) {
    exists i :: OccursAt(p, s, i)
  }

  ghost predicate OccursAt(p: string, s: string, i: int) {
    0 <= i <= |s| - |p| && s[i..i + |p|] == p
  }

  lemma OccursAtStart(p: string, s: string)
    requires |p| <= |s| && s[..|p|] == p
    ensures Occurs(p, s)
  {
    assert OccursAt(p, s, 0);
  }

  lemma OccursInTail(p: string, s: string)
    requires |p| <= |s| && 0 < |s| && Occurs(p, s[1..])
    ensures Occurs(p, s)
  {
    var i :| OccursAt(p, s[1..], i);
    assert s[i + 1..i + 1 + |p|] == s[1..][i..i + |p|];
    assert OccursAt(p, s, i + 1);
  }

  lemma NotOccurs(p: string, s: string)
    requires |p| <= |s| && s[..|p|] != p && (|s| > 0 ==> !Occurs(p, s[1..]))
    ensures !Occurs(p, s)
  {
    if Occurs(p, s) {
      var i :| OccursAt(p, s, i);
      assert i != 0;
      assert s[1..][i - 1..i - 1 + |p|] == s[i..i + |p|];
      assert OccursAt(p, s[1..], i - 1);
    }
  }

  /** The executable substring test: recursive on the tail of s. */
  function Contains(s: string, p: string): (r: bool)
    ensures r <==> Occurs(p, s)
    decreases |s|
  {
    if |p| > |s| then false
    else if s[..|p|] == p then OccursAtStart(p, s); true
    else if Contains(s[1..], p) then OccursInTail(p, s); true
    else NotOccurs(p, s); false
  }

  /** Python's `sep.join(pieces)`. */
  function Join(pieces: seq<string>, sep: string): string {
    if |pieces| == 0 then ""
    else if |pieces| == 1 then pieces[0]
    else Join(pieces[..|pieces| - 1], sep) + sep + pieces[|pieces| - 1]
  }

  lemma OccursExtends(p: string, a: string, b: string, c: string)
    requires Occurs(p, b)
    ensures Occurs(p, a + b + c)
  {
    var i :| OccursAt(p, b, i);
    assert (a + b + c)[|a| + i..|a| + i + |p|] == b[i..i + |p|];
    assert OccursAt(p, a + b + c, |a| + i);
  }

  /** Two neighbouring pieces appear in the joined text with the separator between them. */
  lemma {:induction false} JoinHasNeighbours(pieces: seq<string>, sep: string, k: nat)
    requires k + 1 < |pieces|
    ensures Occurs(pieces[k] + sep + pieces[k + 1], Join(pieces, sep))
    decreases |pieces|
  {
    var n := |pieces|;
    var front := pieces[..n - 1];
    var w := pieces[k] + sep + pieces[k + 1];
    if k + 2 == n {
      if n == 2 {
        assert Join(front, sep) == pieces[0];
      } else {
        assert front[..|front| - 1] + [front[|front| - 1]] == front;
      }
      assert Join(pieces, sep) == Join(front[..n - 2], sep) + (if n == 2 then "" else sep) + w by {
        if n > 2 {
          assert Join(front, sep) == Join(front[..n - 2], sep) + sep + pieces[k];
        } else {
          assert front[..n - 2] == [];
        }
      }
      assert OccursAt(w, w, 0);
      OccursExtends(w, Join(front[..n - 2], sep) + (if n == 2 then "" else sep), w, "");
      assert Join(front[..n - 2], sep) + (if n == 2 then "" else sep) + w + "" == Join(pieces, sep);
    } else {
      JoinHasNeighbours(front, sep, k);
      OccursExtends(w, "", Join(front, sep), sep + pieces[n - 1]);
      assert "" + Join(front, sep) + (sep + pieces[n - 1]) == Join(pieces, sep);
    }
  }

  /** The last piece closes the joined text. */
  lemma JoinEndsWithLast(pieces: seq<string>, sep: string)
    requires |pieces| >= 2
    ensures var j := Join(pieces, sep);
      var tail := sep + pieces[|pieces| - 1];
      |j| >= |tail| && j[|j| - |tail|..] == tail
  {
    var j := Join(pieces, sep);
    var tail := sep + pieces[|pieces| - 1];
    assert j == Join(pieces[..|pieces| - 1], sep) + tail;
  }
}
