/**
 * The string operations the modelled code relies on: lower-casing
 * (Python's `str.lower`, JavaScript's `toLowerCase`), substring search
 * (Python's `in`, JavaScript's `includes`), JavaScript's `trim`, and the
 * decimal rendering of an integer inside an f-string.
 * Only ASCII letters are case-folded and only ASCII whitespace is trimmed.
 */
module Text {

  function LowerChar(c: char): (d: char)
    ensures 'A' <= c <= 'Z' ==> d as int == c as int + 32
    ensures !('A' <= c <= 'Z') ==> d == c
  {
    if 'A' <= c <= 'Z' then (c as int + 32) as char else c
  }

  /** Lower-cases every ASCII letter and leaves every other character alone. */
  function Lower(s: string): (r: string)
    ensures |r| == |s|
    ensures forall i :: 0 <= i < |s| ==> r[i] == LowerChar(s[i])
  {
    seq(|s|, i requires 0 <= i < |s| => LowerChar(s[i]))
  }

  predicate StartsWith(s: string, prefix: string) {
    |prefix| <= |s| && s[..|prefix|] == prefix
  }

  /** `t` occurs in `s` as a contiguous substring. */
  predicate Contains(s: string, t: string)
    decreases |s|
  {
    StartsWith(s, t) || (|s| > 0 && Contains(s[1..], t))
  }

  /** An occurrence of `t` at position `i` makes `s` contain `t`. */
  lemma {:induction false} ContainsAt(s: string, t: string, i: nat)
    requires i + |t| <= |s|
    requires s[i..i + |t|] == t
    ensures Contains(s, t)
  {
    if i == 0 {
      assert s[..|t|] == t;
    } else {
      assert s[1..][i - 1..i - 1 + |t|] == s[i..i + |t|];
      ContainsAt(s[1..], t, i - 1);
    }
  }

  /** Every substring occurrence sits at some position. */
  lemma {:induction false} ContainsWitness(s: string, t: string) returns (i: nat)
    requires Contains(s, t)
    ensures i + |t| <= |s| && s[i..i + |t|] == t
    decreases |s|
  {
    if StartsWith(s, t) {
      i := 0;
    } else {
      var j := ContainsWitness(s[1..], t);
      assert s[1..][j..j + |t|] == s[j + 1..j + 1 + |t|];
      i := j + 1;
    }
  }

  /** A string containing `t` keeps containing it when text is added at either end. */
  lemma ContainsInside(a: string, b: string, c: string, t: string)
    requires Contains(b, t)
    ensures Contains(a + b + c, t)
  {
    var i := ContainsWitness(b, t);
    assert (a + b + c)[|a| + i..|a| + i + |t|] == b[i..i + |t|];
    ContainsAt(a + b + c, t, |a| + i);
  }

  /** Character-wise view of a lower-cased slice. */
  lemma LowerSlice(p: string, t: string, i: nat)
    requires i + |t| <= |p|
    requires forall j :: 0 <= j < |t| ==> LowerChar(p[i + j]) == t[j]
    ensures Lower(p)[i..i + |t|] == t
  {
  }

  /** A lower-cased prefix that shows `t` at position `i` keeps showing it whatever follows. */
  lemma PrefixShows(p: string, rest: string, t: string, i: nat)
    requires i + |t| <= |p| && Lower(p)[i..i + |t|] == t
    ensures Contains(Lower(p + rest), t)
  {
    LowerAppend(p, rest);
    var s := Lower(p + rest);
    assert s == Lower(p) + Lower(rest);
    assert s[i..i + |t|] == t;
    ContainsAt(s, t, i);
  }

  /** Text in front of a string does not hide what the lower-cased string contains. */
  lemma SuffixKeeps(p: string, s: string, t: string)
    requires Contains(Lower(s), t)
    ensures Contains(Lower(p + s), t)
  {
    LowerAppend(p, s);
    ContainsInside(Lower(p), Lower(s), [], t);
    assert Lower(p) + Lower(s) + [] == Lower(p + s);
  }

  /** Neither `f` nor `F` occurs in `s`. */
  predicate WithoutF(s: string) {
    forall j :: 0 <= j < |s| ==> s[j] != 'f' && s[j] != 'F'
  }

  lemma WithoutFJoin(a: string, b: string)
    requires WithoutF(a) && WithoutF(b)
    ensures WithoutF(a + b)
  {
  }

  /** A string with neither `f` nor `F` never contains "not found", whatever its case. */
  lemma NoFNoNotFound(s: string)
    requires WithoutF(s)
    ensures !Contains(Lower(s), "not found")
  {
    MissingCharExcludes(Lower(s), "not found", 4);
  }

  /** A string lacking one of the characters of `t` cannot contain `t`. */
  lemma MissingCharExcludes(s: string, t: string, k: nat)
    requires k < |t|
    requires forall j :: 0 <= j < |s| ==> s[j] != t[k]
    ensures !Contains(s, t)
  {
    if Contains(s, t) {
      var i := ContainsWitness(s, t);
      assert false;
    }
  }

  lemma {:induction false} LowerAppend(a: string, b: string)
    ensures Lower(a + b) == Lower(a) + Lower(b)
  {
    assert |Lower(a + b)| == |Lower(a) + Lower(b)|;
    forall i | 0 <= i < |a + b|
      ensures Lower(a + b)[i] == (Lower(a) + Lower(b))[i]
    {
    }
  }

  /** The ASCII whitespace that JavaScript's `trim` removes. */
  predicate IsSpace(c: char) {
    c == ' ' || c == '\t' || c == '\n' || c == '\r' || c == '\U{000B}' || c == '\U{000C}'
  }

  function TrimStart(s: string): (r: string)
    ensures |r| <= |s| && r == s[|s| - |r|..]
    ensures r != [] ==> !IsSpace(r[0])
    ensures forall i :: 0 <= i < |s| - |r| ==> IsSpace(s[i])
  {
    if s != [] && IsSpace(s[0]) then TrimStart(s[1..]) else s
  }

  function TrimEnd(s: string): (r: string)
    ensures |r| <= |s| && r == s[..|r|]
    ensures r != [] ==> !IsSpace(r[|r| - 1])
    ensures forall i :: |r| <= i < |s| ==> IsSpace(s[i])
  {
    if s != [] && IsSpace(s[|s| - 1]) then TrimEnd(s[..|s| - 1]) else s
  }

  /** JavaScript's `String.prototype.trim`: whitespace removed at both ends. */
  function Trim(s: string): (r: string)
    ensures r == [] || (!IsSpace(r[0]) && !IsSpace(r[|r| - 1]))
  {
    TrimEnd(TrimStart(s))
  }

  /** A string with no whitespace at either end is its own trim. */
  lemma TrimmedIsFixed(s: string)
    requires s == [] || (!IsSpace(s[0]) && !IsSpace(s[|s| - 1]))
    ensures Trim(s) == s
  {
  }

  lemma TrimIdempotent(s: string)
    ensures Trim(Trim(s)) == Trim(s)
  {
    TrimmedIsFixed(Trim(s));
  }

  /** A string trims to nothing exactly when it is all whitespace. */
  lemma BlankIffAllSpace(s: string)
    ensures Trim(s) == [] <==> forall i :: 0 <= i < |s| ==> IsSpace(s[i])
  {
    if forall i :: 0 <= i < |s| ==> IsSpace(s[i]) {
      if TrimStart(s) != [] {
        assert false;
      }
    }
  }

  function DigitChar(d: nat): (c: char)
    requires d < 10
    ensures '0' <= c <= '9'
  {
    "0123456789"[d]
  }

  predicate IsDigit(c: char) {
    '0' <= c <= '9'
  }

  /** The decimal numeral of a natural number, as `str(n)` prints it. */
  function NatText(n: nat): (r: string)
    ensures |r| > 0
    ensures forall i :: 0 <= i < |r| ==> IsDigit(r[i])
  {
    if n < 10 then [DigitChar(n)] else NatText(n / 10) + [DigitChar(n % 10)]
  }

  /** The decimal numeral of an integer, with a leading minus sign when negative. */
  function IntText(n: int): (r: string)
    ensures forall i :: 0 <= i < |r| ==> IsDigit(r[i]) || r[i] == '-'
    ensures n >= 0 ==> r == NatText(n)
  {
    if n < 0 then "-" + NatText(-n) else NatText(n)
  }
}
