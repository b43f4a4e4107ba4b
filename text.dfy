/** JavaScript's `String.prototype.trim`, which the tracker applies to food names and notes. */
module Text {

  /** The code points `trim` strips: the ECMAScript WhiteSpace and LineTerminator characters. */
  predicate IsSpace(c: char) {
    var n := c as int;
    n == 0x09 || n == 0x0A || n == 0x0B || n == 0x0C || n == 0x0D || n == 0x20 || n == 0xA0
    || n == 0x1680 || (0x2000 <= n <= 0x200A) || n == 0x2028 || n == 0x2029 || n == 0x202F
    || n == 0x205F || n == 0x3000 || n == 0xFEFF
  }

  /** The number of leading white-space characters. */
  function Leading(s: string): (n: nat)
    ensures n <= |s|
    ensures forall k :: 0 <= k < n ==> IsSpace(s[k])
    ensures n < |s| ==> !IsSpace(s[n])
  {
    if s == [] || !IsSpace(s[0]) then 0 else 1 + Leading(s[1..])
  }

  /** The number of trailing white-space characters. */
  function Trailing(s: string): (n: nat)
    ensures n <= |s|
    ensures forall k :: |s| - n <= k < |s| ==> IsSpace(s[k])
    ensures n < |s| ==> !IsSpace(s[|s| - 1 - n])
  {
    if s == [] || !IsSpace(s[|s| - 1]) then 0 else 1 + Trailing(s[..|s| - 1])
  }

  /** A string is trimmed when it neither starts nor ends with white space. */
  predicate IsTrimmed(s: string) {
    s == [] || (!IsSpace(s[0]) && !IsSpace(s[|s| - 1]))
  }

  /**
   * `s` with leading and trailing white space removed. The result is trimmed, and it is empty
   * exactly when `s` is all white space (JavaScript's falsy `trim()`).
   */
  function Trim(s: string): (r: string)
    ensures IsTrimmed(r)
    ensures r == [] <==> forall k :: 0 <= k < |s| ==> IsSpace(s[k])
  {
    var i := Leading(s);
    var t := s[i..];
    var r := t[..|t| - Trailing(t)];
    assert i < |s| ==> t[0] == s[i] && Trailing(t) < |t| && r[0] == s[i];
    r
  }

  /** What `trim` keeps is one contiguous piece of `s`, with only white space cut on either side. */
  lemma TrimIsSlice(s: string)
    ensures var i := Leading(s);
            i + |Trim(s)| <= |s| && Trim(s) == s[i..i + |Trim(s)|]
            && forall k :: 0 <= k < |s| && !(i <= k < i + |Trim(s)|) ==> IsSpace(s[k])
  {
    TrimKeepsSlice(s);
    TrimCutsSpace(s);
  }

  lemma TrimKeepsSlice(s: string)
    ensures Leading(s) + |Trim(s)| <= |s| && Trim(s) == s[Leading(s)..Leading(s) + |Trim(s)|]
  {
    var i := Leading(s);
    var t := s[i..];
    var m := |t| - Trailing(t);
    assert i + m <= |s| && Trim(s) == s[i..i + m] by {
      assert Trim(s) == t[..m];
      SliceOfSuffix(s, i, m);
    }
  }

  lemma TrimCutsSpace(s: string)
    ensures forall k :: 0 <= k < |s| && !(Leading(s) <= k < Leading(s) + |Trim(s)|) ==> IsSpace(s[k])
  {
    var i := Leading(s);
    var t := s[i..];
    assert |Trim(s)| == |t| - Trailing(t);
    forall k | 0 <= k < |s| && !(i <= k < i + |Trim(s)|) ensures IsSpace(s[k]) {
      if i <= k {
        TrailingSpace(s, i, k);
      }
    }
  }

  /** A prefix of the suffix of `s` from `i` is a slice of `s`. */
  lemma SliceOfSuffix(s: string, i: nat, m: nat)
    requires i + m <= |s|
    ensures s[i..][..m] == s[i..i + m]
  {
  }

  /** What `trim` cuts from the end of the rest of `s` after its leading white space is white space. */
  lemma TrailingSpace(s: string, i: nat, k: nat)
    requires i == Leading(s)
    requires i + |s[i..]| - Trailing(s[i..]) <= k < |s|
    ensures IsSpace(s[k])
  {
    var t := s[i..];
    assert s[k] == t[k - i];
  }

  /** Trimming a trimmed string changes nothing. */
  lemma TrimmedIsFixed(s: string)
    requires IsTrimmed(s)
    ensures Trim(s) == s
  {
    assert Leading(s) == 0;
    assert s[0..] == s;
    assert Trailing(s) == 0;
  }

  /** `trim` is idempotent. */
  lemma TrimIdempotent(s: string)
    ensures Trim(Trim(s)) == Trim(s)
  {
    TrimmedIsFixed(Trim(s));
  }
}
