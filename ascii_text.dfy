/** The JavaScript string operations the front end relies on, restricted to
    ASCII: `toLowerCase`, `trim` and `includes`. */
module AsciiText {

  predicate IsUpper(c: char) {
    'A' <= c <= 'Z'
  }

  /** `toLowerCase` on one ASCII character. */
  function LowerChar(c: char): char {
    if IsUpper(c) then (c as int + 32) as char else c
  }

  /** `String.prototype.toLowerCase` over ASCII. */
  function Lower(s: string): (r: string)
    ensures |r| == |s|
    ensures forall i :: 0 <= i < |s| ==> r[i] == LowerChar(s[i])
  {
    seq(|s|, i requires 0 <= i < |s| => LowerChar(s[i]))
  }

  predicate NoUpper(s: string) {
    forall c :: c in s ==> !IsUpper(c)
  }

  /** The ASCII members of the set of characters `trim` removes. */
  predicate IsSpace(c: char) {
    c == ' ' || c == '\t' || c == '\n' || c == '\r' || c == 11 as char || c == 12 as char
  }

  /** No whitespace at either end. */
  predicate IsTrimmed(s: string) {
    s == [] || (!IsSpace(s[0]) && !IsSpace(s[|s| - 1]))
  }

  /** Drops leading whitespace: the result is the suffix of `s` that starts at
      its first non-space character. */
  function TrimStart(s: string): (r: string)
    ensures |r| <= |s| && r == s[|s| - |r|..]
    ensures r == [] || !IsSpace(r[0])
    ensures forall k :: 0 <= k < |s| - |r| ==> IsSpace(s[k])
    decreases |s|
  {
    if s != [] && IsSpace(s[0]) then TrimStart(s[1..]) else s
  }

  /** Drops trailing whitespace: the result is the prefix of `s` that ends at
      its last non-space character. */
  function TrimEnd(s: string): (r: string)
    ensures |r| <= |s| && r == s[..|r|]
    ensures r == [] || !IsSpace(r[|r| - 1])
    ensures forall k :: |r| <= k < |s| ==> IsSpace(s[k])
    decreases |s|
  {
    if s != [] && IsSpace(s[|s| - 1]) then TrimEnd(s[..|s| - 1]) else s
  }

  /** `String.prototype.trim` over ASCII: the slice of `s` left once the
      whitespace at both ends is removed, and nothing else. */
  function Trim(s: string): (r: string)
    ensures IsTrimmed(r)
    ensures IsTrimmed(s) ==> r == s
    ensures forall c :: c in r ==> c in s
    ensures IsSpaceTrimmedSlice(r, s)
  {
    var t := TrimStart(s);
    var r := TrimEnd(t);
    TrimmedSlice(s, t, r);
    r
  }

  /** `r` is `s` with only whitespace removed before and after it. */
  predicate IsSpaceTrimmedSlice(r: string, s: string) {
    exists a, b :: 0 <= a <= b <= |s| && r == s[a..b] &&
                   (forall k :: 0 <= k < a ==> IsSpace(s[k])) &&
                   (forall k :: b <= k < |s| ==> IsSpace(s[k]))
  }

  /** `t` is `s` less a run of leading whitespace and `r` is `t` less a run
      of trailing whitespace. */
  lemma TrimmedSlice(s: string, t: string, r: string)
    requires |t| <= |s| && t == s[|s| - |t|..]
    requires forall k :: 0 <= k < |s| - |t| ==> IsSpace(s[k])
    requires |r| <= |t| && r == t[..|r|]
    requires forall k :: |r| <= k < |t| ==> IsSpace(t[k])
    ensures IsSpaceTrimmedSlice(r, s)
    ensures forall c :: c in r ==> c in s
    ensures IsTrimmed(s) ==> r == s
  {
    var a := |s| - |t|;
    var b := a + |r|;
    forall i | 0 <= i < |r|
      ensures r[i] == s[a + i]
    {
      assert r[i] == t[i];
    }
    assert r == s[a..b];
    forall k | b <= k < |s|
      ensures IsSpace(s[k])
    {
      assert s[k] == t[k - a];
    }
    SliceBetweenSpaces(s, a, b);
  }

  /** A slice with only whitespace around it: it is such a slice, holds only
      characters of `s`, and is all of `s` when `s` has no whitespace at
      either end. */
  lemma SliceBetweenSpaces(s: string, a: int, b: int)
    requires 0 <= a <= b <= |s|
    requires forall k :: 0 <= k < a ==> IsSpace(s[k])
    requires forall k :: b <= k < |s| ==> IsSpace(s[k])
    ensures IsSpaceTrimmedSlice(s[a..b], s)
    ensures forall c :: c in s[a..b] ==> c in s
    ensures IsTrimmed(s) ==> s[a..b] == s
  {
    forall c | c in s[a..b]
      ensures c in s
    {
      var i :| 0 <= i < b - a && s[a..b][i] == c;
      assert s[a + i] == c;
    }
    if IsTrimmed(s) && s != [] {
      assert a == 0 && b == |s|;
    }
  }

  predicate StartsWith(s: string, t: string) {
    |t| <= |s| && s[..|t|] == t
  }

  /** `String.prototype.includes`: `t` occurs in `s` at some position. */
  predicate Contains(s: string, t: string)
    decreases |s|
  {
    StartsWith(s, t) || (s != [] && Contains(s[1..], t))
  }

  /** `t` occurs in `s` starting at position `i`. */
  predicate OccursAt(s: string, t: string, i: int) {
    0 <= i <= |s| - |t| && s[i..i + |t|] == t
  }

  /** `Contains` agrees with the definition by an explicit position. */
  lemma {:induction false} ContainsIff(s: string, t: string)
    ensures Contains(s, t) <==> exists i :: OccursAt(s, t, i)
    decreases |s|
  {
    if s == [] {
      if t == [] {
        assert OccursAt(s, t, 0);
      }
    } else {
      ContainsIff(s[1..], t);
      if StartsWith(s, t) {
        assert OccursAt(s, t, 0);
      } else if Contains(s[1..], t) {
        var i :| OccursAt(s[1..], t, i);
        assert s[i + 1..i + 1 + |t|] == s[1..][i..i + |t|];
        assert OccursAt(s, t, i + 1);
      }
      if exists i :: OccursAt(s, t, i) {
        var i :| OccursAt(s, t, i);
        if i == 0 {
          assert s[..|t|] == t;
        } else {
          assert s[1..][i - 1..i - 1 + |t|] == s[i..i + |t|];
          assert OccursAt(s[1..], t, i - 1);
        }
      }
    }
  }

  /** Every string includes the empty string. */
  lemma ContainsEmpty(s: string)
    ensures Contains(s, [])
  {
    assert s[..0] == [];
  }

  /** A string includes each of its suffixes. */
  lemma ContainsSuffix(a: string, t: string)
    ensures Contains(a + t, t)
  {
    var s := a + t;
    assert s[|a|..|a| + |t|] == t;
    assert OccursAt(s, t, |a|);
    ContainsIff(s, t);
  }

  /** Lowering is idempotent, and a string without upper-case letters is its
      own lower-case form. */
  lemma LowerFixesNoUpper(s: string)
    ensures NoUpper(Lower(s))
    ensures NoUpper(s) ==> Lower(s) == s
  {
  }
}
