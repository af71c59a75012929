/** The shop-domain normalisation that the Shopify connection form applies to
    what the merchant typed before it submits the form. */
module ShopDomain {
  import opened AsciiText

  /** The domain suffix every Shopify store address carries. */
  const Suffix := ".myshopify.com"

  /** The ASCII line terminators: the characters `.` in a JavaScript regular
      expression does not match. */
  predicate IsLineTerminator(c: char) {
    c == '\n' || c == '\r'
  }

  predicate NoLineBreak(s: string) {
    forall c :: c in s ==> !IsLineTerminator(c)
  }

  /** The position of the first '.' at or after `from`, or `|s|` if none. */
  function DotFrom(s: string, from: nat): (k: nat)
    requires from <= |s|
    ensures from <= k <= |s|
    ensures forall i :: from <= i < k ==> s[i] != '.'
    ensures k < |s| ==> s[k] == '.'
    decreases |s| - from
  {
    if from == |s| || s[from] == '.' then from else DotFrom(s, from + 1)
  }

  /** The position of the first line terminator at or after `from`, or `|s|`
      if none. */
  function LineEndFrom(s: string, from: nat): (k: nat)
    requires from <= |s|
    ensures from <= k <= |s|
    ensures forall i :: from <= i < k ==> !IsLineTerminator(s[i])
    ensures k < |s| ==> IsLineTerminator(s[k])
    decreases |s| - from
  {
    if from == |s| || IsLineTerminator(s[from]) then from else LineEndFrom(s, from + 1)
  }

  /** `s.replace(/\..*\/, '')`: removes the first '.' together with the
      characters after it up to, not including, the next line terminator. */
  function StripFromFirstDot(s: string): (r: string)
    ensures '.' !in s ==> r == s
    ensures NoLineBreak(s) ==> r == s[..DotFrom(s, 0)]
  {
    var d := DotFrom(s, 0);
    if d == |s| then s
    else
      var e := LineEndFrom(s, d + 1);
      assert e < |s| ==> s[e] in s;
      s[..d] + s[e..]
  }

  /** The address part of `handleSubmit`: lower-case and trim the input, and
      unless it already names a `.myshopify.com` store, keep what precedes its
      first '.' and append the suffix. */
  function NormalizeShop(input: string): (r: string)
    ensures Contains(r, Suffix)
    ensures NoUpper(r)
    ensures Contains(Trim(Lower(input)), Suffix) ==> r == Trim(Lower(input))
    ensures !Contains(Trim(Lower(input)), Suffix) ==>
              r == StripFromFirstDot(Trim(Lower(input))) + Suffix
  {
    var s := Trim(Lower(input));
    TrimmedLowerNoUpper(input);
    if Contains(s, Suffix) then s
    else
      var t := StripFromFirstDot(s);
      ContainsSuffix(t, Suffix);
      StripKeepsNoUpper(s);
      SuffixNoUpper(t);
      t + Suffix
  }

  lemma TrimmedLowerNoUpper(input: string)
    ensures NoUpper(Trim(Lower(input)))
  {
    LowerFixesNoUpper(input);
  }

  lemma StripKeepsNoUpper(s: string)
    requires NoUpper(s)
    ensures NoUpper(StripFromFirstDot(s))
  {
    var d := DotFrom(s, 0);
    if d < |s| {
      var e := LineEndFrom(s, d + 1);
      assert forall c :: c in s[..d] ==> c in s;
      assert forall c :: c in s[e..] ==> c in s;
    }
  }

  lemma SuffixNoUpper(t: string)
    requires NoUpper(t)
    ensures NoUpper(t + Suffix)
  {
    assert forall c :: c in Suffix ==> !IsUpper(c);
  }

  lemma LowerCharKeepsLineBreak(c: char)
    requires !IsLineTerminator(c)
    ensures !IsLineTerminator(LowerChar(c))
  {
    if IsUpper(c) {
      assert 97 <= LowerChar(c) as int <= 122;
    }
  }

  lemma LowerKeepsNoLineBreak(s: string)
    requires NoLineBreak(s)
    ensures NoLineBreak(Lower(s))
  {
    var l := Lower(s);
    forall c | c in l
      ensures !IsLineTerminator(c)
    {
      var i :| 0 <= i < |l| && l[i] == c;
      assert s[i] in s;
      LowerCharKeepsLineBreak(s[i]);
    }
  }

  lemma LowerTrimKeepsNoLineBreak(input: string)
    requires NoLineBreak(input)
    ensures NoLineBreak(Trim(Lower(input)))
  {
    LowerKeepsNoLineBreak(input);
    var l := Lower(input);
    assert forall c :: c in Trim(l) ==> c in l;
  }

  /** For single-line input, an address that does not yet name a store is cut
      before its first '.', so the part before the suffix holds no '.'. */
  lemma {:induction false} CutBeforeFirstDot(input: string)
    requires NoLineBreak(input)
    requires !Contains(Trim(Lower(input)), Suffix)
    ensures var s := Trim(Lower(input));
            var d := DotFrom(s, 0);
            NormalizeShop(input) == s[..d] + Suffix && '.' !in s[..d]
  {
    LowerTrimKeepsNoLineBreak(input);
  }

  /** For single-line input the normalised address has no whitespace at
      either end. */
  lemma {:induction false} NormalizedIsTrimmed(input: string)
    requires NoLineBreak(input)
    ensures IsTrimmed(NormalizeShop(input))
  {
    var s := Trim(Lower(input));
    if !Contains(s, Suffix) {
      CutBeforeFirstDot(input);
      var d := DotFrom(s, 0);
      assert d > 0 ==> s[..d][0] == s[0];
      SuffixKeepsTrimmed(s[..d]);
    }
  }

  /** Appending the suffix to a string that does not start with whitespace
      gives a trimmed string. */
  lemma SuffixKeepsTrimmed(t: string)
    requires t == [] || !IsSpace(t[0])
    ensures IsTrimmed(t + Suffix)
  {
    var r := t + Suffix;
    assert r[|r| - 1] == Suffix[|Suffix| - 1];
    assert r[0] == if t == [] then Suffix[0] else t[0];
  }

  /** For single-line input, normalising an already normalised address leaves
      it unchanged. */
  lemma {:induction false} NormalizeIdempotent(input: string)
    requires NoLineBreak(input)
    ensures NormalizeShop(NormalizeShop(input)) == NormalizeShop(input)
  {
    var r := NormalizeShop(input);
    NormalizedIsTrimmed(input);
    LowerFixesNoUpper(r);
    assert Trim(Lower(r)) == r;
  }

  lemma MultiLineTrimmedLower(input: string)
    requires input == ".x\ny"
    ensures Trim(Lower(input)) == input
  {
    assert NoUpper(input) by {
      assert forall c :: c in input ==> c == '.' || c == 'x' || c == '\n' || c == 'y';
    }
    LowerFixesNoUpper(input);
    assert IsTrimmed(input);
  }

  lemma MultiLineNotStore(input: string)
    requires input == ".x\ny"
    ensures !Contains(input, Suffix)
  {
    ContainsIff(input, Suffix);
  }

  lemma MultiLineStripped(input: string)
    requires input == ".x\ny"
    ensures StripFromFirstDot(input) == "\ny"
  {
    assert DotFrom(input, 0) == 0;
    assert LineEndFrom(input, 1) == 2 by {
      assert input[1] == 'x' && input[2] == '\n';
    }
    assert input[2..] == "\ny";
  }

  lemma FirstPassOnMultiLine(input: string)
    requires input == ".x\ny"
    ensures NormalizeShop(input) == "\ny" + Suffix
  {
    MultiLineTrimmedLower(input);
    MultiLineNotStore(input);
    MultiLineStripped(input);
  }

  /** Trimming a string with exactly one leading whitespace character and no
      trailing one drops that character. */
  lemma TrimOneLeadingSpace(s: string)
    requires |s| >= 2 && IsSpace(s[0]) && !IsSpace(s[1]) && !IsSpace(s[|s| - 1])
    ensures Trim(s) == s[1..]
  {
    assert TrimStart(s[1..]) == s[1..];
    assert TrimStart(s) == s[1..];
    assert TrimEnd(s[1..]) == s[1..];
  }

  lemma SecondPassNoUpper(out: string)
    requires out == "\ny" + Suffix
    ensures Lower(out) == out
  {
    assert NoUpper("\ny");
    SuffixNoUpper("\ny");
    LowerFixesNoUpper(out);
  }

  /** Normalising "\ny.myshopify.com" trims its leading line break. */
  lemma SecondPassOnMultiLine(out: string)
    requires out == "\ny" + Suffix
    ensures NormalizeShop(out) == out[1..]
  {
    SecondPassNoUpper(out);
    assert out[0] == '\n' && out[1] == 'y' && out[|out| - 1] == 'm';
    TrimOneLeadingSpace(out);
    var rest := out[1..];
    assert rest == rest[..1] + Suffix;
    ContainsSuffix(rest[..1], Suffix);
  }

  /** The regular expression stops at a line break, so for multi-line input
      the result can start with whitespace and is not a fixed point:
      ".x\ny" becomes "\ny.myshopify.com", which becomes "y.myshopify.com". */
  lemma MultiLineInputNotIdempotent(input: string)
    requires input == ".x\ny"
    ensures !IsTrimmed(NormalizeShop(input))
    ensures NormalizeShop(NormalizeShop(input)) != NormalizeShop(input)
  {
    FirstPassOnMultiLine(input);
    var once := NormalizeShop(input);
    SecondPassOnMultiLine(once);
    assert once[0] == '\n';
  }
}
