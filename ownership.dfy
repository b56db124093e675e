/**
  The two string functions of the ownership program: `calc_length`, the byte
  length of a `String`, and `first_word`, the slice before the first ASCII
  space. A string is seen through `as_bytes()`, as its sequence of UTF-8
  bytes.
*/
module Ownership {
  import opened RustInts

  /** The bytes of a `str`. */
  type Bytes = seq<U8>

  /** The byte literal `b' '`. */
  const Space: U8 := 0x20

  /** `calc_length`: `s.len()`, which counts bytes, not characters. */
  function CalcLength(s: Bytes): (n: nat)
    ensures n == |s|
  {
    |s|
  }

  /**
    The value `first_word` returns: everything before the first space, or the
    whole string when it holds none.
  */
  function PrefixBeforeSpace(s: Bytes): (w: Bytes)
    ensures |w| <= |s| && w == s[..|w|]
    ensures Space !in w
    ensures |w| < |s| ==> s[|w|] == Space
  {
    if s == [] || s[0] == Space then [] else [s[0]] + PrefixBeforeSpace(s[1..])
  }

  /**
    The three facts `PrefixBeforeSpace` ensures pin its result down: any
    space-free prefix that stops at a space or at the end is that result.
  */
  lemma PrefixBeforeSpaceUnique(s: Bytes, w: Bytes)
    requires |w| <= |s| && w == s[..|w|]
    requires Space !in w
    requires |w| < |s| ==> s[|w|] == Space
    ensures w == PrefixBeforeSpace(s)
  {
  }

  /** When `s[i]` is the first space, the result is `s[0..i]`. */
  lemma PrefixAtFirstSpace(s: Bytes, i: nat)
    requires i < |s| && s[i] == Space
    requires Space !in s[..i]
    ensures PrefixBeforeSpace(s) == s[..i]
  {
  }

  /** The result is the whole string exactly when the string holds no space. */
  lemma PrefixWholeIffNoSpace(s: Bytes)
    ensures PrefixBeforeSpace(s) == s <==> Space !in s
  {
  }

  /** The empty string maps to the empty string. */
  lemma PrefixOfEmpty()
    ensures PrefixBeforeSpace([]) == []
  {
  }

  /** Taking the first word of a first word changes nothing. */
  lemma PrefixBeforeSpaceIdempotent(s: Bytes)
    ensures PrefixBeforeSpace(PrefixBeforeSpace(s)) == PrefixBeforeSpace(s)
  {
  }

  /**
    The first word is no longer than the string, and as long as it exactly
    when the string holds no space.
  */
  lemma FirstWordLength(s: Bytes)
    ensures CalcLength(PrefixBeforeSpace(s)) <= CalcLength(s)
    ensures CalcLength(PrefixBeforeSpace(s)) == CalcLength(s) <==> Space !in s
  {
  }

  /**
    `first_word`: scan the bytes in order and return the slice before the
    first space as soon as one is seen; return the whole string otherwise.
  */
  method FirstWord(s: Bytes) returns (w: Bytes)
    ensures |w| <= |s| && w == s[..|w|]
    ensures Space !in w
    ensures |w| < |s| ==> s[|w|] == Space
    ensures w == PrefixBeforeSpace(s)
  {
    for i := 0 to |s|
      invariant Space !in s[..i]
    {
      if s[i] == Space {
        PrefixAtFirstSpace(s, i);
        return s[..i];
      }
      assert s[..i + 1] == s[..i] + [s[i]];
    }
    assert s[..|s|] == s;
    PrefixWholeIffNoSpace(s);
    return s;
  }

  /** `main` measures `String::from("hello")`: five bytes. */
  lemma MainLength()
    ensures CalcLength([0x68, 0x65, 0x6C, 0x6C, 0x6F]) == 5
  {
  }
}
