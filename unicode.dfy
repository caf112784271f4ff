/** Classification of Unicode code points used by the character code when the
    runtime is built with Unicode strings: noncharacters, private-use code
    points and the two surrogate halves. Character codes are integers; the
    bitwise `& 0xFFFF` of the source is Low16 below. */
module Unicode {
  import opened Config

  /** The low 16 bits of a character code: what `c & 0xFFFF` yields on a
      two's complement integer, for negative codes too. */
  function Low16(c: int): (r: int)
    ensures 0 <= r <= 0xFFFF
    ensures (c - r) % 0x10000 == 0
  {
    c % 0x10000
  }

  /** ECL_UCS_NONCHARACTER, with the redundant upper test of the source kept. */
  predicate NonCharacter(c: int)
    ensures NonCharacter(c) ==> Low16(c) >= 0xFDD0
  {
    (0xFDD0 <= c <= 0xFDEF) || (Low16(c) >= 0xFFFE && Low16(c) <= 0xFFFF)
  }

  /** ECL_UCS_PRIVATE as the source writes it: the middle range ends at
      0xFFFD, below its own start. */
  predicate PrivateUseAsWritten(c: int)
    ensures PrivateUseAsWritten(c) ==> PrivateUse(c)
  {
    (0xE000 <= c <= 0xF8FF) || (0xF0000 <= c <= 0xFFFD) || (0x100000 <= c <= 0x10FFFD)
  }

  /** Private use as Unicode assigns it: the BMP area and the supplementary
      areas A (plane 15) and B (plane 16). */
  predicate PrivateUse(c: int)
    ensures PrivateUse(c) ==> 0xE000 <= c <= 0x10FFFD && Low16(c) <= 0xFFFD
  {
    (0xE000 <= c <= 0xF8FF) || (0xF0000 <= c <= 0xFFFFD) || (0x100000 <= c <= 0x10FFFD)
  }

  /** ECL_UCS_HIGH_SURROGATE */
  predicate HighSurrogate(c: int)
    ensures HighSurrogate(c) ==> !LowSurrogate(c) && !NonCharacter(c) && !PrivateUse(c)
  {
    0xD800 <= c <= 0xDBFF
  }

  /** ECL_UCS_LOW_SURROGATE */
  predicate LowSurrogate(c: int)
    ensures LowSurrogate(c) ==> !NonCharacter(c) && !PrivateUse(c)
  {
    0xDC00 <= c <= 0xDFFF
  }

  /** The first of the two noncharacters that end plane `p`. */
  function PlaneEnd(p: int): int
  {
    p * 0x10000 + 0xFFFE
  }

  /** Within the Unicode code space the noncharacters are U+FDD0..U+FDEF and
      the last two code points of each of the 17 planes. */
  lemma NonCharacterByPlane(c: int)
    requires 0 <= c < CharCodeLimit(true)
    ensures NonCharacter(c) <==>
      (0xFDD0 <= c <= 0xFDEF) || exists p :: 0 <= p <= 16 && (c == PlaneEnd(p) || c == PlaneEnd(p) + 1)
  {
    var p := c / 0x10000;
    assert c == p * 0x10000 + Low16(c);
    assert 0 <= p <= 16;
    if Low16(c) >= 0xFFFE {
      assert c == PlaneEnd(p) || c == PlaneEnd(p) + 1;
    }
    forall q | 0 <= q <= 16 && (c == PlaneEnd(q) || c == PlaneEnd(q) + 1)
      ensures Low16(c) >= 0xFFFE
    {
      assert c - q * 0x10000 == Low16(c) by {
        assert (c - q * 0x10000) % 0x10000 == c % 0x10000;
      }
    }
  }

  /** The middle range of PrivateUseAsWritten is empty: the predicate accepts
      only the BMP area and plane 16. */
  lemma PrivateUseAsWrittenSkipsPlane15(c: int)
    ensures PrivateUseAsWritten(c) <==> (0xE000 <= c <= 0xF8FF) || (0x100000 <= c <= 0x10FFFD)
    ensures 0xF0000 <= c <= 0xFFFFD ==> !PrivateUseAsWritten(c) && PrivateUse(c)
  {
  }

  /** The corrected predicate accepts what the source accepts plus exactly
      the plane-15 private-use area U+F0000..U+FFFFD. */
  lemma PrivateUseCorrected(c: int)
    ensures PrivateUse(c) <==> PrivateUseAsWritten(c) || 0xF0000 <= c <= 0xFFFFD
    ensures 0xF0000 <= c <= 0xFFFFD ==> !PrivateUseAsWritten(c)
  {
  }

  /** Every private-use code point is a Unicode character code, and none is a
      noncharacter or a surrogate. */
  lemma PrivateUseIsAssignable(c: int)
    requires PrivateUse(c)
    ensures 0 <= c < CharCodeLimit(true)
    ensures !NonCharacter(c) && !HighSurrogate(c) && !LowSurrogate(c)
  {
  }

  /** The two surrogate halves are disjoint and together cover D800..DFFF, and
      no surrogate is a noncharacter. */
  lemma SurrogatesPartition(c: int)
    ensures !(HighSurrogate(c) && LowSurrogate(c))
    ensures HighSurrogate(c) || LowSurrogate(c) <==> 0xD800 <= c <= 0xDFFF
    ensures HighSurrogate(c) || LowSurrogate(c) ==> !NonCharacter(c)
  {
  }

  /** In this build characters are 8 bits wide, and no 8-bit code falls in any
      of the four classes. */
  lemma NarrowCodesUnclassified(c: int)
    requires 0 <= c < CharCodeLimit(Unicode)
    ensures !NonCharacter(c) && !PrivateUse(c) && !HighSurrogate(c) && !LowSurrogate(c)
  {
  }
}
