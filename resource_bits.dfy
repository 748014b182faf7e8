/**
 * The two helper macros of the MIMXRT685S power manager that read per-resource
 * information out of arrays of unsigned 32-bit words: PM_RESC_MASK reads one
 * bit per resource (32 resources to a word), PM_RESC_GROUP reads one 4-bit
 * group code per resource (8 resources to a word).
 *
 * A word is an unsigned 32-bit value; `w >> k` on it is `w / 2^k`, `& 1U` is
 * `% 2` and `& 0xFU` is `% 16`. Beside the macros stand reference layouts
 * that place a value for every resource, and proofs that the macros read back
 * exactly that value, so that distinct resources never share a position.
 */
module ResourceBits {
  import opened Resources
  import opened WordArith

  /** One past the largest unsigned 32-bit value. */
  const WORD_LIMIT: nat := 0x1_0000_0000

  /** An unsigned 32-bit word (uint32_t). */
  type Word = w: int | 0 <= w < WORD_LIMIT

  /** An unsigned 8-bit value (uint8_t). */
  type Byte = b: int | 0 <= b < 256

  /** A 4-bit group code. */
  type Nibble = c: int | 0 <= c < 16

  /** Words of `rescMask` needed to give every resource a bit. */
  const MASK_WORDS: nat := 2

  /** Words of `groupSlice` needed to give every resource a nibble. */
  const GROUP_WORDS: nat := 8

  /**
   * PM_RESC_MASK: bit `resc % 32` of word `resc / 32`, as 0 or 1. The word
   * must exist; the macro does no bounds check. The bit is 1 exactly when
   * the low `resc % 32 + 1` bits of the word reach 2^(resc % 32).
   */
  function RescMask(rescMask: seq<Word>, resc: nat): (bit: nat)
    requires resc / 32 < |rescMask|
    ensures bit <= 1
    ensures bit == 1 <==> rescMask[resc / 32] % Pow2(resc % 32 + 1) >= Pow2(resc % 32)
  {
    var w, k := rescMask[resc / 32], resc % 32;
    FieldOfQuotient(w, Pow2(k), 2);
    (w / Pow2(k)) % 2
  }

  /**
   * PM_RESC_GROUP: nibble `resc % 8` of word `resc / 8`, as a value 0 .. 15.
   * The word must exist; the macro does no bounds check. The code is the
   * word's bits 4 * (resc % 8) .. 4 * (resc % 8) + 3, cut out from below.
   */
  function RescGroup(groupSlice: seq<Word>, resc: nat): (code: nat)
    requires resc / 8 < |groupSlice|
    ensures code <= 0xF
    ensures code == (groupSlice[resc / 8] % Pow2(4 * (resc % 8) + 4)) / Pow2(4 * (resc % 8))
  {
    var w, s := groupSlice[resc / 8], 4 * (resc % 8);
    FieldOfQuotient(w, Pow2(s), 16);
    Pow2Add(s, 4);
    (w / Pow2(s)) % 16
  }

  /**
   * Every resource's bit lies in one of the MASK_WORDS words, the last
   * resource needs the last of them, and distinct resources have distinct
   * (word, bit) positions.
   */
  lemma MaskPositions(r1: Resource, r2: Resource)
    ensures r1.Index() / 32 < MASK_WORDS
    ensures (RESC_MAX_NUM - 1) / 32 == MASK_WORDS - 1
    ensures r1 != r2 ==> (r1.Index() / 32, r1.Index() % 32) != (r2.Index() / 32, r2.Index() % 32)
  {
    ResourceAtIndex(r1);
    IndexInjective(r1, r2);
  }

  /**
   * Every resource's nibble lies in one of the GROUP_WORDS words at a shift
   * of at most 28, the last resource needs the last word, and distinct
   * resources have distinct (word, nibble) positions.
   */
  lemma GroupPositions(r1: Resource, r2: Resource)
    ensures r1.Index() / 8 < GROUP_WORDS
    ensures 4 * (r1.Index() % 8) <= 28
    ensures (RESC_MAX_NUM - 1) / 8 == GROUP_WORDS - 1
    ensures r1 != r2 ==> (r1.Index() / 8, r1.Index() % 8) != (r2.Index() / 8, r2.Index() % 8)
  {
    ResourceAtIndex(r1);
    IndexInjective(r1, r2);
  }

  /** The number whose bit k is set exactly when flags[k] holds. */
  function PackBits(flags: seq<bool>): (w: nat)
    ensures w < Pow2(|flags|)
  {
    if |flags| == 0 then 0
    else 2 * PackBits(flags[1..]) + (if flags[0] then 1 else 0)
  }

  /** Past the lowest bit, bit k of a packed word is bit k - 1 of the rest. */
  lemma PackBitsShift(flags: seq<bool>, k: nat)
    requires |flags| > 0 && k > 0
    ensures PackBits(flags) / Pow2(k) == PackBits(flags[1..]) / Pow2(k - 1)
  {
    ShiftPastLowDigit(PackBits(flags), 2, PackBits(flags[1..]), if flags[0] then 1 else 0, Pow2(k - 1));
  }

  /** Bit k of a packed word is flags[k], and 0 past the end of the flags. */
  lemma {:induction false} PackBitsAt(flags: seq<bool>, k: nat)
    ensures (PackBits(flags) / Pow2(k)) % 2 == if k < |flags| && flags[k] then 1 else 0
  {
    if |flags| == 0 {
      DivModUnique(0, Pow2(k), 0, 0);
    } else if k == 0 {
      DivModUnique(PackBits(flags), 2, PackBits(flags[1..]), if flags[0] then 1 else 0);
    } else {
      PackBitsAt(flags[1..], k - 1);
      PackBitsShift(flags, k);
    }
  }

  /** 2^16, computed in steps. */
  lemma Pow2Sixteen()
    ensures Pow2(16) == 0x1_0000
  {
    assert Pow2(4) == 16;
    Pow2Add(4, 4);
    Pow2Add(8, 8);
  }

  /** 2^32 is one past the largest word. */
  lemma Pow2ThirtyTwo()
    ensures Pow2(32) == WORD_LIMIT
  {
    Pow2Sixteen();
    Pow2Add(16, 16);
  }

  /** A packed chunk of at most 32 bits fits in a word. */
  lemma Pow2Word(n: nat)
    requires n <= 32
    ensures Pow2(n) <= WORD_LIMIT
  {
    Pow2Monotone(n, 32);
    Pow2ThirtyTwo();
  }

  /**
   * The `rescMask` words in which the bit of resource i is set exactly when
   * flags[i] holds: bit i % 32 of word i / 32.
   */
  function MaskWords(flags: seq<bool>): (words: seq<Word>)
    ensures |words| == (|flags| + 31) / 32
  {
    if |flags| == 0 then []
    else
      var chunk := if |flags| <= 32 then flags else flags[..32];
      Pow2Word(|chunk|);
      [PackBits(chunk)] + if |flags| <= 32 then [] else MaskWords(flags[32..])
  }

  /** A resource past the first word reads the same as it does in the words for the remaining flags. */
  lemma RescMaskLaterWord(flags: seq<bool>, resc: nat)
    requires 32 <= resc < |flags|
    ensures resc / 32 < |MaskWords(flags)| && (resc - 32) / 32 < |MaskWords(flags[32..])|
    ensures RescMask(MaskWords(flags), resc) == RescMask(MaskWords(flags[32..]), resc - 32)
  {
    assert MaskWords(flags)[resc / 32] == MaskWords(flags[32..])[(resc - 32) / 32];
  }

  /** PM_RESC_MASK reads back, for every resource, exactly the flag the layout placed. */
  lemma {:induction false} RescMaskReadsMaskWords(flags: seq<bool>, resc: nat)
    requires resc < |flags|
    ensures resc / 32 < |MaskWords(flags)|
    ensures RescMask(MaskWords(flags), resc) == if flags[resc] then 1 else 0
  {
    if resc < 32 {
      var chunk := if |flags| <= 32 then flags else flags[..32];
      assert MaskWords(flags)[0] == PackBits(chunk);
      PackBitsAt(chunk, resc);
    } else {
      RescMaskReadsMaskWords(flags[32..], resc - 32);
      RescMaskLaterWord(flags, resc);
    }
  }

  /** Changing the flag of one resource changes what PM_RESC_MASK reads for no other resource. */
  lemma RescMaskIndependent(flags: seq<bool>, resc: nat, other: nat, on: bool)
    requires resc < |flags| && other < |flags| && resc != other
    ensures other / 32 < |MaskWords(flags[resc := on])|
    ensures RescMask(MaskWords(flags[resc := on]), other) == RescMask(MaskWords(flags), other)
    ensures RescMask(MaskWords(flags[resc := on]), resc) == if on then 1 else 0
  {
    RescMaskReadsMaskWords(flags, other);
    RescMaskReadsMaskWords(flags[resc := on], other);
    RescMaskReadsMaskWords(flags[resc := on], resc);
  }

  /** The number whose nibble k holds codes[k]. */
  function PackNibbles(codes: seq<Nibble>): (w: nat)
    ensures w < Pow2(4 * |codes|)
  {
    if |codes| == 0 then 0
    else
      Pow2Add(4, 4 * (|codes| - 1));
      16 * PackNibbles(codes[1..]) + codes[0]
  }

  /** One more nibble multiplies the range by 16. */
  lemma Pow2Nibble(k: nat)
    requires k > 0
    ensures Pow2(4 * k) == 16 * Pow2(4 * (k - 1))
  {
    assert Pow2(4) == 16;
    Pow2Add(4, 4 * (k - 1));
  }

  /** Past the lowest nibble, nibble k of a packed word is nibble k - 1 of the rest. */
  lemma PackNibblesShift(codes: seq<Nibble>, k: nat)
    requires |codes| > 0 && k > 0
    ensures PackNibbles(codes) / Pow2(4 * k) == PackNibbles(codes[1..]) / Pow2(4 * (k - 1))
  {
    Pow2Nibble(k);
    ShiftPastLowDigit(PackNibbles(codes), 16, PackNibbles(codes[1..]), codes[0], Pow2(4 * (k - 1)));
  }

  /** Nibble k of a packed word is codes[k], and 0 past the end of the codes. */
  lemma {:induction false} PackNibblesAt(codes: seq<Nibble>, k: nat)
    ensures (PackNibbles(codes) / Pow2(4 * k)) % 16 == if k < |codes| then codes[k] else 0
  {
    if |codes| == 0 {
      DivModUnique(0, Pow2(4 * k), 0, 0);
    } else if k == 0 {
      DivModUnique(PackNibbles(codes), 16, PackNibbles(codes[1..]), codes[0]);
    } else {
      PackNibblesAt(codes[1..], k - 1);
      PackNibblesShift(codes, k);
    }
  }

  /**
   * The `groupSlice` words in which the nibble of resource i holds codes[i]:
   * nibble i % 8 of word i / 8.
   */
  function GroupWords(codes: seq<Nibble>): (words: seq<Word>)
    ensures |words| == (|codes| + 7) / 8
  {
    if |codes| == 0 then []
    else
      var chunk := if |codes| <= 8 then codes else codes[..8];
      Pow2Word(4 * |chunk|);
      [PackNibbles(chunk)] + if |codes| <= 8 then [] else GroupWords(codes[8..])
  }

  /** A resource past the first word reads the same as it does in the words for the remaining codes. */
  lemma RescGroupLaterWord(codes: seq<Nibble>, resc: nat)
    requires 8 <= resc < |codes|
    ensures resc / 8 < |GroupWords(codes)| && (resc - 8) / 8 < |GroupWords(codes[8..])|
    ensures RescGroup(GroupWords(codes), resc) == RescGroup(GroupWords(codes[8..]), resc - 8)
  {
    assert GroupWords(codes)[resc / 8] == GroupWords(codes[8..])[(resc - 8) / 8];
  }

  /** PM_RESC_GROUP reads back, for every resource, exactly the code the layout placed. */
  lemma {:induction false} RescGroupReadsGroupWords(codes: seq<Nibble>, resc: nat)
    requires resc < |codes|
    ensures resc / 8 < |GroupWords(codes)|
    ensures RescGroup(GroupWords(codes), resc) == codes[resc]
  {
    if resc < 8 {
      var chunk := if |codes| <= 8 then codes else codes[..8];
      assert GroupWords(codes)[0] == PackNibbles(chunk);
      PackNibblesAt(chunk, resc);
    } else {
      RescGroupReadsGroupWords(codes[8..], resc - 8);
      RescGroupLaterWord(codes, resc);
    }
  }

  /** Changing the code of one resource changes what PM_RESC_GROUP reads for no other resource. */
  lemma RescGroupIndependent(codes: seq<Nibble>, resc: nat, other: nat, code: Nibble)
    requires resc < |codes| && other < |codes| && resc != other
    ensures other / 8 < |GroupWords(codes[resc := code])|
    ensures RescGroup(GroupWords(codes[resc := code]), other) == RescGroup(GroupWords(codes), other)
    ensures RescGroup(GroupWords(codes[resc := code]), resc) == code
  {
    RescGroupReadsGroupWords(codes, other);
    RescGroupReadsGroupWords(codes[resc := code], other);
    RescGroupReadsGroupWords(codes[resc := code], resc);
  }

  /** For the 57 resources the layouts take exactly MASK_WORDS and GROUP_WORDS words. */
  lemma LayoutSizes(flags: seq<bool>, codes: seq<Nibble>)
    requires |flags| == RESC_MAX_NUM && |codes| == RESC_MAX_NUM
    ensures |MaskWords(flags)| == MASK_WORDS
    ensures |GroupWords(codes)| == GROUP_WORDS
  {
  }

  /** PDSLEEPCFG1 masks of the dedicated peripheral SRAMs: array and periphery power-down. */
  datatype EnabledResourcesPrams = EnabledResourcesPrams(apdMask: Word, ppdMask: Word)

  /** A peripheral resource that is enabled: its group (uint8_t) and its mask within that group. */
  datatype EnabledResourcesPeripherals = EnabledResourcesPeripherals(group: Byte, mask: Word)
}
