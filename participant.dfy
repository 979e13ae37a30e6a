/** The participant account and the question bitmasks it stores. */
module ParticipantRecord {
  import opened Types

  /** One player's entry in one contest.  Both masks are u16, so at most 16
      questions can be represented. */
  datatype Participant = Participant(player: Pubkey, attemptMask: bv16, answerBits: bv16)

  /** Number of bits set in a mask (Rust's `count_ones`). */
  function PopCount(m: bv16): nat
    decreases m
  {
    if m == 0 then 0 else (if m & 1 == 1 then 1 else 0) + PopCount(m >> 1)
  }

  /** `a` sets no bit outside `m`, checked as the program does, by a == a & m. */
  predicate IsSubMask(a: bv16, m: bv16)
  {
    a == a & m
  }

  /** The program's subset test is the same as "no bit of a outside m". */
  lemma SubMaskHasNoStrayBits(a: bv16, m: bv16)
    ensures IsSubMask(a, m) <==> a & !m == 0
  {
  }

  /** A sub-mask never has more bits set than its mask: a player answers at
      most the questions they attempted. */
  lemma {:induction false} SubMaskPopCount(a: bv16, m: bv16)
    requires IsSubMask(a, m)
    ensures PopCount(a) <= PopCount(m)
    decreases m
  {
    if m != 0 && a != 0 {
      SubMaskShift(a, m);
      SubMaskLowBit(a, m);
      ShiftDecreases(m);
      SubMaskPopCount(a >> 1, m >> 1);
    }
  }

  lemma SubMaskShift(a: bv16, m: bv16)
    requires IsSubMask(a, m)
    ensures IsSubMask(a >> 1, m >> 1)
  {
  }

  lemma SubMaskLowBit(a: bv16, m: bv16)
    requires IsSubMask(a, m)
    ensures a & 1 == 1 ==> m & 1 == 1
  {
  }

  lemma ShiftDecreases(m: bv16)
    requires m != 0
    ensures m >> 1 < m
  {
  }

  const PARTICIPANT_LAYOUT: seq<Field> :=
    [Field("player", 32), Field("attempt_mask", 2), Field("answer_bits", 2)]

  /** The space reserved for a participant account, written as the program
      sums it; its last byte is labelled a bump but no such field exists. */
  const PARTICIPANT_LEN: nat := 8 + 32 + 2 + 2 + 1

  /** The reservation is one byte larger than the record needs. */
  lemma ParticipantLenHasSpareByte()
    ensures PARTICIPANT_LEN == DISCRIMINATOR_LEN + LayoutSize(PARTICIPANT_LAYOUT) + 1
    ensures PARTICIPANT_LEN == 45
  {
  }
}
