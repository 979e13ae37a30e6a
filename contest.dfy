/** The contest account: its record, its status and its reserved size. */
module ContestRecord {
  import opened Types

  datatype ContestStatus = Open | Locked | AnswerKeyPosted | Settled | Cancelled

  /** A 32-byte payout root. */
  type Root = r: seq<uint8> | |r| == 32 witness ZERO_ROOT

  const ZERO_ROOT: seq<uint8> := [
    0, 0, 0, 0, 0, 0, 0, 0, 0, 0, 0, 0, 0, 0, 0, 0,
    0, 0, 0, 0, 0, 0, 0, 0, 0, 0, 0, 0, 0, 0, 0, 0]

  /** Every field of the on-chain record; the widths are in the field types
      (answerKey is a u16 bitmask). */
  datatype Contest = Contest(
    creator: Pubkey,
    contestId: uint64,
    poolMint: Pubkey,
    entryFee: uint64,
    lockSlot: uint64,
    status: ContestStatus,
    totalEntries: uint32,
    answerKey: bv16,
    payoutRoot: Root,
    winnerCount: uint32,
    paidSoFar: uint64,
    contestBump: uint8,
    vaultBump: uint8,
    vaultAuthorityBump: uint8)

  /** The forward moves of the status, reflexively and transitively closed:
      Open -> Locked -> AnswerKeyPosted. */
  predicate StatusAdvances(a: ContestStatus, b: ContestStatus)
  {
    || a == b
    || (a == Open && (b == Locked || b == AnswerKeyPosted))
    || (a == Locked && b == AnswerKeyPosted)
  }

  lemma StatusAdvancesTransitive(a: ContestStatus, b: ContestStatus, c: ContestStatus)
    requires StatusAdvances(a, b) && StatusAdvances(b, c)
    ensures StatusAdvances(a, c)
  {
  }

  /** The record's fields with their serialized widths, in declaration order
      as Borsh lays them out (the status enum takes one tag byte): the keys
      and terms of the contest, then its progress and the bumps. */
  const CONTEST_TERMS: seq<Field> := [
    Field("creator", 32), Field("contest_id", 8), Field("pool_mint", 32),
    Field("entry_fee", 8), Field("lock_slot", 8)]
  const CONTEST_PROGRESS: seq<Field> := [
    Field("status", 1), Field("total_entries", 4), Field("answer_key", 2),
    Field("payout_root", 32), Field("winner_count", 4), Field("paid_so_far", 8),
    Field("contest_bump", 1), Field("vault_bump", 1), Field("vault_authority_bump", 1)]
  const CONTEST_LAYOUT: seq<Field> := CONTEST_TERMS + CONTEST_PROGRESS

  /** The space reserved for a contest account, written as the program sums it. */
  const CONTEST_LEN: nat :=
    8 +
    32 + 8 + 32 + 8 + 8 +
    1 + 4 + 2 + 32 + 4 + 8 +
    1 + 1 + 1

  /** The reserved space is exactly the discriminator plus the fields. */
  lemma ContestLenFitsLayout()
    ensures CONTEST_LEN == DISCRIMINATOR_LEN + LayoutSize(CONTEST_LAYOUT)
    ensures CONTEST_LEN == 150
  {
    LayoutSizeSplit(CONTEST_LAYOUT, |CONTEST_TERMS|);
    assert CONTEST_LAYOUT[..|CONTEST_TERMS|] == CONTEST_TERMS;
    assert CONTEST_LAYOUT[|CONTEST_TERMS|..] == CONTEST_PROGRESS;
  }
}
