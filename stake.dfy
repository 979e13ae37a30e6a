/** The per-staker stake account. */
module StakeRecord {
  import opened Types

  /** amount is unsigned, so a stake balance is never negative. */
  datatype StakeAccount = StakeAccount(owner: Pubkey, amount: uint64, startSlot: uint64)

  /** The zero-filled record a freshly created account deserializes to. */
  const EMPTY_STAKE: StakeAccount := StakeAccount(DEFAULT_KEY, 0, 0)

  const STAKE_LAYOUT: seq<Field> :=
    [Field("owner", 32), Field("amount", 8), Field("start_slot", 8)]

  /** The space reserved for a stake account, written as the program sums it. */
  const STAKE_ACCOUNT_LEN: nat := 8 + 32 + 8 + 8 + 1

  /** The reservation covers the discriminator and the fields, with one spare byte. */
  lemma StakeLenHasSpareByte()
    ensures STAKE_ACCOUNT_LEN == DISCRIMINATOR_LEN + LayoutSize(STAKE_LAYOUT) + 1
    ensures STAKE_ACCOUNT_LEN == 57
  {
  }

  /** What `staker` has staked: 0 before its stake account exists. */
  function Staked(stakes: map<Pubkey, StakeAccount>, staker: Pubkey): nat
  {
    if staker in stakes then stakes[staker].amount else 0
  }

  /** The sum of all stakes. */
  ghost function StakeTotal(stakes: map<Pubkey, StakeAccount>): nat
    decreases |stakes.Keys|
  {
    if stakes == map[] then 0
    else
      var k :| k in stakes;
      stakes[k].amount + StakeTotal(stakes - {k})
  }

  /** The sum can be split at any staker, not only the one it picks. */
  lemma {:induction false} StakeTotalRemove(stakes: map<Pubkey, StakeAccount>, k: Pubkey)
    requires k in stakes
    ensures StakeTotal(stakes) == stakes[k].amount + StakeTotal(stakes - {k})
    decreases |stakes.Keys|
  {
    var j :| j in stakes && StakeTotal(stakes) == stakes[j].amount + StakeTotal(stakes - {j});
    if j != k {
      assert (stakes - {j}).Keys == stakes.Keys - {j};
      assert (stakes - {k}).Keys == stakes.Keys - {k};
      StakeTotalRemove(stakes - {j}, k);
      StakeTotalRemove(stakes - {k}, j);
      assert stakes - {j} - {k} == stakes - {k} - {j};
    }
  }

  /** Replacing one staker's record changes the sum by the difference. */
  lemma StakeTotalUpdate(stakes: map<Pubkey, StakeAccount>, k: Pubkey, v: StakeAccount)
    ensures StakeTotal(stakes[k := v]) == StakeTotal(stakes) - Staked(stakes, k) + v.amount
  {
    StakeTotalRemove(stakes[k := v], k);
    if k in stakes {
      StakeTotalRemove(stakes, k);
      assert stakes[k := v] - {k} == stakes - {k};
    } else {
      assert stakes[k := v] - {k} == stakes;
    }
  }
}
