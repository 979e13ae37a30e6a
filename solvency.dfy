/**
 * The stake vault always holds at least what stakers are owed.  Only
 * unstake_tokens moves tokens out of it, since only that handler signs for
 * its authority; every other instruction leaves it alone or pays into it.
 */
module Solvency {
  import opened Types
  import opened Errors
  import opened ContestRecord
  import opened StakeRecord
  import opened Token
  import opened LedgerState
  import opened ContestInstructions
  import opened Payout
  import opened StakeInstructions

  /** Stakes exist only once the stake vault does, and it covers their sum. */
  ghost predicate StakesBacked(s: State)
  {
    if STAKE_VAULT in s.tokens then StakeTotal(s.stakes) <= s.tokens[STAKE_VAULT].amount
    else s.stakes == map[]
  }

  /** A step that keeps the stakes and does not lower the stake vault keeps
      the stakes backed. */
  lemma BackedWhenVaultKept(s: State, t: State)
    requires StakesBacked(s)
    requires t.stakes == s.stakes && t.tokens.Keys == s.tokens.Keys
    requires STAKE_VAULT in s.tokens ==> t.tokens[STAKE_VAULT].amount >= s.tokens[STAKE_VAULT].amount
    ensures StakesBacked(t)
  {
  }

  lemma CreateContestKeepsBacked(s: State, creator: Pubkey, contestId: uint64, entryFee: uint64, lockSlot: uint64, poolMint: Pubkey,
                                 contestBump: uint8, vaultBump: uint8, vaultAuthorityBump: uint8)
    requires StakesBacked(s)
    ensures StakesBacked(Commit(s, CreateContest(s, creator, contestId, entryFee, lockSlot, poolMint, contestBump, vaultBump, vaultAuthorityBump)))
  {
  }

  lemma JoinContestKeepsBacked(s: State, player: Pubkey, contestId: uint64, playerToken: Pubkey, poolMint: Pubkey)
    requires Inv(s) && StakesBacked(s)
    ensures StakesBacked(Commit(s, JoinContest(s, player, contestId, playerToken, poolMint)))
  {
    var r := JoinContest(s, player, contestId, playerToken, poolMint);
    if r.Ok? {
      assert DerivedAccountKnown(s, playerToken);
      BackedWhenVaultKept(s, r.value);
    }
  }

  lemma SendBatchKeepsBacked(s: State, creator: Pubkey, contestId: uint64, mint: Pubkey,
                             winners: seq<Pubkey>, amounts: seq<uint64>, remaining: seq<Pubkey>)
    requires StakesBacked(s)
    ensures StakesBacked(Commit(s, SendBatch(s, creator, contestId, mint, winners, amounts, remaining)))
  {
    var r := SendBatch(s, creator, contestId, mint, winners, amounts, remaining);
    if r.Ok? {
      SendBatchPays(s, creator, contestId, mint, winners, amounts, remaining);
      BackedWhenVaultKept(s, r.value);
    }
  }

  lemma InitializeStakeKeepsBacked(s: State, payer: Pubkey, poolMint: Pubkey)
    requires StakesBacked(s)
    ensures StakesBacked(Commit(s, InitializeStake(s, payer, poolMint)))
  {
  }

  lemma StakeTokensKeepsBacked(s: State, staker: Pubkey, stakerAta: Pubkey, amount: uint64, now: uint64)
    requires Inv(s) && StakesBacked(s)
    ensures StakesBacked(Commit(s, StakeTokens(s, staker, stakerAta, amount, now)))
  {
    var r := StakeTokens(s, staker, stakerAta, amount, now);
    if r.Ok? {
      assert DerivedAccountKnown(s, stakerAta);
      StakeTotalUpdate(s.stakes, staker, r.value.stakes[staker]);
    }
  }

  lemma UnstakeTokensKeepsBacked(s: State, staker: Pubkey, stakerAta: Pubkey, amount: uint64, now: uint64, lockPeriod: uint64)
    requires StakesBacked(s)
    ensures StakesBacked(Commit(s, UnstakeTokens(s, staker, stakerAta, amount, now, lockPeriod)))
  {
    var r := UnstakeTokens(s, staker, stakerAta, amount, now, lockPeriod);
    if r.Ok? {
      StakeTotalUpdate(s.stakes, staker, r.value.stakes[staker]);
    }
  }

  /** One staker's stake is part of the total. */
  lemma StakedWithinTotal(stakes: map<Pubkey, StakeAccount>, staker: Pubkey)
    ensures Staked(stakes, staker) <= StakeTotal(stakes)
  {
    if staker in stakes {
      StakeTotalRemove(stakes, staker);
    }
  }

  /** Once the lock has run out, a staker can always take out any part of the
      stake into an account of the vault's mint with room for it: the vault
      never lacks the tokens. */
  lemma UnstakeCanPay(s: State, staker: Pubkey, stakerAta: Pubkey, amount: uint64, now: uint64, lockPeriod: uint64)
    requires Inv(s) && StakesBacked(s)
    requires UnstakeAccountsValid(s, staker, stakerAta)
    requires s.stakes[staker].startSlot + lockPeriod <= now
    requires 0 < amount <= s.stakes[staker].amount
    requires s.tokens[stakerAta].mint == s.tokens[STAKE_VAULT].mint
    requires stakerAta == STAKE_VAULT || s.tokens[stakerAta].amount + amount <= UINT64_MAX
    ensures UnstakeTokens(s, staker, stakerAta, amount, now, lockPeriod).Ok?
  {
    StakedWithinTotal(s.stakes, staker);
    assert DerivedAccountKnown(s, STAKE_VAULT);
  }
}
