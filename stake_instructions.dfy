/**
 * The staking instructions: one stake vault at ("stake_vault") owned by the
 * derived authority ("stake_vault_auth"), and one stake account per staker
 * at ("stake", staker).  Unstaking waits `lockPeriod` slots after the last
 * stake.
 */
module StakeInstructions {
  import opened Types
  import opened Errors
  import opened StakeRecord
  import opened Token
  import opened LedgerState

  /** initialize_stake: create the empty stake vault for `poolMint`. */
  function InitializeStake(s: State, payer: Pubkey, poolMint: Pubkey): (r: Result<State>)
    ensures r.Ok? <==> CanSign(payer) && STAKE_VAULT !in s.tokens
    ensures r.Ok? ==> r.value == s.(tokens := s.tokens[STAKE_VAULT := TokenAccount(poolMint, STAKE_AUTHORITY, 0)])
    ensures CanSign(payer) && STAKE_VAULT in s.tokens ==> r == Err(Anchor(AccountAlreadyInUse))
  {
    if !CanSign(payer) then Err(Anchor(AccountNotSigner))
    else if STAKE_VAULT in s.tokens then Err(Anchor(AccountAlreadyInUse))
    else Ok(s.(tokens := s.tokens[STAKE_VAULT := TokenAccount(poolMint, STAKE_AUTHORITY, 0)]))
  }

  /** The accounts stake_tokens loads exist and the staker signed. */
  ghost predicate StakeAccountsLoaded(s: State, staker: Pubkey, stakerAta: Pubkey)
  {
    CanSign(staker) && STAKE_VAULT in s.tokens && stakerAta in s.tokens
  }

  /** stake_tokens: move `amount` from the staker's token account into the
      stake vault and add it to the stake, creating the stake account on first
      use.  Every stake restarts the lock at `now`.  An amount of 0 is
      accepted; a stake that would pass 2^64 - 1 panics. */
  function StakeTokens(s: State, staker: Pubkey, stakerAta: Pubkey, amount: uint64, now: uint64): (r: Result<State>)
    ensures r.Ok? <==>
      && StakeAccountsLoaded(s, staker, stakerAta)
      && s.tokens[stakerAta].owner == staker
      && s.tokens[stakerAta].mint == s.tokens[STAKE_VAULT].mint
      && amount <= s.tokens[stakerAta].amount
      && (stakerAta == STAKE_VAULT || s.tokens[STAKE_VAULT].amount + amount <= UINT64_MAX)
      && Staked(s.stakes, staker) + amount <= UINT64_MAX
    ensures !CanSign(staker) ==> r == Err(Anchor(AccountNotSigner))
    ensures CanSign(staker) && !StakeAccountsLoaded(s, staker, stakerAta) ==> r == Err(Anchor(AccountNotInitialized))
    ensures StakeAccountsLoaded(s, staker, stakerAta) && s.tokens[stakerAta].amount < amount
            ==> r == Err(Token(InsufficientFunds))
    ensures StakeAccountsLoaded(s, staker, stakerAta) && Transfer(s.tokens, stakerAta, STAKE_VAULT, staker, amount, None).Err?
            ==> r == Err(Transfer(s.tokens, stakerAta, STAKE_VAULT, staker, amount, None).error) && r.error.Token?
    ensures StakeAccountsLoaded(s, staker, stakerAta) && Transfer(s.tokens, stakerAta, STAKE_VAULT, staker, amount, None).Ok?
            && Staked(s.stakes, staker) + amount > UINT64_MAX
            ==> r == Err(Panic)
    ensures r.Ok? ==>
      && r.value.stakes == s.stakes[staker := StakeAccount(staker, Staked(s.stakes, staker) + amount, now)]
      && r.value.contests == s.contests && r.value.participants == s.participants
    ensures r.Ok? ==> SameTokenAccounts(s.tokens, r.value.tokens)
    ensures r.Ok? ==> forall a :: a in s.tokens ==>
      r.value.tokens[a].amount == s.tokens[a].amount
           - (if a == stakerAta then amount else 0) + (if a == STAKE_VAULT then amount else 0)
  {
    if !CanSign(staker) then Err(Anchor(AccountNotSigner))
    else if STAKE_VAULT !in s.tokens || stakerAta !in s.tokens then Err(Anchor(AccountNotInitialized))
    else
      var acct := if staker in s.stakes then s.stakes[staker] else EMPTY_STAKE;
      var paid := Transfer(s.tokens, stakerAta, STAKE_VAULT, staker, amount, None);
      if paid.Err? then Err(paid.error)
      else if acct.amount + amount > UINT64_MAX then Err(Panic)
      else
        Ok(s.(stakes := s.stakes[staker := acct.(owner := staker, amount := acct.amount + amount, startSlot := now)],
              tokens := paid.value))
  }

  /** Staking nothing is accepted: no token moves, the stake keeps its
      amount and its lock restarts at `now`. */
  lemma ZeroStakeRestartsLock(s: State, staker: Pubkey, stakerAta: Pubkey, now: uint64)
    requires CanSign(staker) && STAKE_VAULT in s.tokens && stakerAta in s.tokens
    requires s.tokens[stakerAta].owner == staker && s.tokens[stakerAta].mint == s.tokens[STAKE_VAULT].mint
    ensures StakeTokens(s, staker, stakerAta, 0, now)
            == Ok(s.(stakes := s.stakes[staker := StakeAccount(staker, Staked(s.stakes, staker), now)]))
  {
    var t := StakeTokens(s, staker, stakerAta, 0, now).value.tokens;
    assert t == s.tokens by {
      forall a | a in s.tokens ensures t[a] == s.tokens[a] {
      }
    }
  }

  /** The accounts unstake_tokens names exist and the staker signed. */
  ghost predicate UnstakeAccountsValid(s: State, staker: Pubkey, stakerAta: Pubkey)
  {
    CanSign(staker) && staker in s.stakes && STAKE_VAULT in s.tokens && stakerAta in s.tokens
  }

  /** unstake_tokens: once `lockPeriod` slots have passed since the last
      stake, move 0 < amount <= stake from the stake vault, signed by its
      authority, to the staker's token account.  A stake drawn down to 0
      forgets its start slot. */
  function UnstakeTokens(s: State, staker: Pubkey, stakerAta: Pubkey, amount: uint64, now: uint64, lockPeriod: uint64): (r: Result<State>)
    ensures r.Ok? ==>
      && UnstakeAccountsValid(s, staker, stakerAta)
      && s.stakes[staker].startSlot + lockPeriod <= now
      && 0 < amount <= s.stakes[staker].amount
    ensures r.Ok? ==>
      && r.value.stakes == s.stakes[staker := s.stakes[staker].(
           amount := s.stakes[staker].amount - amount,
           startSlot := if amount == s.stakes[staker].amount then 0 else s.stakes[staker].startSlot)]
      && r.value.contests == s.contests && r.value.participants == s.participants
    ensures r.Ok? ==> SameTokenAccounts(s.tokens, r.value.tokens)
    ensures r.Ok? ==> forall a :: a in s.tokens ==>
      r.value.tokens[a].amount == s.tokens[a].amount
           - (if a == STAKE_VAULT then amount else 0) + (if a == stakerAta then amount else 0)
    ensures !CanSign(staker) ==> r == Err(Anchor(AccountNotSigner))
    ensures CanSign(staker) && !UnstakeAccountsValid(s, staker, stakerAta) ==> r == Err(Anchor(AccountNotInitialized))
    ensures UnstakeAccountsValid(s, staker, stakerAta) && s.stakes[staker].startSlot + lockPeriod > UINT64_MAX
            ==> r == Err(Program(NumericalOverflow))
    ensures UnstakeAccountsValid(s, staker, stakerAta) && s.stakes[staker].startSlot + lockPeriod <= UINT64_MAX
            && now < s.stakes[staker].startSlot + lockPeriod
            ==> r == Err(Program(StakeLocked))
    ensures UnstakeAccountsValid(s, staker, stakerAta) && s.stakes[staker].startSlot + lockPeriod <= now
            && !(0 < amount <= s.stakes[staker].amount)
            ==> r == Err(Program(InvalidUnstakeAmount))
  {
    if !CanSign(staker) then Err(Anchor(AccountNotSigner))
    else if staker !in s.stakes then Err(Anchor(AccountNotInitialized))
    else if STAKE_VAULT !in s.tokens || stakerAta !in s.tokens then Err(Anchor(AccountNotInitialized))
    else
      var acct := s.stakes[staker];
      if acct.startSlot + lockPeriod > UINT64_MAX then Err(Program(NumericalOverflow))
      else if now < acct.startSlot + lockPeriod then Err(Program(StakeLocked))
      else if !(0 < amount <= acct.amount) then Err(Program(InvalidUnstakeAmount))
      else
        var paid := Transfer(s.tokens, STAKE_VAULT, stakerAta, STAKE_AUTHORITY, amount, None);
        if paid.Err? then Err(paid.error)
        else
          var left := acct.amount - amount;
          Ok(s.(stakes := s.stakes[staker := acct.(amount := left, startSlot := if left == 0 then 0 else acct.startSlot)],
                tokens := paid.value))
  }

  // ----- Invariant preservation -----

  lemma InitializeStakePreservesInv(s: State, payer: Pubkey, poolMint: Pubkey)
    requires Inv(s)
    ensures Inv(Commit(s, InitializeStake(s, payer, poolMint)))
  {
    var r := InitializeStake(s, payer, poolMint);
    if r.Ok? {
      var t := r.value;
      forall id | id in t.contests ensures ContestWellFormed(t, id) && VaultWellFormed(t, id) {
        assert ContestWellFormed(s, id) && VaultWellFormed(s, id);
      }
      forall a ensures DerivedAccountKnown(t, a) {
        assert DerivedAccountKnown(s, a);
      }
      AccountsKept(s, t);
    }
  }

  lemma StakeTokensPreservesInv(s: State, staker: Pubkey, stakerAta: Pubkey, amount: uint64, now: uint64)
    requires Inv(s)
    ensures Inv(Commit(s, StakeTokens(s, staker, stakerAta, amount, now)))
  {
    var r := StakeTokens(s, staker, stakerAta, amount, now);
    if r.Ok? {
      StakeRewriteKeepsInv(s, r.value, staker);
    }
  }

  lemma UnstakeTokensPreservesInv(s: State, staker: Pubkey, stakerAta: Pubkey, amount: uint64, now: uint64, lockPeriod: uint64)
    requires Inv(s)
    ensures Inv(Commit(s, UnstakeTokens(s, staker, stakerAta, amount, now, lockPeriod)))
  {
    var r := UnstakeTokens(s, staker, stakerAta, amount, now, lockPeriod);
    if r.Ok? {
      assert StakeWellFormed(s, staker);
      StakeRewriteKeepsInv(s, r.value, staker);
    }
  }

  // ----- Round trip -----

  /** Staking x > 0 and unstaking it once the lock has run out gives every
      token back exactly and returns the stake to what it was (a first stake
      leaves an empty record with no start slot). */
  lemma StakeThenUnstake(s: State, staker: Pubkey, stakerAta: Pubkey, x: uint64, now: uint64, later: uint64, lockPeriod: uint64)
    requires Inv(s)
    requires StakeTokens(s, staker, stakerAta, x, now).Ok?
    requires 0 < x && now + lockPeriod <= later
    ensures var s1 := StakeTokens(s, staker, stakerAta, x, now).value;
      var s2 := UnstakeTokens(s1, staker, stakerAta, x, later, lockPeriod);
      && s2.Ok?
      && s2.value.tokens == s.tokens
      && Staked(s2.value.stakes, staker) == Staked(s.stakes, staker)
      && (staker !in s.stakes ==> s2.value.stakes[staker] == StakeAccount(staker, 0, 0))
      && s2.value.contests == s.contests && s2.value.participants == s.participants
  {
    var s1 := StakeTokens(s, staker, stakerAta, x, now).value;
    assert DerivedAccountKnown(s, STAKE_VAULT);
    TransferBack(s.tokens, stakerAta, STAKE_VAULT, staker, STAKE_AUTHORITY, x, None, None);
  }
}
