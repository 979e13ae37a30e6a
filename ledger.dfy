/**
 * The program's accounts as mutable state, and each instruction as a method
 * that checks, computes and then writes the accounts it changes.  A method
 * either returns Ok and leaves exactly the state its specification function
 * gives, or returns that function's error and changes nothing, as a failed
 * transaction does.
 */
module SpotwinLedger {
  import opened Types
  import opened Errors
  import opened ContestRecord
  import opened ParticipantRecord
  import opened StakeRecord
  import opened Token
  import opened LedgerState
  import ContestInstructions
  import Payout
  import StakeInstructions
  import Solvency

  class Ledger {
    var contests: map<uint64, Contest>
    var participants: map<(uint64, Pubkey), Participant>
    var stakes: map<Pubkey, StakeAccount>
    var tokens: Balances
    /** LOCK_PERIOD_SLOTS, fixed when the program is built. */
    const lockPeriod: uint64

    function Snapshot(): State
      reads this
    {
      State(contests, participants, stakes, tokens)
    }

    ghost predicate Valid()
      reads this
    {
      Inv(Snapshot()) && Solvency.StakesBacked(Snapshot())
    }

    /** A fresh deployment: only the users' token accounts exist. */
    constructor (lockPeriod: uint64, wallets: Balances)
      requires forall a :: a in wallets ==> a.Key?
      ensures Valid()
      ensures Snapshot() == Initial(wallets) && this.lockPeriod == lockPeriod
    {
      contests := map[];
      participants := map[];
      stakes := map[];
      tokens := wallets;
      this.lockPeriod := lockPeriod;
      new;
      InitialInv(wallets);
    }

    method CreateContest(creator: Pubkey, contestId: uint64, entryFee: uint64, lockSlot: uint64, poolMint: Pubkey,
                         contestBump: uint8, vaultBump: uint8, vaultAuthorityBump: uint8) returns (r: Result<()>)
      requires Valid()
      modifies this
      ensures Valid()
      ensures Completes(old(Snapshot()), Snapshot(), r,
        ContestInstructions.CreateContest(old(Snapshot()), creator, contestId, entryFee, lockSlot, poolMint, contestBump, vaultBump, vaultAuthorityBump))
    {
      if !CanSign(creator) { return Err(Anchor(AccountNotSigner)); }
      if contestId in contests { return Err(Anchor(AccountAlreadyInUse)); }
      if VaultAddress(contestId) in tokens { return Err(Anchor(AccountAlreadyInUse)); }
      ContestInstructions.CreateContestPreservesInv(Snapshot(), creator, contestId, entryFee, lockSlot, poolMint, contestBump, vaultBump, vaultAuthorityBump);
      Solvency.CreateContestKeepsBacked(Snapshot(), creator, contestId, entryFee, lockSlot, poolMint, contestBump, vaultBump, vaultAuthorityBump);
      contests := contests[contestId := Contest(creator, contestId, poolMint, entryFee, lockSlot, Open, 0, 0, ZERO_ROOT, 0, 0,
                                                contestBump, vaultBump, vaultAuthorityBump)];
      tokens := tokens[VaultAddress(contestId) := TokenAccount(poolMint, VaultAuthority(contestId), 0)];
      assert ContestInstructions.CreateContest(old(Snapshot()), creator, contestId, entryFee, lockSlot, poolMint, contestBump, vaultBump, vaultAuthorityBump) == Ok(Snapshot());
      r := Ok(());
    }

    method JoinContest(player: Pubkey, contestId: uint64, playerToken: Pubkey, poolMint: Pubkey) returns (r: Result<()>)
      requires Valid()
      modifies this
      ensures Valid()
      ensures Completes(old(Snapshot()), Snapshot(), r,
        ContestInstructions.JoinContest(old(Snapshot()), player, contestId, playerToken, poolMint))
    {
      if !CanSign(player) { return Err(Anchor(AccountNotSigner)); }
      if contestId !in contests || VaultAddress(contestId) !in tokens || playerToken !in tokens {
        return Err(Anchor(AccountNotInitialized));
      }
      if (contestId, player) in participants { return Err(Anchor(AccountAlreadyInUse)); }
      var c := contests[contestId];
      if c.poolMint != poolMint { return Err(Anchor(ConstraintHasOne)); }
      if c.status != Open { return Err(Program(ContestClosed)); }
      if tokens[playerToken].owner != player { return Err(Program(InvalidOwner)); }
      if tokens[playerToken].mint != poolMint { return Err(Program(InvalidMint)); }
      var paid := if c.entryFee > 0 then Transfer(tokens, playerToken, VaultAddress(contestId), player, c.entryFee, None)
                  else Ok(tokens);
      if paid.Err? { return Err(paid.error); }
      if c.totalEntries == UINT32_MAX { return Err(Program(NumericalOverflow)); }
      var after := State(contests[contestId := c.(totalEntries := c.totalEntries + 1)],
                         participants[(contestId, player) := Participant(player, 0, 0)], stakes, paid.value);
      assert ContestInstructions.JoinContest(Snapshot(), player, contestId, playerToken, poolMint) == Ok(after);
      ContestInstructions.JoinContestPreservesInv(Snapshot(), player, contestId, playerToken, poolMint);
      Solvency.JoinContestKeepsBacked(Snapshot(), player, contestId, playerToken, poolMint);
      contests := after.contests;
      participants := after.participants;
      tokens := after.tokens;
      r := Ok(());
    }

    method UpdateAnswers(creator: Pubkey, contestId: uint64, player: Pubkey,
                         newAttemptMask: bv16, newAnswerBits: bv16, now: uint64) returns (r: Result<()>)
      requires Valid()
      modifies this
      ensures Valid()
      ensures Completes(old(Snapshot()), Snapshot(), r,
        ContestInstructions.UpdateAnswers(old(Snapshot()), creator, contestId, player, newAttemptMask, newAnswerBits, now))
    {
      if !CanSign(creator) { return Err(Anchor(AccountNotSigner)); }
      if contestId !in contests || (contestId, player) !in participants { return Err(Anchor(AccountNotInitialized)); }
      var c := contests[contestId];
      if c.creator != creator { return Err(Anchor(ConstraintHasOne)); }
      if c.status != Open { return Err(Program(ContestClosed)); }
      if now >= c.lockSlot { return Err(Program(ContestClosed)); }
      if participants[(contestId, player)].player != player { return Err(Program(InvalidParticipant)); }
      if PopCount(newAttemptMask) != 9 { return Err(Program(InvalidAttemptMask)); }
      if !IsSubMask(newAnswerBits, newAttemptMask) { return Err(Program(InvalidAnswerBits)); }
      ContestInstructions.UpdateAnswersPreservesInv(Snapshot(), creator, contestId, player, newAttemptMask, newAnswerBits, now);
      participants := participants[(contestId, player) := Participant(player, newAttemptMask, newAnswerBits)];
      assert ContestInstructions.UpdateAnswers(old(Snapshot()), creator, contestId, player, newAttemptMask, newAnswerBits, now) == Ok(Snapshot());
      r := Ok(());
    }

    method LockContest(creator: Pubkey, contestId: uint64) returns (r: Result<()>)
      requires Valid()
      modifies this
      ensures Valid()
      ensures Completes(old(Snapshot()), Snapshot(), r, ContestInstructions.LockContest(old(Snapshot()), creator, contestId))
    {
      if !CanSign(creator) { return Err(Anchor(AccountNotSigner)); }
      if contestId !in contests { return Err(Anchor(AccountNotInitialized)); }
      var c := contests[contestId];
      if c.creator != creator { return Err(Anchor(ConstraintHasOne)); }
      if c.status != Open { return Err(Program(ContestClosed)); }
      ContestInstructions.LockContestPreservesInv(Snapshot(), creator, contestId);
      contests := contests[contestId := c.(status := Locked)];
      assert ContestInstructions.LockContest(old(Snapshot()), creator, contestId) == Ok(Snapshot());
      r := Ok(());
    }

    method PostAnswerKey(creator: Pubkey, contestId: uint64, answerKey: bv16) returns (r: Result<()>)
      requires Valid()
      modifies this
      ensures Valid()
      ensures Completes(old(Snapshot()), Snapshot(), r, ContestInstructions.PostAnswerKey(old(Snapshot()), creator, contestId, answerKey))
    {
      if !CanSign(creator) { return Err(Anchor(AccountNotSigner)); }
      if contestId !in contests { return Err(Anchor(AccountNotInitialized)); }
      var c := contests[contestId];
      if c.creator != creator { return Err(Anchor(ConstraintHasOne)); }
      if c.status != Locked { return Err(Program(ContestNotLocked)); }
      if !(answerKey < 0x1000) { return Err(Program(InvalidAnswerKey)); }
      ContestInstructions.PostAnswerKeyPreservesInv(Snapshot(), creator, contestId, answerKey);
      contests := contests[contestId := c.(answerKey := answerKey, status := AnswerKeyPosted)];
      assert ContestInstructions.PostAnswerKey(old(Snapshot()), creator, contestId, answerKey) == Ok(Snapshot());
      r := Ok(());
    }

    /** Unlike the other methods this one does not ask for a valid ledger:
        on a valid ledger a locked contest has no answer key, so it always
        fails (ContestInstructions.PostPayoutRootNeverSucceeds). */
    method PostPayoutRoot(creator: Pubkey, contestId: uint64, root: Root, winnerCount: uint32) returns (r: Result<()>)
      modifies this
      ensures old(Valid()) ==> Valid()
      ensures Completes(old(Snapshot()), Snapshot(), r, ContestInstructions.PostPayoutRoot(old(Snapshot()), creator, contestId, root, winnerCount))
    {
      if !CanSign(creator) { return Err(Anchor(AccountNotSigner)); }
      if contestId !in contests { return Err(Anchor(AccountNotInitialized)); }
      var c := contests[contestId];
      if c.creator != creator { return Err(Anchor(ConstraintHasOne)); }
      if c.status != Locked { return Err(Program(ContestNotLocked)); }
      if c.answerKey == 0 { return Err(Program(AnswerKeyNotSet)); }
      if !(0 < winnerCount <= c.totalEntries) { return Err(Program(InvalidWinnerCount)); }
      ghost var wasValid := Valid();
      if wasValid {
        ContestInstructions.PostPayoutRootNeverSucceeds(Snapshot(), creator, contestId, root, winnerCount);
        assert false;
      }
      contests := contests[contestId := c.(payoutRoot := root, winnerCount := winnerCount)];
      assert ContestInstructions.PostPayoutRoot(old(Snapshot()), creator, contestId, root, winnerCount) == Ok(Snapshot());
      r := Ok(());
    }

    /** send_batch: the account checks, then the handler worked out on the
        accounts as they stand (ExecuteBatch), then the contest and the token
        accounts are written back together. */
    method SendBatch(creator: Pubkey, contestId: uint64, mint: Pubkey,
                     winners: seq<Pubkey>, amounts: seq<uint64>, remaining: seq<Pubkey>) returns (r: Result<()>)
      requires Valid()
      modifies this
      ensures Valid()
      ensures Completes(old(Snapshot()), Snapshot(), r,
        Payout.SendBatch(old(Snapshot()), creator, contestId, mint, winners, amounts, remaining))
    {
      if contestId !in contests || VaultAddress(contestId) !in tokens { return Err(Anchor(AccountNotInitialized)); }
      var c := contests[contestId];
      if c.creator != creator { return Err(Anchor(ConstraintHasOne)); }
      if c.status != AnswerKeyPosted { return Err(Program(ContestNotAnswerKeyPosted)); }
      if c.answerKey == 0 { return Err(Program(AnswerKeyNotSet)); }
      var result := ExecuteBatch(Snapshot(), contestId, mint, winners, amounts, remaining);
      if result.Err? { return Err(result.error); }
      Payout.SendBatchPreservesInv(Snapshot(), creator, contestId, mint, winners, amounts, remaining);
      Solvency.SendBatchKeepsBacked(Snapshot(), creator, contestId, mint, winners, amounts, remaining);
      contests := result.value.contests;
      tokens := result.value.tokens;
      r := Ok(());
    }

    method InitializeStake(payer: Pubkey, poolMint: Pubkey) returns (r: Result<()>)
      requires Valid()
      modifies this
      ensures Valid()
      ensures Completes(old(Snapshot()), Snapshot(), r, StakeInstructions.InitializeStake(old(Snapshot()), payer, poolMint))
    {
      if !CanSign(payer) { return Err(Anchor(AccountNotSigner)); }
      if STAKE_VAULT in tokens { return Err(Anchor(AccountAlreadyInUse)); }
      StakeInstructions.InitializeStakePreservesInv(Snapshot(), payer, poolMint);
      Solvency.InitializeStakeKeepsBacked(Snapshot(), payer, poolMint);
      tokens := tokens[STAKE_VAULT := TokenAccount(poolMint, STAKE_AUTHORITY, 0)];
      assert StakeInstructions.InitializeStake(old(Snapshot()), payer, poolMint) == Ok(Snapshot());
      r := Ok(());
    }

    method StakeTokens(staker: Pubkey, stakerAta: Pubkey, amount: uint64, now: uint64) returns (r: Result<()>)
      requires Valid()
      modifies this
      ensures Valid()
      ensures Completes(old(Snapshot()), Snapshot(), r, StakeInstructions.StakeTokens(old(Snapshot()), staker, stakerAta, amount, now))
    {
      if !CanSign(staker) { return Err(Anchor(AccountNotSigner)); }
      if STAKE_VAULT !in tokens || stakerAta !in tokens { return Err(Anchor(AccountNotInitialized)); }
      var acct := if staker in stakes then stakes[staker] else EMPTY_STAKE;
      var sent := Transfer(tokens, stakerAta, STAKE_VAULT, staker, amount, None);
      if sent.Err? { return Err(sent.error); }
      if acct.amount as int + amount > UINT64_MAX { return Err(Panic); }
      StakeInstructions.StakeTokensPreservesInv(Snapshot(), staker, stakerAta, amount, now);
      Solvency.StakeTokensKeepsBacked(Snapshot(), staker, stakerAta, amount, now);
      stakes := stakes[staker := acct.(owner := staker, amount := acct.amount + amount, startSlot := now)];
      tokens := sent.value;
      assert StakeInstructions.StakeTokens(old(Snapshot()), staker, stakerAta, amount, now) == Ok(Snapshot());
      r := Ok(());
    }

    method UnstakeTokens(staker: Pubkey, stakerAta: Pubkey, amount: uint64, now: uint64) returns (r: Result<()>)
      requires Valid()
      modifies this
      ensures Valid()
      ensures Completes(old(Snapshot()), Snapshot(), r,
        StakeInstructions.UnstakeTokens(old(Snapshot()), staker, stakerAta, amount, now, lockPeriod))
    {
      if !CanSign(staker) { return Err(Anchor(AccountNotSigner)); }
      if staker !in stakes { return Err(Anchor(AccountNotInitialized)); }
      if STAKE_VAULT !in tokens || stakerAta !in tokens { return Err(Anchor(AccountNotInitialized)); }
      var acct := stakes[staker];
      if acct.startSlot as int + lockPeriod > UINT64_MAX { return Err(Program(NumericalOverflow)); }
      var unlockSlot := acct.startSlot + lockPeriod;
      if now < unlockSlot { return Err(Program(StakeLocked)); }
      if !(0 < amount <= acct.amount) { return Err(Program(InvalidUnstakeAmount)); }
      var sent := Transfer(tokens, STAKE_VAULT, stakerAta, STAKE_AUTHORITY, amount, None);
      if sent.Err? { return Err(sent.error); }
      StakeInstructions.UnstakeTokensPreservesInv(Snapshot(), staker, stakerAta, amount, now, lockPeriod);
      Solvency.UnstakeTokensKeepsBacked(Snapshot(), staker, stakerAta, amount, now, lockPeriod);
      acct := acct.(amount := acct.amount - amount);
      if acct.amount == 0 {
        acct := acct.(startSlot := 0);
      }
      stakes := stakes[staker := acct];
      tokens := sent.value;
      assert StakeInstructions.UnstakeTokens(old(Snapshot()), staker, stakerAta, amount, now, lockPeriod) == Ok(Snapshot());
      r := Ok(());
    }
  }

  /** The validation loop of send_batch: remaining_accounts[i] must be the
      participant address of winners[i], for every i in order. */
  method CheckWinnerAccounts(contestId: uint64, winners: seq<Pubkey>, remaining: seq<Pubkey>) returns (r: Result<()>)
    ensures r == Payout.CheckWinners(contestId, winners, remaining, 0)
  {
    var i := 0;
    while i < |winners|
      invariant 0 <= i <= |winners|
      invariant Payout.CheckWinners(contestId, winners, remaining, 0) == Payout.CheckWinners(contestId, winners, remaining, i)
    {
      if i >= |remaining| { return Err(Panic); }
      if remaining[i] != ParticipantAddress(contestId, winners[i]) { return Err(Program(InvalidParticipant)); }
      i := i + 1;
    }
    return Ok(());
  }

  /** The payment loop of send_batch: amounts[i] goes from the vault to
      remaining_accounts[n + i], in order, and is added to the checked
      running total.  Returns the balances after the batch and the total. */
  method PayWinners(t: Balances, vault: Pubkey, authority: Pubkey, mint: Pubkey,
                    remaining: seq<Pubkey>, n: nat, amounts: seq<uint64>) returns (r: Result<(Balances, uint64)>)
    ensures r == Payout.PayFrom(t, vault, authority, mint, remaining, n, amounts, 0, 0)
  {
    var balances := t;
    var total: uint64 := 0;
    var i := 0;
    while i < |amounts|
      invariant 0 <= i <= |amounts|
      invariant Payout.PayFrom(t, vault, authority, mint, remaining, n, amounts, 0, 0)
             == Payout.PayFrom(balances, vault, authority, mint, remaining, n, amounts, i, total)
    {
      if n + i >= |remaining| { return Err(Panic); }
      var sent := Transfer(balances, vault, remaining[n + i], authority, amounts[i], Some(mint));
      if sent.Err? { return Err(sent.error); }
      if total as int + amounts[i] > UINT64_MAX { return Err(Program(NumericalOverflow)); }
      balances := sent.value;
      total := total + amounts[i];
      i := i + 1;
    }
    return Ok((balances, total));
  }

  /** The handler of send_batch on the accounts in `s`: the argument checks,
      then every participant address, then the payments and the new
      paid_so_far. */
  method ExecuteBatch(s: State, contestId: uint64, mint: Pubkey,
                      winners: seq<Pubkey>, amounts: seq<uint64>, remaining: seq<Pubkey>) returns (r: Result<State>)
    requires contestId in s.contests
    ensures r == Payout.BatchHandler(s, contestId, mint, winners, amounts, remaining)
  {
    var c := s.contests[contestId];
    if |winners| != |amounts| { return Err(Program(InvalidWinnerCount)); }
    if |winners| == 0 { return Err(Program(EmptyBatch)); }
    if c.contestId != contestId { return Err(Program(InvalidContestId)); }
    var checked := CheckWinnerAccounts(c.contestId, winners, remaining);
    if checked.Err? { return Err(checked.error); }
    var paid := PayWinners(s.tokens, VaultAddress(contestId), VaultAuthority(contestId), mint, remaining, |winners|, amounts);
    if paid.Err? { return Err(paid.error); }
    var total := paid.value.1;
    if c.paidSoFar as int + total > UINT64_MAX { return Err(Program(NumericalOverflow)); }
    return Ok(s.(contests := s.contests[contestId := c.(paidSoFar := c.paidSoFar + total)], tokens := paid.value.0));
  }
}
