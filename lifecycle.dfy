/**
 * Sequences of transactions.  Each transaction runs one instruction and
 * commits only if it succeeds; the ledgers reachable from a fresh deployment
 * are those some sequence leads to.
 */
module Lifecycle {
  import opened Types
  import opened Errors
  import opened ContestRecord
  import opened Token
  import opened LedgerState
  import opened ContestInstructions
  import opened Payout
  import opened StakeInstructions
  import opened Solvency

  /** One transaction: an instruction with its signer, accounts and
      arguments, and the slot it runs in where the handler reads the clock. */
  datatype Op =
    | CreateContestOp(creator: Pubkey, contestId: uint64, entryFee: uint64, lockSlot: uint64, poolMint: Pubkey,
                      contestBump: uint8, vaultBump: uint8, vaultAuthorityBump: uint8)
    | JoinContestOp(player: Pubkey, contestId: uint64, playerToken: Pubkey, poolMint: Pubkey)
    | UpdateAnswersOp(creator: Pubkey, contestId: uint64, player: Pubkey, attemptMask: bv16, answerBits: bv16, now: uint64)
    | LockContestOp(creator: Pubkey, contestId: uint64)
    | PostAnswerKeyOp(creator: Pubkey, contestId: uint64, answerKey: bv16)
    | PostPayoutRootOp(creator: Pubkey, contestId: uint64, root: Root, winnerCount: uint32)
    | SendBatchOp(creator: Pubkey, contestId: uint64, mint: Pubkey, winners: seq<Pubkey>, amounts: seq<uint64>, remaining: seq<Pubkey>)
    | InitializeStakeOp(payer: Pubkey, poolMint: Pubkey)
    | StakeTokensOp(staker: Pubkey, stakerAta: Pubkey, amount: uint64, now: uint64)
    | UnstakeTokensOp(staker: Pubkey, stakerAta: Pubkey, amount: uint64, now: uint64)

  /** The outcome of one transaction; `lockPeriod` is LOCK_PERIOD_SLOTS. */
  function Execute(s: State, op: Op, lockPeriod: uint64): Result<State>
  {
    match op
    case CreateContestOp(creator, id, fee, lockSlot, mint, b1, b2, b3) => CreateContest(s, creator, id, fee, lockSlot, mint, b1, b2, b3)
    case JoinContestOp(player, id, playerToken, mint) => JoinContest(s, player, id, playerToken, mint)
    case UpdateAnswersOp(creator, id, player, mask, bits, now) => UpdateAnswers(s, creator, id, player, mask, bits, now)
    case LockContestOp(creator, id) => LockContest(s, creator, id)
    case PostAnswerKeyOp(creator, id, key) => PostAnswerKey(s, creator, id, key)
    case PostPayoutRootOp(creator, id, root, count) => PostPayoutRoot(s, creator, id, root, count)
    case SendBatchOp(creator, id, mint, winners, amounts, remaining) => SendBatch(s, creator, id, mint, winners, amounts, remaining)
    case InitializeStakeOp(payer, mint) => InitializeStake(s, payer, mint)
    case StakeTokensOp(staker, ata, amount, now) => StakeTokens(s, staker, ata, amount, now)
    case UnstakeTokensOp(staker, ata, amount, now) => UnstakeTokens(s, staker, ata, amount, now, lockPeriod)
  }

  /** The ledger after a sequence of transactions; failed ones change nothing. */
  function Run(s: State, ops: seq<Op>, lockPeriod: uint64): State
    decreases |ops|
  {
    if ops == [] then s else Run(Commit(s, Execute(s, ops[0], lockPeriod)), ops[1..], lockPeriod)
  }

  /** The invariant and stake backing survive every transaction. */
  lemma ExecutePreservesInv(s: State, op: Op, lockPeriod: uint64)
    requires Inv(s) && StakesBacked(s)
    ensures var t := Commit(s, Execute(s, op, lockPeriod)); Inv(t) && StakesBacked(t)
  {
    match op
    case CreateContestOp(creator, id, fee, lockSlot, mint, b1, b2, b3) =>
      CreateContestPreservesInv(s, creator, id, fee, lockSlot, mint, b1, b2, b3);
      CreateContestKeepsBacked(s, creator, id, fee, lockSlot, mint, b1, b2, b3);
    case JoinContestOp(player, id, playerToken, mint) =>
      JoinContestPreservesInv(s, player, id, playerToken, mint);
      JoinContestKeepsBacked(s, player, id, playerToken, mint);
    case UpdateAnswersOp(creator, id, player, mask, bits, now) =>
      UpdateAnswersPreservesInv(s, creator, id, player, mask, bits, now);
    case LockContestOp(creator, id) =>
      LockContestPreservesInv(s, creator, id);
    case PostAnswerKeyOp(creator, id, key) =>
      PostAnswerKeyPreservesInv(s, creator, id, key);
    case PostPayoutRootOp(creator, id, root, count) =>
      PostPayoutRootPreservesInv(s, creator, id, root, count);
    case SendBatchOp(creator, id, mint, winners, amounts, remaining) =>
      SendBatchPreservesInv(s, creator, id, mint, winners, amounts, remaining);
      SendBatchKeepsBacked(s, creator, id, mint, winners, amounts, remaining);
    case InitializeStakeOp(payer, mint) =>
      InitializeStakePreservesInv(s, payer, mint);
      InitializeStakeKeepsBacked(s, payer, mint);
    case StakeTokensOp(staker, ata, amount, now) =>
      StakeTokensPreservesInv(s, staker, ata, amount, now);
      StakeTokensKeepsBacked(s, staker, ata, amount, now);
    case UnstakeTokensOp(staker, ata, amount, now) =>
      UnstakeTokensPreservesInv(s, staker, ata, amount, now, lockPeriod);
      UnstakeTokensKeepsBacked(s, staker, ata, amount, now, lockPeriod);
  }

  lemma {:induction false} RunPreservesInv(s: State, ops: seq<Op>, lockPeriod: uint64)
    requires Inv(s) && StakesBacked(s)
    ensures Inv(Run(s, ops, lockPeriod)) && StakesBacked(Run(s, ops, lockPeriod))
    decreases |ops|
  {
    if ops != [] {
      ExecutePreservesInv(s, ops[0], lockPeriod);
      RunPreservesInv(Commit(s, Execute(s, ops[0], lockPeriod)), ops[1..], lockPeriod);
    }
  }

  /** Every ledger reachable from a fresh deployment, whose users hold only
      ordinary (non-derived) token accounts, satisfies the invariant and
      backs every stake. */
  lemma ReachableInv(wallets: Balances, ops: seq<Op>, lockPeriod: uint64)
    requires forall a :: a in wallets ==> a.Key?
    ensures Inv(Run(Initial(wallets), ops, lockPeriod))
    ensures StakesBacked(Run(Initial(wallets), ops, lockPeriod))
  {
    InitialInv(wallets);
    RunPreservesInv(Initial(wallets), ops, lockPeriod);
  }

  /** A successful step that keeps every contest advancing and every
      participant's player, and loses no account, advances. */
  lemma AdvancesByParts(s: State, r: Result<State>)
    requires r.Ok? ==> forall id :: id in s.contests ==> id in r.value.contests && ContestAdvances(s.contests[id], r.value.contests[id])
    requires r.Ok? ==> forall k :: k in s.participants ==> k in r.value.participants && r.value.participants[k].player == s.participants[k].player
    requires r.Ok? ==> s.stakes.Keys <= r.value.stakes.Keys && s.tokens.Keys <= r.value.tokens.Keys
    ensures Advances(s, Commit(s, r))
  {
  }

  /** The staking instructions leave contests and participants alone. */
  lemma StakeOpAdvances(s: State, op: Op, lockPeriod: uint64)
    requires op.InitializeStakeOp? || op.StakeTokensOp? || op.UnstakeTokensOp?
    ensures Advances(s, Commit(s, Execute(s, op, lockPeriod)))
  {
    AdvancesByParts(s, Execute(s, op, lockPeriod));
  }

  /** Creating, joining and answering add accounts or rewrite answers. */
  lemma EntryOpAdvances(s: State, op: Op, lockPeriod: uint64)
    requires op.CreateContestOp? || op.JoinContestOp? || op.UpdateAnswersOp?
    ensures Advances(s, Commit(s, Execute(s, op, lockPeriod)))
  {
    var r := Execute(s, op, lockPeriod);
    if r.Ok? {
      var t := r.value;
      forall id | id in s.contests ensures id in t.contests && ContestAdvances(s.contests[id], t.contests[id]) {
      }
      forall k | k in s.participants ensures k in t.participants && t.participants[k].player == s.participants[k].player {
      }
    }
    AdvancesByParts(s, r);
  }

  /** Locking, posting and paying move one contest forward. */
  lemma SettleOpAdvances(s: State, op: Op, lockPeriod: uint64)
    requires op.LockContestOp? || op.PostAnswerKeyOp? || op.PostPayoutRootOp? || op.SendBatchOp?
    ensures Advances(s, Commit(s, Execute(s, op, lockPeriod)))
  {
    var r := Execute(s, op, lockPeriod);
    if r.Ok? {
      var t := r.value;
      forall id | id in s.contests ensures id in t.contests && ContestAdvances(s.contests[id], t.contests[id]) {
      }
      forall k | k in s.participants ensures k in t.participants && t.participants[k].player == s.participants[k].player {
      }
    }
    AdvancesByParts(s, r);
  }

  /** No transaction sends anything backwards. */
  lemma ExecuteAdvances(s: State, op: Op, lockPeriod: uint64)
    ensures Advances(s, Commit(s, Execute(s, op, lockPeriod)))
  {
    if op.InitializeStakeOp? || op.StakeTokensOp? || op.UnstakeTokensOp? {
      StakeOpAdvances(s, op, lockPeriod);
    } else if op.CreateContestOp? || op.JoinContestOp? || op.UpdateAnswersOp? {
      EntryOpAdvances(s, op, lockPeriod);
    } else {
      SettleOpAdvances(s, op, lockPeriod);
    }
  }

  lemma {:induction false} RunAdvances(s: State, ops: seq<Op>, lockPeriod: uint64)
    ensures Advances(s, Run(s, ops, lockPeriod))
    decreases |ops|
  {
    if ops != [] {
      var t := Commit(s, Execute(s, ops[0], lockPeriod));
      ExecuteAdvances(s, ops[0], lockPeriod);
      RunAdvances(t, ops[1..], lockPeriod);
      AdvancesTransitive(s, t, Run(t, ops[1..], lockPeriod));
    }
  }

  /** On any reachable ledger, post_payout_root fails. */
  lemma PostPayoutRootAlwaysFails(wallets: Balances, ops: seq<Op>, lockPeriod: uint64,
                                  creator: Pubkey, contestId: uint64, root: Root, winnerCount: uint32)
    requires forall a :: a in wallets ==> a.Key?
    ensures PostPayoutRoot(Run(Initial(wallets), ops, lockPeriod), creator, contestId, root, winnerCount).Err?
  {
    ReachableInv(wallets, ops, lockPeriod);
    PostPayoutRootNeverSucceeds(Run(Initial(wallets), ops, lockPeriod), creator, contestId, root, winnerCount);
  }

  /** A contest whose answer key was posted as 0 can never pay out: the key
      and the status stay as they are, and send_batch refuses a zero key. */
  lemma ZeroAnswerKeyBlocksPayout(s: State, creator: Pubkey, contestId: uint64, ops: seq<Op>, lockPeriod: uint64,
                                  payer: Pubkey, mint: Pubkey, winners: seq<Pubkey>, amounts: seq<uint64>, remaining: seq<Pubkey>)
    requires PostAnswerKey(s, creator, contestId, 0).Ok?
    ensures SendBatch(Run(PostAnswerKey(s, creator, contestId, 0).value, ops, lockPeriod),
                      payer, contestId, mint, winners, amounts, remaining).Err?
  {
    var posted := PostAnswerKey(s, creator, contestId, 0).value;
    RunAdvances(posted, ops, lockPeriod);
  }

  /** A player joins a contest at most once: after a successful join, joining
      again with any existing token account and any mint fails because the
      participant account exists. */
  lemma JoinOnce(s: State, player: Pubkey, contestId: uint64, playerToken: Pubkey, otherToken: Pubkey, poolMint: Pubkey, otherMint: Pubkey)
    requires JoinContest(s, player, contestId, playerToken, poolMint).Ok?
    requires otherToken in s.tokens
    ensures JoinContest(JoinContest(s, player, contestId, playerToken, poolMint).value, player, contestId, otherToken, otherMint)
            == Err(Anchor(AccountAlreadyInUse))
  {
  }
}
