/**
 * send_batch: pay a batch of winners out of a contest's vault.  All
 * participant addresses are checked first; then each amount is transferred
 * in order and the total is added to the contest's paid_so_far.
 */
module Payout {
  import opened Types
  import opened Errors
  import opened ContestRecord
  import opened Token
  import opened LedgerState

  /** Sum of amounts[i..]. */
  function SumFrom(amounts: seq<uint64>, i: nat): nat
    decreases |amounts| - i
  {
    if i >= |amounts| then 0 else amounts[i] + SumFrom(amounts, i + 1)
  }

  function Sum(amounts: seq<uint64>): nat
  {
    SumFrom(amounts, 0)
  }

  /** What account `a` is sent by transfers i.. of a batch whose destinations
      follow the n participant accounts in `remaining`. */
  function ReceivedFrom(a: Pubkey, remaining: seq<Pubkey>, n: nat, amounts: seq<uint64>, i: nat): nat
    decreases |amounts| - i
  {
    if i >= |amounts| then 0
    else (if n + i < |remaining| && remaining[n + i] == a then amounts[i] else 0)
         + ReceivedFrom(a, remaining, n, amounts, i + 1)
  }

  /** An account that is no destination receives nothing. */
  lemma {:induction false} ReceivedFromNone(a: Pubkey, remaining: seq<Pubkey>, n: nat, amounts: seq<uint64>, i: nat)
    requires forall j :: n + i <= j < n + |amounts| && j < |remaining| ==> remaining[j] != a
    ensures ReceivedFrom(a, remaining, n, amounts, i) == 0
    decreases |amounts| - i
  {
    if i < |amounts| {
      ReceivedFromNone(a, remaining, n, amounts, i + 1);
    }
  }

  /** remaining_accounts[j] is the participant address of winners[j]. */
  predicate WinnerAt(contestId: uint64, winners: seq<Pubkey>, remaining: seq<Pubkey>, j: nat)
    requires j < |winners|
  {
    j < |remaining| && remaining[j] == ParticipantAddress(contestId, winners[j])
  }

  /** The validation loop from index i: remaining_accounts[j] must be the
      participant address of (contestId, winners[j]).  Only addresses are
      compared: the participant account need not exist, and a winner may
      appear twice.  Indexing past the end of remaining_accounts panics. */
  function CheckWinners(contestId: uint64, winners: seq<Pubkey>, remaining: seq<Pubkey>, i: nat): (r: Result<()>)
    requires i <= |winners|
    decreases |winners| - i
    ensures r.Ok? <==> forall j :: i <= j < |winners| ==> WinnerAt(contestId, winners, remaining, j)
    ensures r.Err? ==> r.error == Panic || r.error == Program(InvalidParticipant)
    ensures |winners| <= |remaining| && r.Err? ==> r.error == Program(InvalidParticipant)
  {
    if i == |winners| then Ok(())
    else if i >= |remaining| then assert !WinnerAt(contestId, winners, remaining, i); Err(Panic)
    else if remaining[i] != ParticipantAddress(contestId, winners[i]) then assert !WinnerAt(contestId, winners, remaining, i); Err(Program(InvalidParticipant))
    else assert WinnerAt(contestId, winners, remaining, i);
         CheckWinners(contestId, winners, remaining, i + 1)
  }

  /** The transfer loop from index i, with `total` paid so far: amounts[j]
      goes from the vault to remaining_accounts[n + j], then is added to the
      running total (checked).  The first failure aborts the batch. */
  function PayFrom(t: Balances, vault: Pubkey, authority: Pubkey, mint: Pubkey,
                   remaining: seq<Pubkey>, n: nat, amounts: seq<uint64>, i: nat, total: uint64): (r: Result<(Balances, uint64)>)
    requires i <= |amounts|
    decreases |amounts| - i
    ensures r.Ok? ==> r.value.1 == total + SumFrom(amounts, i)
    ensures r.Ok? && i < |amounts| ==> n + |amounts| <= |remaining|
    ensures r.Ok? ==> SameTokenAccounts(t, r.value.0)
    ensures r.Err? ==> r.error == Panic || r.error.Token? || r.error == Program(NumericalOverflow)
  {
    if i == |amounts| then Ok((t, total))
    else if n + i >= |remaining| then Err(Panic)
    else
      var sent := Transfer(t, vault, remaining[n + i], authority, amounts[i], Some(mint));
      if sent.Err? then Err(sent.error)
      else if total + amounts[i] > UINT64_MAX then Err(Program(NumericalOverflow))
      else PayFrom(sent.value, vault, authority, mint, remaining, n, amounts, i + 1, total + amounts[i])
  }

  /** After the transfers from index i, the vault has paid out the rest of
      the amounts and every account holds what it held plus what was sent to
      it. */
  lemma {:induction false} PayFromBalances(t: Balances, vault: Pubkey, authority: Pubkey, mint: Pubkey,
                                           remaining: seq<Pubkey>, n: nat, amounts: seq<uint64>, i: nat, total: uint64)
    requires i <= |amounts|
    requires PayFrom(t, vault, authority, mint, remaining, n, amounts, i, total).Ok?
    ensures var u := PayFrom(t, vault, authority, mint, remaining, n, amounts, i, total).value.0;
      forall a :: a in t ==>
        u[a].amount == t[a].amount - (if a == vault then SumFrom(amounts, i) else 0)
                                   + ReceivedFrom(a, remaining, n, amounts, i)
    decreases |amounts| - i
  {
    if i < |amounts| {
      var sent := Transfer(t, vault, remaining[n + i], authority, amounts[i], Some(mint));
      PayFromBalances(sent.value, vault, authority, mint, remaining, n, amounts, i + 1, total + amounts[i]);
    }
  }

  /** A destination of a batch paid from `vault` in `mint`: an existing
      token account of that mint other than the vault. */
  ghost predicate DestinationReady(t: Balances, vault: Pubkey, mint: Pubkey, d: Pubkey)
  {
    d in t && d != vault && t[d].mint == mint
  }

  /** The transfer pass from index i goes through when the vault, held by
      `authority` in `mint`, covers the rest of the amounts, every destination
      slot names a ready destination with room for all it is sent, and the
      running total stays within u64. */
  lemma {:induction false} PayFromSucceeds(t: Balances, vault: Pubkey, authority: Pubkey, mint: Pubkey,
                                           remaining: seq<Pubkey>, n: nat, amounts: seq<uint64>, i: nat, total: uint64)
    requires i <= |amounts| && n + |amounts| <= |remaining|
    requires vault in t && t[vault].owner == authority && t[vault].mint == mint
    requires forall k :: n + i <= k < n + |amounts| ==> DestinationReady(t, vault, mint, remaining[k])
    requires forall a :: a in t && a != vault ==> t[a].amount + ReceivedFrom(a, remaining, n, amounts, i) <= UINT64_MAX
    requires SumFrom(amounts, i) <= t[vault].amount
    requires total + SumFrom(amounts, i) <= UINT64_MAX
    ensures PayFrom(t, vault, authority, mint, remaining, n, amounts, i, total).Ok?
    decreases |amounts| - i
  {
    if i < |amounts| {
      var d := remaining[n + i];
      assert DestinationReady(t, vault, mint, d);
      var sent := Transfer(t, vault, d, authority, amounts[i], Some(mint));
      assert sent.Ok?;
      var u := sent.value;
      forall a | a in u && a != vault
        ensures u[a].amount + ReceivedFrom(a, remaining, n, amounts, i + 1) <= UINT64_MAX
      {
        assert a in t;
      }
      forall k | n + i + 1 <= k < n + |amounts|
        ensures DestinationReady(u, vault, mint, remaining[k])
      {
        assert DestinationReady(t, vault, mint, remaining[k]);
      }
      PayFromSucceeds(u, vault, authority, mint, remaining, n, amounts, i + 1, total + amounts[i]);
    }
  }

  /** The account checks of send_batch pass: the contest and its vault
      exist, the passed creator key is the contest's creator (no signature is
      asked for), and its answer key is posted and non-zero. */
  ghost predicate BatchAccountsValid(s: State, creator: Pubkey, contestId: uint64)
  {
    && contestId in s.contests
    && VaultAddress(contestId) in s.tokens
    && s.contests[contestId].creator == creator
    && s.contests[contestId].status == AnswerKeyPosted
    && s.contests[contestId].answerKey != 0
  }

  /** send_batch.  `remaining` is the instruction's remaining accounts: the n
      participant addresses, then the n destination token accounts. */
  function SendBatch(s: State, creator: Pubkey, contestId: uint64, mint: Pubkey,
                     winners: seq<Pubkey>, amounts: seq<uint64>, remaining: seq<Pubkey>): (r: Result<State>)
    ensures r.Ok? ==>
      && BatchAccountsValid(s, creator, contestId)
      && |winners| == |amounts| > 0
      && s.contests[contestId].paidSoFar + Sum(amounts) <= UINT64_MAX
    ensures r.Ok? ==>
      && r.value.contests == s.contests[contestId := s.contests[contestId].(paidSoFar := s.contests[contestId].paidSoFar + Sum(amounts))]
      && r.value.participants == s.participants && r.value.stakes == s.stakes
    ensures contestId !in s.contests || VaultAddress(contestId) !in s.tokens ==> r == Err(Anchor(AccountNotInitialized))
    ensures contestId in s.contests && VaultAddress(contestId) in s.tokens ==>
      && (s.contests[contestId].creator != creator ==> r == Err(Anchor(ConstraintHasOne)))
      && (s.contests[contestId].creator == creator && s.contests[contestId].status != AnswerKeyPosted
          ==> r == Err(Program(ContestNotAnswerKeyPosted)))
      && (s.contests[contestId].creator == creator && s.contests[contestId].status == AnswerKeyPosted
          && s.contests[contestId].answerKey == 0
          ==> r == Err(Program(AnswerKeyNotSet)))
    ensures BatchAccountsValid(s, creator, contestId) && |winners| != |amounts| ==> r == Err(Program(InvalidWinnerCount))
    ensures BatchAccountsValid(s, creator, contestId) && |winners| == |amounts| == 0 ==> r == Err(Program(EmptyBatch))
    ensures BatchAccountsValid(s, creator, contestId) && |winners| == |amounts| > 0
            && s.contests[contestId].contestId != contestId
            ==> r == Err(Program(InvalidContestId))
    ensures BatchAccountsValid(s, creator, contestId) && |winners| == |amounts| > 0
            && s.contests[contestId].contestId == contestId
            && CheckWinners(contestId, winners, remaining, 0).Ok?
            && PayFrom(s.tokens, VaultAddress(contestId), VaultAuthority(contestId), mint, remaining, |winners|, amounts, 0, 0).Ok?
            && s.contests[contestId].paidSoFar + Sum(amounts) > UINT64_MAX
            ==> r == Err(Program(NumericalOverflow))
    ensures BatchAccountsValid(s, creator, contestId) && |winners| == |amounts| > 0
            && s.contests[contestId].contestId == contestId
            && CheckWinners(contestId, winners, remaining, 0).Ok?
            && PayFrom(s.tokens, VaultAddress(contestId), VaultAuthority(contestId), mint, remaining, |winners|, amounts, 0, 0).Ok?
            && s.contests[contestId].paidSoFar + Sum(amounts) <= UINT64_MAX
            ==> r.Ok?
    ensures r.Ok? ==>
      && s.contests[contestId].contestId == contestId
      && CheckWinners(contestId, winners, remaining, 0).Ok?
      && PayFrom(s.tokens, VaultAddress(contestId), VaultAuthority(contestId), mint, remaining, |winners|, amounts, 0, 0).Ok?
    ensures BatchAccountsValid(s, creator, contestId) && |winners| == |amounts| > 0
            && s.contests[contestId].contestId == contestId
            && CheckWinners(contestId, winners, remaining, 0).Err?
            ==> r == Err(CheckWinners(contestId, winners, remaining, 0).error)
    ensures BatchAccountsValid(s, creator, contestId) && |winners| == |amounts| > 0
            && s.contests[contestId].contestId == contestId
            && CheckWinners(contestId, winners, remaining, 0).Ok?
            && PayFrom(s.tokens, VaultAddress(contestId), VaultAuthority(contestId), mint, remaining, |winners|, amounts, 0, 0).Err?
            ==> r == Err(PayFrom(s.tokens, VaultAddress(contestId), VaultAuthority(contestId), mint, remaining, |winners|, amounts, 0, 0).error)
  {
    if contestId !in s.contests || VaultAddress(contestId) !in s.tokens then Err(Anchor(AccountNotInitialized))
    else
      var c := s.contests[contestId];
      if c.creator != creator then Err(Anchor(ConstraintHasOne))
      else if c.status != AnswerKeyPosted then Err(Program(ContestNotAnswerKeyPosted))
      else if c.answerKey == 0 then Err(Program(AnswerKeyNotSet))
      else BatchHandler(s, contestId, mint, winners, amounts, remaining)
  }

  /** The handler of send_batch, once the account checks have passed: the
      argument checks, the participant addresses, then the payments and the
      checked addition to paid_so_far. */
  function BatchHandler(s: State, contestId: uint64, mint: Pubkey,
                        winners: seq<Pubkey>, amounts: seq<uint64>, remaining: seq<Pubkey>): Result<State>
    requires contestId in s.contests
  {
    var c := s.contests[contestId];
    if |winners| != |amounts| then Err(Program(InvalidWinnerCount))
    else if |winners| == 0 then Err(Program(EmptyBatch))
    else if c.contestId != contestId then Err(Program(InvalidContestId))
    else
      var checked := CheckWinners(c.contestId, winners, remaining, 0);
      if checked.Err? then Err(checked.error)
      else
        var paid := PayFrom(s.tokens, VaultAddress(contestId), VaultAuthority(contestId), mint,
                            remaining, |winners|, amounts, 0, 0);
        if paid.Err? then Err(paid.error)
        else if c.paidSoFar + paid.value.1 > UINT64_MAX then Err(Program(NumericalOverflow))
        else
          Ok(s.(contests := s.contests[contestId := c.(paidSoFar := c.paidSoFar + paid.value.1)],
                tokens := paid.value.0))
  }

  /** A batch that goes through named, for every winner, that winner's
      participant address, and the participant accounts are checked before
      any token moves: a wrong one fails the batch with InvalidParticipant. */
  lemma SendBatchChecksWinners(s: State, creator: Pubkey, contestId: uint64, mint: Pubkey,
                               winners: seq<Pubkey>, amounts: seq<uint64>, remaining: seq<Pubkey>)
    ensures SendBatch(s, creator, contestId, mint, winners, amounts, remaining).Ok? ==>
      && 2 * |winners| <= |remaining|
      && forall j :: 0 <= j < |winners| ==> WinnerAt(contestId, winners, remaining, j)
    ensures BatchAccountsValid(s, creator, contestId) && s.contests[contestId].contestId == contestId
            && |winners| == |amounts| && |winners| <= |remaining|
            && (exists j :: 0 <= j < |winners| && !WinnerAt(contestId, winners, remaining, j))
            ==> SendBatch(s, creator, contestId, mint, winners, amounts, remaining) == Err(Program(InvalidParticipant))
  {
  }

  /** On a well-formed ledger a batch goes through when the account checks
      pass, the lengths agree and are non-zero, the remaining accounts hold
      each winner's participant address and then n destinations of the
      contest's mint other than the vault, each with room for what it is
      sent, the vault covers the sum and paid_so_far does not overflow. */
  lemma SendBatchSucceeds(s: State, creator: Pubkey, contestId: uint64, mint: Pubkey,
                          winners: seq<Pubkey>, amounts: seq<uint64>, remaining: seq<Pubkey>)
    requires Inv(s)
    requires BatchAccountsValid(s, creator, contestId) && |winners| == |amounts| > 0
    requires mint == s.contests[contestId].poolMint
    requires 2 * |winners| <= |remaining|
    requires forall j :: 0 <= j < |winners| ==> WinnerAt(contestId, winners, remaining, j)
    requires forall k :: |winners| <= k < 2 * |winners| ==> DestinationReady(s.tokens, VaultAddress(contestId), mint, remaining[k])
    requires forall a :: a in s.tokens && a != VaultAddress(contestId) ==>
               s.tokens[a].amount + ReceivedFrom(a, remaining, |winners|, amounts, 0) <= UINT64_MAX
    requires Sum(amounts) <= s.tokens[VaultAddress(contestId)].amount
    requires s.contests[contestId].paidSoFar + Sum(amounts) <= UINT64_MAX
    ensures SendBatch(s, creator, contestId, mint, winners, amounts, remaining).Ok?
  {
    assert ContestWellFormed(s, contestId) && VaultWellFormed(s, contestId);
    PayFromSucceeds(s.tokens, VaultAddress(contestId), VaultAuthority(contestId), mint, remaining, |winners|, amounts, 0, 0);
  }

  /** The participant check compares addresses only, so a batch may name the
      same winner twice. */
  lemma DuplicateWinnersPass(contestId: uint64, w: Pubkey)
    ensures CheckWinners(contestId, [w, w], [ParticipantAddress(contestId, w), ParticipantAddress(contestId, w)], 0).Ok?
  {
    var winners := [w, w];
    var remaining := [ParticipantAddress(contestId, w), ParticipantAddress(contestId, w)];
    assert WinnerAt(contestId, winners, remaining, 0) && WinnerAt(contestId, winners, remaining, 1);
  }

  /** A batch that goes through takes the sum of its amounts out of the vault
      and credits each account with what was sent to it; no account appears
      or disappears and no mint or owner changes. */
  lemma SendBatchPays(s: State, creator: Pubkey, contestId: uint64, mint: Pubkey,
                      winners: seq<Pubkey>, amounts: seq<uint64>, remaining: seq<Pubkey>)
    requires SendBatch(s, creator, contestId, mint, winners, amounts, remaining).Ok?
    ensures var t := SendBatch(s, creator, contestId, mint, winners, amounts, remaining).value.tokens;
      && SameTokenAccounts(s.tokens, t)
      && forall a :: a in s.tokens ==>
           t[a].amount == s.tokens[a].amount - (if a == VaultAddress(contestId) then Sum(amounts) else 0)
                                             + ReceivedFrom(a, remaining, |winners|, amounts, 0)
  {
    PayFromBalances(s.tokens, VaultAddress(contestId), VaultAuthority(contestId), mint, remaining, |winners|, amounts, 0, 0);
  }

  /** A batch none of whose destinations is the vault itself can pay out no
      more than the vault holds, and the vault then holds exactly that much
      less: an oversized batch is rejected as a whole. */
  lemma SendBatchWithinVault(s: State, creator: Pubkey, contestId: uint64, mint: Pubkey,
                             winners: seq<Pubkey>, amounts: seq<uint64>, remaining: seq<Pubkey>)
    requires forall j :: |winners| <= j < |remaining| ==> remaining[j] != VaultAddress(contestId)
    requires SendBatch(s, creator, contestId, mint, winners, amounts, remaining).Ok?
    ensures Sum(amounts) <= s.tokens[VaultAddress(contestId)].amount
    ensures SendBatch(s, creator, contestId, mint, winners, amounts, remaining).value.tokens[VaultAddress(contestId)].amount
            == s.tokens[VaultAddress(contestId)].amount - Sum(amounts)
  {
    SendBatchPays(s, creator, contestId, mint, winners, amounts, remaining);
    ReceivedFromNone(VaultAddress(contestId), remaining, |winners|, amounts, 0);
  }

  lemma SendBatchPreservesInv(s: State, creator: Pubkey, contestId: uint64, mint: Pubkey,
                              winners: seq<Pubkey>, amounts: seq<uint64>, remaining: seq<Pubkey>)
    requires Inv(s)
    ensures Inv(Commit(s, SendBatch(s, creator, contestId, mint, winners, amounts, remaining)))
  {
    var r := SendBatch(s, creator, contestId, mint, winners, amounts, remaining);
    if r.Ok? {
      SendBatchPays(s, creator, contestId, mint, winners, amounts, remaining);
      assert ContestWellFormed(s, contestId);
      ContestRewriteKeepsInv(s, r.value, contestId);
    }
  }
}
