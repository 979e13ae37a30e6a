/**
 * The contest instructions, one function each: the framework's account
 * checks in the order of the instruction's account list, then the handler.
 * An error returns no state, so a failed instruction changes nothing.
 *
 * The framework works in three passes over the account list: it loads every
 * non-`init` account in field order (the signer must have signed, an account
 * that does not exist fails with AccountNotInitialized), then creates the
 * `init` accounts (one that already exists fails with AccountAlreadyInUse),
 * then, account by account, checks its `has_one` keys and then its
 * `constraint`s, whatever their written order.
 */
module ContestInstructions {
  import opened Types
  import opened Errors
  import opened ContestRecord
  import opened ParticipantRecord
  import opened Token
  import opened LedgerState

  /** A contest as `create_contest` leaves it: the supplied fields stored
      exactly, everything else at its starting value. */
  ghost predicate IsNewContest(c: Contest, creator: Pubkey, contestId: uint64, poolMint: Pubkey, entryFee: uint64, lockSlot: uint64)
  {
    && c.creator == creator && c.contestId == contestId && c.poolMint == poolMint
    && c.entryFee == entryFee && c.lockSlot == lockSlot
    && c.status == Open && c.answerKey == 0 && c.payoutRoot == ZERO_ROOT
    && c.winnerCount == 0 && c.paidSoFar == 0 && c.totalEntries == 0
  }

  /** create_contest: allocate the contest at ("contest", id) and its empty
      vault at ("vault", id).  The entry fee is not range-checked. */
  function CreateContest(s: State, creator: Pubkey, contestId: uint64, entryFee: uint64, lockSlot: uint64, poolMint: Pubkey,
                         contestBump: uint8, vaultBump: uint8, vaultAuthorityBump: uint8): (r: Result<State>)
    ensures r.Ok? <==> CanSign(creator) && contestId !in s.contests && VaultAddress(contestId) !in s.tokens
    ensures r.Err? ==> r.error == Anchor(if CanSign(creator) then AccountAlreadyInUse else AccountNotSigner)
    ensures r.Ok? ==>
      && contestId in r.value.contests
      && IsNewContest(r.value.contests[contestId], creator, contestId, poolMint, entryFee, lockSlot)
      && r.value.contests == s.contests[contestId := r.value.contests[contestId]]
      && r.value.tokens == s.tokens[VaultAddress(contestId) := TokenAccount(poolMint, VaultAuthority(contestId), 0)]
      && r.value.participants == s.participants && r.value.stakes == s.stakes
  {
    if !CanSign(creator) then Err(Anchor(AccountNotSigner))
    else if contestId in s.contests then Err(Anchor(AccountAlreadyInUse))
    else if VaultAddress(contestId) in s.tokens then Err(Anchor(AccountAlreadyInUse))
    else
      var c := Contest(creator, contestId, poolMint, entryFee, lockSlot, Open, 0, 0, ZERO_ROOT, 0, 0,
                       contestBump, vaultBump, vaultAuthorityBump);
      Ok(s.(contests := s.contests[contestId := c],
            tokens := s.tokens[VaultAddress(contestId) := TokenAccount(poolMint, VaultAuthority(contestId), 0)]))
  }

  /** The accounts join_contest loads before it creates the participant:
      the player signed, and the contest, its vault and the player's token
      account exist. */
  ghost predicate JoinAccountsLoaded(s: State, player: Pubkey, contestId: uint64, playerToken: Pubkey)
  {
    CanSign(player) && contestId in s.contests && VaultAddress(contestId) in s.tokens && playerToken in s.tokens
  }

  /** Every account check of join_contest passes. */
  ghost predicate JoinAccountsValid(s: State, player: Pubkey, contestId: uint64, playerToken: Pubkey, poolMint: Pubkey)
  {
    && JoinAccountsLoaded(s, player, contestId, playerToken)
    && (contestId, player) !in s.participants
    && s.contests[contestId].poolMint == poolMint
    && s.contests[contestId].status == Open
    && s.tokens[playerToken].owner == player
    && s.tokens[playerToken].mint == poolMint
  }

  /** The entry fee can move from the player's token account into the
      contest's vault: nothing to move when it is 0, otherwise the account
      holds it, the vault takes the same mint and does not overflow. */
  ghost predicate EntryFeePayable(s: State, contestId: uint64, playerToken: Pubkey, poolMint: Pubkey)
    requires contestId in s.contests && VaultAddress(contestId) in s.tokens && playerToken in s.tokens
  {
    s.contests[contestId].entryFee > 0 ==>
      && s.contests[contestId].entryFee <= s.tokens[playerToken].amount
      && s.tokens[VaultAddress(contestId)].mint == poolMint
      && (playerToken == VaultAddress(contestId)
          || s.tokens[VaultAddress(contestId)].amount + s.contests[contestId].entryFee <= UINT64_MAX)
  }

  /** join_contest: the player pays the entry fee into the vault (no transfer
      when the fee is 0), gets a blank participant record, and the contest
      counts one more entry.  The accounts are loaded first, then the
      participant is created, then the contest's and the token account's
      constraints are checked. */
  function JoinContest(s: State, player: Pubkey, contestId: uint64, playerToken: Pubkey, poolMint: Pubkey): (r: Result<State>)
    ensures r.Ok? <==>
      && JoinAccountsValid(s, player, contestId, playerToken, poolMint)
      && EntryFeePayable(s, contestId, playerToken, poolMint)
      && s.contests[contestId].totalEntries < UINT32_MAX
    ensures !CanSign(player) ==> r == Err(Anchor(AccountNotSigner))
    ensures CanSign(player) && !JoinAccountsLoaded(s, player, contestId, playerToken) ==> r == Err(Anchor(AccountNotInitialized))
    ensures JoinAccountsLoaded(s, player, contestId, playerToken) && (contestId, player) in s.participants
            ==> r == Err(Anchor(AccountAlreadyInUse))
    ensures JoinAccountsLoaded(s, player, contestId, playerToken) && (contestId, player) !in s.participants ==>
      && (s.contests[contestId].poolMint != poolMint ==> r == Err(Anchor(ConstraintHasOne)))
      && (s.contests[contestId].poolMint == poolMint && s.contests[contestId].status != Open ==> r == Err(Program(ContestClosed)))
      && (s.contests[contestId].poolMint == poolMint && s.contests[contestId].status == Open && s.tokens[playerToken].owner != player
          ==> r == Err(Program(InvalidOwner)))
      && (s.contests[contestId].poolMint == poolMint && s.contests[contestId].status == Open && s.tokens[playerToken].owner == player
          && s.tokens[playerToken].mint != poolMint
          ==> r == Err(Program(InvalidMint)))
    ensures JoinAccountsValid(s, player, contestId, playerToken, poolMint) && 0 < s.contests[contestId].entryFee
            && s.tokens[playerToken].amount < s.contests[contestId].entryFee
            ==> r == Err(Token(InsufficientFunds))
    ensures JoinAccountsValid(s, player, contestId, playerToken, poolMint) && EntryFeePayable(s, contestId, playerToken, poolMint)
            && s.contests[contestId].totalEntries == UINT32_MAX
            ==> r == Err(Program(NumericalOverflow))
    ensures r.Ok? ==>
      && r.value.participants == s.participants[(contestId, player) := Participant(player, 0, 0)]
      && r.value.contests == s.contests[contestId := s.contests[contestId].(totalEntries := s.contests[contestId].totalEntries + 1)]
      && r.value.stakes == s.stakes
    ensures r.Ok? ==> SameTokenAccounts(s.tokens, r.value.tokens)
    ensures r.Ok? ==> forall a :: a in s.tokens ==>
      r.value.tokens[a].amount == s.tokens[a].amount
           - (if a == playerToken then s.contests[contestId].entryFee else 0)
           + (if a == VaultAddress(contestId) then s.contests[contestId].entryFee else 0)
  {
    if !CanSign(player) then Err(Anchor(AccountNotSigner))
    else if contestId !in s.contests || VaultAddress(contestId) !in s.tokens || playerToken !in s.tokens then Err(Anchor(AccountNotInitialized))
    else if (contestId, player) in s.participants then Err(Anchor(AccountAlreadyInUse))
    else
      var c := s.contests[contestId];
      if c.poolMint != poolMint then Err(Anchor(ConstraintHasOne))
      else if c.status != Open then Err(Program(ContestClosed))
      else if s.tokens[playerToken].owner != player then Err(Program(InvalidOwner))
      else if s.tokens[playerToken].mint != poolMint then Err(Program(InvalidMint))
      else
        var paid := if c.entryFee > 0 then Transfer(s.tokens, playerToken, VaultAddress(contestId), player, c.entryFee, None)
                    else Ok(s.tokens);
        if paid.Err? then Err(paid.error)
        else if c.totalEntries == UINT32_MAX then Err(Program(NumericalOverflow))
        else
          Ok(State(s.contests[contestId := c.(totalEntries := c.totalEntries + 1)],
                   s.participants[(contestId, player) := Participant(player, 0, 0)],
                   s.stakes,
                   paid.value))
  }

  /** The accounts update_answers loads: the creator signed, and the contest
      and the player's participant record exist. */
  ghost predicate UpdateAccountsLoaded(s: State, creator: Pubkey, contestId: uint64, player: Pubkey)
  {
    CanSign(creator) && contestId in s.contests && (contestId, player) in s.participants
  }

  /** update_answers may change this player's answers now: the accounts are
      loaded, the signer is the contest's creator, the contest is open and
      before its lock slot, and the participant record names the player. */
  ghost predicate UpdateAllowed(s: State, creator: Pubkey, contestId: uint64, player: Pubkey, now: uint64)
  {
    && UpdateAccountsLoaded(s, creator, contestId, player)
    && s.contests[contestId].creator == creator
    && s.contests[contestId].status == Open
    && now < s.contests[contestId].lockSlot
    && s.participants[(contestId, player)].player == player
  }

  /** update_answers: the contest's creator replaces a player's masks while
      the contest is open and before its lock slot.  The new attempt mask must
      have exactly nine bits and the answer bits must lie inside it. */
  function UpdateAnswers(s: State, creator: Pubkey, contestId: uint64, player: Pubkey,
                         newAttemptMask: bv16, newAnswerBits: bv16, now: uint64): (r: Result<State>)
    ensures r.Ok? <==>
      UpdateAllowed(s, creator, contestId, player, now) && PopCount(newAttemptMask) == 9 && IsSubMask(newAnswerBits, newAttemptMask)
    ensures r.Ok? ==>
      && r.value.participants == s.participants[(contestId, player) := Participant(player, newAttemptMask, newAnswerBits)]
      && r.value.contests == s.contests && r.value.stakes == s.stakes && r.value.tokens == s.tokens
    ensures !CanSign(creator) ==> r == Err(Anchor(AccountNotSigner))
    ensures CanSign(creator) && !UpdateAccountsLoaded(s, creator, contestId, player) ==> r == Err(Anchor(AccountNotInitialized))
    ensures UpdateAccountsLoaded(s, creator, contestId, player) ==>
      && (s.contests[contestId].creator != creator ==> r == Err(Anchor(ConstraintHasOne)))
      && (s.contests[contestId].creator == creator
          && (s.contests[contestId].status != Open || now >= s.contests[contestId].lockSlot)
          ==> r == Err(Program(ContestClosed)))
      && (s.contests[contestId].creator == creator && s.contests[contestId].status == Open && now < s.contests[contestId].lockSlot
          && s.participants[(contestId, player)].player != player
          ==> r == Err(Program(InvalidParticipant)))
    ensures UpdateAllowed(s, creator, contestId, player, now) && PopCount(newAttemptMask) != 9
            ==> r == Err(Program(InvalidAttemptMask))
    ensures UpdateAllowed(s, creator, contestId, player, now) && PopCount(newAttemptMask) == 9 && !IsSubMask(newAnswerBits, newAttemptMask)
            ==> r == Err(Program(InvalidAnswerBits))
  {
    if !CanSign(creator) then Err(Anchor(AccountNotSigner))
    else if contestId !in s.contests || (contestId, player) !in s.participants then Err(Anchor(AccountNotInitialized))
    else
      var c := s.contests[contestId];
      if c.creator != creator then Err(Anchor(ConstraintHasOne))
      else if c.status != Open then Err(Program(ContestClosed))
      else if now >= c.lockSlot then Err(Program(ContestClosed))
      else if s.participants[(contestId, player)].player != player then Err(Program(InvalidParticipant))
      else if PopCount(newAttemptMask) != 9 then Err(Program(InvalidAttemptMask))
      else if !IsSubMask(newAnswerBits, newAttemptMask) then Err(Program(InvalidAnswerBits))
      else
        Ok(s.(participants := s.participants[(contestId, player) := Participant(player, newAttemptMask, newAnswerBits)]))
  }

  /** lock_contest: the creator moves an open contest to Locked, at any slot. */
  function LockContest(s: State, creator: Pubkey, contestId: uint64): (r: Result<State>)
    ensures r.Ok? <==>
      CanSign(creator) && contestId in s.contests && s.contests[contestId].creator == creator && s.contests[contestId].status == Open
    ensures CanSign(creator) && contestId in s.contests && s.contests[contestId].creator == creator && s.contests[contestId].status != Open
            ==> r == Err(Program(ContestClosed))
    ensures r.Ok? ==>
      && r.value.contests == s.contests[contestId := s.contests[contestId].(status := Locked)]
      && r.value.participants == s.participants && r.value.stakes == s.stakes && r.value.tokens == s.tokens
  {
    if !CanSign(creator) then Err(Anchor(AccountNotSigner))
    else if contestId !in s.contests then Err(Anchor(AccountNotInitialized))
    else
      var c := s.contests[contestId];
      if c.creator != creator then Err(Anchor(ConstraintHasOne))
      else if c.status != Open then Err(Program(ContestClosed))
      else Ok(s.(contests := s.contests[contestId := c.(status := Locked)]))
  }

  /** post_answer_key: the creator posts a 12-bit key to a locked contest,
      which moves it to AnswerKeyPosted.  A key of 0 is accepted. */
  function PostAnswerKey(s: State, creator: Pubkey, contestId: uint64, answerKey: bv16): (r: Result<State>)
    ensures r.Ok? <==>
      && CanSign(creator)
      && contestId in s.contests && s.contests[contestId].creator == creator
      && s.contests[contestId].status == Locked
      && answerKey < 0x1000
    ensures CanSign(creator) && contestId in s.contests && s.contests[contestId].creator == creator && s.contests[contestId].status != Locked
            ==> r == Err(Program(ContestNotLocked))
    ensures CanSign(creator) && contestId in s.contests && s.contests[contestId].creator == creator && s.contests[contestId].status == Locked
            && answerKey >= 0x1000
            ==> r == Err(Program(InvalidAnswerKey))
    ensures r.Ok? ==>
      && r.value.contests == s.contests[contestId := s.contests[contestId].(answerKey := answerKey, status := AnswerKeyPosted)]
      && r.value.participants == s.participants && r.value.stakes == s.stakes && r.value.tokens == s.tokens
  {
    if !CanSign(creator) then Err(Anchor(AccountNotSigner))
    else if contestId !in s.contests then Err(Anchor(AccountNotInitialized))
    else
      var c := s.contests[contestId];
      if c.creator != creator then Err(Anchor(ConstraintHasOne))
      else if c.status != Locked then Err(Program(ContestNotLocked))
      else if !(answerKey < 0x1000) then Err(Program(InvalidAnswerKey))
      else Ok(s.(contests := s.contests[contestId := c.(answerKey := answerKey, status := AnswerKeyPosted)]))
  }

  /** post_payout_root: the creator records a payout root and winner count on
      a locked contest whose answer key is set; 0 < winner count <= entries. */
  function PostPayoutRoot(s: State, creator: Pubkey, contestId: uint64, root: Root, winnerCount: uint32): (r: Result<State>)
    ensures r.Ok? <==>
      && CanSign(creator)
      && contestId in s.contests && s.contests[contestId].creator == creator
      && s.contests[contestId].status == Locked
      && s.contests[contestId].answerKey != 0
      && 0 < winnerCount <= s.contests[contestId].totalEntries
    ensures CanSign(creator) && contestId in s.contests && s.contests[contestId].creator == creator ==>
      && (s.contests[contestId].status != Locked ==> r == Err(Program(ContestNotLocked)))
      && (s.contests[contestId].status == Locked && s.contests[contestId].answerKey == 0 ==> r == Err(Program(AnswerKeyNotSet)))
      && (s.contests[contestId].status == Locked && s.contests[contestId].answerKey != 0
          && !(0 < winnerCount <= s.contests[contestId].totalEntries)
          ==> r == Err(Program(InvalidWinnerCount)))
    ensures r.Ok? ==>
      && r.value.contests == s.contests[contestId := s.contests[contestId].(payoutRoot := root, winnerCount := winnerCount)]
      && r.value.participants == s.participants && r.value.stakes == s.stakes && r.value.tokens == s.tokens
  {
    if !CanSign(creator) then Err(Anchor(AccountNotSigner))
    else if contestId !in s.contests then Err(Anchor(AccountNotInitialized))
    else
      var c := s.contests[contestId];
      if c.creator != creator then Err(Anchor(ConstraintHasOne))
      else if c.status != Locked then Err(Program(ContestNotLocked))
      else if c.answerKey == 0 then Err(Program(AnswerKeyNotSet))
      else if !(0 < winnerCount <= c.totalEntries) then Err(Program(InvalidWinnerCount))
      else Ok(s.(contests := s.contests[contestId := c.(payoutRoot := root, winnerCount := winnerCount)]))
  }

  // ----- Invariant preservation -----

  lemma CreateContestPreservesInv(s: State, creator: Pubkey, contestId: uint64, entryFee: uint64, lockSlot: uint64, poolMint: Pubkey,
                                  contestBump: uint8, vaultBump: uint8, vaultAuthorityBump: uint8)
    requires Inv(s)
    ensures Inv(Commit(s, CreateContest(s, creator, contestId, entryFee, lockSlot, poolMint, contestBump, vaultBump, vaultAuthorityBump)))
  {
    var r := CreateContest(s, creator, contestId, entryFee, lockSlot, poolMint, contestBump, vaultBump, vaultAuthorityBump);
    if r.Ok? {
      var t := r.value;
      forall q ensures q !in Entrants(t.participants, contestId) {
        assert ParticipantWellFormed(s, (contestId, q));
      }
      assert Entrants(t.participants, contestId) == {};
      forall id | id in t.contests ensures ContestWellFormed(t, id) && VaultWellFormed(t, id) {
        if id != contestId {
          assert ContestWellFormed(s, id) && VaultWellFormed(s, id);
        }
      }
      forall a ensures DerivedAccountKnown(t, a) {
        assert DerivedAccountKnown(s, a);
      }
      AccountsKept(s, t);
    }
  }

  /** One more participant in an open contest, and tokens moved between
      existing accounts, keep the invariant. */
  lemma AddParticipantKeepsInv(s: State, t: State, contestId: uint64, player: Pubkey)
    requires Inv(s)
    requires contestId in s.contests && (contestId, player) !in s.participants
    requires s.contests[contestId].totalEntries < UINT32_MAX
    requires t.contests == s.contests[contestId := s.contests[contestId].(totalEntries := s.contests[contestId].totalEntries + 1)]
    requires t.participants == s.participants[(contestId, player) := Participant(player, 0, 0)]
    requires t.stakes == s.stakes
    requires SameTokenAccounts(s.tokens, t.tokens)
    ensures Inv(t)
  {
    forall id | id in t.contests ensures ContestWellFormed(t, id) {
      ContestAfterJoin(s, t, contestId, player, id);
    }
    assert VaultsWellFormed(t) by {
      VaultsKept(s, t);
    }
    forall k ensures ParticipantWellFormed(t, k) {
      assert ParticipantWellFormed(s, k);
    }
    forall k ensures StakeWellFormed(t, k) {
      assert StakeWellFormed(s, k);
    }
  }

  lemma ContestAfterJoin(s: State, t: State, contestId: uint64, player: Pubkey, id: uint64)
    requires ContestsWellFormed(s)
    requires contestId in s.contests && (contestId, player) !in s.participants
    requires s.contests[contestId].totalEntries < UINT32_MAX
    requires t.contests == s.contests[contestId := s.contests[contestId].(totalEntries := s.contests[contestId].totalEntries + 1)]
    requires t.participants == s.participants[(contestId, player) := Participant(player, 0, 0)]
    requires id in t.contests
    ensures ContestWellFormed(t, id)
  {
    assert ContestWellFormed(s, id);
    EntrantsAdd(s.participants, contestId, player, Participant(player, 0, 0));
  }

  lemma JoinContestPreservesInv(s: State, player: Pubkey, contestId: uint64, playerToken: Pubkey, poolMint: Pubkey)
    requires Inv(s)
    ensures Inv(Commit(s, JoinContest(s, player, contestId, playerToken, poolMint)))
  {
    var r := JoinContest(s, player, contestId, playerToken, poolMint);
    if r.Ok? {
      AddParticipantKeepsInv(s, r.value, contestId, player);
    }
  }

  lemma UpdateAnswersPreservesInv(s: State, creator: Pubkey, contestId: uint64, player: Pubkey,
                                  newAttemptMask: bv16, newAnswerBits: bv16, now: uint64)
    requires Inv(s)
    ensures Inv(Commit(s, UpdateAnswers(s, creator, contestId, player, newAttemptMask, newAnswerBits, now)))
  {
    var r := UpdateAnswers(s, creator, contestId, player, newAttemptMask, newAnswerBits, now);
    if r.Ok? {
      var t := r.value;
      EntrantsSameKeys(s.participants, t.participants);
      forall id | id in t.contests ensures ContestWellFormed(t, id) {
        assert ContestWellFormed(s, id);
      }
      VaultsKept(s, t);
      forall k ensures ParticipantWellFormed(t, k) {
        assert ParticipantWellFormed(s, k);
      }
      forall k ensures StakeWellFormed(t, k) {
        assert StakeWellFormed(s, k);
      }
    }
  }

  lemma LockContestPreservesInv(s: State, creator: Pubkey, contestId: uint64)
    requires Inv(s)
    ensures Inv(Commit(s, LockContest(s, creator, contestId)))
  {
    var r := LockContest(s, creator, contestId);
    if r.Ok? {
      assert ContestWellFormed(s, contestId);
      ContestRewriteKeepsInv(s, r.value, contestId);
    }
  }

  lemma PostAnswerKeyPreservesInv(s: State, creator: Pubkey, contestId: uint64, answerKey: bv16)
    requires Inv(s)
    ensures Inv(Commit(s, PostAnswerKey(s, creator, contestId, answerKey)))
  {
    var r := PostAnswerKey(s, creator, contestId, answerKey);
    if r.Ok? {
      assert ContestWellFormed(s, contestId);
      ContestRewriteKeepsInv(s, r.value, contestId);
    }
  }

  /** On a ledger satisfying the invariant a locked contest has no answer
      key, since the key is only ever written together with the move to
      AnswerKeyPosted.  So post_payout_root, which wants both, always fails,
      and with AnswerKeyNotSet once the signer, contest and status checks
      pass. */
  lemma PostPayoutRootNeverSucceeds(s: State, creator: Pubkey, contestId: uint64, root: Root, winnerCount: uint32)
    requires Inv(s)
    ensures PostPayoutRoot(s, creator, contestId, root, winnerCount).Err?
    ensures CanSign(creator) && contestId in s.contests && s.contests[contestId].creator == creator
            && s.contests[contestId].status == Locked
            ==> PostPayoutRoot(s, creator, contestId, root, winnerCount) == Err(Program(AnswerKeyNotSet))
  {
    if contestId in s.contests {
      assert ContestWellFormed(s, contestId);
    }
  }

  lemma PostPayoutRootPreservesInv(s: State, creator: Pubkey, contestId: uint64, root: Root, winnerCount: uint32)
    requires Inv(s)
    ensures Inv(Commit(s, PostPayoutRoot(s, creator, contestId, root, winnerCount)))
  {
    PostPayoutRootNeverSucceeds(s, creator, contestId, root, winnerCount);
  }
}
