/**
 * The whole on-chain state the program owns or touches, the invariant every
 * instruction keeps, and the relation "nothing went backwards" between two
 * states.
 */
module LedgerState {
  import opened Types
  import opened Errors
  import opened ContestRecord
  import opened ParticipantRecord
  import opened StakeRecord
  import opened Token

  /** Program accounts are keyed by their seeds: a contest by its id (address
      ("contest", id)), a participant by (id, player), a stake account by its
      staker.  Token accounts, vaults included, are keyed by address. */
  datatype State = State(
    contests: map<uint64, Contest>,
    participants: map<(uint64, Pubkey), Participant>,
    stakes: map<Pubkey, StakeAccount>,
    tokens: Balances)

  /** Before any instruction: only the users' own token accounts exist. */
  function Initial(wallets: Balances): State
  {
    State(map[], map[], map[], wallets)
  }

  /** A transaction either lands completely or leaves the state as it was. */
  function Commit(s: State, r: Result<State>): State
  {
    if r.Ok? then r.value else s
  }

  /** The imperative run of an instruction agrees with its specification:
      same outcome, and the state it specifies, or no change on an error. */
  ghost predicate Completes(before: State, after: State, r: Result<()>, spec: Result<State>)
  {
    match spec
    case Ok(s) => r == Ok(()) && after == s
    case Err(e) => r == Err(e) && after == before
  }

  /** Players that have joined contest `id`. */
  function Entrants(ps: map<(uint64, Pubkey), Participant>, id: uint64): set<Pubkey>
  {
    set k | k in ps && k.0 == id :: k.1
  }

  /** Adding a participant to one contest adds exactly that player to its
      entrants and leaves every other contest's entrants alone. */
  lemma EntrantsAdd(ps: map<(uint64, Pubkey), Participant>, id: uint64, player: Pubkey, p: Participant)
    requires (id, player) !in ps
    ensures player !in Entrants(ps, id)
    ensures Entrants(ps[(id, player) := p], id) == Entrants(ps, id) + {player}
    ensures |Entrants(ps[(id, player) := p], id)| == |Entrants(ps, id)| + 1
    ensures forall other :: other != id ==> Entrants(ps[(id, player) := p], other) == Entrants(ps, other)
  {
    var ps' := ps[(id, player) := p];
    assert Entrants(ps', id) == Entrants(ps, id) + {player} by {
      forall q ensures q in Entrants(ps', id) <==> q in Entrants(ps, id) + {player} {
        if q in Entrants(ps, id) { assert (id, q) in ps'; }
        if q == player { assert (id, q) in ps'; }
        if q in Entrants(ps', id) && q != player { assert (id, q) in ps; }
      }
    }
    forall other | other != id ensures Entrants(ps', other) == Entrants(ps, other) {
      forall q ensures q in Entrants(ps', other) <==> q in Entrants(ps, other) {
        if q in Entrants(ps, other) { assert (other, q) in ps'; }
        if q in Entrants(ps', other) { assert (other, q) in ps; }
      }
    }
  }

  /** Rewriting participants under the same keys keeps every contest's entrants. */
  lemma EntrantsSameKeys(ps: map<(uint64, Pubkey), Participant>, ps': map<(uint64, Pubkey), Participant>)
    requires ps.Keys == ps'.Keys
    ensures forall id: uint64 :: Entrants(ps', id) == Entrants(ps, id)
  {
    forall id: uint64 ensures Entrants(ps', id) == Entrants(ps, id) {
      forall q ensures q in Entrants(ps', id) <==> q in Entrants(ps, id) {
        if q in Entrants(ps, id) { assert (id, q) in ps'; }
        if q in Entrants(ps', id) { assert (id, q) in ps; }
      }
    }
  }

  /** Contest `id` is stored under its own id, is in one of the three states
      the handlers produce, has no answer key before one is posted, and counts
      exactly the players that joined it. */
  ghost predicate ContestWellFormed(s: State, id: uint64)
  {
    && id in s.contests
    && s.contests[id].contestId == id
    && s.contests[id].status in {Open, Locked, AnswerKeyPosted}
    && (s.contests[id].status != AnswerKeyPosted ==> s.contests[id].answerKey == 0)
    && s.contests[id].totalEntries == |Entrants(s.participants, id)|
  }

  ghost predicate ContestsWellFormed(s: State)
  {
    forall id {:trigger ContestWellFormed(s, id)} :: id in s.contests ==> ContestWellFormed(s, id)
  }

  /** Contest `id` has its vault, holding the contest's mint under the
      contest's vault authority. */
  ghost predicate VaultWellFormed(s: State, id: uint64)
  {
    && id in s.contests
    && VaultAddress(id) in s.tokens
    && s.tokens[VaultAddress(id)].mint == s.contests[id].poolMint
    && s.tokens[VaultAddress(id)].owner == VaultAuthority(id)
  }

  /** A token account at a derived address is the vault of an existing
      contest or the stake vault, which the stake authority owns. */
  ghost predicate DerivedAccountKnown(s: State, a: Pubkey)
  {
    a in s.tokens && a.Derived? ==>
      || (a.seeds.VaultSeeds? && a.seeds.contestId in s.contests)
      || (a == STAKE_VAULT && s.tokens[a].owner == STAKE_AUTHORITY)
  }

  /** Every contest has its vault, and every derived token account is known. */
  ghost predicate VaultsWellFormed(s: State)
  {
    && (forall id {:trigger VaultWellFormed(s, id)} :: id in s.contests ==> VaultWellFormed(s, id))
    && (forall a {:trigger DerivedAccountKnown(s, a)} :: DerivedAccountKnown(s, a))
  }

  /** Moving balances around and leaving contests' ids and mints alone keeps
      the vaults well formed. */
  lemma VaultsKept(s: State, t: State)
    requires VaultsWellFormed(s)
    requires SameTokenAccounts(s.tokens, t.tokens)
    requires t.contests.Keys == s.contests.Keys
    requires forall id :: id in s.contests ==> t.contests[id].poolMint == s.contests[id].poolMint
    ensures VaultsWellFormed(t)
  {
    forall id | id in t.contests ensures VaultWellFormed(t, id) {
      assert VaultWellFormed(s, id);
    }
    forall a ensures DerivedAccountKnown(t, a) {
      assert DerivedAccountKnown(s, a);
    }
  }

  ghost predicate ParticipantWellFormed(s: State, k: (uint64, Pubkey))
  {
    k in s.participants ==> k.0 in s.contests && s.participants[k].player == k.1
  }

  ghost predicate StakeWellFormed(s: State, k: Pubkey)
  {
    k in s.stakes ==> s.stakes[k].owner == k
  }

  ghost predicate AccountsWellFormed(s: State)
  {
    && (forall k {:trigger ParticipantWellFormed(s, k)} :: ParticipantWellFormed(s, k))
    && (forall k {:trigger StakeWellFormed(s, k)} :: StakeWellFormed(s, k))
  }

  /** The invariant of every reachable state. */
  ghost predicate Inv(s: State)
  {
    ContestsWellFormed(s) && VaultsWellFormed(s) && AccountsWellFormed(s)
  }

  /** Changing contests under the same keys and leaving participants and
      stakes alone keeps the participant and stake accounts well formed. */
  lemma AccountsKept(s: State, t: State)
    requires AccountsWellFormed(s)
    requires s.contests.Keys <= t.contests.Keys
    requires t.participants == s.participants && t.stakes == s.stakes
    ensures AccountsWellFormed(t)
  {
    forall k ensures ParticipantWellFormed(t, k) {
      assert ParticipantWellFormed(s, k);
    }
    forall k ensures StakeWellFormed(t, k) {
      assert StakeWellFormed(s, k);
    }
  }

  /** Rewriting one contest's mutable fields, with participants unchanged,
      keeps the invariant when the rewritten contest is still well formed. */
  lemma ContestRewriteKeepsInv(s: State, t: State, id: uint64)
    requires Inv(s) && id in s.contests && id in t.contests
    requires t.contests == s.contests[id := t.contests[id]]
    requires t.contests[id].contestId == id && t.contests[id].poolMint == s.contests[id].poolMint
    requires t.participants == s.participants && t.stakes == s.stakes
    requires SameTokenAccounts(s.tokens, t.tokens)
    requires ContestWellFormed(t, id)
    ensures Inv(t)
  {
    forall other | other in t.contests ensures ContestWellFormed(t, other) {
      assert ContestWellFormed(s, other);
    }
    VaultsKept(s, t);
    AccountsKept(s, t);
  }

  /** Rewriting one staker's record, still naming that staker, and moving
      balances keeps the invariant. */
  lemma StakeRewriteKeepsInv(s: State, t: State, staker: Pubkey)
    requires Inv(s)
    requires t.contests == s.contests && t.participants == s.participants
    requires staker in t.stakes && t.stakes == s.stakes[staker := t.stakes[staker]] && t.stakes[staker].owner == staker
    requires SameTokenAccounts(s.tokens, t.tokens)
    ensures Inv(t)
  {
    forall id | id in t.contests ensures ContestWellFormed(t, id) {
      assert ContestWellFormed(s, id);
    }
    VaultsKept(s, t);
    forall k ensures ParticipantWellFormed(t, k) {
      assert ParticipantWellFormed(s, k);
    }
    forall k ensures StakeWellFormed(t, k) {
      assert StakeWellFormed(s, k);
    }
  }

  /** The initial state satisfies the invariant when users hold only
      accounts the program did not derive. */
  lemma InitialInv(wallets: Balances)
    requires forall a :: a in wallets ==> a.Key?
    ensures Inv(Initial(wallets))
  {
    var s := Initial(wallets);
    forall a ensures DerivedAccountKnown(s, a) {
    }
    forall k ensures ParticipantWellFormed(s, k) {
    }
    forall k ensures StakeWellFormed(s, k) {
    }
  }

  /** What may change about a contest: its status moves forward, the fields
      set at creation stay, counters never decrease and a posted key stays. */
  ghost predicate ContestAdvances(c: Contest, d: Contest)
  {
    && StatusAdvances(c.status, d.status)
    && d.creator == c.creator && d.contestId == c.contestId && d.poolMint == c.poolMint
    && d.entryFee == c.entryFee && d.lockSlot == c.lockSlot
    && d.totalEntries >= c.totalEntries
    && d.paidSoFar >= c.paidSoFar
    && (c.status == AnswerKeyPosted ==> d.answerKey == c.answerKey)
  }

  /** Nothing goes backwards from s to t: no account disappears, every contest
      advances, and a participant keeps its player. */
  ghost predicate Advances(s: State, t: State)
  {
    && (forall id :: id in s.contests ==> id in t.contests && ContestAdvances(s.contests[id], t.contests[id]))
    && (forall k :: k in s.participants ==> k in t.participants && t.participants[k].player == s.participants[k].player)
    && s.stakes.Keys <= t.stakes.Keys
    && s.tokens.Keys <= t.tokens.Keys
  }

  lemma AdvancesTransitive(s: State, t: State, u: State)
    requires Advances(s, t) && Advances(t, u)
    ensures Advances(s, u)
  {
    forall id | id in s.contests ensures id in u.contests && ContestAdvances(s.contests[id], u.contests[id]) {
      StatusAdvancesTransitive(s.contests[id].status, t.contests[id].status, u.contests[id].status);
    }
  }
}
