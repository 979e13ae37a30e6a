/**
 * The token program's transfer, the one foreign call the handlers make,
 * reduced to its effect on a map of token accounts.  Delegates, frozen
 * accounts and decimals are not modelled.
 */
module Token {
  import opened Types
  import opened Errors

  datatype TokenAccount = TokenAccount(mint: Pubkey, owner: Pubkey, amount: uint64)

  /** Every token account that exists, by address. */
  type Balances = map<Pubkey, TokenAccount>

  /** Token accounts are the same accounts, with the same mints and owners;
      only balances may differ. */
  ghost predicate SameTokenAccounts(t: Balances, u: Balances)
  {
    && t.Keys == u.Keys
    && forall a :: a in t ==> u[a].mint == t[a].mint && u[a].owner == t[a].owner
  }

  /** Moves `amount` from `from` to `to`, signed by `authority`; `mint` is the
      mint a checked transfer names.  The checks come in the token program's
      order, and a transfer to the source itself changes nothing. */
  function Transfer(t: Balances, from: Pubkey, to: Pubkey, authority: Pubkey, amount: uint64, mint: Option<Pubkey>): (r: Result<Balances>)
    ensures r.Ok? <==>
      && from in t && to in t
      && amount <= t[from].amount
      && t[from].mint == t[to].mint
      && (mint.Some? ==> mint.value == t[from].mint)
      && authority == t[from].owner
      && (from == to || t[to].amount + amount <= UINT64_MAX)
    ensures r.Ok? ==> SameTokenAccounts(t, r.value)
    ensures r.Ok? ==> forall a :: a in t ==>
      r.value[a].amount == t[a].amount - (if a == from then amount else 0) + (if a == to then amount else 0)
    ensures from in t && to in t && amount > t[from].amount ==> r == Err(Token(InsufficientFunds))
    ensures r.Err? ==> r.error.Token?
  {
    if from !in t || to !in t then Err(Token(UninitializedState))
    else if t[from].amount < amount then Err(Token(InsufficientFunds))
    else if t[from].mint != t[to].mint then Err(Token(MintMismatch))
    else if mint.Some? && mint.value != t[from].mint then Err(Token(MintMismatch))
    else if authority != t[from].owner then Err(Token(OwnerMismatch))
    else if from == to then Ok(t)
    else if t[to].amount + amount > UINT64_MAX then Err(Token(Overflow))
    else
      Ok(t[from := t[from].(amount := t[from].amount - amount)]
          [to := t[to].(amount := t[to].amount + amount)])
  }

  /** Transferring the same amount back, signed by the owner of the account
      that received it, restores every account exactly. */
  lemma TransferBack(t: Balances, a: Pubkey, b: Pubkey, authA: Pubkey, authB: Pubkey, x: uint64, mintA: Option<Pubkey>, mintB: Option<Pubkey>)
    requires Transfer(t, a, b, authA, x, mintA).Ok?
    requires b in t && authB == t[b].owner
    requires mintB.Some? ==> mintB.value == t[b].mint
    ensures Transfer(Transfer(t, a, b, authA, x, mintA).value, b, a, authB, x, mintB) == Ok(t)
  {
    var t1 := Transfer(t, a, b, authA, x, mintA).value;
    var t2 := Transfer(t1, b, a, authB, x, mintB);
    assert t2.Ok?;
    assert t2.value.Keys == t.Keys;
    forall k | k in t ensures t2.value[k] == t[k] {
    }
    assert t2.value == t;
  }
}
