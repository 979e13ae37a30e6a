/**
 * Fixed-width integers, account addresses and record layouts shared by the
 * Spotwin model.
 */
module Types {

  /** Rust's unsigned integer types, as ranges of mathematical integers. */
  type uint8 = x: int | 0 <= x < 0x100
  type uint32 = x: int | 0 <= x < 0x1_0000_0000
  type uint64 = x: int | 0 <= x < 0x1_0000_0000_0000_0000

  const UINT32_MAX: uint32 := 0xFFFF_FFFF
  const UINT64_MAX: uint64 := 0xFFFF_FFFF_FFFF_FFFF

  /** Addresses derived by the program from its seeds.  Each variant is one
      seed tuple of the program ("contest", id), ("vault", id), ... */
  datatype Seeds =
    | VaultSeeds(contestId: uint64)
    | VaultAuthoritySeeds(contestId: uint64)
    | ParticipantSeeds(contestId: uint64, player: Pubkey)
    | StakeVaultSeeds
    | StakeAuthoritySeeds

  /** An account address: either a key the program did not derive (wallets,
      mints, token accounts of users) or one derived from seeds.  Two derived
      addresses are equal exactly when their seeds are, so derivation is an
      injective function of the seed tuple. */
  datatype Pubkey = Key(n: nat) | Derived(seeds: Seeds)

  /** Only the holder of a private key can sign a transaction; a derived
      address has none, and signs only inside its own program's calls. */
  predicate CanSign(k: Pubkey) { k.Key? }

  /** Pubkey::default(), the all-zero key. */
  const DEFAULT_KEY: Pubkey := Key(0)

  function VaultAddress(contestId: uint64): Pubkey { Derived(VaultSeeds(contestId)) }
  function VaultAuthority(contestId: uint64): Pubkey { Derived(VaultAuthoritySeeds(contestId)) }
  function ParticipantAddress(contestId: uint64, player: Pubkey): Pubkey { Derived(ParticipantSeeds(contestId, player)) }
  const STAKE_VAULT: Pubkey := Derived(StakeVaultSeeds)
  const STAKE_AUTHORITY: Pubkey := Derived(StakeAuthoritySeeds)

  /** One field of an account's byte layout. */
  datatype Field = Field(name: string, width: nat)

  /** Bytes the fields of a layout occupy together. */
  function LayoutSize(fields: seq<Field>): nat
  {
    if fields == [] then 0 else fields[0].width + LayoutSize(fields[1..])
  }

  /** Splitting a layout at any field splits its size. */
  lemma {:induction false} LayoutSizeSplit(fields: seq<Field>, k: nat)
    requires k <= |fields|
    ensures LayoutSize(fields) == LayoutSize(fields[..k]) + LayoutSize(fields[k..])
  {
    if k > 0 {
      assert fields[1..][..k - 1] == fields[..k][1..];
      assert fields[1..][k - 1..] == fields[k..];
      LayoutSizeSplit(fields[1..], k - 1);
    }
  }

  /** Anchor's 8-byte account discriminator that precedes every record. */
  const DISCRIMINATOR_LEN: nat := 8
}
