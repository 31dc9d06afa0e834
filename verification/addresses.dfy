/** Account keys and program-derived addresses. A program-derived address is
    a hash of the concatenated seed bytes (plus a bump byte and the program
    id, both fixed for this program). The hash is modelled as collision-free:
    the derived address IS the concatenated seed bytes, so two derivations
    clash exactly when their seed bytes concatenate to the same string. */
module Addresses {

  type Byte = b: int | 0 <= b < 256

  const PUBKEY_LEN: nat := 32

  /** A wallet's public key: 32 bytes. */
  type Pubkey = k: seq<Byte> | |k| == PUBKEY_LEN witness seq(PUBKEY_LEN, _ => 0)

  /** An account address: a wallet (on the curve) or a program-derived
      address (off the curve), which never coincide. */
  datatype Address = Wallet(key: Pubkey) | Pda(seedBytes: seq<Byte>)

  /** The bytes of an ASCII label. */
  function Ascii(s: string): (b: seq<Byte>)
    ensures |b| == |s|
  {
    seq(|s|, i requires 0 <= i < |s| => (s[i] as int) % 256)
  }

  const USER_STATE_SEED: seq<Byte> := Ascii("user_state")
  const STAKING_POOL_SEED: seq<Byte> := Ascii("staking_pool")
  const VAULT_SEED: seq<Byte> := Ascii("staking_pool_vault")

  /** The seeds laid end to end, as the derivation hashes them. */
  function Concat(seeds: seq<seq<Byte>>): (b: seq<Byte>)
  {
    if seeds == [] then [] else seeds[0] + Concat(seeds[1..])
  }

  function Derive(seeds: seq<seq<Byte>>): Address
  {
    Pda(Concat(seeds))
  }

  /** Seeds `["user_state", user]`: the per-user stake record. */
  function UserStateAddress(user: Pubkey): (a: Address)
    ensures a.Pda? && a.seedBytes == USER_STATE_SEED + user
  {
    var seeds := [USER_STATE_SEED, user];
    assert seeds[1..][1..] == [];
    assert Concat(seeds[1..]) == user + [] == user;
    Derive(seeds)
  }

  /** Seeds `["staking_pool"]`: the (unused) pool account. */
  function StakingPoolAddress(): (a: Address)
    ensures a.Pda? && a.seedBytes == STAKING_POOL_SEED
  {
    var seeds := [STAKING_POOL_SEED];
    assert seeds[1..] == [];
    assert Concat(seeds) == STAKING_POOL_SEED + [];
    Derive(seeds)
  }

  /** Seeds `["staking_pool_vault"]`: the vault holding staked lamports. */
  function VaultAddress(): (a: Address)
    ensures a.Pda? && a.seedBytes == VAULT_SEED
  {
    var seeds := [VAULT_SEED];
    assert seeds[1..] == [];
    assert Concat(seeds) == VAULT_SEED + [];
    Derive(seeds)
  }

  /** Distinct users own distinct stake records. */
  lemma UserStateAddressInjective(u: Pubkey, v: Pubkey)
    ensures UserStateAddress(u) == UserStateAddress(v) <==> u == v
  {
    if UserStateAddress(u) == UserStateAddress(v) {
      var n := |USER_STATE_SEED|;
      assert u == (USER_STATE_SEED + u)[n..];
      assert v == (USER_STATE_SEED + v)[n..];
    }
  }

  /** The three kinds of derived account never share an address, and none
      is a wallet. */
  lemma DerivedAddressesDistinct(u: Pubkey)
    ensures UserStateAddress(u) != StakingPoolAddress()
    ensures UserStateAddress(u) != VaultAddress()
    ensures StakingPoolAddress() != VaultAddress()
    ensures !UserStateAddress(u).Wallet? && !StakingPoolAddress().Wallet? && !VaultAddress().Wallet?
  {
  }
}
