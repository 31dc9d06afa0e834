/** The runs the program's test suite drives, replayed on the model for an
    arbitrary user and an arbitrary starting vault balance (fees ignored). */
module Scenarios {
  import opened Errors
  import opened Lamports
  import opened Addresses
  import opened StakeProgram

  /** A fresh user funded with 2 SOL stakes 1 SOL: the record holds exactly
      1 SOL and the vault grows by exactly 1 SOL. */
  lemma StakeOneSol(u: Pubkey, vault: u64)
    requires vault <= U64_MAX - 1_000_000_000
    ensures
      var s := State(map[], map[u := 2_000_000_000], vault);
      var r := Stake(s, CanonicalAccounts(u), 1_000_000_000);
      && r.Ok?
      && r.value.records[UserStateAddress(u)] == 1_000_000_000
      && r.value.vault - s.vault == 1_000_000_000
      && Balance(s, u) - Balance(r.value, u) == 1_000_000_000
  {
  }

  /** A user funded with 7 SOL stakes 6 SOL and unstakes; a second unstake
      fails with the "no staked amount" message; staking 4 SOL and unstaking
      then fails on the threshold and keeps the 4 SOL staked. */
  lemma StakeUnstakeCycle(u: Pubkey, vault: u64)
    requires vault <= U64_MAX - 7_000_000_000
    ensures
      var a := CanonicalAccounts(u);
      var s0 := State(map[], map[u := 7_000_000_000], vault);
      var r1 := Stake(s0, a, 6_000_000_000);
      && r1.Ok?
      && var r2 := Unstake(r1.value, a);
      && r2.Ok?
      && Balance(r2.value, u) - Balance(r1.value, u) == 6_000_000_000
      && r1.value.vault - r2.value.vault == 6_000_000_000
      && r2.value.records[a.userState] == 0
      && Unstake(r2.value, a) == Err(NoStakedAmount)
      && Message(NoStakedAmount) == "No staked amount found for this user."
      && var r3 := Stake(r2.value, a, 4_000_000_000);
      && r3.Ok?
      && Unstake(r3.value, a) == Err(NotEnoughSolStaked)
      && r3.value.records[a.userState] == 4_000_000_000
  {
  }
}
