/** Sequences of instructions, and the bookkeeping they preserve: lamports
    are only ever moved between a user and the vault, the vault always holds
    its starting surplus plus every record, and nobody's record or wallet is
    touched by another user's instructions. */
module Invariants {
  import opened Errors
  import opened Lamports
  import opened Addresses
  import opened Sums
  import opened StakeProgram

  datatype Op = StakeOp(accounts: Accounts, amount: u64) | UnstakeOp(accounts: Accounts)

  function OpUser(op: Op): Pubkey
  {
    op.accounts.user
  }

  /** One instruction; a failed one leaves the ledger as it was. */
  function Step(s: State, op: Op): State
  {
    var r := match op
      case StakeOp(a, amount) => Stake(s, a, amount)
      case UnstakeOp(a) => Unstake(s, a);
    if r.Ok? then r.value else s
  }

  function Run(s: State, ops: seq<Op>): State
    decreases |ops|
  {
    if ops == [] then s else Run(Step(s, ops[0]), ops[1..])
  }

  /** What the vault holds beyond the sum of all records. */
  ghost function Surplus(s: State): int
  {
    s.vault - Sum(s.records)
  }

  /** All lamports in play: every wallet plus the vault. */
  ghost function TotalLamports(s: State): nat
  {
    Sum(s.wallets) + s.vault
  }

  /** The vault covers every record, and the lamports in play fit a u64. */
  ghost predicate WellFormed(s: State)
  {
    Sum(s.records) <= s.vault && TotalLamports(s) <= U64_MAX
  }

  lemma StakeConserves(s: State, a: Accounts, amount: u64)
    requires Stake(s, a, amount).Ok?
    ensures Surplus(Stake(s, a, amount).value) == Surplus(s)
    ensures TotalLamports(Stake(s, a, amount).value) == TotalLamports(s)
  {
    var t := Stake(s, a, amount).value;
    assert t.records == s.records[a.userState := StakedAt(s, a.userState) + amount];
    assert t.wallets == s.wallets[a.user := Balance(s, a.user) - amount];
    SumUpdate(s.records, a.userState, StakedAt(s, a.userState) + amount);
    SumUpdate(s.wallets, a.user, Balance(s, a.user) - amount);
  }

  lemma UnstakeConserves(s: State, a: Accounts)
    requires Unstake(s, a).Ok?
    ensures Surplus(Unstake(s, a).value) == Surplus(s)
    ensures TotalLamports(Unstake(s, a).value) == TotalLamports(s)
  {
    var t := Unstake(s, a).value;
    assert t.records == s.records[a.userState := 0];
    assert t.wallets == s.wallets[a.user := Balance(s, a.user) + StakedAt(s, a.userState)];
    SumUpdate(s.records, a.userState, 0);
    SumUpdate(s.wallets, a.user, Balance(s, a.user) + StakedAt(s, a.userState));
  }

  lemma StepConserves(s: State, op: Op)
    ensures Surplus(Step(s, op)) == Surplus(s)
    ensures TotalLamports(Step(s, op)) == TotalLamports(s)
  {
    match op
    case StakeOp(a, amount) =>
      if Stake(s, a, amount).Ok? { StakeConserves(s, a, amount); }
    case UnstakeOp(a) =>
      if Unstake(s, a).Ok? { UnstakeConserves(s, a); }
  }

  /** Conservation over any sequence of instructions. */
  lemma {:induction false} RunConserves(s: State, ops: seq<Op>)
    ensures Surplus(Run(s, ops)) == Surplus(s)
    ensures TotalLamports(Run(s, ops)) == TotalLamports(s)
    decreases |ops|
  {
    if ops != [] {
      StepConserves(s, ops[0]);
      RunConserves(Step(s, ops[0]), ops[1..]);
    }
  }

  /** Starting with no records, the vault always holds its initial balance
      plus the sum of every user's `amount_staked`. */
  lemma VaultIsInitialPlusStakes(s: State, ops: seq<Op>)
    requires s.records == map[]
    ensures Run(s, ops).vault == s.vault + Sum(Run(s, ops).records)
  {
    RunConserves(s, ops);
  }

  lemma RunKeepsWellFormed(s: State, ops: seq<Op>)
    requires WellFormed(s)
    ensures WellFormed(Run(s, ops))
  {
    RunConserves(s, ops);
  }

  /** In a well-formed ledger the overflow failures cannot happen: `stake`
      succeeds exactly when the user signed, the accounts are the derived
      ones and the user can pay. */
  lemma StakeSucceedsIffFunded(s: State, a: Accounts, amount: u64)
    requires WellFormed(s)
    ensures Stake(s, a, amount).Ok? <==>
      a.userIsSigner && SeedsMatch(a) && amount <= Balance(s, a.user)
  {
    EntryAtMostSum(s.wallets, a.user);
    EntryAtMostSum(s.records, a.userState);
  }

  /** Threshold gate: in a well-formed ledger `unstake` succeeds exactly when
      the user signed, the record exists, the accounts are the derived ones
      and the record holds at least `MIN_UNSTAKE`. */
  lemma UnstakeSucceedsIffAboveThreshold(s: State, a: Accounts)
    requires WellFormed(s)
    ensures Unstake(s, a).Ok? <==>
      && a.userIsSigner && a.userState in s.records && SeedsMatch(a)
      && s.records[a.userState] >= MIN_UNSTAKE
  {
    EntryAtMostSum(s.wallets, a.user);
    EntryAtMostSum(s.records, a.userState);
  }

  /** A plain system transfer from a wallet into the vault, made outside
      this program: the vault is a system account, so anyone may fund it. */
  function Deposit(s: State, from: Pubkey, amount: u64): Result<State>
  {
    match Transfer(Balance(s, from), s.vault, amount)
    case Err(e) => Err(e)
    case Ok((fromLeft, vaultNow)) =>
      Ok(State(s.records, s.wallets[from := fromLeft], vaultNow))
  }

  /** An outside deposit raises the vault's surplus by the amount and keeps
      the lamports in play, so a well-formed ledger stays well-formed: the
      vault then holds at least, not exactly, its start plus the records. */
  lemma DepositKeepsWellFormed(s: State, from: Pubkey, amount: u64)
    requires WellFormed(s)
    requires Deposit(s, from, amount).Ok?
    ensures Surplus(Deposit(s, from, amount).value) == Surplus(s) + amount
    ensures TotalLamports(Deposit(s, from, amount).value) == TotalLamports(s)
    ensures WellFormed(Deposit(s, from, amount).value)
  {
    var t := Deposit(s, from, amount).value;
    assert t.wallets == s.wallets[from := Balance(s, from) - amount];
    SumUpdate(s.wallets, from, Balance(s, from) - amount);
  }

  /** An instruction by one user leaves every other user's record and wallet
      as they were. */
  lemma StepLeavesOthersAlone(s: State, op: Op, v: Pubkey)
    requires OpUser(op) != v
    ensures StakedAt(Step(s, op), UserStateAddress(v)) == StakedAt(s, UserStateAddress(v))
    ensures (UserStateAddress(v) in Step(s, op).records) == (UserStateAddress(v) in s.records)
    ensures Balance(Step(s, op), v) == Balance(s, v)
  {
    UserStateAddressInjective(OpUser(op), v);
  }

  lemma {:induction false} RunLeavesOthersAlone(s: State, ops: seq<Op>, v: Pubkey)
    requires forall i :: 0 <= i < |ops| ==> OpUser(ops[i]) != v
    ensures StakedAt(Run(s, ops), UserStateAddress(v)) == StakedAt(s, UserStateAddress(v))
    ensures (UserStateAddress(v) in Run(s, ops).records) == (UserStateAddress(v) in s.records)
    ensures Balance(Run(s, ops), v) == Balance(s, v)
    decreases |ops|
  {
    if ops != [] {
      StepLeavesOthersAlone(s, ops[0], v);
      RunLeavesOthersAlone(Step(s, ops[0]), ops[1..], v);
    }
  }
}
