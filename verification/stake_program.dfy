/** The staking program's two instructions, `stake` and `unstake`, as pure
    transitions over the accounts they touch. */
module StakeProgram {
  import opened Errors
  import opened Lamports
  import opened Addresses
  import Sums

  /** `unstake` refuses a record holding less than this many lamports (5 SOL). */
  const MIN_UNSTAKE: u64 := 5_000_000_000

  /** The ledger as the program sees it: the `UserState` records that exist
      (keyed by the address they live at, holding `amount_staked`), every
      wallet's lamport balance (absent wallets hold zero) and the vault's
      lamport balance. */
  datatype State = State(records: map<Address, u64>, wallets: map<Pubkey, u64>, vault: u64)

  /** `amount_staked` of the record at `addr`; zero when there is none. */
  function StakedAt(s: State, addr: Address): u64
  {
    Sums.Get(s.records, addr)
  }

  /** The lamports wallet `k` holds; zero for a wallet never funded. */
  function Balance(s: State, k: Pubkey): u64
  {
    Sums.Get(s.wallets, k)
  }

  /** The accounts an instruction names. `Stake` and `Unstake` list the
      same ones; the system program account is implicit. */
  datatype Accounts = Accounts(
    user: Pubkey,
    userIsSigner: bool,
    userState: Address,
    stakingPool: Address,
    stakingPoolVault: Address)

  /** Every derived account is the one its seeds name for this user. */
  predicate SeedsMatch(a: Accounts)
  {
    && a.userState == UserStateAddress(a.user)
    && a.stakingPool == StakingPoolAddress()
    && a.stakingPoolVault == VaultAddress()
  }

  /** The accounts an honest client derives for `user`. */
  function CanonicalAccounts(user: Pubkey): Accounts
  {
    Accounts(user, true, UserStateAddress(user), StakingPoolAddress(), VaultAddress())
  }

  /** The program accepts exactly one account list per user: the signed
      list that `CanonicalAccounts` derives. */
  lemma OnlyCanonicalAccountsPass(a: Accounts)
    ensures a.userIsSigner && SeedsMatch(a) <==> a == CanonicalAccounts(a.user)
  {
  }

  /** `stake(amount)`: the user-state record is created at zero when it does
      not exist yet, `amount` lamports move from the user to the vault and
      the record grows by `amount`. There is no check on `amount` itself. */
  function Stake(s: State, a: Accounts, amount: u64): (r: Result<State>)
    ensures r.Ok? <==>
      && a.userIsSigner
      && SeedsMatch(a)
      && amount <= Balance(s, a.user)
      && s.vault + amount <= U64_MAX
      && StakedAt(s, a.userState) + amount <= U64_MAX
    // what a success changes
    ensures r.Ok? ==>
      && a.userState in r.value.records
      && StakedAt(r.value, a.userState) == StakedAt(s, a.userState) + amount
      && Balance(r.value, a.user) == Balance(s, a.user) - amount
      && r.value.vault == s.vault + amount
    // and everything it leaves alone
    ensures r.Ok? ==>
      && r.value.records.Keys == s.records.Keys + {a.userState}
      && (forall k :: k != a.userState ==> StakedAt(r.value, k) == StakedAt(s, k))
      && (forall w :: w != a.user ==> Balance(r.value, w) == Balance(s, w))
    // which failure is reported, in the order the checks run
    ensures r == Err(AccountNotSigner) <==> !a.userIsSigner
    ensures r == Err(ConstraintSeeds) <==> a.userIsSigner && !SeedsMatch(a)
    ensures r == Err(InsufficientLamports) <==>
      a.userIsSigner && SeedsMatch(a) && Balance(s, a.user) < amount
    ensures r == Err(LamportOverflow) <==>
      && a.userIsSigner && SeedsMatch(a) && amount <= Balance(s, a.user)
      && s.vault + amount > U64_MAX
    ensures r == Err(StakeOverflow) <==>
      && a.userIsSigner && SeedsMatch(a) && amount <= Balance(s, a.user)
      && s.vault + amount <= U64_MAX
      && StakedAt(s, a.userState) + amount > U64_MAX
    ensures r.Err? ==> !IsProgramError(r.error) && r.error != AccountNotInitialized
  {
    if !a.userIsSigner then Err(AccountNotSigner)
    else if !SeedsMatch(a) then Err(ConstraintSeeds)
    else
      match Transfer(Balance(s, a.user), s.vault, amount)
      case Err(e) => Err(e)
      case Ok((userLeft, vaultNow)) =>
        var staked := StakedAt(s, a.userState) + amount;
        if staked > U64_MAX then Err(StakeOverflow)
        else Ok(State(s.records[a.userState := staked], s.wallets[a.user := userLeft], vaultNow))
  }

  /** `unstake()`: the record must already exist; a zero record fails with
      `NoStakedAmount`, then a record below `MIN_UNSTAKE` fails with
      `NotEnoughSolStaked`; otherwise the whole record moves from the vault
      back to the user and the record is kept at zero. */
  function Unstake(s: State, a: Accounts): (r: Result<State>)
    ensures r.Ok? <==>
      && a.userIsSigner
      && a.userState in s.records
      && SeedsMatch(a)
      && s.records[a.userState] >= MIN_UNSTAKE
      && s.records[a.userState] <= s.vault
      && Balance(s, a.user) + s.records[a.userState] <= U64_MAX
    // what a success changes
    ensures r.Ok? ==>
      && a.userState in r.value.records
      && StakedAt(r.value, a.userState) == 0
      && Balance(r.value, a.user) == Balance(s, a.user) + StakedAt(s, a.userState)
      && r.value.vault == s.vault - StakedAt(s, a.userState)
    // and everything it leaves alone
    ensures r.Ok? ==>
      && r.value.records.Keys == s.records.Keys
      && (forall k :: k != a.userState ==> StakedAt(r.value, k) == StakedAt(s, k))
      && (forall w :: w != a.user ==> Balance(r.value, w) == Balance(s, w))
    // which failure is reported, in the order the checks run
    ensures r == Err(AccountNotSigner) <==> !a.userIsSigner
    ensures r == Err(AccountNotInitialized) <==> a.userIsSigner && a.userState !in s.records
    ensures r == Err(ConstraintSeeds) <==>
      a.userIsSigner && a.userState in s.records && !SeedsMatch(a)
    ensures r == Err(NoStakedAmount) <==>
      a.userIsSigner && a.userState in s.records && SeedsMatch(a) && s.records[a.userState] == 0
    ensures r == Err(NotEnoughSolStaked) <==>
      && a.userIsSigner && a.userState in s.records && SeedsMatch(a)
      && 0 < s.records[a.userState] < MIN_UNSTAKE
    ensures r == Err(InsufficientLamports) <==>
      && a.userIsSigner && a.userState in s.records && SeedsMatch(a)
      && s.records[a.userState] >= MIN_UNSTAKE
      && s.vault < s.records[a.userState]
    ensures r == Err(LamportOverflow) <==>
      && a.userIsSigner && a.userState in s.records && SeedsMatch(a)
      && s.records[a.userState] >= MIN_UNSTAKE
      && s.records[a.userState] <= s.vault
      && Balance(s, a.user) + s.records[a.userState] > U64_MAX
    ensures r.Err? ==> r.error != StakeOverflow
  {
    if !a.userIsSigner then Err(AccountNotSigner)
    else if a.userState !in s.records then Err(AccountNotInitialized)
    else if !SeedsMatch(a) then Err(ConstraintSeeds)
    else
      var amount := s.records[a.userState];
      if amount == 0 then Err(NoStakedAmount)
      else if amount < MIN_UNSTAKE then Err(NotEnoughSolStaked)
      else
        match Transfer(s.vault, Balance(s, a.user), amount)
        case Err(e) => Err(e)
        case Ok((vaultLeft, userNow)) =>
          Ok(State(s.records[a.userState := 0], s.wallets[a.user := userNow], vaultLeft))
  }

  /** A first `stake` creates the record holding exactly the amount staked. */
  lemma FirstStakeRecordsAmount(s: State, a: Accounts, amount: u64)
    requires a.userState !in s.records
    requires Stake(s, a, amount).Ok?
    ensures Stake(s, a, amount).value.records[a.userState] == amount
  {
  }

  /** The zero check runs before the threshold check: a zero record is
      reported as `NoStakedAmount`, never as `NotEnoughSolStaked`. */
  lemma ZeroReportedBeforeThreshold(s: State, a: Accounts)
    requires StakedAt(s, a.userState) == 0
    ensures Unstake(s, a) != Err(NotEnoughSolStaked)
    ensures Unstake(s, a).Err?
  {
  }

  /** Right after a successful `unstake`, the same `unstake` fails with
      `NoStakedAmount`. */
  lemma SecondUnstakeFails(s: State, a: Accounts)
    requires Unstake(s, a).Ok?
    ensures Unstake(Unstake(s, a).value, a) == Err(NoStakedAmount)
  {
  }

  /** Staking at least `MIN_UNSTAKE` on an empty record and unstaking gives
      the user and the vault back exactly their balances, and leaves the
      record in place at zero. */
  lemma StakeThenUnstakeRestores(s: State, a: Accounts, amount: u64)
    requires StakedAt(s, a.userState) == 0
    requires amount >= MIN_UNSTAKE
    requires Stake(s, a, amount).Ok?
    ensures Unstake(Stake(s, a, amount).value, a).Ok?
    ensures
      var t := Unstake(Stake(s, a, amount).value, a).value;
      && Balance(t, a.user) == Balance(s, a.user)
      && t.vault == s.vault
      && a.userState in t.records && t.records[a.userState] == 0
  {
  }
}
