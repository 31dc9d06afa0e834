# Staking program: a Dafny model

This project models the on-chain staking program in
`programs/stake_program/src/lib.rs`. The program has two instructions:

- `stake(amount)` moves `amount` lamports from the signing user to a shared
  vault account. It adds the amount to the user's `UserState` record
  (`amount_staked`, a u64), creating the record first if it does not exist.
- `unstake()` returns the user's whole `amount_staked` from the vault and
  sets the record to zero. The record is kept, not deleted. Unstake refuses
  an empty record (`NoStakedAmount`). It then refuses a record below
  5_000_000_000 lamports (`NotEnoughSolStaked`).

The ledger is an immutable `State`. It holds:

- the existing `UserState` records, keyed by their program-derived address;
- every wallet's lamport balance;
- the vault's lamport balance.

Each instruction is a pure function that returns `Ok(new state)` or
`Err(error)`. The host runs every instruction atomically, so a failure
carries no state. The modules are:

- `Errors`: the closed error set, the program's error messages, and `Result`.
- `Lamports`: the u64 amount type and the system program's lamport transfer.
- `Addresses`: wallet keys and program-derived addresses built from their
  seeds. The seeds are `"user_state"` plus the user key, `"staking_pool"`,
  and `"staking_pool_vault"`.
- `StakeProgram`: `Stake` and `Unstake`, including the account checks that
  the `Stake` and `Unstake` account structs impose.
- `Invariants`: sequences of instructions, with these properties:
  - conservation of lamports;
  - vault = initial surplus + the sum of all records;
  - solvency;
  - one user's instructions never touch another user's record or wallet.
- `Sums`: the sum of a finite map's values (a proof helper).
- `Scenarios`: the runs from the program's test suite, replayed on the model.

Choices the code leaves open:

- The `+=` at lib.rs:26 is plain u64 addition. The model treats it as
  checked: an overflow fails the instruction with `StakeOverflow`. Anchor's
  default workspace template sets `overflow-checks = true`.
- The system transfer fails with `InsufficientLamports` when the source
  balance is below the amount. It fails with `LamportOverflow` when the
  destination would pass the u64 maximum.
- `WellFormed` has two parts: the vault covers all records, and all lamports
  in play fit in a u64. `Invariants.RunKeepsWellFormed` shows every run
  preserves it. `Invariants.StakeSucceedsIffFunded` and
  `Invariants.UnstakeSucceedsIffAboveThreshold` show that neither overflow
  error can happen in a well-formed ledger.

Facts about the code that the model keeps:

- `unstake` on a user with no record fails with `AccountNotInitialized`,
  not `NoStakedAmount`. The `Unstake` account struct (lib.rs:98-103) has no
  `init_if_needed`, so loading the record fails before the handler runs.
  Nothing changes.
- `stake` accepts an amount of 0. It succeeds and creates an empty record.
- The unstake threshold is 5_000_000_000 lamports (5 SOL).
- No pool total exists. The program never reads or writes the
  `staking_pool` account, but it still checks the account's address against
  its seeds.

## Model

| member | source | states |
|---|---|---|
| `Errors.Message` | programs/stake_program/src/lib.rs:125-131 | each of the two program errors carries a non-empty message |
| `Errors.MessagesDistinct` | programs/stake_program/src/lib.rs:127-130 | two program errors have the same message iff they are the same error, so a caller can tell them apart by message text |
| `Lamports.Transfer` | programs/stake_program/src/lib.rs:14-23 | a lamport move succeeds iff the source covers the amount and the destination stays within u64; on success it conserves the two balances and lowers the source by exactly the amount; a short source is reported as `InsufficientLamports` |
| `Addresses.UserStateAddress` | programs/stake_program/src/lib.rs:74 | the user-state record lives at the derived address whose seed bytes are `"user_state"` followed by the user key |
| `Addresses.StakingPoolAddress` | programs/stake_program/src/lib.rs:81 | the pool account's derived address comes from the seed `"staking_pool"` alone |
| `Addresses.VaultAddress` | programs/stake_program/src/lib.rs:87 | the vault's derived address comes from the seed `"staking_pool_vault"` alone |
| `Addresses.UserStateAddressInjective` | programs/stake_program/src/lib.rs:100 | two users share a user-state address iff they are the same user |
| `Addresses.DerivedAddressesDistinct` | programs/stake_program/src/lib.rs:74-88 | the user-state, pool and vault addresses are pairwise distinct and none is a wallet |
| `StakeProgram.OnlyCanonicalAccountsPass` | programs/stake_program/src/lib.rs:96-116 | an account list passes the signer and seed checks iff it is the one list derived from its user's key, so the program accepts exactly one account list per user; this follows from the account list's structure, and that one user's accounts never reach another user's record comes from `Addresses.UserStateAddressInjective` |
| `StakeProgram.Stake` | programs/stake_program/src/lib.rs:9-28 | stake succeeds iff the user signed, all seeds match, the user can pay and neither the vault nor the record overflows; on success the record is created if absent and grows by the amount, the user loses and the vault gains exactly the amount, and no other record or wallet changes; each error is characterised exactly, in the order signer, seeds, short user balance, vault overflow (`LamportOverflow`), record overflow (`StakeOverflow`) |
| `StakeProgram.Unstake` | programs/stake_program/src/lib.rs:30-63 | unstake succeeds iff the user signed, the record exists, seeds match, the record is at least 5_000_000_000 and the transfer fits; on success the whole pre-call record moves from the vault to the user and the record stays present at 0; each error is characterised exactly (not signed, missing record, wrong seeds, zero, below threshold, vault too short, user balance overflow) and nothing else changes |
| `StakeProgram.FirstStakeRecordsAmount` | programs/stake_program/src/lib.rs:70-77 | a stake that creates the record leaves exactly the staked amount in it |
| `StakeProgram.ZeroReportedBeforeThreshold` | programs/stake_program/src/lib.rs:37-42 | a zero record never yields `NotEnoughSolStaked` and always fails |
| `StakeProgram.SecondUnstakeFails` | programs/stake_program/src/lib.rs:61 | after a successful unstake the same unstake fails with `NoStakedAmount` |
| `StakeProgram.StakeThenUnstakeRestores` | programs/stake_program/src/lib.rs:9-63 | staking at least the threshold on an empty record and then unstaking returns the user's and the vault's balances to their starting values and leaves the record at 0 |
| `Invariants.StakeConserves` | programs/stake_program/src/lib.rs:14-26 | a successful stake keeps vault minus the sum of records, and the total lamports of wallets plus vault, unchanged |
| `Invariants.UnstakeConserves` | programs/stake_program/src/lib.rs:45-61 | a successful unstake keeps vault minus the sum of records, and the total lamports, unchanged |
| `Invariants.StepConserves` | programs/stake_program/src/lib.rs:9-63 | any instruction, successful or failed, conserves both quantities |
| `Invariants.RunConserves` | programs/stake_program/src/lib.rs:9-63 | any sequence of instructions conserves both quantities |
| `Invariants.VaultIsInitialPlusStakes` | programs/stake_program/src/lib.rs:9-63 | starting without records, the vault always equals its initial balance plus the sum of all `amount_staked` |
| `Invariants.RunKeepsWellFormed` | programs/stake_program/src/lib.rs:9-63 | a solvent ledger whose lamports fit a u64 stays so under any sequence of instructions |
| `Invariants.DepositKeepsWellFormed` | programs/stake_program/src/lib.rs:85-90 | an outside system transfer into the vault (a plain system account) raises the vault's surplus by the amount, keeps the lamports in play, and keeps a well-formed ledger well-formed |
| `Invariants.StakeSucceedsIffFunded` | programs/stake_program/src/lib.rs:14-26 | in a well-formed ledger stake succeeds iff the user signed, the seeds match and the user can pay; no overflow failure is reachable |
| `Invariants.UnstakeSucceedsIffAboveThreshold` | programs/stake_program/src/lib.rs:37-58 | in a well-formed ledger unstake succeeds iff the user signed, the record exists, the seeds match and the record holds at least 5_000_000_000 |
| `Invariants.StepLeavesOthersAlone` | programs/stake_program/src/lib.rs:98-103 | an instruction by one user leaves every other user's record and wallet unchanged |
| `Invariants.RunLeavesOthersAlone` | programs/stake_program/src/lib.rs:70-77 | a sequence of instructions none of which is by a given user leaves that user's record and wallet unchanged |
| `Scenarios.StakeOneSol` | tests/stake_program.ts:14-69 | a fresh user funded with 2 SOL who stakes 1 SOL has exactly 1 SOL recorded and moved into the vault |
| `Scenarios.StakeUnstakeCycle` | tests/stake_program.ts:71-180 | stake 6 SOL then unstake returns 6 SOL and zeroes the record; a second unstake fails with "No staked amount found for this user."; staking 4 SOL then unstaking fails with `NotEnoughSolStaked` and keeps 4 SOL recorded |

## Left out

- Transaction fees, and the rent the user pays when `init_if_needed` creates
  the record (lib.rs:72-73): the model's balances leave out these host
  charges.
- Rent-exemption of every account an instruction touches: the user's
  wallet, the vault and the new record. The runtime rejects an instruction
  that leaves one of them with a positive balance below its rent-exempt
  minimum, and `Stake` and `Unstake` do not model that rejection. So the
  "iff" in `Invariants.StakeSucceedsIffFunded` and
  `Invariants.UnstakeSucceedsIffAboveThreshold` holds for the model only.
  On chain, such an instruction can also fail on rent. Account space
  (lib.rs:73) is left out too.
- `Lamports.Transfer`: this models only the system program's balance
  arithmetic. Its checks on account ownership, on data, and on signing by
  the vault's derived address are not modelled.
- `Addresses.UserStateAddress`, `Addresses.StakingPoolAddress`,
  `Addresses.VaultAddress`: the hash is modelled as perfectly
  collision-free, and the bump byte and program id are omitted. The model
  keeps how seeds are concatenated, but it does not model hashing or the
  off-curve search.
- Anchor's account loading is partly modelled. The model checks the signer
  flag, whether the record exists (for `unstake`) and seed equality, in that
  order. It does not model discriminator and owner checks, `mut` flags, or
  the `system_program` account.
- `msg!` logging at lib.rs:35: it has no effect on state.
- The `staking_pool` account has no data in the model. The program never
  reads or writes it, so there is no pool total to maintain.
- Overflow of the `+=` at lib.rs:26 fails the instruction
  (`StakeOverflow`). A build without overflow checks would wrap around
  instead, and that behaviour is not modelled.
- Concurrency: the host serialises instructions that share the vault, so a
  sequence of atomic steps (`Invariants.Run`) covers every interleaving of
  this program's instructions.
- Transfers by other programs and transactions are not modelled as steps of
  `Invariants.Run`. These include deposits into the vault, which is a plain
  system account (lib.rs:85-90), and changes to wallets. So
  `Invariants.VaultIsInitialPlusStakes` and the `TotalLamports` part of
  `Invariants.RunConserves` hold for runs of this program's instructions
  only. On chain, the vault holds at least, not exactly, its initial balance
  plus the sum of records. Solvency (`Sum(records) <= vault`) still holds
  under outside deposits: `Invariants.DepositKeepsWellFormed` proves this
  for one deposit.
