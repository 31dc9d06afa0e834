/** Lamport amounts (u64) and the system program's transfer between two
    balances, as the program's cross-program invocations use it. */
module Lamports {
  import opened Errors

  const U64_MAX: int := 0xFFFF_FFFF_FFFF_FFFF

  /** An unsigned 64-bit amount: every lamport balance and `amount_staked`. */
  type u64 = x: nat | x <= U64_MAX

  /** Move `amount` lamports from a balance `from` to a balance `to`; the
      result is the pair of new balances (source, destination). The move is
      refused when the source is short, and when the destination would no
      longer fit in a u64. A zero amount always succeeds. */
  function Transfer(from: u64, to: u64, amount: u64): (r: Result<(u64, u64)>)
    ensures r.Ok? <==> amount <= from && to + amount <= U64_MAX
    ensures r.Ok? ==> r.value.0 + r.value.1 == from + to
    ensures r.Ok? ==> from - r.value.0 == amount
    ensures r.Err? ==> (r.error == InsufficientLamports <==> from < amount)
    ensures r.Err? ==> r.error in {InsufficientLamports, LamportOverflow}
  {
    if from < amount then Err(InsufficientLamports)
    else if to + amount > U64_MAX then Err(LamportOverflow)
    else Ok((from - amount, to + amount))
  }
}
