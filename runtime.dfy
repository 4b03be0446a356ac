/** The host ledger as both dice programs see it: fixed-width integers,
    account identities, accounts holding lamports, and the three ways a
    program moves lamports (the system program's transfer, and the raw
    `-=` / `+=` on a borrowed lamport balance). Anything that goes wrong in
    these is a host fault: the runtime aborts the whole transaction. */
module Runtime {

  const U8_MAX: int := 0xFF
  const U64_MAX: int := 0xFFFF_FFFF_FFFF_FFFF
  const I64_MIN: int := -0x8000_0000_0000_0000
  const I64_MAX: int := 0x7FFF_FFFF_FFFF_FFFF

  type u8 = x: int | 0 <= x <= U8_MAX
  type u64 = x: int | 0 <= x <= U64_MAX
  type i64 = x: int | I64_MIN <= x <= I64_MAX

  datatype Option<T> = None | Some(value: T)
  datatype Result<T, E> = Ok(value: T) | Err(error: E)

  /** An account address; only compared for equality. */
  datatype Pubkey = Pubkey(id: nat)

  /** A host account that is not owned by the program (player, admin). */
  class Account {
    const key: Pubkey
    var lamports: u64

    constructor (key: Pubkey, lamports: u64)
      ensures this.key == key && this.lamports == lamports
    {
      this.key := key;
      this.lamports := lamports;
    }
  }

  /** Failures raised by the runtime rather than by the program. */
  datatype HostFault =
    | InsufficientLamports  // system transfer from an account holding less than the amount
    | LamportOverflow       // a credit that would take a balance past u64
    | LamportUnderflow      // a raw `-=` below zero (overflow checks are on)

  /** The two balances after a transfer. */
  datatype Moved = Moved(from: u64, to: u64)

  /** The system program's transfer of `amount` lamports between two distinct
      accounts: it fails when the source holds too little or the destination
      would overflow, and otherwise conserves the sum. */
  function Transfer(from: u64, to: u64, amount: u64): (r: Result<Moved, HostFault>)
    ensures r.Ok? <==> amount <= from && to + amount <= U64_MAX
    ensures amount > from ==> r == Err(InsufficientLamports)
    ensures amount <= from && to + amount > U64_MAX ==> r == Err(LamportOverflow)
    ensures r.Ok? ==> r.value.from + r.value.to == from + to && r.value.to - to == amount
  {
    if amount > from then Err(InsufficientLamports)
    else if to + amount > U64_MAX then Err(LamportOverflow)
    else Ok(Moved(from - amount, to + amount))
  }

  /** `**lamports -= amount` on a borrowed balance. */
  function Debit(balance: u64, amount: u64): (r: Result<u64, HostFault>)
    ensures r.Ok? <==> amount <= balance
    ensures r.Ok? ==> r.value + amount == balance
    ensures r.Err? ==> r.error == LamportUnderflow
  {
    if amount <= balance then Ok(balance - amount) else Err(LamportUnderflow)
  }

  /** `**lamports += amount` on a borrowed balance. */
  function Credit(balance: u64, amount: u64): (r: Result<u64, HostFault>)
    ensures r.Ok? <==> balance + amount <= U64_MAX
    ensures r.Ok? ==> r.value - amount == balance
    ensures r.Err? ==> r.error == LamportOverflow
  {
    if balance + amount <= U64_MAX then Ok(balance + amount) else Err(LamportOverflow)
  }

  /** Rust's `u64::checked_mul`: `None` exactly when the product is not a u64. */
  function CheckedMul(a: u64, b: u64): (r: Option<u64>)
    ensures r.Some? <==> a * b <= U64_MAX
    ensures r.Some? ==> r.value == a * b
  {
    if a * b <= U64_MAX then Some(a * b) else None
  }

  /** `amount.checked_mul(percent)` followed by `/ 100`, as both programs
      compute a payout: the floor of `amount * percent / 100`, or `None`
      exactly when the product does not fit in a u64. */
  function PercentOf(amount: u64, percent: u64): (r: Option<u64>)
    ensures r.Some? <==> amount * percent <= U64_MAX
    ensures r.Some? ==> r.value * 100 <= amount * percent < r.value * 100 + 100
    ensures r.Some? ==> r.value == amount * percent / 100
  {
    match CheckedMul(amount, percent)
    case None => None
    case Some(product) => Some(product / 100)
  }

  /** Rust's `%` on signed integers, which truncates toward zero: the
      remainder has the sign of the dividend, is smaller than the divisor
      in magnitude, and agrees with Dafny's Euclidean `%` on non-negative
      dividends. */
  function TruncRem(a: int, b: int): (r: int)
    requires b > 0
    ensures -b < r < b
    ensures a >= 0 ==> r == a % b
    ensures a <= 0 ==> r <= 0
  {
    if a >= 0 then a % b else -((-a) % b)
  }

  /** Rust's `as u8` on an integer: keep the low eight bits. */
  function AsU8(x: int): (r: u8)
    ensures 0 <= x <= U8_MAX ==> r == x
    ensures -(U8_MAX + 1) <= x < 0 ==> r == x + U8_MAX + 1
  {
    x % (U8_MAX + 1)
  }

  /** The overflow boundary of `checked_mul` by a nonzero factor: the
      product fits exactly when the other factor is at most
      floor(U64_MAX / factor). */
  lemma {:induction false} OverflowThreshold(amount: u64, factor: u64)
    requires factor > 0
    ensures amount * factor <= U64_MAX <==> amount <= U64_MAX / factor
  {
    var q := U64_MAX / factor;
    assert q * factor <= U64_MAX;
    assert (q + 1) * factor > U64_MAX;
    if amount <= q {
      MulMonotone(amount, q, factor);
    } else {
      MulMonotone(q + 1, amount, factor);
    }
  }

  /** Multiplying by a non-negative factor preserves order. */
  lemma MulMonotone(a: int, b: int, c: int)
    requires a <= b && c >= 0
    ensures a * c <= b * c
  {
  }
}
