/** Rust's `i32` and its checked (debug-build) arithmetic. */
module RustInt {
  import opened Shared
  import opened Wrappers

  const I32_MIN: int := -0x8000_0000
  const I32_MAX: int := 0x7fff_ffff

  /** The panic message of `unwrap` on an error (Rust appends the error's debug text). */
  const UnwrapFailed: string := "called `Result::unwrap()` on an `Err` value"

  newtype int32 = x: int | -0x8000_0000 <= x <= 0x7fff_ffff

  predicate InI32(x: int) {
    I32_MIN <= x <= I32_MAX
  }

  /** Rust's `/` on integers: the quotient is truncated toward zero. */
  function TruncDiv(a: int, b: int): (q: int)
    requires b != 0
    ensures Abs(q) == Abs(a) / Abs(b)
    ensures q != 0 ==> ((q < 0) <==> ((a < 0) != (b < 0)))
  {
    var x, y := Abs(a), Abs(b);
    var q := x / y;
    assert 0 <= q by {
      assert x == q * y + x % y && 0 <= x % y < y;
    }
    var m: nat := q;
    if (a < 0) == (b < 0) then m else Neg(m)
  }

  function Neg(m: nat): (r: int)
    ensures Abs(r) == m && r <= 0
  {
    -(m as int)
  }

  function Abs(x: int): nat {
    if x < 0 then -x else x
  }

  /**
   * One arithmetic step of `i32` as a debug build runs it: `Err` carries the
   * panic message Rust prints when the result leaves the `i32` range or the
   * divisor is zero.
   */
  function Arith(op: Op, a: int32, b: int32): (r: Result<int32, string>)
    requires IsArith(op)
    ensures op == Slash && b == 0 ==> r == Err("attempt to divide by zero")
    ensures r.Ok? && op == Plus ==> r.value as int == a as int + b as int
    ensures r.Ok? && op == Minus ==> r.value as int == a as int - b as int
    ensures r.Ok? && op == Star ==> r.value as int == a as int * b as int
    ensures r.Err? && op != Slash ==> !InI32(Exact(op, a as int, b as int))
    ensures !(op == Slash && b == 0) ==> (r.Ok? <==> InI32(Exact(op, a as int, b as int)))
    ensures r.Ok? ==> r.value as int == Exact(op, a as int, b as int)
  {
    match op
    case Plus => Checked(a as int + b as int, "attempt to add with overflow")
    case Minus => Checked(a as int - b as int, "attempt to subtract with overflow")
    case Star => Checked(a as int * b as int, "attempt to multiply with overflow")
    case Slash =>
      if b == 0 then Err("attempt to divide by zero")
      else Checked(TruncDiv(a as int, b as int), "attempt to divide with overflow")
  }

  /** The mathematical result of `+ - * /` on unbounded integers (a quotient truncated toward zero; 0 for a zero divisor). */
  function Exact(op: Op, a: int, b: int): int {
    match op
    case Plus => a + b
    case Minus => a - b
    case Star => a * b
    case _ => if b != 0 then TruncDiv(a, b) else 0
  }

  /** The value as an `i32`, or the overflow panic's message. */
  function Checked(x: int, overflow: string): Result<int32, string> {
    if InI32(x) then Ok(x as int32) else Err(overflow)
  }

  /** The only quotient that overflows `i32` is `i32::MIN / -1`. */
  lemma DivOverflowOnlyAtMin(a: int32, b: int32)
    requires b != 0
    ensures !InI32(TruncDiv(a as int, b as int)) <==> a as int == I32_MIN && b as int == -1
  {
    var q := TruncDiv(a as int, b as int);
    if b as int == -1 {
      assert q == -(a as int);
    } else if b as int == 1 {
      assert q == a as int;
    } else {
      DivAtMostHalf(Abs(a as int), Abs(b as int));
    }
  }

  lemma DivAtMostHalf(x: nat, y: nat)
    requires y >= 2
    ensures x / y <= x / 2
  {
    var q := x / y;
    assert q * y <= x;
    assert q * 2 <= q * y;
  }
}
