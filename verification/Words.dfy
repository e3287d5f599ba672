/** Machine integers and the small result types shared by every component. */
module Words {

  const U32_MAX: int := 0xFFFF_FFFF
  const U64_MAX: int := 0xFFFF_FFFF_FFFF_FFFF
  const U128_MAX: int := 0xFFFF_FFFF_FFFF_FFFF_FFFF_FFFF_FFFF_FFFF
  const U256_MAX: int :=
    0xFFFF_FFFF_FFFF_FFFF_FFFF_FFFF_FFFF_FFFF_FFFF_FFFF_FFFF_FFFF_FFFF_FFFF_FFFF_FFFF

  type U32 = n: int | 0 <= n <= U32_MAX
  type U64 = n: int | 0 <= n <= U64_MAX
  type U128 = n: int | 0 <= n <= U128_MAX
  type U256 = n: int | 0 <= n <= U256_MAX

  /** An account address; only its identity matters here. */
  datatype Address = Address(word: nat)

  datatype Option<+T> = None | Some(value: T)

  datatype Result<+T, +E> = Ok(value: T) | Err(error: E)

  function Min(x: int, y: int): int {
    if x <= y then x else y
  }

  function Max(x: int, y: int): int {
    if x <= y then y else x
  }

  /** `U256::saturating_add`. */
  function SatAdd(x: U256, y: U256): U256 {
    Min(x + y, U256_MAX)
  }

  /** `u64` addition as release builds perform it: modulo 2^64. */
  function WrapAdd64(x: U64, y: U64): U64 {
    (x + y) % (U64_MAX + 1)
  }

  /** Wrapping at every addition is wrapping the sum. */
  lemma {:induction false} WrapSum(partial: U64, sum: nat, more: U64)
    requires partial == sum % (U64_MAX + 1)
    ensures WrapAdd64(partial, more) == (sum + more) % (U64_MAX + 1)
  {
    var q, x := sum / (U64_MAX + 1), partial + more;
    assert sum + more == (U64_MAX + 1) * q + x;
    if x <= U64_MAX {
      Remainder(sum + more, q, x);
      Remainder(x, 0, x);
    } else {
      Remainder(sum + more, q + 1, x - U64_MAX - 1);
      Remainder(x, 1, x - U64_MAX - 1);
    }
  }

  lemma {:induction false} Remainder(n: nat, q: nat, r: U64)
    requires n == (U64_MAX + 1) * q + r
    ensures n % (U64_MAX + 1) == r
  {
    assert n / (U64_MAX + 1) == q;
  }

  lemma {:induction false} FrontAndLast<T>(xs: seq<T>)
    requires xs != []
    ensures xs == xs[..|xs| - 1] + [xs[|xs| - 1]]
  {
  }
}
