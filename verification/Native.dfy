/** Scaling a host amount to the 18 decimals of the rollup's native token. */
module Native {
  import opened Words

  const TWO_256: int := U256_MAX + 1
  const ETH_DECIMALS := 18

  type U8 = n: int | 0 <= n <= 255

  function Pow(base: nat, n: nat): nat {
    if n == 0 then 1 else base * Pow(base, n - 1)
  }

  /** A power of ten is an odd multiple of the same power of two. */
  lemma {:induction false} TenIsOddMultiple(n: nat) returns (m: nat)
    ensures Pow(10, n) == Pow(2, n) + Pow(2, n + 1) * m
  {
    if n == 0 {
      m := 0;
    } else {
      var k := TenIsOddMultiple(n - 1);
      m := 2 + 5 * k;
      assert Pow(2, n + 1) == 2 * Pow(2, n) && Pow(2, n) == 2 * Pow(2, n - 1);
      calc {
        Pow(10, n);
        10 * (Pow(2, n - 1) + Pow(2, n) * k);
        10 * Pow(2, n - 1) + 10 * (Pow(2, n) * k);
        { assert 10 * (Pow(2, n) * k) == Pow(2, n + 1) * (5 * k) by { Regroup(Pow(2, n), k); } }
        5 * Pow(2, n) + Pow(2, n + 1) * (5 * k);
        Pow(2, n) + Pow(2, n + 1) * 2 + Pow(2, n + 1) * (5 * k);
        { Distribute(Pow(2, n + 1), 2, 5 * k); }
        Pow(2, n) + Pow(2, n + 1) * m;
      }
    }
  }

  lemma {:induction false} Regroup(x: int, k: int)
    ensures 10 * (x * k) == (2 * x) * (5 * k)
  {
  }

  lemma {:induction false} Distribute(x: int, y: int, z: int)
    ensures x * y + x * z == x * (y + z)
  {
  }

  lemma {:induction false} PowAdd(base: nat, m: nat, n: nat)
    ensures Pow(base, m + n) == Pow(base, m) * Pow(base, n)
  {
    if m != 0 {
      PowAdd(base, m - 1, n);
      MulAssociative(base, Pow(base, m - 1), Pow(base, n));
    }
  }

  lemma {:induction false} MulAssociative(x: int, y: int, z: int)
    ensures x * (y * z) == (x * y) * z
  {
  }

  lemma {:induction false} PowPositive(base: nat, n: nat)
    requires base > 0
    ensures Pow(base, n) > 0
  {
    if n != 0 {
      PowPositive(base, n - 1);
      assert base * Pow(base, n - 1) > 0 by { MulPositive(base, Pow(base, n - 1)); }
    }
  }

  lemma {:induction false} MulPositive(x: int, y: int)
    requires x > 0 && y > 0
    ensures x * y > 0
  {
  }

  lemma {:induction false} TwoTo32()
    ensures Pow(2, 32) == 0x1_0000_0000
  {
    assert Pow(2, 8) == 256;
    PowAdd(2, 8, 8);
    PowAdd(2, 16, 16);
  }

  lemma {:induction false} Square(base: nat, n: nat, value: nat)
    requires Pow(base, n) == value
    ensures Pow(base, n + n) == value * value
  {
    PowAdd(base, n, n);
  }

  lemma {:induction false} TwoTo256()
    ensures Pow(2, 256) == TWO_256
  {
    TwoTo32();
    Square(2, 32, 0x1_0000_0000);
    Square(2, 64, 0x1_0000_0000_0000_0000);
    Square(2, 128, U128_MAX + 1);
  }

  /** No power of ten below 10^256 is a multiple of 2^256. */
  lemma {:induction false} DivisorNonzero(n: nat)
    requires n < 256
    ensures Pow(10, n) % TWO_256 != 0
  {
    var p := Pow(2, n);
    var m := TenIsOddMultiple(n);
    PowPositive(2, n);
    TwoTo256();
    PowAdd(2, n + 1, 255 - n);
    if Pow(10, n) % TWO_256 == 0 {
      var t := Pow(2, 255 - n) * (Pow(10, n) / TWO_256);
      assert Pow(10, n) == TWO_256 * (Pow(10, n) / TWO_256);
      MulAssociative(2 * p, Pow(2, 255 - n), Pow(10, n) / TWO_256);
      assert p + (2 * p) * m == (2 * p) * t;
      OddIsNotEven(p, m, t);
    }
  }

  lemma {:induction false} OddIsNotEven(p: int, m: int, t: int)
    requires p > 0
    ensures p + (2 * p) * m != (2 * p) * t
  {
    MulAssociative(p, 2, m);
    MulAssociative(p, 2, t);
    var x, y := p * m, p * t;
    if m < t {
      ScaledGap(p, m + 1, t);
    } else {
      ScaledGap(p, t, m);
    }
  }

  lemma {:induction false} ScaledGap(p: int, m: int, t: int)
    requires p > 0 && m <= t
    ensures p * m <= p * t
    ensures p * (m - 1) == p * m - p
  {
  }

  /** `adjust_decimals`, with the wrapping powers and products of U256. */
  function AdjustDecimals(amount: U256, decimals: U8, target: U8): U256 {
    if target == 0 || decimals == 0 then amount
    else if decimals > target then
      DivisorNonzero(decimals - target);
      DivideBy(amount, Pow(10, decimals - target) % TWO_256)
    else
      MultiplyBy(amount, Pow(10, target - decimals) % TWO_256)
  }

  /** `U256` multiplication wraps. */
  function MultiplyBy(amount: U256, factor: nat): U256 {
    MulMonotone(0, amount, factor);
    (amount * factor) % TWO_256
  }

  function DivideBy(amount: U256, divisor: nat): (q: U256)
    requires divisor > 0
    ensures q == amount / divisor
  {
    QuotientBounds(amount, divisor);
    amount / divisor
  }

  lemma {:induction false} QuotientBounds(x: nat, d: nat)
    requires d > 0
    ensures 0 <= x / d <= x
    ensures (x / d) * d <= x < (x / d + 1) * d
  {
    assert x == (x / d) * d + x % d;
    if x / d > x {
      MulMonotone(1, d, x / d);
    }
    Distribute(d, x / d, 1);
  }

  lemma {:induction false} MulMonotone(x: nat, y: nat, z: nat)
    requires x <= y
    ensures x * z <= y * z
  {
  }

  function MintAmount(hostAmount: U256, decimals: U8): U256 {
    AdjustDecimals(hostAmount, decimals, ETH_DECIMALS)
  }

  lemma {:induction false} SmallPowers(n: nat)
    requires n <= 77
    ensures 0 < Pow(10, n) < TWO_256
    decreases 77 - n
  {
    PowPositive(10, n);
    if n == 77 {
      assert Pow(10, 5) == 100000;
      assert Pow(10, 8) == 100000000;
      PowAdd(10, 8, 8);
      PowAdd(10, 16, 16);
      PowAdd(10, 32, 32);
      PowAdd(10, 64, 8);
      PowAdd(10, 72, 5);
    } else {
      SmallPowers(n + 1);
      assert Pow(10, n + 1) == 10 * Pow(10, n);
    }
  }

  /** A product reduced modulo 2^256 divides back exactly when it was not reduced. */
  lemma {:induction false} ReducedProduct(x: nat, d: nat, product: nat, reduced: nat)
    requires d > 0 && product == x * d && reduced == product % TWO_256
    ensures reduced == product <==> product <= U256_MAX
    ensures reduced / d == x <==> product <= U256_MAX
  {
    QuotientBounds(reduced, d);
    if reduced / d == x {
      assert product <= reduced;
    }
    if product <= U256_MAX {
      ExactQuotient(x, d);
    }
  }

  lemma {:induction false} SmallMod(x: nat, m: nat)
    requires x < m
    ensures x % m == x
  {
  }

  lemma {:induction false} MintUp(amount: U256, decimals: U8, unit: nat)
    requires 1 <= decimals <= 18 && unit == Pow(10, 18 - decimals)
    ensures 0 < unit && MintAmount(amount, decimals) == MultiplyBy(amount, unit)
  {
    SmallPowers(18 - decimals);
    SmallMod(unit, TWO_256);
  }

  lemma {:induction false} MintDown(amount: U256, decimals: U8, unit: nat)
    requires 18 < decimals <= 95 && unit == Pow(10, decimals - 18)
    ensures 0 < unit && MintAmount(amount, decimals) == amount / unit
  {
    SmallPowers(decimals - 18);
    SmallMod(unit, TWO_256);
  }

  /** Up to 18 decimals the mint is exact, and reversible, exactly when it fits. */
  lemma {:induction false} ScaleUp(amount: U256, decimals: U8, unit: nat)
    requires 1 <= decimals <= 18 && unit == Pow(10, 18 - decimals)
    ensures unit > 0
    ensures MintAmount(amount, decimals) == amount * unit <==> amount * unit <= U256_MAX
    ensures MintAmount(amount, decimals) / unit == amount <==> amount * unit <= U256_MAX
  {
    MintUp(amount, decimals, unit);
    ReducedProduct(amount, unit, amount * unit, MintAmount(amount, decimals));
  }

  lemma {:induction false} ExactQuotient(x: nat, d: nat)
    requires d > 0
    ensures (x * d) / d == x
  {
    QuotientBounds(x * d, d);
    var q := (x * d) / d;
    if q < x { MulMonotone(q + 1, x, d); }
    if q > x { MulMonotone(x + 1, q, d); Distribute(d, x, 1); }
  }

  /** Above 18 decimals the mint is the amount in whole units, rounded down. */
  lemma {:induction false} ScaleDown(amount: U256, decimals: U8, unit: nat)
    requires 18 < decimals <= 95 && unit == Pow(10, decimals - 18)
    ensures MintAmount(amount, decimals) * unit <= amount < (MintAmount(amount, decimals) + 1) * unit
  {
    MintDown(amount, decimals, unit);
    QuotientBounds(amount, unit);
  }

  lemma {:induction false} FloorsAddUp(x: nat, y: nat, d: nat)
    requires d > 0
    ensures x / d + y / d <= (x + y) / d
  {
    QuotientBounds(x, d);
    QuotientBounds(y, d);
    QuotientBounds(x + y, d);
    Distribute(d, x / d, y / d);
    if (x + y) / d < x / d + y / d {
      MulMonotone((x + y) / d + 1, x / d + y / d, d);
    }
  }

  // ---- splitting a deposit ----

  function Sum(parts: seq<U256>): nat {
    if parts == [] then 0 else Sum(parts[..|parts| - 1]) + parts[|parts| - 1]
  }

  /** What is minted when each part is deposited on its own. */
  function SumMinted(parts: seq<U256>, decimals: U8): nat {
    if parts == [] then 0
    else SumMinted(parts[..|parts| - 1], decimals) + MintAmount(parts[|parts| - 1], decimals)
  }

  /** Above 18 decimals the mint divides, whatever power of ten the divisor wraps to. */
  lemma {:induction false} MintDivides(amount: U256, decimals: U8, divisor: nat)
    requires 18 < decimals && divisor == Pow(10, decimals - 18) % TWO_256
    ensures divisor > 0 && MintAmount(amount, decimals) == amount / divisor
  {
    DivisorNonzero(decimals - 18);
  }

  lemma {:induction false} PartsDivide(parts: seq<U256>, decimals: U8, divisor: nat)
    requires 18 < decimals && divisor == Pow(10, decimals - 18) % TWO_256 && divisor > 0
    ensures SumMinted(parts, decimals) <= Sum(parts) / divisor
  {
    if parts != [] {
      var n := |parts| - 1;
      PartsDivide(parts[..n], decimals, divisor);
      MintDivides(parts[n], decimals, divisor);
      FloorsAddUp(Sum(parts[..n]), parts[n], divisor);
    }
  }

  lemma {:induction false} RemainderUnique(n: nat, m: nat, q: nat, r: nat)
    requires m > 0 && n == m * q + r && r < m
    ensures n % m == r
  {
    var p := n / m;
    assert n == m * p + n % m;
    if p < q {
      MulMonotone(p + 1, q, m);
      Distribute(m, p, 1);
    } else if q < p {
      MulMonotone(q + 1, p, m);
      Distribute(m, q, 1);
    }
  }

  /** What a part mints falls short of its exact value by a multiple `k` of 2^256. */
  lemma {:induction false} MintPart(amount: U256, decimals: U8, unit: nat) returns (y: nat, k: nat)
    requires 1 <= decimals <= 18 && unit == Pow(10, 18 - decimals)
    ensures y == amount * unit && MintAmount(amount, decimals) + TWO_256 * k == y
  {
    MintUp(amount, decimals, unit);
    MulMonotone(0, amount, unit);
    y := amount * unit;
    k := y / TWO_256;
  }

  lemma {:induction false} AddMultiples(before: nat, j: nat, x: nat, mint: nat, i: nat, y: nat, m: nat)
    requires before + m * j == x && mint + m * i == y
    ensures before + mint + m * (j + i) == x + y
  {
    Distribute(m, j, i);
  }

  /** The parts scaled one by one. */
  function Scaled(parts: seq<U256>, unit: nat): int {
    if parts == [] then 0
    else Scaled(parts[..|parts| - 1], unit) + parts[|parts| - 1] * unit
  }

  lemma {:induction false} ScaledSum(parts: seq<U256>, unit: nat)
    ensures Scaled(parts, unit) == Sum(parts) * unit
  {
    if parts != [] {
      var n := |parts| - 1;
      ScaledSum(parts[..n], unit);
      Distribute(unit, Sum(parts[..n]), parts[n]);
    }
  }

  /** Up to 18 decimals so do the parts together. */
  lemma {:induction false} PartsMultiply(parts: seq<U256>, decimals: U8, unit: nat, m: nat)
    returns (k: nat)
    requires 1 <= decimals <= 18 && unit == Pow(10, 18 - decimals) && m == TWO_256
    ensures SumMinted(parts, decimals) + m * k == Scaled(parts, unit)
  {
    if parts == [] {
      k := 0;
    } else {
      var n := |parts| - 1;
      var j := PartsMultiply(parts[..n], decimals, unit, m);
      var y, i := MintPart(parts[n], decimals, unit);
      AddMultiples(SumMinted(parts[..n], decimals), j, Scaled(parts[..n], unit),
                   MintAmount(parts[n], decimals), i, y, m);
      k := j + i;
    }
  }

  lemma {:induction false} DropMultiples(n: nat, k: nat, x: nat, m: nat)
    requires m > 0 && n + m * k == x
    ensures x % m == n % m
  {
    assert n == m * (n / m) + n % m;
    Distribute(m, n / m, k);
    RemainderUnique(x, m, n / m + k, n % m);
  }

  /**
   Splitting a deposit never mints more than depositing it at once: for every number of
   decimals above 18 and for none, and up to 18 exactly as long as the parts together
   mint no more than a U256; they mint exactly the same when the scaled whole fits.
   */
  lemma {:induction false} PartsMintNoMore(parts: seq<U256>, decimals: U8)
    requires Sum(parts) <= U256_MAX
    ensures var minted, whole := SumMinted(parts, decimals), MintAmount(Sum(parts), decimals);
            && (decimals == 0 ==> minted == whole == Sum(parts))
            && (18 < decimals ==> minted <= whole)
            && (1 <= decimals <= 18 ==>
                && whole == minted % TWO_256
                && (minted <= whole <==> minted <= U256_MAX)
                && (Sum(parts) * Pow(10, 18 - decimals) <= U256_MAX ==> minted == whole))
  {
    if decimals == 0 {
      PartsUnscaled(parts);
    } else if decimals > 18 {
      var divisor := Pow(10, decimals - 18) % TWO_256;
      MintDivides(Sum(parts), decimals, divisor);
      PartsDivide(parts, decimals, divisor);
    } else {
      PartsWrap(parts, decimals, SumMinted(parts, decimals));
    }
  }

  lemma {:induction false} PartsWrap(parts: seq<U256>, decimals: U8, minted: nat)
    requires 1 <= decimals <= 18 && Sum(parts) <= U256_MAX && minted == SumMinted(parts, decimals)
    ensures var whole := MintAmount(Sum(parts), decimals);
            && whole == minted % TWO_256
            && (minted <= whole <==> minted <= U256_MAX)
            && (Sum(parts) * Pow(10, 18 - decimals) <= U256_MAX ==> minted == whole)
  {
    var unit := Pow(10, 18 - decimals);
    MintUp(Sum(parts), decimals, unit);
    var k := PartsMultiply(parts, decimals, unit, TWO_256);
    ScaledSum(parts, unit);
    DropMultiples(minted, k, Sum(parts) * unit, TWO_256);
    if minted <= U256_MAX {
      SmallMod(minted, TWO_256);
    }
  }

  /** Parts that fit when scaled mint exactly their scaled value. */
  lemma {:induction false} FittingParts(parts: seq<U256>, decimals: U8, unit: nat)
    requires 1 <= decimals <= 18 && unit == Pow(10, 18 - decimals)
    requires forall part | part in parts :: part * unit <= U256_MAX
    ensures SumMinted(parts, decimals) == Scaled(parts, unit)
  {
    if parts != [] {
      var n := |parts| - 1;
      assert forall part | part in parts[..n] :: part in parts;
      assert parts[n] in parts;
      FittingParts(parts[..n], decimals, unit);
      ScaleUp(parts[n], decimals, unit);
    }
  }

  /**
   The same in amounts, for parts that fit a U256 when scaled one by one: splitting mints
   no more exactly when they also fit together.
   */
  lemma {:induction false} FittingPartsMintNoMore(parts: seq<U256>, decimals: U8, unit: nat)
    requires 1 <= decimals <= 18 && unit == Pow(10, 18 - decimals) && Sum(parts) <= U256_MAX
    requires forall part | part in parts :: part * unit <= U256_MAX
    ensures SumMinted(parts, decimals) <= MintAmount(Sum(parts), decimals) <==>
            Sum(parts) * unit <= U256_MAX
  {
    FittingParts(parts, decimals, unit);
    ScaledSum(parts, unit);
    PartsWrap(parts, decimals, SumMinted(parts, decimals));
  }

  lemma {:induction false} TwoParts(x: U256, y: U256, decimals: U8)
    ensures Sum([x, y]) == x + y
    ensures SumMinted([x, y], decimals) == MintAmount(x, decimals) + MintAmount(y, decimals)
  {
    var none: seq<U256> := [];
    assert [x, y][..1] == [x] && [x][..0] == none;
    assert Sum([x]) == x && SumMinted([x], decimals) == MintAmount(x, decimals);
  }

  /**
   With 17 decimals, two deposits that fit a U256 when scaled one by one, and not
   together, mint more than their sum.
   */
  lemma {:induction false} PartsMintMoreExample(part: U256)
    requires 10 * part <= U256_MAX < 20 * part
    ensures Sum([part, part]) <= U256_MAX
    ensures MintAmount(Sum([part, part]), 17) < SumMinted([part, part], 17)
  {
    TwoParts(part, part, 17);
    assert Pow(10, 0) == 1 && Pow(10, 1) == 10;
    MintUp(part, 17, 10);
    SmallMod(10 * part, TWO_256);
  }

  lemma {:induction false} PartsUnscaled(parts: seq<U256>)
    ensures SumMinted(parts, 0) == Sum(parts)
  {
    if parts != [] {
      PartsUnscaled(parts[..|parts| - 1]);
    }
  }
}
