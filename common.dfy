/** Shared vocabulary of the payment processor: optional values, the outcome of a
    call into a chain node or price feed, the decimal rounding applied to every
    quoted amount, Python's truncating int(), wei scaling, and the reserve-ratio
    price of a decentralized-exchange pool. */
module Common {

  datatype Option<+T> = None | Some(value: T)

  /** What a call into an external node or feed gave back: an answer, or an
      exception (network error, contract revert). */
  datatype Rpc<+T> = Answered(value: T) | RpcFailed

  /** Rounds to the nearest integer, ties to the even neighbour: the rule
      Python's six-decimal fixed-point formatting applies to the exact value it is given. */
  function RoundHalfEven(y: real): (r: int)
    ensures -0.5 <= r as real - y <= 0.5
    ensures (r as real - y == 0.5 || y - r as real == 0.5) ==> r % 2 == 0
  {
    var f := y.Floor;
    var d := y - f as real;
    if d < 0.5 then f
    else if d > 0.5 then f + 1
    else if f % 2 == 0 then f
    else f + 1
  }

  const Micro: real := 1000000.0

  /** float of the six-decimal fixed-point rendering of x: x rounded to six decimal places. */
  function Round6(x: real): (r: real)
    ensures -0.0000005 <= r - x <= 0.0000005
    ensures (r * Micro).Floor as real == r * Micro
  {
    var k := RoundHalfEven(x * Micro);
    assert k as real / Micro * Micro == k as real;
    k as real / Micro
  }

  lemma RoundHalfEvenOfInt(k: int)
    ensures RoundHalfEven(k as real) == k
  {
    assert (k as real).Floor == k;
  }

  /** Rounding an amount that already has six decimals changes nothing. */
  lemma Round6Idempotent(x: real)
    ensures Round6(Round6(x)) == Round6(x)
  {
    var k := RoundHalfEven(x * Micro);
    assert Round6(x) * Micro == k as real;
    RoundHalfEvenOfInt(k);
  }

  /** A rounded amount is positive exactly when the exact value exceeds half a
      millionth (a tie at half a millionth rounds to the even neighbour, zero). */
  lemma Round6Positive(x: real)
    ensures Round6(x) > 0.0 <==> x > 0.0000005
  {
    var y := x * Micro;
    var k := RoundHalfEven(y);
    assert Round6(x) == k as real / Micro;
    if x > 0.0000005 {
      assert y > 0.5;
      assert k >= 1;
    } else {
      assert y <= 0.5;
    }
  }

  /** The quotient of two optional prices; None when either is missing or the
      divisor is zero (the ZeroDivisionError of the division). */
  function Ratio(a: Option<real>, b: Option<real>): (r: Option<real>)
    ensures r.Some? <==> a.Some? && b.Some? && b.value != 0.0
    ensures r.Some? ==> r.value * b.value == a.value
  {
    if a.None? || b.None? || b.value == 0.0 then None else Some(a.value / b.value)
  }

  /** Python's int() on a float: truncation toward zero. */
  function Truncate(x: real): int
  {
    if x >= 0.0 then x.Floor else -((-x).Floor)
  }

  lemma TruncateBounds(x: real)
    ensures x >= 0.0 ==> 0 <= Truncate(x) && Truncate(x) as real <= x < Truncate(x) as real + 1.0
    ensures x < 0.0 ==> Truncate(x) <= 0 && Truncate(x) as real - 1.0 < x <= Truncate(x) as real
  {
  }

  lemma FloorIs(x: real, k: int)
    requires k as real <= x < k as real + 1.0
    ensures x.Floor == k
  {
  }

  /** Halving before truncating equals truncating then halving, for a
      non-negative quantity: int(q / 2) == int(q) // 2. */
  lemma TruncateHalf(q: real)
    requires q >= 0.0
    ensures Truncate(q / 2.0) == Truncate(q) / 2
  {
    var f := Truncate(q);
    var m := f / 2;
    assert f == 2 * m || f == 2 * m + 1;
    assert m as real <= q / 2.0 < m as real + 1.0;
    FloorIs(q / 2.0, m);
  }

  function Pow10(n: nat): (r: nat)
    ensures r >= 1
  {
    if n == 0 then 1 else 10 * Pow10(n - 1)
  }

  /** Web3.fromWei(w, 'ether'): an amount of 10^-18 units as a whole-coin value. */
  function FromWei(w: int): real
  {
    w as real / (Pow10(18) as real)
  }

  /** A pool's answers to getReserves, token0().symbol() and the two decimals() calls. */
  datatype Pool = Pool(reserve0: int, reserve1: int, token0Symbol: string, decimals0: nat, decimals1: nat)

  /** Whole-token reserve of leg 0 and leg 1. */
  function Reserve0(p: Pool): real { p.reserve0 as real / Pow10(p.decimals0) as real }
  function Reserve1(p: Pool): real { p.reserve1 as real / Pow10(p.decimals1) as real }

  /** The inner price rule of the pool modules: the other leg's reserve per
      reserve of the wrapped native coin, oriented by whether token0's symbol is
      the wrapped-native marker. None stands for the ZeroDivisionError raised
      when the wrapped-native reserve is zero. */
  function PoolPrice(p: Pool, wrappedNative: string): (r: Option<real>)
    ensures r.None? <==> (if p.token0Symbol == wrappedNative then p.reserve0 == 0 else p.reserve1 == 0)
  {
    if p.token0Symbol == wrappedNative then
      if p.reserve0 == 0 then None else Some(LegRatio(p.reserve1, Pow10(p.decimals1), p.reserve0, Pow10(p.decimals0)))
    else
      if p.reserve1 == 0 then None else Some(LegRatio(p.reserve0, Pow10(p.decimals0), p.reserve1, Pow10(p.decimals1)))
  }

  /** (other / otherScale) / (wrapped / wrappedScale), written over integers;
      the scales are the powers of ten of the two tokens' decimals. */
  function LegRatio(other: int, otherScale: nat, wrapped: int, wrappedScale: nat): real
    requires wrapped != 0 && otherScale >= 1
  {
    (other * wrappedScale) as real / (wrapped * otherScale) as real
  }

  /** The leg ratio times the wrapped coin's whole-token reserve is the other
      coin's whole-token reserve. */
  lemma LegRatioMeaning(other: int, otherScale: nat, wrapped: int, wrappedScale: nat)
    requires wrapped != 0 && otherScale >= 1 && wrappedScale >= 1
    ensures LegRatio(other, otherScale, wrapped, wrappedScale) * (wrapped as real / wrappedScale as real)
         == other as real / otherScale as real
  {
    CastProduct(other, wrappedScale);
    CastProduct(wrapped, otherScale);
    CrossRatio(other as real, wrappedScale as real, wrapped as real, otherScale as real);
  }

  lemma CastProduct(x: int, y: int)
    ensures (x * y) as real == x as real * y as real
  {
  }

  /** ((o·a) / (w·b)) · (w / a) = o / b. */
  lemma CrossRatio(o: real, a: real, w: real, b: real)
    requires a != 0.0 && b != 0.0 && w != 0.0
    ensures ((o * a) / (w * b)) * (w / a) == o / b
  {
    var l := (o * a) / (w * b);
    var u := w / a;
    NonZeroProduct(w, b);
    QuotientTimesDivisor(o * a, w * b);
    QuotientTimesDivisor(w, a);
    QuotientTimesDivisor(o, b);
    MulBoth(u * a, w, l * b);
    assert (l * u * b) * a == o * a;
    CancelFactor(l * u * b, o, a);
    CancelFactor(l * u, o / b, b);
  }

  lemma MulBoth(x: real, y: real, k: real)
    requires x == y
    ensures x * k == y * k
  {
  }

  lemma QuotientTimesDivisor(x: real, y: real)
    requires y != 0.0
    ensures (x / y) * y == x
  {
  }

  lemma NonZeroProduct(x: real, y: real)
    requires x != 0.0 && y != 0.0
    ensures x * y != 0.0
  {
  }

  lemma CancelFactor(x: real, y: real, k: real)
    requires k != 0.0 && x * k == y * k
    ensures x == y
  {
    assert (x - y) * k == 0.0;
  }

  /** The price is the other leg's whole-token reserve per whole-token reserve
      of the wrapped native coin. */
  lemma PoolPriceRatio(p: Pool, wrappedNative: string)
    ensures var r := PoolPrice(p, wrappedNative);
            (p.token0Symbol == wrappedNative && r.Some? ==> r.value * Reserve0(p) == Reserve1(p)) &&
            (p.token0Symbol != wrappedNative && r.Some? ==> r.value * Reserve1(p) == Reserve0(p))
  {
    if p.token0Symbol == wrappedNative && p.reserve0 != 0 {
      LegRatioMeaning(p.reserve1, Pow10(p.decimals1), p.reserve0, Pow10(p.decimals0));
    }
    if p.token0Symbol != wrappedNative && p.reserve1 != 0 {
      LegRatioMeaning(p.reserve0, Pow10(p.decimals0), p.reserve1, Pow10(p.decimals1));
    }
  }

  /** The orientation rule makes the price independent of which leg the pool
      lists first: the same pool with its legs swapped prices the same. */
  lemma PoolPriceOrientation(r0: int, r1: int, d0: nat, d1: nat, wrappedNative: string, other: string)
    requires other != wrappedNative
    ensures PoolPrice(Pool(r0, r1, wrappedNative, d0, d1), wrappedNative)
         == PoolPrice(Pool(r1, r0, other, d1, d0), wrappedNative)
  {
  }
}
