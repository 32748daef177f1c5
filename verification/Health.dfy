/**
 The health percentage of a pool. The code turns two counts into float32, divides them,
 multiplies by 100 and truncates, so up to four results are rounded to 24 significant bits,
 ties to even (section 4.3.1 of IEEE 754-2019). All are modelled exactly, on integers and
 powers of two.
 */
module Health {

  const U := 0x100_0000        // 2^24
  const HALF_U := 0x80_0000    // 2^23

  /** With more running workers than this, a pool below a threshold may be rounded up to it. */
  const SAFE_WORKERS := 104476

  function Abs(x: int): nat { if x < 0 then -x else x }

  /** The integer nearest to `a / b`, the even one of two. */
  function RoundHalfEven(a: nat, b: nat): (q: nat)
    requires b > 0
    ensures 2 * Abs(q * b - a) <= b
  {
    var d, r := a / b, a % b;
    assert d * b + r == a;
    assert (d + 1) * b == d * b + b;
    if 2 * r > b || (2 * r == b && d % 2 == 1) then d + 1 else d
  }

  /** The power of two that brings `a / b` to at least 2^23. */
  function Scale(a: nat, b: nat): (k: nat)
    requires a > 0 && b > 0
    ensures k > 0 && a * k >= b * HALF_U
    ensures k > 1 ==> a * k < 2 * b * HALF_U
    decreases if a < b * HALF_U then b * HALF_U - a else 0
  {
    if a >= b * HALF_U then 1
    else
      var k := Scale(2 * a, b);
      assert a * (2 * k) == 2 * a * k;
      2 * k
  }

  /** The power of two that brings a count down to at most 2^24. */
  function Spacing(n: nat): (s: nat)
    ensures s > 0 && n <= U * s
    ensures s > 1 ==> n > HALF_U * s
  {
    if n <= U then 1 else 2 * Spacing((n + 1) / 2)
  }

  /** `float32(n)` */
  function Float32(n: nat): nat {
    RoundHalfEven(n, Spacing(n)) * Spacing(n)
  }

  /** The significand of the float32 quotient `x / y`, which stands for `significand / scale`. */
  function Ratio(x: nat, y: nat): nat
    requires 0 < x <= y
  {
    RoundHalfEven(x * Scale(x, y), y)
  }

  /** How far `100 * m` has to be shifted to fit into 24 bits again. */
  function Shift(m: nat): nat {
    if 100 * m < 0x4000_0000 then 64 else 128
  }

  /** The product with 100, in units of the same scale. */
  function Product(m: nat): nat {
    RoundHalfEven(100 * m, Shift(m)) * Shift(m)
  }

  /** `int((x / y) * 100)` for two float32 values. */
  function PercentOf(x: nat, y: nat): nat
    requires x <= y && 0 < y
  {
    if x == 0 then 0 else Floor(Product(Ratio(x, y)), Scale(x, y))
  }

  function Floor(v: nat, k: nat): (n: nat)
    requires k > 0
    ensures n * k <= v < (n + 1) * k
  {
    v / k
  }

  /** `int((float32(running) / float32(total)) * 100)` */
  function Percentage(running: nat, total: nat): nat
    requires running <= total && 0 < total
  {
    Float32Grows(running, total);
    PercentOf(Float32(running), Float32(total))
  }

  // ----- arithmetic

  lemma MulLe(x: int, y: int, z: int)
    requires x <= y && 0 <= z
    ensures x * z <= y * z
  {
  }

  lemma MulLt(x: int, y: int, z: int)
    requires x < y && 0 < z
    ensures x * z < y * z
  {
  }

  /** `a / b` is rounded to at least `n`: it passes the midpoint below `n`, or meets it and `n` is even. */
  predicate RoundsTo(a: nat, b: nat, n: nat) {
    2 * a > (2 * n - 1) * b || (2 * a == (2 * n - 1) * b && n % 2 == 0)
  }

  lemma RoundReaches(a: nat, b: nat, n: nat)
    requires b > 0
    ensures RoundHalfEven(a, b) >= n <==> RoundsTo(a, b, n)
  {
    var q := RoundHalfEven(a, b);
    Tie(a, b);
    hide RoundHalfEven;
    Nearest(a, b, q, n);
  }

  lemma Tie(a: nat, b: nat)
    requires b > 0
    ensures var q := RoundHalfEven(a, b);
            2 * (q * b) == 2 * a + b || 2 * a == 2 * (q * b) + b ==> q % 2 == 0
  {
    var d, r := a / b, a % b;
    assert d * b + r == a;
    assert (d + 1) * b == d * b + b;
  }

  lemma Nearest(a: nat, b: nat, q: nat, n: nat)
    requires b > 0 && 2 * a <= 2 * (q * b) + b && 2 * (q * b) <= 2 * a + b
    requires 2 * (q * b) == 2 * a + b || 2 * a == 2 * (q * b) + b ==> q % 2 == 0
    ensures q >= n <==> RoundsTo(a, b, n)
  {
    Steps(b, q, n);
    Compare(a, b, q, n, q * b, n * b);
  }

  lemma Steps(b: nat, q: nat, n: nat)
    ensures q > n ==> q * b >= n * b + b
    ensures q < n ==> q * b <= n * b - b
    ensures q + 1 < n ==> q * b <= n * b - 2 * b
    ensures (2 * n - 1) * b == 2 * (n * b) - b
  {
    if q > n {
      MulLe(n + 1, q, b);
    } else if q + 1 < n {
      MulLe(q + 2, n, b);
    } else if q < n {
      MulLe(q + 1, n, b);
    }
  }

  lemma Compare(a: nat, b: nat, q: nat, n: nat, qb: int, nb: int)
    requires b > 0 && 2 * a <= 2 * qb + b && 2 * qb <= 2 * a + b
    requires 2 * qb == 2 * a + b || 2 * a == 2 * qb + b ==> q % 2 == 0
    requires if q > n then qb >= nb + b else if q == n then qb == nb else qb <= nb - b && (q + 1 < n ==> qb <= nb - 2 * b)
    requires q + 1 == n ==> qb == nb - b
    ensures q >= n <==> 2 * a > 2 * nb - b || (2 * a == 2 * nb - b && n % 2 == 0)
  {
  }

  // ----- powers of two

  function Pow2(e: nat): (k: nat)
    ensures k > 0
  {
    if e == 0 then 1 else 2 * Pow2(e - 1)
  }

  lemma {:induction false} Doubled(e: nat, f: nat)
    requires e < f
    ensures 2 * Pow2(e) <= Pow2(f)
  {
    if e + 1 < f {
      Doubled(e, f - 1);
    }
  }

  lemma Powers()
    ensures Pow2(8) == 256 && Pow2(23) == HALF_U && Pow2(24) == U
    ensures Pow2(25) == 2 * U && Pow2(26) == 4 * U && Pow2(27) == 8 * U
    ensures Pow2(28) == 16 * U && Pow2(29) == 32 * U && Pow2(30) == 64 * U
  {
    assert Pow2(8) == 256;
    assert Pow2(16) == 256 * Pow2(8);
    assert Pow2(24) == 256 * Pow2(16);
  }

  lemma {:induction false} Divisible(e: nat)
    requires e >= 8
    ensures Pow2(e) % 256 == 0
  {
    if e > 8 {
      Divisible(e - 1);
    } else {
      Powers();
    }
  }

  /** The scale of a ratio up to one is a power of two, at least 2^23. */
  lemma {:induction false} ScalePower(a: nat, b: nat) returns (e: nat)
    requires a > 0 && b > 0
    ensures Scale(a, b) == Pow2(e)
    ensures a <= b ==> e >= 23
    decreases if a < b * HALF_U then b * HALF_U - a else 0
  {
    if a >= b * HALF_U {
      e := 0;
    } else {
      e := ScalePower(2 * a, b);
      e := e + 1;
    }
    if a <= b && e < 23 {
      Doubled(e, 23);
      Powers();
      MulLe(a, b, Pow2(e));
      MulLt(Pow2(e), HALF_U, b);
    }
  }

  // ----- the counts as float32

  lemma SmallCount(n: nat)
    requires n <= U
    ensures Float32(n) == n
  {
  }

  /**
   `float32` of a count is the nearest multiple of a power of two with at most 24 bits left, the
   even one of two; the power of two is the least that leaves no more.
   */
  lemma Float32Rounds(n: nat) returns (m: nat, e: nat)
    ensures Float32(n) == m * Pow2(e) && m <= U && 2 * Abs(m * Pow2(e) - n) <= Pow2(e)
    ensures 2 * Abs(m * Pow2(e) - n) == Pow2(e) ==> m % 2 == 0
    ensures e > 0 ==> n > HALF_U * Pow2(e)
  {
    e := SpacingPower(n);
    m := RoundHalfEven(n, Spacing(n));
    Tie(n, Spacing(n));
    Rounded(n, Spacing(n), m);
  }

  lemma {:induction false} SpacingPower(n: nat) returns (e: nat)
    ensures Spacing(n) == Pow2(e)
  {
    if n <= U {
      e := 0;
    } else {
      e := SpacingPower((n + 1) / 2);
      e := e + 1;
    }
  }

  lemma {:induction false} SpacingGrows(m: nat, n: nat)
    requires m <= n
    ensures Spacing(m) == Spacing(n) || 2 * Spacing(m) <= Spacing(n)
  {
    if m > U {
      SpacingGrows((m + 1) / 2, (n + 1) / 2);
    }
  }

  /** Rounding keeps the order of the counts, and at least half of each. */
  lemma Float32Grows(m: nat, n: nat)
    requires m <= n
    ensures Float32(m) <= Float32(n)
    ensures m > 0 ==> Float32(m) > 0
    ensures n > U ==> Float32(n) >= U
  {
    var s, t := Spacing(m), Spacing(n);
    SpacingGrows(m, n);
    var q, r := RoundHalfEven(m, s), RoundHalfEven(n, t);
    Rounded(m, s, q);
    Rounded(n, t, r);
    hide Spacing;
    hide RoundHalfEven;
    if s == t {
      SameSpacing(m, n, s, q, r);
    } else {
      MulLe(q, U, s);
      MulLe(2 * s, t, HALF_U);
      MulLe(HALF_U, r, t);
    }
  }

  lemma Rounded(n: nat, s: nat, q: nat)
    requires s > 0 && n <= U * s && (s > 1 ==> n > HALF_U * s) && 2 * Abs(q * s - n) <= s
    ensures q <= U && (s > 1 ==> q >= HALF_U && q * s >= HALF_U * s) && (s == 1 ==> q == n)
  {
    if q > U {
      MulLe(U + 1, q, s);
    } else if s > 1 && q < HALF_U {
      MulLe(q + 1, HALF_U, s);
    }
    if q >= HALF_U {
      MulLe(HALF_U, q, s);
    }
  }

  lemma SameSpacing(m: nat, n: nat, s: nat, q: nat, r: nat)
    requires m <= n && s > 0 && q == RoundHalfEven(m, s) && r == RoundHalfEven(n, s)
    ensures q * s <= r * s
  {
    RoundReaches(m, s, q);
    RoundReaches(n, s, q);
    MulLe(q, r, s);
  }

  // ----- when a percentage is reached

  /** The scale at which `d / 100` has a significand above 2^23 and up to 2^24. */
  function CutScale(d: nat): (k: nat)
    requires 1 <= d <= 100
    ensures 51 * U <= d * k <= 100 * U
  {
    if d == 1 then 64 * U else if d <= 3 then 32 * U else if d <= 6 then 16 * U else if d <= 12 then 8 * U
    else if d <= 25 then 4 * U else if d <= 50 then 2 * U else U
  }

  function CutShift(d: nat): nat
    requires 1 <= d <= 100
  {
    if d * CutScale(d) <= 0x4000_0000 then 64 else 128
  }

  /** The least significand, at that scale, whose product with 100 is rounded to at least `d`. */
  function Cut(d: nat): nat
    requires 1 <= d <= 100
  {
    (2 * d * CutScale(d) - CutShift(d) + 199) / 200
  }

  /** `x / y` is at or past the point from which the quotient is rounded to that significand. */
  predicate Reaches(x: nat, y: nat, d: nat)
    requires 1 <= d <= 100
  {
    RoundsTo(x * CutScale(d), y, Cut(d))
  }

  /** The second rounding and the truncation, in terms of the significand of the quotient. */
  lemma PercentIs(x: nat, y: nat, d: nat)
    requires 0 < x <= y && d > 0
    ensures PercentOf(x, y) >= d <==> 200 * Ratio(x, y) + Shift(Ratio(x, y)) >= 2 * d * Scale(x, y)
  {
    var m, k := Ratio(x, y), Scale(x, y);
    var e := ScalePower(x, y);
    Divisible(e);
    hide Ratio;
    hide Scale;
    ProductReaches(m, k, d);
  }

  lemma ProductReaches(m: nat, k: nat, d: nat)
    requires k > 0 && k % 256 == 0 && d > 0
    ensures Floor(Product(m), k) >= d <==> 200 * m + Shift(m) >= 2 * d * k
  {
    hide Floor;
    hide RoundHalfEven;
    hide Shift;
    var w := d * (k / 256);
    Regrouped(d, k / 256);
    assert Shift(m) == 64 || Shift(m) == 128 by {
      ShiftIs(m);
    }
    ShiftedReaches(100 * m, Shift(m), w);
    AtLeast(Product(m), k, d);
  }

  lemma ShiftIs(m: nat)
    ensures Shift(m) == 64 || Shift(m) == 128
  {
  }

  lemma Regrouped(d: nat, j: nat)
    ensures d * (256 * j) == 256 * (d * j) && 2 * d * (256 * j) == 512 * (d * j)
  {
  }

  lemma ShiftedReaches(a: nat, s: nat, w: nat)
    requires s == 64 || s == 128
    ensures RoundHalfEven(a, s) * s >= 256 * w <==> 2 * a + s >= 512 * w
  {
    var n := if s == 64 then 4 * w else 2 * w;
    RoundReaches(a, s, n);
    hide RoundHalfEven;
  }

  lemma AtLeast(v: nat, k: nat, d: nat)
    requires k > 0
    ensures Floor(v, k) >= d <==> v >= d * k
  {
    var n := Floor(v, k);
    if n >= d {
      MulLe(d, n, k);
    } else {
      MulLe(n + 1, d, k);
    }
  }

  lemma CutSplits(d: nat, m: nat)
    requires 1 <= d <= 100 && HALF_U <= m <= U
    ensures 200 * m + Shift(m) >= 2 * d * CutScale(d) <==> m >= Cut(d)
  {
  }

  lemma CutRange(d: nat)
    requires 1 <= d <= 100
    ensures HALF_U < Cut(d) <= U
  {
  }

  lemma CutPower(d: nat) returns (e: nat)
    requires 1 <= d <= 100
    ensures CutScale(d) == Pow2(e)
  {
    Powers();
    e := if d == 1 then 30 else if d <= 3 then 29 else if d <= 6 then 28 else if d <= 12 then 27
    else if d <= 25 then 26 else if d <= 50 then 25 else 24;
  }

  /** The significand has 24 bits. */
  lemma RatioRange(x: nat, y: nat)
    requires 0 < x <= y
    ensures HALF_U <= Ratio(x, y) <= U && Scale(x, y) > 1
  {
    var k := Scale(x, y);
    var e := ScalePower(x, y);
    Powers();
    if e > 23 { Doubled(23, e); }
    hide Scale;
    RoundReaches(x * k, y, HALF_U);
    RoundReaches(x * k, y, U + 1);
  }

  /**
   The percentage of two float32 values reaches `d` exactly when their quotient reaches the
   cut of `d`.
   */
  lemma PercentReaches(x: nat, y: nat, d: nat)
    requires 0 < x <= y && 1 <= d <= 100
    ensures PercentOf(x, y) >= d <==> Reaches(x, y, d)
  {
    hide *;
    var m, k, c := Ratio(x, y), Scale(x, y), CutScale(d);
    PercentIs(x, y, d);
    RatioRange(x, y);
    CutRange(d);
    ShiftIs(m);
    var e := ScalePower(x, y);
    var f := CutPower(d);
    if e == f {
      RatioIs(x, y);
      RoundReaches(x * c, y, Cut(d));
      CutSplits(d, m);
    } else if e < f {
      Doubled(e, f);
      Above(x, y, k, c, Cut(d));
      AboveDoubled(m, Shift(m), d, k, c);
    } else {
      Doubled(f, e);
      Below(x, y, k, c, Cut(d));
      BelowHalved(m, Shift(m), d, k, c);
    }
    IsReached(x, y, d);
  }

  lemma RatioIs(x: nat, y: nat)
    requires 0 < x <= y
    ensures Ratio(x, y) == RoundHalfEven(x * Scale(x, y), y)
  {
  }

  lemma IsReached(x: nat, y: nat, d: nat)
    requires 1 <= d <= 100
    ensures Reaches(x, y, d) == RoundsTo(x * CutScale(d), y, Cut(d))
  {
  }

  lemma AboveDoubled(m: nat, s: nat, d: nat, k: nat, c: nat)
    requires m >= HALF_U && 2 * k <= c && d * c <= 100 * U
    ensures 200 * m + s >= 2 * d * k
  {
    MulLe(2 * k, c, d);
    assert 2 * d * k == 2 * k * d;
  }

  lemma BelowHalved(m: nat, s: nat, d: nat, k: nat, c: nat)
    requires m <= U && s <= 128 && 2 * c <= k && d * c >= 51 * U
    ensures 200 * m + s < 2 * d * k
  {
    MulLe(2 * c, k, d);
    assert 2 * d * k == 2 * (k * d);
  }

  /** A quotient of a higher magnitude than the cut. */
  lemma Above(x: nat, y: nat, k: nat, c: nat, n: nat)
    requires y > 0 && x * k >= y * HALF_U && 2 * k <= c && 0 < n <= U
    ensures RoundsTo(x * c, y, n)
  {
    MulLe(2 * k, c, x);
    MulLe(2 * n, 2 * U, y);
    assert (2 * n - 1) * y == 2 * n * y - y;
  }

  /** A quotient of a lower magnitude than the cut. */
  lemma Below(x: nat, y: nat, k: nat, c: nat, n: nat)
    requires y > 0 && x * k < 2 * y * HALF_U && 2 * c <= k && HALF_U < n
    ensures !RoundsTo(x * c, y, n)
  {
    MulLe(2 * c, k, x);
    MulLe(U + 1, 2 * n - 1, y);
  }

  // ----- what the rounding does to a threshold

  /** Hundred times twice the distance of `d / 100` from the rounding point of its cut. */
  function Gap(d: nat): int
    requires 1 <= d <= 100
  {
    2 * d * CutScale(d) + 100 - 200 * Cut(d)
  }

  /**
   Only `53 / 100` and `59 / 100` lie below the rounding point of their own cuts, and only 33
   and 66 lie so far past it that the safe range has to be looked at for them.
   */
  lemma {:induction false} GapFacts(d: nat)
    requires 1 <= d <= 100
    ensures if d == 53 || d == 59 then -12 <= Gap(d) < 0 else Gap(d) > 0
    ensures if d == 33 || d == 66 then Gap(d) == 212 else 2 * Cut(d) - 1 > SAFE_WORKERS * Gap(d)
    decreases 100 - d
  {
    hide *;
    if d <= 50 {
      HalvedGap(d);
      GapFacts(2 * d);
    } else {
      TopCut(d);
      if d <= 64 {
        LowerGaps(d, Gap(d), Cut(d));
      } else {
        UpperGaps(d, Gap(d), Cut(d));
      }
    }
  }

  /** Halving a percentage doubles the scale and changes nothing else. */
  lemma HalvedGap(d: nat)
    requires 1 <= d <= 50
    ensures Gap(d) == Gap(2 * d) && Cut(d) == Cut(2 * d)
  {
    HalvedScale(d);
    var k := CutScale(2 * d);
    hide CutScale;
    assert d * (2 * k) == 2 * d * k && 2 * d * (2 * k) == 2 * (2 * d) * k;
  }

  lemma HalvedScale(d: nat)
    requires 1 <= d <= 50
    ensures CutScale(d) == 2 * CutScale(2 * d)
  {
  }

  lemma TopCut(d: nat)
    requires 51 <= d <= 100
    ensures Gap(d) == 33554432 * d + 100 - 200 * Cut(d)
    ensures Cut(d) == (33554432 * d + if d <= 64 then 135 else 71) / 200
  {
  }

  lemma LowerGaps(d: nat, gap: int, cut: nat)
    requires 51 <= d <= 64 && gap == 33554432 * d + 100 - 200 * cut
    requires cut == (33554432 * d + 135) / 200
    ensures if d == 53 || d == 59 then -12 <= gap < 0 else gap > 0
    ensures 2 * cut - 1 > SAFE_WORKERS * gap
  {
    assert cut == 167772 * d + (if d <= 52 then 8 else if d <= 58 then 9 else 10);
  }

  lemma UpperGaps(d: nat, gap: int, cut: nat)
    requires 65 <= d <= 100 && gap == 33554432 * d + 100 - 200 * cut
    requires cut == (33554432 * d + 71) / 200
    ensures gap > 0
    ensures if d == 66 then gap == 212 else 2 * cut - 1 > SAFE_WORKERS * gap
  {
    var q := cut - 167772 * d;
    assert gap == 32 * d + 100 - 200 * q && 200 * q <= 32 * d + 71 < 200 * q + 200;
    assert 10 <= q <= 16;
  }

  /** Which side of a threshold the true percentage lies on, as the code sees it. */
  predicate Passes(running: nat, total: nat, threshold: int) {
    100 * running > threshold * total || (100 * running == threshold * total && threshold != 53 && threshold != 59)
  }

  lemma SafeReaches(x: nat, y: nat, d: nat)
    requires 0 < x <= y && 1 <= d <= 100 && x <= SAFE_WORKERS
    ensures Reaches(x, y, d) <==> Passes(x, y, d)
  {
    hide *;
    var c, n, g := CutScale(d), Cut(d), Gap(d);
    GapFacts(d);
    CutRange(d);
    CutBounds(d);
    Distance(x, y, d, c, n, g);
    SafeSign(x, y, d, c, n, g);
    IsReached(x, y, d);
    AtCut(x * c, y, n, 2 * c * (100 * x - d * y) + g * y);
  }

  /** The distance from the rounding point has the sign of the distance from the threshold. */
  lemma SafeSign(x: nat, y: nat, d: nat, c: nat, n: nat, g: int)
    requires 0 < x <= y && 1 <= d <= 100 && x <= SAFE_WORKERS && c >= U && n > 0
    requires if d == 53 || d == 59 then -12 <= g < 0 else g > 0
    requires if d == 33 || d == 66 then g == 212 else 2 * n - 1 > SAFE_WORKERS * g
    requires (d == 33 ==> c == 2 * U) && (d == 66 ==> c == U)
    requires 100 * (2 * (x * c) - (2 * n - 1) * y) == 2 * c * (100 * x - d * y) + g * y
    ensures 2 * c * (100 * x - d * y) + g * y != 0
    ensures 2 * c * (100 * x - d * y) + g * y > 0 <==> Passes(x, y, d)
  {
    if 100 * x > d * y {
      JustAbove(x, y, d, c, g);
    } else if 100 * x < d * y {
      if d == 33 || d == 66 {
        Frontier(x, y, d, c);
      } else {
        JustBelow(x, y, d, c, n, g);
      }
    } else {
      OnTheSpot(c, 100 * x - d * y, y, g);
    }
  }

  lemma OnTheSpot(c: nat, x: int, y: nat, g: int)
    requires x == 0 && y > 0 && g != 0
    ensures if g > 0 then 2 * c * x + g * y > 0 else 2 * c * x + g * y < 0
  {
    if g > 0 {
      MulLe(1, g, y);
    } else {
      MulLe(g, -1, y);
    }
  }

  lemma CutBounds(d: nat)
    requires 1 <= d <= 100
    ensures U <= CutScale(d) && Gap(d) == 2 * d * CutScale(d) + 100 - 200 * Cut(d)
    ensures (d == 33 ==> CutScale(d) == 2 * U) && (d == 66 ==> CutScale(d) == U)
  {
  }

  /** How far `x / y` is past the rounding point of the cut. */
  lemma Distance(x: nat, y: nat, d: nat, c: nat, n: nat, g: int)
    requires g == 2 * d * c + 100 - 200 * n
    ensures 100 * (2 * (x * c) - (2 * n - 1) * y) == 2 * c * (100 * x - d * y) + g * y
  {
    assert 2 * c * (100 * x - d * y) == 200 * (x * c) - 2 * d * c * y;
    assert g * y == 2 * d * c * y - 100 * ((2 * n - 1) * y) by {
      assert g == 2 * d * c - 100 * (2 * n - 1);
    }
  }

  lemma JustAbove(x: nat, y: nat, d: nat, c: nat, g: int)
    requires 0 < x <= SAFE_WORKERS && 100 * x > d * y && c >= U && (g > 0 || (g >= -12 && d >= 53))
    ensures 2 * c * (100 * x - d * y) + g * y > 0
  {
    MulLe(1, 100 * x - d * y, 2 * c);
    if g > 0 {
      MulLe(0, g, y);
    } else {
      MulLe(53, d, y);
      MulLe(-12, g, y);
    }
  }

  lemma JustBelow(x: nat, y: nat, d: nat, c: nat, n: nat, g: int)
    requires 0 < x <= SAFE_WORKERS && y > 0 && 100 * x < d * y && c > 0 && n > 0 && 2 * n - 1 > SAFE_WORKERS * g
    requires 100 * (2 * (x * c) - (2 * n - 1) * y) == 2 * c * (100 * x - d * y) + g * y
    ensures 2 * c * (100 * x - d * y) + g * y < 0
  {
    MulLe(100 * x - d * y, -1, 2 * c);
    if g <= 0 {
      MulLe(g, 0, y);
    } else if 2 * c * (100 * x - d * y) + g * y >= 0 {
      TooFewWorkers(x, y, c, 2 * n - 1, g);
    }
  }

  lemma TooFewWorkers(x: nat, y: nat, c: nat, n: nat, g: nat)
    requires 0 < x <= SAFE_WORKERS && c > 0 && g > 0
    requires 2 * c <= g * y && n * y <= 2 * (x * c)
    ensures n <= SAFE_WORKERS * g
  {
    // n * 2c <= n * g * y <= g * 2xc
    MulLe(2 * c, g * y, n);
    MulLe(n * y, 2 * (x * c), g);
    assert n * (2 * c) <= (g * x) * (2 * c) by {
      assert g * y * n == n * y * g;
      assert 2 * (x * c) * g == (g * x) * (2 * c);
    }
    if n > g * x {
      MulLt(g * x, n, 2 * c);
    }
    MulLe(x, SAFE_WORKERS, g);
  }

  /** The two thresholds that decide how far the safe range reaches. */
  lemma Frontier(x: nat, y: nat, d: nat, c: nat)
    requires 0 < x <= SAFE_WORKERS && 100 * x < d * y
    requires (d == 33 && c == 2 * U) || (d == 66 && c == U)
    ensures 2 * c * (100 * x - d * y) + 212 * y < 0
  {
  }

  // ----- the percentage of a pool

  /** The threshold is reached, for pools of every size. */
  predicate Meets(running: nat, total: nat, threshold: int)
  {
    threshold <= 0 || (threshold <= 100 && Reaches(Float32(running), Float32(total), threshold))
  }

  /**
   Health arithmetic, exactly and for every size: the percentage is at least a threshold if
   and only if the quotient of the two counts reaches the cut of that threshold.
   */
  lemma PercentageReaches(running: nat, total: nat, threshold: int)
    requires running <= total && 0 < total
    ensures Percentage(running, total) >= threshold <==> Meets(running, total, threshold)
  {
    hide Float32;
    hide PercentOf;
    hide Reaches;
    Float32Grows(running, total);
    Float32Grows(total, total);
    var x, y := Float32(running), Float32(total);
    AtMostHundred(x, y);
    if 1 <= threshold <= 100 {
      if x > 0 {
        PercentReaches(x, y, threshold);
      } else {
        NoneReached(y, threshold);
      }
    }
  }

  lemma NoneReached(y: nat, d: nat)
    requires y > 0 && 1 <= d <= 100
    ensures PercentOf(0, y) == 0 && !Reaches(0, y, d)
  {
    CutRange(d);
    hide Cut;
    MulLe(1, 2 * Cut(d) - 1, y);
  }

  lemma AtMostHundred(x: nat, y: nat)
    requires x <= y && 0 < y
    ensures PercentOf(x, y) <= 100
  {
    if x > 0 {
      PercentIs(x, y, 101);
      hide *;
      BigScale(x, y);
      RatioIs(x, y);
      ShiftIs(Ratio(x, y));
      AtMostScale(x, y, Scale(x, y));
    } else {
      assert PercentOf(x, y) == 0;
    }
  }

  lemma AtMostScale(x: nat, y: nat, k: nat)
    requires 0 < y && x <= y
    ensures RoundHalfEven(x * k, y) <= k
  {
    hide RoundHalfEven;
    RoundReaches(x * k, y, k + 1);
    MulLe(x, y, k);
    Odd(k, y);
  }

  lemma Odd(k: nat, y: nat)
    ensures (2 * (k + 1) - 1) * y == 2 * (y * k) + y
  {
  }

  lemma BigScale(x: nat, y: nat)
    requires 0 < x <= y
    ensures Scale(x, y) >= HALF_U
  {
    var e := ScalePower(x, y);
    Powers();
    if e > 23 { Doubled(23, e); }
  }

  /**
   What the percentage says about a threshold: it is passed above the threshold, missed below
   it, and at the threshold passed unless that is 53 or 59.
   */
  lemma Threshold(running: nat, total: nat, threshold: int)
    requires running <= total && 0 < total && running <= SAFE_WORKERS
    ensures Percentage(running, total) >= threshold <==> Passes(running, total, threshold)
  {
    PercentageReaches(running, total, threshold);
    hide Percentage;
    hide Reaches;
    if threshold <= 0 {
      MulLe(threshold, 0, total);
    } else if threshold > 100 {
      MulLe(101, threshold, total);
    } else if running == 0 {
      SmallCount(0);
      Float32Grows(total, total);
      NoneReached(Float32(total), threshold);
      MulLt(0, threshold, total);
    } else {
      Float32Grows(running, total);
      SmallCount(running);
      SafeReaches(running, Float32(total), threshold);
      if total <= U {
        SmallCount(total);
      } else {
        MulLe(U, Float32(total), threshold);
        MulLe(U, total, threshold);
      }
    }
  }

  /** The percentage is the true one rounded down, and one less where that is exactly 53 or 59. */
  lemma PercentageError(running: nat, total: nat)
    requires running <= total && 0 < total && running <= SAFE_WORKERS
    ensures var exact := 100 * running / total;
            Percentage(running, total) == if 100 * running % total == 0 && (exact == 53 || exact == 59) then exact - 1 else exact
  {
    hide Percentage;
    var exact := 100 * running / total;
    WholePart(100 * running, total);
    Threshold(running, total, exact - 1);
    Threshold(running, total, exact);
    Threshold(running, total, exact + 1);
    assert (exact - 1) * total == exact * total - total;
  }

  lemma WholePart(x: nat, y: nat)
    requires y > 0
    ensures x / y * y + x % y == x && x < (x / y + 1) * y
  {
  }

  /** A pool exactly at its threshold, of any size that float32 holds exactly. */
  lemma ExactThreshold(running: nat, total: nat, threshold: nat)
    requires 0 < running <= total <= U && 100 * running == threshold * total
    ensures Percentage(running, total) >= threshold <==> threshold != 53 && threshold != 59
  {
    hide *;
    Within(threshold, running, total);
    PercentageReaches(running, total, threshold);
    SmallCount(running);
    SmallCount(total);
    MeetsIs(running, total, threshold);
    IsReached(running, total, threshold);
    CutBounds(threshold);
    GapFacts(threshold);
    Distance(running, total, threshold, CutScale(threshold), Cut(threshold), Gap(threshold));
    OnTheSpot(CutScale(threshold), 100 * running - threshold * total, total, Gap(threshold));
    AtCut(running * CutScale(threshold), total, Cut(threshold), Gap(threshold) * total);
  }

  lemma Within(d: nat, x: nat, y: nat)
    requires 0 < x <= y && 100 * x == d * y
    ensures 1 <= d <= 100
  {
    if d > 100 {
      MulLe(101, d, y);
    }
  }

  lemma MeetsIs(running: nat, total: nat, threshold: int)
    requires 1 <= threshold <= 100
    ensures Meets(running, total, threshold) <==> Reaches(Float32(running), Float32(total), threshold)
  {
  }

  lemma AtCut(a: nat, y: nat, n: nat, e: int)
    requires e != 0 && 100 * (2 * a - (2 * n - 1) * y) == e
    ensures RoundsTo(a, y, n) <==> e > 0
  {
  }

  /** A pool with every worker running shows exactly 100, whatever its size. */
  lemma AllRunning(total: nat)
    requires 0 < total
    ensures Percentage(total, total) == 100
  {
    hide *;
    Float32Grows(total, total);
    PercentageReaches(total, total, 100);
    MeetsIs(total, total, 100);
    AllReached(Float32(total));
    PercentageReaches(total, total, 101);
    NeverAbove(total);
  }

  lemma AllReached(y: nat)
    requires y > 0
    ensures Reaches(y, y, 100)
  {
    assert CutScale(100) == U && Cut(100) == U;
  }

  lemma NeverAbove(total: nat)
    ensures !Meets(total, total, 101)
  {
  }

  /** The safe range is as large as it can be: with one more worker running, a total of 316597 is rounded up. */
  lemma SafeRangeIsExact()
    ensures var running := SAFE_WORKERS + 1;
            Percentage(running, 316597) == 33 && 100 * running / 316597 == 32
  {
    hide Percentage;
    PercentageReaches(104477, 316597, 33);
    PercentageReaches(104477, 316597, 34);
    SmallCount(104477);
    SmallCount(316597);
    hide Float32;
    assert Cut(33) == 11072962 && CutScale(33) == 2 * U;
    assert Cut(34) == 11408507 && CutScale(34) == 2 * U;
  }
}
