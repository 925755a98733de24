/** Fixed-point prices and quantities through 64-bit floats (`from_f64`, `to_f64`): which raw values
    survive being printed as a float and read back. Floats are the binary64 values of IEEE 754-2019 with
    unbounded exponent, and each operation yields a nearest one (sections 4.3.1 and 5.4.1), whichever
    way ties go. */
module FixedPoint {
  import opened Prelude

  const SCALE: int := 100_000_000

  // The price 2^25 = 33554432, from which on the floats are too coarse for the proof by error bounds.
  const SAFE_LIMIT: int := 3_355_443_200_000_000

  // The least raw value that does not survive being printed and read.
  const FIRST_LOSS: int := SAFE_LIMIT + 19

  ghost function Pow2(e: int): real
    decreases if e >= 0 then e else -e
  {
    if e == 0 then 1.0 else if e > 0 then 2.0 * Pow2(e - 1) else Pow2(e + 1) / 2.0
  }

  const HIDDEN: int := 0x10_0000_0000_0000  // 2^52

  function Abs(r: real): real {
    if r >= 0.0 then r else -r
  }

  // m units of size p.
  function Units(m: int, p: real): real {
    m as real * p
  }

  ghost predicate IsFloat(m: int, e: int, v: real) {
    -2 * HIDDEN < m < 2 * HIDDEN && v == Units(m, Pow2(e))
  }

  ghost predicate Float(v: real) {
    exists m, e :: IsFloat(m, e, v)
  }

  // A correctly rounded result: no float is closer to the exact value.
  ghost predicate Nearest(exact: real, y: real) {
    Float(y) && forall w :: Float(w) ==> Abs(y - exact) <= Abs(w - exact)
  }

  ghost predicate Divides(a: real, y: real) {
    Nearest(a / SCALE as real, y)
  }

  // `self.0 as f64 / PRICE_SCALE as f64`
  ghost predicate ToFloat(raw: u64, y: real) {
    exists a :: Nearest(raw as real, a) && Divides(a, y)
  }

  // `f64::round`: to the nearest integer, halves away from zero.
  function RoundAway(r: real): int {
    if r >= 0.0 then (r + 0.5).Floor else -((-r + 0.5).Floor)
  }

  // `as u64` on a finite float saturates.
  function Saturate(n: int): u64 {
    if n < 0 then 0 else if n >= U64_LIMIT then U64_LIMIT - 1 else n
  }

  function Scaled(value: real): real {
    value * SCALE as real
  }

  // `.round() as u64` of a correctly rounded result.
  ghost predicate Rounded(exact: real, raw: u64) {
    exists z :: Nearest(exact, z) && raw == Saturate(RoundAway(z))
  }

  // `(value * PRICE_SCALE as f64).round() as u64`
  ghost predicate FromFloat(value: real, raw: u64) {
    Rounded(Scaled(value), raw)
  }

  // ----- powers of two

  lemma Pow2Step(e: int)
    ensures Pow2(e + 1) == 2.0 * Pow2(e)
  {
  }

  lemma {:induction false} Pow2Positive(e: int)
    ensures Pow2(e) > 0.0
    decreases if e >= 0 then e else -e
  {
    if e > 0 {
      Pow2Positive(e - 1);
    } else if e < 0 {
      Pow2Positive(e + 1);
    }
  }

  lemma {:induction false} Pow2Mono(a: int, b: int)
    requires a <= b
    ensures Pow2(a) <= Pow2(b)
    decreases b - a
  {
    if a < b {
      Pow2Mono(a, b - 1);
      Pow2Step(b - 1);
      Pow2Positive(b - 1);
    }
  }

  lemma {:induction false} Pow2Add(a: int, b: nat)
    ensures Pow2(a + b) == Pow2(a) * Pow2(b)
  {
    if b > 0 {
      Pow2Add(a, b - 1);
      Pow2Step(a + b - 1);
      assert Pow2(a) * (2.0 * Pow2(b - 1)) == 2.0 * (Pow2(a) * Pow2(b - 1));
    }
  }

  function IntPow2(n: nat): nat {
    if n == 0 then 1 else 2 * IntPow2(n - 1)
  }

  lemma {:induction false} Pow2Int(n: nat)
    ensures Pow2(n) == IntPow2(n) as real && IntPow2(n) >= 1
  {
    if n > 0 {
      Pow2Int(n - 1);
    }
  }

  lemma Pow2Values()
    ensures Pow2(25) == 33554432.0 && Pow2(52) == HIDDEN as real && Pow2(53) == 2.0 * HIDDEN as real
    ensures Pow2(-1) == 0.5 && Pow2(-2) == 0.25 && Pow2(-28) * 268435456.0 == 1.0 && Pow2(-27) * 134217728.0 == 1.0
  {
    assert Pow2(5) == 32.0;
    Pow2Add(5, 5);
    Pow2Add(10, 10);
    Pow2Add(20, 5);
    Pow2Add(25, 25);
    Pow2Add(50, 2);
    Pow2Add(50, 3);
    Pow2Add(-27, 27);
    Pow2Add(25, 2);
    Pow2Step(-28);
  }

  // ----- counting in units

  lemma UnitsMono(a: int, b: int, p: real)
    requires a <= b && p >= 0.0
    ensures Units(a, p) <= Units(b, p)
  {
  }

  lemma UnitsStep(m: int, p: real)
    ensures Units(m + 1, p) == Units(m, p) + p
  {
  }

  // k units of n times the size are k * n units; a unit of twice the size counts half.
  lemma UnitsRegroup(k: int, n: nat, p: real)
    ensures Units(k, p * n as real) == Units(k * n, p)
  {
  }

  lemma UnitsDouble(m: int, p: real)
    ensures Units(2 * m, p) == Units(m, 2.0 * p)
  {
  }

  lemma UnitsWiden(m: int, p: real, q: real)
    requires m >= 0 && p <= q
    ensures Units(m, p) <= Units(m, q)
  {
  }

  // The number of whole units in v.
  lemma WholeUnits(v: real, p: real) returns (m: int)
    requires p > 0.0
    ensures Units(m, p) <= v < Units(m + 1, p)
  {
    var q := v / p;
    assert q * p == v;
    m := q.Floor;
    var next := m + 1;
    assert m as real <= q < next as real;
    Scale(m as real, q, p);
    ScaleStrict(q, next as real, p);
    assert v < Units(next, p);
  }

  lemma Scale(a: real, b: real, p: real)
    requires a <= b && p > 0.0
    ensures a * p <= b * p
  {
  }

  lemma ScaleStrict(a: real, b: real, p: real)
    requires a < b && p > 0.0
    ensures a * p < b * p
  {
  }

  // ----- neighbouring floats

  // Between a full-length significand and the next there is no float.
  lemma NoFloatBetween(m: int, e: int, w: real)
    requires HIDDEN <= m && Float(w)
    ensures w <= Units(m, Pow2(e)) || w >= Units(m + 1, Pow2(e))
  {
    hide Pow2, Units;
    var k, f :| IsFloat(k, f, w);
    if f >= e {
      CoarseFloat(m, e, k, f);
    } else {
      FineFloat(m, e, k, f);
    }
  }

  // A float at the same or a higher exponent is a multiple of the unit.
  lemma CoarseFloat(m: int, e: int, k: int, f: int)
    requires f >= e
    ensures Units(k, Pow2(f)) <= Units(m, Pow2(e)) || Units(k, Pow2(f)) >= Units(m + 1, Pow2(e))
  {
    hide Pow2, Units, IntPow2;
    Pow2Multiple(e, f - e);
    Pow2Positive(e);
    Multiple(m, k, IntPow2(f - e), Pow2(e), Pow2(f));
  }

  lemma Pow2Multiple(e: int, d: nat)
    ensures Pow2(e + d) == Pow2(e) * IntPow2(d) as real
  {
    Pow2Add(e, d);
    Pow2Int(d);
  }

  lemma Multiple(m: int, k: int, n: nat, p: real, q: real)
    requires p > 0.0 && q == p * n as real
    ensures Units(k, q) <= Units(m, p) || Units(k, q) >= Units(m + 1, p)
  {
    UnitsRegroup(k, n, p);
    if k * n <= m {
      UnitsMono(k * n, m, p);
    } else {
      UnitsMono(m + 1, k * n, p);
    }
  }

  // A float at a lower exponent is below the whole binade.
  lemma FineFloat(m: int, e: int, k: int, f: int)
    requires HIDDEN <= m && f < e && k < 2 * HIDDEN
    ensures Units(k, Pow2(f)) <= Units(m, Pow2(e))
  {
    Pow2Mono(f + 1, e);
    Pow2Step(f);
    Pow2Positive(f);
    hide Pow2, Units;
    UnitsMono(k, 2 * HIDDEN, Pow2(f));
    UnitsDouble(HIDDEN, Pow2(f));
    UnitsWiden(HIDDEN, 2.0 * Pow2(f), Pow2(e));
    UnitsMono(HIDDEN, m, Pow2(e));
  }

  // The value lies in the gap above the significand m at exponent e.
  ghost predicate InGap(v: real, m: int, e: int) {
    HIDDEN <= m < 2 * HIDDEN && Units(m, Pow2(e)) <= v <= Units(m + 1, Pow2(e))
  }

  lemma EndsAreFloats(m: int, e: int)
    requires HIDDEN <= m < 2 * HIDDEN
    ensures Float(Units(m, Pow2(e))) && Float(Units(m + 1, Pow2(e)))
  {
    hide Units;
    assert IsFloat(m, e, Units(m, Pow2(e)));
    if m + 1 < 2 * HIDDEN {
      assert IsFloat(m + 1, e, Units(m + 1, Pow2(e)));
    } else {
      Pow2Step(e);
      UnitsDouble(HIDDEN, Pow2(e));
      assert IsFloat(HIDDEN, e + 1, Units(m + 1, Pow2(e)));
    }
  }

  lemma NearerEnd(v: real, low: real, high: real)
    requires low <= v <= high && Float(low) && Float(high)
    requires forall w :: Float(w) ==> w <= low || w >= high
    ensures v - low <= high - v ==> Nearest(v, low)
    ensures v - low >= high - v ==> Nearest(v, high)
    ensures v - low < high - v ==> forall y :: Nearest(v, y) ==> y == low
    ensures v - low > high - v ==> forall y :: Nearest(v, y) ==> y == high
    ensures forall y :: Nearest(v, y) ==> Abs(y - v) <= (high - low) / 2.0
  {
    hide Float;
  }

  // The nearer end of the gap is a nearest float, and every nearest float is within half the gap.
  lemma NearestInGap(v: real, m: int, e: int)
    requires InGap(v, m, e)
    ensures v - Units(m, Pow2(e)) <= Pow2(e) / 2.0 ==> Nearest(v, Units(m, Pow2(e)))
    ensures v - Units(m, Pow2(e)) >= Pow2(e) / 2.0 ==> Nearest(v, Units(m + 1, Pow2(e)))
    ensures v - Units(m, Pow2(e)) < Pow2(e) / 2.0 ==> forall y :: Nearest(v, y) ==> y == Units(m, Pow2(e))
    ensures v - Units(m, Pow2(e)) > Pow2(e) / 2.0 ==> forall y :: Nearest(v, y) ==> y == Units(m + 1, Pow2(e))
    ensures forall y :: Nearest(v, y) ==> Abs(y - v) <= Pow2(e) / 2.0
    ensures exists y :: Nearest(v, y)
  {
    hide Pow2, Float, Nearest, Units;
    var low, high := Units(m, Pow2(e)), Units(m + 1, Pow2(e));
    EndsAreFloats(m, e);
    UnitsStep(m, Pow2(e));
    forall w | Float(w) ensures w <= low || w >= high {
      NoFloatBetween(m, e, w);
    }
    NearerEnd(v, low, high);
  }

  // A value at or above the least full-length significand, and below twice that.
  lemma GapOf(v: real, e: int) returns (m: int)
    requires Pow2(e + 52) <= v < Pow2(e + 53)
    ensures InGap(v, m, e)
  {
    hide Pow2, Units;
    Binade(e);
    m := WholeUnits(v, Pow2(e));
    if m < HIDDEN {
      UnitsMono(m + 1, HIDDEN, Pow2(e));
    }
    if m >= 2 * HIDDEN {
      UnitsMono(2 * HIDDEN, m, Pow2(e));
    }
  }

  // The ends of the binade in units of its floats.
  lemma Binade(e: int)
    ensures Pow2(e) > 0.0
    ensures Pow2(e + 52) == Units(HIDDEN, Pow2(e)) && Pow2(e + 53) == Units(2 * HIDDEN, Pow2(e))
  {
    Pow2Positive(e);
    Pow2Values();
    hide Pow2;
    Pow2Add(e, 52);
    Pow2Add(e, 53);
  }

  // Every value of moderate size lies in such a gap.
  lemma {:induction false} FindGap(v: real, top: int) returns (m: int, e: int)
    requires Pow2(-100) <= v < Pow2(top) && top > -100
    ensures InGap(v, m, e) && e <= top - 53
    decreases top + 100
  {
    if v < Pow2(top - 1) {
      m, e := FindGap(v, top - 1);
    } else {
      e := top - 53;
      m := GapOf(v, e);
    }
  }

  // A nearest float exists, and is off by at most half a unit in the last place.
  lemma RoundingError(v: real, top: int)
    requires Pow2(-100) <= v < Pow2(top) && top > -100
    ensures exists y :: Nearest(v, y)
    ensures forall y :: Nearest(v, y) ==> Abs(y - v) <= Pow2(top - 53) / 2.0
  {
    var m, e := FindGap(v, top);
    hide InGap, Nearest, Pow2;
    NearestInGap(v, m, e);
    Pow2Mono(e, top - 53);
  }

  // A float is its own nearest float.
  lemma FloatIsExact(v: real, y: real)
    requires Float(v)
    ensures Nearest(v, y) <==> y == v
  {
  }

  lemma IntegerIsFloat(x: int)
    requires -2 * HIDDEN < x < 2 * HIDDEN
    ensures Float(x as real)
  {
    assert IsFloat(x, 0, x as real);
  }

  // ----- the round trip

  lemma PrintError(raw: u64, y: real)
    requires 0 < raw < SAFE_LIMIT && ToFloat(raw, y)
    ensures Abs(y - raw as real / SCALE as real) <= Pow2(-28) / 2.0
  {
    IntegerIsFloat(raw);
    var a :| Nearest(raw as real, a) && Divides(a, y);
    FloatIsExact(raw as real, a);
    PrintRange(raw);
    RoundingError(raw as real / SCALE as real, 25);
  }

  lemma PrintRange(raw: u64)
    requires 0 < raw < SAFE_LIMIT
    ensures Pow2(-100) <= raw as real / SCALE as real < Pow2(25)
  {
    Pow2Values();
    Pow2Mono(-100, -27);
  }

  lemma ReadRange(raw: u64, y: real)
    requires 0 < raw < SAFE_LIMIT
    requires Abs(y - raw as real / SCALE as real) <= Pow2(-28) / 2.0
    ensures Abs(y * SCALE as real - raw as real) < 0.1875
    ensures Pow2(-100) <= y * SCALE as real < Pow2(52)
  {
    Pow2Values();
    Pow2Mono(-100, -27);
    assert Pow2(-28) / 2.0 < 0.000000001863;
    var d := y - raw as real / SCALE as real;
    assert d * SCALE as real == y * SCALE as real - raw as real;
  }

  // It can be printed and read, and comes back as itself, however ties are broken on the way.
  ghost predicate Survives(raw: u64) {
    && (exists y :: ToFloat(raw, y))
    && (forall y :: ToFloat(raw, y) ==> (exists back :: FromFloat(y, back)))
    && (forall y, back :: ToFloat(raw, y) && FromFloat(y, back) ==> back == raw)
  }

  lemma RoundTripByErrors(raw: u64)
    requires raw < SAFE_LIMIT
    ensures Survives(raw)
  {
    IntegerIsFloat(raw);
    FloatIsExact(raw as real, raw as real);
    if raw == 0 {
      FloatIsExact(0.0, 0.0);
      assert 0.0 / SCALE as real == 0.0;
      assert Divides(0.0, 0.0);
      assert ToFloat(0, 0.0);
      assert 0.0 * SCALE as real == 0.0 && RoundAway(0.0) == 0;
      assert FromFloat(0.0, 0);
      forall y | ToFloat(raw, y) ensures y == 0.0 {
        var a :| Nearest(0.0, a) && Divides(a, y);
        FloatIsExact(0.0, a);
        FloatIsExact(0.0, y);
      }
      forall back | FromFloat(0.0, back) ensures back == 0 {
        var z :| Nearest(0.0, z) && back == Saturate(RoundAway(z));
        FloatIsExact(0.0, z);
      }
    } else {
      PrintRange(raw);
      RoundingError(raw as real / SCALE as real, 25);
      var y :| Nearest(raw as real / SCALE as real, y);
      assert Divides(raw as real, y);
      assert ToFloat(raw, y);
      forall y | ToFloat(raw, y)
        ensures exists back :: FromFloat(y, back)
        ensures forall back :: FromFloat(y, back) ==> back == raw
      {
        PrintError(raw, y);
        ReadBack(raw, y);
      }
    }
  }

  lemma ReadBack(raw: u64, y: real)
    requires 0 < raw < SAFE_LIMIT
    requires Abs(y - raw as real / SCALE as real) <= Pow2(-28) / 2.0
    ensures exists back :: FromFloat(y, back)
    ensures forall back :: FromFloat(y, back) ==> back == raw
  {
    var v := y * SCALE as real;
    ReadRange(raw, y);
    RoundingError(v, 52);
    Pow2Values();
    var z :| Nearest(v, z);
    assert FromFloat(y, Saturate(RoundAway(z)));
    forall back | FromFloat(y, back) ensures back == raw {
      var z :| Nearest(v, z) && back == Saturate(RoundAway(z));
      assert Abs(z - v) <= 0.25;
      assert raw as real - 0.5 < z < raw as real + 0.5;
      assert RoundAway(z) == raw;
    }
  }

  // ----- past the price 2^25, value by value

  const STEPS: int := 134_217_728  // 2^27 floats to a unit, from the price 2^25 up to twice that

  // The float nearest to the k-th raw value past the limit, counted in floats past the limit.
  function PrintedSteps(k: nat): nat {
    (k * STEPS + SCALE / 2) / SCALE
  }

  // How far that float is off, in units of 1 / STEPS raw.
  function Excess(k: nat): int {
    PrintedSteps(k) * SCALE - k * STEPS
  }

  lemma PrintsPast(k: nat)
    requires k <= 19
    ensures var raw: u64, printed := SAFE_LIMIT + k, Units(HIDDEN + PrintedSteps(k), Pow2(-27));
            && ToFloat(raw, printed)
            && forall y :: ToFloat(raw, y) ==> y == printed
  {
    var raw: u64 := SAFE_LIMIT + k;
    var whole := k * STEPS / SCALE;
    var v := raw as real / SCALE as real;
    IntegerIsFloat(raw);
    FloatIsExact(raw as real, raw as real);
    PastGap(k);
    NearestInGap(v, HIDDEN + whole, -27);
    hide Pow2, Units, Nearest;
    var printed := Units(HIDDEN + PrintedSteps(k), Pow2(-27));
    assert Divides(raw as real, printed);
    forall y | ToFloat(raw, y) ensures y == printed {
      var a :| Nearest(raw as real, a) && Divides(a, y);
      FloatIsExact(raw as real, a);
    }
  }

  lemma PastGap(k: nat)
    requires k <= 19
    ensures var v, low := (SAFE_LIMIT + k) as real / SCALE as real, Units(HIDDEN + k * STEPS / SCALE, Pow2(-27));
            && InGap(v, HIDDEN + k * STEPS / SCALE, -27)
            && (PrintedSteps(k) == k * STEPS / SCALE ==> v - low < Pow2(-27) / 2.0)
            && (PrintedSteps(k) != k * STEPS / SCALE ==>
                  PrintedSteps(k) == k * STEPS / SCALE + 1 && v - low > Pow2(-27) / 2.0)
  {
    Pow2Values();
    hide Pow2;
    assert Pow2(-27) == 1.0 / STEPS as real;
  }

  // A float near a raw value of this size is read as it, or as the next when it lies above the middle of
  // the half that follows.
  lemma ReadsNear(raw: u64, v: real)
    requires SAFE_LIMIT <= raw <= FIRST_LOSS && raw as real - 0.5 < v < raw as real + 0.5
    ensures exists back :: Rounded(v, back)
    ensures v < raw as real + 0.25 ==> forall back :: Rounded(v, back) ==> back == raw
    ensures v > raw as real + 0.25 ==> forall back :: Rounded(v, back) ==> back == raw + 1
  {
    Pow2Values();
    var m := if v >= raw as real then 2 * raw else 2 * raw - 1;
    assert InGap(v, m, -1);
    NearestInGap(v, m, -1);
    hide Pow2, Nearest;
    var z :| Nearest(v, z);
    assert Rounded(v, Saturate(RoundAway(z)));
  }

  lemma ReadsPast(k: nat)
    requires k <= 19
    ensures var v, raw := Scaled(Units(HIDDEN + PrintedSteps(k), Pow2(-27))), SAFE_LIMIT + k;
            && raw as real - 0.5 < v < raw as real + 0.5
            && (k < 19 ==> v < raw as real + 0.25) && (k == 19 ==> v > raw as real + 0.25)
  {
    Pow2Values();
    hide Pow2;
    assert Pow2(-27) == 1.0 / STEPS as real;
  }

  lemma PastTheLimit(k: nat)
    requires k <= 19
    ensures k < 19 ==> Survives(SAFE_LIMIT + k)
    ensures var raw: u64 := SAFE_LIMIT + k;
            && (exists y, back :: ToFloat(raw, y) && FromFloat(y, back))
            && (k == 19 ==> forall y, back :: ToFloat(raw, y) && FromFloat(y, back) ==> back == raw + 1)
  {
    var raw: u64 := SAFE_LIMIT + k;
    PrintsPast(k);
    ReadsPast(k);
    hide Rounded, ToFloat, Scaled, Units, Pow2;
    var y := Units(HIDDEN + PrintedSteps(k), Pow2(-27));
    ReadsNear(raw, Scaled(y));
    var back :| Rounded(Scaled(y), back);
    assert ToFloat(raw, y) && FromFloat(y, back);
  }

  // Printing a raw value below the first loss as a float and reading it back gives the same raw value,
  // however ties are broken on the way; and it can always be printed and read.
  lemma RoundTrip(raw: u64)
    requires raw < FIRST_LOSS
    ensures Survives(raw)
  {
    hide Survives, ToFloat, FromFloat;
    if raw < SAFE_LIMIT {
      RoundTripByErrors(raw);
    } else {
      PastTheLimit(raw - SAFE_LIMIT);
    }
  }

  // That value itself always comes back one higher.
  lemma FirstLossIsLost()
    ensures exists y, back :: ToFloat(FIRST_LOSS, y) && FromFloat(y, back)
    ensures forall y, back :: ToFloat(FIRST_LOSS, y) && FromFloat(y, back) ==> back == FIRST_LOSS + 1
  {
    PastTheLimit(19);
  }

  // So the bound is sharp.
  lemma RoundTripIffBelowFirstLoss(n: nat)
    requires n <= U64_LIMIT
    ensures (forall raw: u64 :: raw < n ==> Survives(raw)) <==> n <= FIRST_LOSS
  {
    hide ToFloat, FromFloat;
    if n <= FIRST_LOSS {
      forall raw: u64 | raw < n ensures Survives(raw) {
        RoundTrip(raw);
      }
    } else {
      FirstLossIsLost();
      assert !Survives(FIRST_LOSS);
    }
  }

  // So distinct keys below the first loss print as distinct floats.
  lemma DistinctKeysPrintApart(a: u64, b: u64, x: real, y: real)
    requires a < FIRST_LOSS && b < FIRST_LOSS && ToFloat(a, x) && ToFloat(b, y)
    ensures a != b ==> x != y
  {
    RoundTrip(a);
    RoundTrip(b);
  }

  // ----- keys keep the order of the values

  // Rounding never swaps two values.
  lemma NearestIsMonotone(v: real, w: real, x: real, y: real)
    requires v < w && Nearest(v, x) && Nearest(w, y)
    ensures x <= y
  {
  }

  // A smaller price never gets a larger key, whatever the signs and sizes; negative prices get key 0.
  lemma KeysKeepOrder(v: real, w: real, a: u64, b: u64)
    requires v < w && FromFloat(v, a) && FromFloat(w, b)
    ensures a <= b
    ensures v <= 0.0 ==> a == 0
  {
    hide Rounded;
    ScaleStrict(v, w, SCALE as real);
    RoundedKeepsOrder(Scaled(v), Scaled(w), a, b);
    if v <= 0.0 {
      Scale(v, 0.0, SCALE as real);
    }
  }

  lemma RoundedKeepsOrder(p: real, q: real, a: u64, b: u64)
    requires p < q && Rounded(p, a) && Rounded(q, b)
    ensures a <= b
    ensures p <= 0.0 ==> a == 0
  {
    var x :| Nearest(p, x) && a == Saturate(RoundAway(x));
    var y :| Nearest(q, y) && b == Saturate(RoundAway(y));
    NearestIsMonotone(p, q, x, y);
    if p <= 0.0 {
      NearestKeepsSign(p, x);
    }
    hide Nearest;
    RoundAwayIsMonotone(x, y);
  }

  lemma NearestKeepsSign(v: real, x: real)
    requires v <= 0.0 && Nearest(v, x)
    ensures x <= 0.0
  {
    IntegerIsFloat(0);
    assert Float(0.0);
    assert Abs(x - v) <= Abs(0.0 - v);
  }

  lemma RoundAwayIsMonotone(x: real, y: real)
    requires x <= y
    ensures RoundAway(x) <= RoundAway(y)
    ensures x <= 0.0 ==> RoundAway(x) <= 0
  {
  }
}
