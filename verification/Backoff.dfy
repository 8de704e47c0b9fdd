/**
 How long the circuit stays open: a doubling period in 64-bit arithmetic, capped, then
 jittered.
 (internal/httpx/breaker.go: withDefaults, open; internal/httpx/transport.go: fullJitter)
 */
module Backoff {
  import opened Text

  const TWO_63 := 0x8000_0000_0000_0000
  const TWO_64 := 0x1_0000_0000_0000_0000
  const TEN_SECONDS := 10_000_000_000
  const TWO_MINUTES := 120_000_000_000

  /** Durations are nanoseconds in a signed 64-bit integer. */
  datatype Config = Config(failureThreshold: int, openBase: int, openMax: int, halfOpenProbes: int) {
    ghost predicate Valid() {
      0 < failureThreshold && 0 < openBase <= openMax < TWO_63 && 0 < halfOpenProbes
    }
  }

  const DEFAULTS := WithDefaults(Config(0, 0, 0, 0))

  /** Non-positive fields take their defaults, and the cap is raised to the base. */
  function WithDefaults(c: Config): (r: Config)
    ensures c.openBase < TWO_63 && c.openMax < TWO_63 ==> r.Valid()
    ensures c.Valid() ==> r == c
    ensures r.failureThreshold == if c.failureThreshold <= 0 then 5 else c.failureThreshold
    ensures r.halfOpenProbes == if c.halfOpenProbes <= 0 then 1 else c.halfOpenProbes
    ensures r.openBase == if c.openBase <= 0 then 10_000_000_000 else c.openBase
    ensures r.openBase <= r.openMax
    ensures r.openMax in {r.openBase, if c.openMax <= 0 then 120_000_000_000 else c.openMax}
    ensures r.openMax >= if c.openMax <= 0 then 120_000_000_000 else c.openMax
  {
    var base := if c.openBase <= 0 then TEN_SECONDS else c.openBase;
    var cap := if c.openMax <= 0 then TWO_MINUTES else c.openMax;
    Config(if c.failureThreshold <= 0 then 5 else c.failureThreshold,
           base,
           if cap < base then base else cap,
           if c.halfOpenProbes <= 0 then 1 else c.halfOpenProbes)
  }

  function Pow2(n: nat): (r: int)
    ensures 0 < r
  {
    if n == 0 then 1 else 2 * Pow2(n - 1)
  }

  /** The low 64 bits, read as a signed number. */
  function Wrap(x: int): (r: int)
    ensures -TWO_63 <= r < TWO_63
    ensures -TWO_63 <= x < TWO_63 ==> r == x
  {
    var low := x % TWO_64;
    if low >= TWO_63 then low - TWO_64 else low
  }

  /** The period before jitter. A left shift drops the high bits; the guard catches a result
      that is not positive. */
  function Period(cfg: Config, reopens: nat): (r: int)
    requires cfg.Valid()
    ensures 0 < r <= cfg.openMax
  {
    var shifted := Wrap(cfg.openBase * Pow2(reopens));
    if shifted > cfg.openMax || shifted <= 0 then cfg.openMax else shifted
  }

  /** What the period is meant to be. */
  function Ideal(cfg: Config, reopens: nat): int {
    Min(cfg.openBase * Pow2(reopens), cfg.openMax)
  }

  /** The shift does not overflow into a positive value below the cap. */
  predicate Fits(cfg: Config, reopens: nat) {
    var product := cfg.openBase * Pow2(reopens);
    product < TWO_63 || !(0 < Wrap(product) < cfg.openMax)
  }

  /** After a number of reopens the period is the ideal one exactly when the shift fits. */
  lemma {:induction false} PeriodIdealIff(cfg: Config, reopens: nat)
    requires cfg.Valid()
    ensures Period(cfg, reopens) == Ideal(cfg, reopens) <==> Fits(cfg, reopens)
  {
    hide Pow2, Wrap;
    ProductPositive(cfg.openBase, Pow2(reopens));
  }

  lemma {:induction false} ProductPositive(a: int, b: int)
    requires 0 < a && 0 < b
    ensures 0 < a * b
  {
  }

  /** A configuration gives ideal periods after any number of reopens exactly when the first 64
      shifts fit: later ones leave nothing, which the guard catches. */
  lemma {:induction false} AlwaysIdealIff(cfg: Config)
    requires cfg.Valid()
    ensures (forall reopens: nat :: Period(cfg, reopens) == Ideal(cfg, reopens)) <==>
            forall reopens: nat :: reopens < 64 ==> Fits(cfg, reopens)
  {
    hide Period, Ideal, Fits;
    forall reopens: nat ensures Period(cfg, reopens) == Ideal(cfg, reopens) <==> Fits(cfg, reopens) {
      PeriodIdealIff(cfg, reopens);
    }
    forall reopens: nat | 64 <= reopens ensures Fits(cfg, reopens) { LateShiftFits(cfg, reopens); }
  }

  lemma {:induction false} LateShiftFits(cfg: Config, reopens: nat)
    requires 64 <= reopens
    ensures Fits(cfg, reopens)
  {
    hide Pow2;
    Pow2Sum(64, reopens - 64);
    Pow2Is64();
    var rest := Pow2(reopens - 64);
    Regroup(cfg.openBase, 1, TWO_64, rest);
    assert cfg.openBase * Pow2(reopens) == TWO_64 * (cfg.openBase * rest);
    MultipleIs(TWO_64, cfg.openBase * rest);
  }

  /** Overflow does produce a short period. */
  lemma {:induction false} PeriodWrapsShort()
    ensures var cfg := Config(5, 0x2_0000_0001, TWO_63 - 1, 1);
            cfg.Valid() && Period(cfg, 31) == 0x8000_0000 && Ideal(cfg, 31) == cfg.openMax
  {
    Pow2Is31();
    assert 0x2_0000_0001 * 0x8000_0000 == TWO_64 + 0x8000_0000;
  }

  lemma {:induction false} Pow2Is31()
    ensures Pow2(31) == 0x8000_0000
  {
    assert Pow2(8) == 256;
    Pow2Sum(8, 8);
    Pow2Sum(8, 7);
    Pow2Sum(16, 15);
  }

  lemma {:induction false} Pow2Sum(a: nat, b: nat)
    ensures Pow2(a + b) == Pow2(a) * Pow2(b)
  {
    if a > 0 {
      Pow2Sum(a - 1, b);
      assert Pow2(a + b) == 2 * Pow2(a - 1 + b);
    }
  }

  lemma {:induction false} Pow2Grows(a: nat, b: nat)
    requires a <= b
    ensures Pow2(a) <= Pow2(b)
  {
    if a < b { Pow2Grows(a, b - 1); }
  }

  lemma {:induction false} Pow2Is64()
    ensures Pow2(64) == TWO_64
  {
    Pow2Is31();
    Pow2Sum(31, 31);
    Pow2Sum(62, 2);
    assert Pow2(2) == 4;
  }

  /** A multiple of m stays one when reduced by a multiple of m. */
  lemma {:induction false} MultipleMod(a: int, n: int, m: int, x: int, y: int)
    requires 0 < m && 0 < n && a == m * x && n == m * y
    ensures (a % n) % m == 0
  {
    var z := x - y * (a / n);
    assert a % n == m * z by {
      assert a % n == a - n * (a / n);
      assert m * (x - y * (a / n)) == m * x - m * y * (a / n);
    }
    MultipleIs(m, z);
  }

  lemma {:induction false} MultipleIs(m: int, z: int)
    requires 0 < m
    ensures (m * z) % m == 0
  {
    Quotient(m * z, m, z);
  }

  lemma {:induction false} Quotient(a: int, m: int, z: int)
    requires 0 < m && a == m * z
    ensures a / m == z && a % m == 0
  {
    var d := z - a / m;
    assert m * d == a % m by { assert m * (z - a / m) == m * z - m * (a / m); }
    AtLeastOne(m, d);
  }

  lemma {:induction false} AtLeastOne(m: int, d: int)
    requires 0 < m
    ensures d > 0 ==> m * d >= m
    ensures d < 0 ==> m * d <= -m
  {
  }

  /** The period is ideal after any number of reopens when the base, of `bits` bits, ends in
      enough zero bits for the cap: the bits an overflow leaves are then never below it. */
  lemma {:induction false} RoundBaseIdeal(cfg: Config, q: int, zeros: nat, bits: nat, reopens: nat)
    requires cfg.Valid() && cfg.openBase == q * Pow2(zeros) && zeros < bits && bits <= 63
    requires cfg.openBase < Pow2(bits)
    requires cfg.openMax <= Pow2(zeros + 65 - bits)
    ensures Period(cfg, reopens) == Ideal(cfg, reopens)
  {
    var product := cfg.openBase * Pow2(reopens);
    if product >= TWO_64 {
      BigShift(cfg.openBase, bits, reopens);
      var m, over := Pow2(zeros + 65 - bits), reopens - (65 - bits);
      ProductIs(q, zeros, 65 - bits, over);
      Pow2Sum(zeros + 65 - bits, bits - 1 - zeros);
      Pow2Is64();
      MultipleMod(product, TWO_64, m, q * Pow2(over), Pow2(bits - 1 - zeros));
      MultipleSize(product % TWO_64, m);
    }
    PeriodIdealIff(cfg, reopens);
  }

  lemma {:induction false} MultipleSize(a: int, m: int)
    requires 0 <= a && 0 < m && a % m == 0
    ensures a == 0 || m <= a
  {
  }

  lemma {:induction false} ProductIs(q: int, zeros: nat, gap: nat, over: nat)
    ensures (q * Pow2(zeros)) * Pow2(gap + over) == Pow2(zeros + gap) * (q * Pow2(over))
  {
    Pow2Sum(gap, over);
    Pow2Sum(zeros, gap);
    Regroup(q, Pow2(zeros), Pow2(gap), Pow2(over));
  }

  lemma {:induction false} Regroup(q: int, a: int, b: int, c: int)
    ensures (q * a) * (b * c) == (a * b) * (q * c)
  {
    assert (q * a) * (b * c) == ((q * a) * b) * c;
    assert (a * b) * (q * c) == ((a * b) * q) * c;
    assert (q * a) * b == (a * b) * q;
  }

  /** A base of `bits` bits needs more than 64 - bits shifts to lose a bit. */
  lemma {:induction false} BigShift(base: int, bits: nat, reopens: nat)
    requires 0 < base < Pow2(bits) && bits <= 63 && base * Pow2(reopens) >= TWO_64
    ensures reopens >= 65 - bits
  {
    hide Pow2;
    Pow2Sum(bits, reopens);
    Scales(base, Pow2(bits), Pow2(reopens));
    Pow2Is64();
    if bits + reopens <= 64 { Pow2Grows(bits + reopens, 64); }
  }

  lemma {:induction false} Scales(a: int, b: int, c: int)
    requires a < b && 0 < c
    ensures a * c < b * c
  {
  }

  /** With the default settings the open periods are 10s, 20s, 40s, 80s and then 2m for ever. */
  lemma {:induction false} DefaultPeriods(reopens: nat)
    ensures Period(DEFAULTS, reopens) == if reopens < 4 then TEN_SECONDS * Pow2(reopens) else TWO_MINUTES
  {
    assert Pow2(4) == 16;
    Pow2Sum(4, 6);
    Pow2Sum(6, 4);
    assert Pow2(6) == 64 && Pow2(10) == 1024;
    Pow2Sum(10, 10);
    Pow2Sum(20, 10);
    Pow2Sum(30, 4);
    Pow2Sum(31, 10);
    Pow2Is31();
    RoundBaseIdeal(DEFAULTS, 9_765_625, 10, 34, reopens);
    if reopens < 4 { Pow2Grows(reopens, 3); assert Pow2(3) == 8; } else { Pow2Grows(4, reopens); }
  }

  /** `draw` is the random number, uniform in [0, d/2]. */
  function FullJitter(d: int, draw: nat): (r: int)
    requires 0 < d ==> draw <= d / 2
    ensures 0 < d ==> d / 2 <= r <= d
    ensures d <= 0 ==> r == d
  {
    if d <= 0 then d else d / 2 + draw
  }

  /** The delays that can occur are the interval from d/2 to d, without d itself when d is odd. */
  lemma {:induction false} JitterRange(d: int, r: int)
    requires 0 < d
    ensures (exists draw: nat :: draw <= d / 2 && FullJitter(d, draw) == r) <==> d / 2 <= r <= d - d % 2
  {
    if d / 2 <= r <= d - d % 2 {
      assert FullJitter(d, r - d / 2) == r;
    }
  }
}
