/** The linear congruential generator behind the synthetic text: 32-bit wrap-around
    arithmetic with a full period. */
module Lcg {

  const MODULUS: nat := 0x1_0000_0000
  const MULTIPLIER: nat := 1664525
  const INCREMENT: nat := 1013904223

  /** One draw: a 32-bit unsigned multiply-and-add, wrapping around. */
  function Next(state: nat): (next: nat)
    ensures next < MODULUS
  {
    (state * MULTIPLIER + INCREMENT) % MODULUS
  }

  function Draw(state: nat, n: nat): nat {
    if n == 0 then state else Next(Draw(state, n - 1))
  }

  /** The program's first draws. */
  lemma FirstDraws()
    ensures Draw(42, 1) == 1083814273 && Draw(42, 2) == 378494188 && Draw(42, 3) == 2479403867
  {
    assert Draw(42, 0) == 42;
    assert Next(42) == 1083814273 && Next(1083814273) == 378494188 && Next(378494188) == 2479403867;
    assert Draw(42, 1) == Next(Draw(42, 0));
    assert Draw(42, 2) == Next(Draw(42, 1));
    assert Draw(42, 3) == Next(Draw(42, 2));
  }

  // --------------------------------------------- the draws without wrap-around

  function Raw(x: nat, n: nat): nat {
    if n == 0 then x else Raw(x, n - 1) * MULTIPLIER + INCREMENT
  }

  /** 1 + a + ... + a^(n-1) for the multiplier a. */
  function Series(n: nat): nat {
    if n == 0 then 0 else Series(n - 1) * MULTIPLIER + 1
  }

  function Power(n: nat): nat {
    if n == 0 then 1 else Power(n - 1) * MULTIPLIER
  }

  lemma ModStep(a: nat, b: nat)
    requires a % MODULUS == b % MODULUS
    ensures (a * MULTIPLIER + INCREMENT) % MODULUS == (b * MULTIPLIER + INCREMENT) % MODULUS
  {
    var p, q, r := a / MODULUS, b / MODULUS, a % MODULUS;
    assert a == p * MODULUS + r && b == q * MODULUS + r;
    ModAdd(r * MULTIPLIER + INCREMENT, p * MULTIPLIER);
    ModAdd(r * MULTIPLIER + INCREMENT, q * MULTIPLIER);
  }

  lemma ModAdd(a: int, k: int)
    ensures (a + k * MODULUS) % MODULUS == a % MODULUS
  {
  }

  lemma {:induction false} DrawIsRaw(x: nat, n: nat)
    requires x < MODULUS
    ensures Draw(x, n) == Raw(x, n) % MODULUS
  {
    if n > 0 {
      DrawIsRaw(x, n - 1);
      ModStep(Draw(x, n - 1), Raw(x, n - 1));
    }
  }

  lemma DifferenceStep(x: nat, s: nat, d: nat, r: nat, a: nat, c: nat)
    requires a >= 1 && r - x == s * d && d == (a - 1) * x + c
    ensures r * a + c - x == (s * a + 1) * d
  {
    assert r == x + s * d;
    assert r * a == x * a + s * d * a;
    assert (s * a + 1) * d == s * d * a + d;
  }

  lemma {:induction false} RawDifference(x: nat, n: nat)
    ensures Raw(x, n) - x == Series(n) * ((MULTIPLIER - 1) * x + INCREMENT)
  {
    if n > 0 {
      RawDifference(x, n - 1);
      DifferenceStep(x, Series(n - 1), (MULTIPLIER - 1) * x + INCREMENT, Raw(x, n - 1), MULTIPLIER, INCREMENT);
    }
  }

  lemma SumStep(s: nat, p: nat, t: nat, a: nat)
    ensures (s * p + t) * a + 1 == s * (p * a) + (t * a + 1)
  {
    assert (s * p + t) * a == (s * p) * a + t * a;
  }

  lemma {:induction false} SeriesSum(m: nat, k: nat)
    ensures Series(m + k) == Series(m) * Power(k) + Series(k)
  {
    if k > 0 {
      calc {
        Series(m + k);
      ==
        Series(m + (k - 1)) * MULTIPLIER + 1;
      ==  { SeriesSum(m, k - 1); }
        (Series(m) * Power(k - 1) + Series(k - 1)) * MULTIPLIER + 1;
      ==  { SumStep(Series(m), Power(k - 1), Series(k - 1), MULTIPLIER); }
        Series(m) * Power(k) + Series(k);
      }
    }
  }

  lemma MultiplierModFour(p: nat)
    ensures p * MULTIPLIER % 4 == p % 4
  {
    assert p * MULTIPLIER == 4 * (p * 416131) + p;
  }

  lemma {:induction false} PowerModFour(n: nat)
    ensures Power(n) % 4 == 1
  {
    if n > 0 {
      PowerModFour(n - 1);
      MultiplierModFour(Power(n - 1));
    }
  }

  lemma {:induction false} SeriesHalf(n: nat) returns (h: nat)
    ensures Series(n) == 2 * h + n % 2
  {
    if n == 0 {
      h := 0;
    } else {
      var g := SeriesHalf(n - 1);
      h := if n % 2 == 1 then g * MULTIPLIER else g * MULTIPLIER + 832263;
    }
  }

  // ------------------------------------------------- divisibility by 2^k

  predicate Divisible(k: nat, x: int)
    decreases k
  {
    k == 0 || (x % 2 == 0 && Divisible(k - 1, x / 2))
  }

  function Pow2(k: nat): nat {
    if k == 0 then 1 else 2 * Pow2(k - 1)
  }

  lemma {:induction false} DivisibleMeansMod(k: nat, x: int)
    ensures Pow2(k) > 0 && (Divisible(k, x) <==> x % Pow2(k) == 0)
  {
    if k == 0 {
    } else {
      DivisibleMeansMod(k - 1, x / 2);
      if x % 2 == 0 {
        HalfMod(x / 2, Pow2(k - 1));
      } else {
        OddMod(x, Pow2(k - 1));
      }
    }
  }

  lemma OddMod(x: int, p: nat)
    requires p > 0 && x % 2 == 1
    ensures x % (2 * p) != 0
  {
    var q := x / (2 * p);
    assert x == q * (2 * p) + x % (2 * p);
    assert q * (2 * p) == 2 * (q * p);
  }

  lemma HalfMod(h: int, p: nat)
    requires p > 0
    ensures (2 * h) % (2 * p) == 2 * (h % p)
  {
    var q, r := h / p, h % p;
    assert h == q * p + r;
    assert 2 * h == q * (2 * p) + 2 * r;
    QuotientUnique(2 * h, 2 * p, q, 2 * r);
  }

  lemma QuotientUnique(x: int, d: nat, q: int, r: int)
    requires d > 0 && x == q * d + r && 0 <= r < d
    ensures x % d == r
  {
    var q2, r2 := x / d, x % d;
    assert x == q2 * d + r2;
    assert (q - q2) * d == r2 - r;
    assert q - q2 >= 1 ==> (q - q2) * d >= d;
    assert q - q2 <= -1 ==> (q - q2) * d <= -1 * d;
  }

  lemma SameParity(x: int, p: int, u: int)
    requires x == 2 * p + u
    ensures x % 2 == u % 2
  {
  }

  lemma OddProduct(u: int, h: int)
    ensures (u * (2 * h + 1)) % 2 == u % 2
  {
    assert u * (2 * h + 1) == 2 * (u * h) + u;
    SameParity(u * (2 * h + 1), u * h, u);
  }

  lemma HalfProduct(u: int, o: int)
    requires u % 2 == 0
    ensures (u * o) / 2 == (u / 2) * o
  {
    assert u == 2 * (u / 2);
    assert u * o == 2 * ((u / 2) * o);
  }

  lemma {:induction false} OddFactor(k: nat, u: int, o: int)
    requires o % 2 == 1
    ensures Divisible(k, u * o) <==> Divisible(k, u)
  {
    if k > 0 {
      assert o == 2 * (o / 2) + 1;
      OddProduct(u, o / 2);
      if u % 2 == 0 {
        HalfProduct(u, o);
        OddFactor(k - 1, u / 2, o);
      }
    }
  }

  lemma FactorTwo(s: int, p: int, o: int)
    requires p + 1 == 2 * o
    ensures s * p + s == 2 * (s * o)
  {
    assert s * p + s == s * (p + 1) == s * (2 * o);
  }

  lemma PowerHalf(m: nat) returns (o: int)
    ensures o % 2 == 1 && Power(m) + 1 == 2 * o
  {
    PowerModFour(m);
    o := (Power(m) + 1) / 2;
  }

  lemma DoubleSeries(m: nat) returns (o: int)
    ensures o % 2 == 1 && Series(m + m) == 2 * (Series(m) * o)
  {
    o := PowerHalf(m);
    calc {
      Series(m + m);
    ==  { SeriesSum(m, m); }
      Series(m) * Power(m) + Series(m);
    ==  { FactorTwo(Series(m), Power(m), o); }
      2 * (Series(m) * o);
    }
  }

  /** The series has exactly as many factors two as its length. */
  lemma {:induction false} SeriesDivisibility(k: nat, n: nat)
    ensures Divisible(k, Series(n)) <==> Divisible(k, n)
    decreases k
  {
    if k > 0 {
      var h := SeriesHalf(n);
      if n % 2 == 0 {
        var m := n / 2;
        var o := DoubleSeries(m);
        OddFactor(k - 1, Series(m), o);
        SeriesDivisibility(k - 1, m);
      }
    }
  }

  // ------------------------------------------------------------- the period

  lemma {:induction false} DrawCompose(x: nat, m: nat, n: nat)
    ensures Draw(x, m + n) == Draw(Draw(x, m), n)
  {
    if n > 0 {
      DrawCompose(x, m, n - 1);
    }
  }

  lemma {:induction false} DrawBelow(x: nat, n: nat)
    requires x < MODULUS
    ensures Draw(x, n) < MODULUS
  {
    if n > 0 {
      DrawBelow(x, n - 1);
    }
  }

  lemma Pow2Of32()
    ensures Pow2(32) == MODULUS
  {
    assert Pow2(8) == 0x100;
    assert Pow2(16) == 0x1_0000;
    assert Pow2(24) == 0x100_0000;
  }

  lemma SameMod(a: int, b: int)
    ensures a % MODULUS == b % MODULUS <==> (a - b) % MODULUS == 0
  {
  }

  lemma SeriesTimesOdd(k: nat, n: nat, o: int)
    requires o % 2 == 1
    ensures Pow2(k) > 0 && ((Series(n) * o) % Pow2(k) == 0 <==> n % Pow2(k) == 0)
  {
    DivisibleMeansMod(k, Series(n) * o);
    OddFactor(k, Series(n), o);
    SeriesDivisibility(k, n);
    DivisibleMeansMod(k, n);
  }

  lemma OddIncrement(x: nat)
    ensures ((MULTIPLIER - 1) * x + INCREMENT) % 2 == 1
  {
    assert (MULTIPLIER - 1) * x + INCREMENT == 2 * (832262 * x + 506952111) + 1;
  }

  lemma RawReturns(x: nat, n: nat)
    ensures (Raw(x, n) - x) % MODULUS == 0 <==> n % MODULUS == 0
  {
    RawDifference(x, n);
    OddIncrement(x);
    SeriesTimesOdd(32, n, (MULTIPLIER - 1) * x + INCREMENT);
    Pow2Of32();
  }

  /** After `n` draws the generator is back where it was exactly when `n` is a
      multiple of 2^32. */
  lemma ReturnsExactlyAfterModulus(x: nat, n: nat)
    requires x < MODULUS
    ensures Draw(x, n) == x <==> n % MODULUS == 0
  {
    DrawIsRaw(x, n);
    SameMod(Raw(x, n), x);
    RawReturns(x, n);
  }

  /** Full period: two draws of one run agree exactly when they are a multiple of
      2^32 apart; so any 2^32 draws in a row are pairwise distinct. */
  lemma FullPeriod(x: nat, i: nat, j: nat)
    requires x < MODULUS && i <= j
    ensures Draw(x, i) == Draw(x, j) <==> (j - i) % MODULUS == 0
  {
    DrawBelow(x, i);
    DrawCompose(x, i, j - i);
    ReturnsExactlyAfterModulus(Draw(x, i), j - i);
  }

  ghost function Visited(x: nat, n: nat): set<nat> {
    if n == 0 then {} else Visited(x, n - 1) + {Draw(x, n - 1)}
  }

  lemma {:induction false} VisitedAt(x: nat, n: nat, y: nat) returns (i: nat)
    requires y in Visited(x, n)
    ensures i < n && Draw(x, i) == y
  {
    if y == Draw(x, n - 1) {
      i := n - 1;
    } else {
      i := VisitedAt(x, n - 1, y);
    }
  }

  lemma {:induction false} VisitedSize(x: nat, n: nat)
    requires x < MODULUS && n <= MODULUS
    ensures |Visited(x, n)| == n
    ensures forall y | y in Visited(x, n) :: y < MODULUS
  {
    if n > 0 {
      VisitedSize(x, n - 1);
      DrawBelow(x, n - 1);
      if Draw(x, n - 1) in Visited(x, n - 1) {
        var i := VisitedAt(x, n - 1, Draw(x, n - 1));
        FullPeriod(x, i, n - 1);
        assert false;
      }
    }
  }

  function Below(n: nat): (s: set<nat>)
    ensures |s| == n
    ensures forall y: nat :: y in s <==> y < n
  {
    if n == 0 then {} else Below(n - 1) + {n - 1}
  }

  lemma SubsetOfSameSize(a: set<nat>, b: set<nat>, y: nat)
    requires a <= b && |a| == |b| && y in b
    ensures y in a
  {
    if y !in a {
      assert a <= b - {y};
      SubsetIsSmaller(a, b - {y});
    }
  }

  lemma {:induction false} SubsetIsSmaller(a: set<nat>, b: set<nat>)
    requires a <= b
    ensures |a| <= |b|
  {
    assert |b - a| == |b| - |a * b| && a * b == a;
  }

  /** The generator visits every 32-bit state before it repeats any. */
  lemma EveryStateIsVisited(x: nat, y: nat)
    requires x < MODULUS && y < MODULUS
    ensures exists i :: 0 <= i < MODULUS && Draw(x, i) == y
  {
    VisitedSize(x, MODULUS);
    SubsetOfSameSize(Visited(x, MODULUS), Below(MODULUS), y);
    var i := VisitedAt(x, MODULUS, y);
  }

  lemma FoursModFour(k: nat, r: nat)
    ensures (4 * k + r) % 4 == r % 4
  {
  }

  lemma WrapModFour(b: nat)
    ensures b % MODULUS % 4 == b % 4
  {
    var q, r := b / MODULUS, b % MODULUS;
    assert b == 4 * (q * 0x4000_0000) + r;
    FoursModFour(q * 0x4000_0000, r);
  }

  lemma LinearModFour(a: nat)
    ensures (a * MULTIPLIER + INCREMENT) % 4 == (a + 3) % 4
  {
    var k := a * 416131 + 253476055;
    assert a * MULTIPLIER + INCREMENT == 4 * k + (a + 3);
  }

  lemma NextModFour(a: nat)
    ensures Next(a) % 4 == (a + 3) % 4
  {
    LinearModFour(a);
    WrapModFour(a * MULTIPLIER + INCREMENT);
  }

  lemma DrawModFour(x: nat, n: nat)
    ensures Draw(x, n + 1) % 4 == (Draw(x, n) + 3) % 4
  {
    NextModFour(Draw(x, n));
  }

  lemma TwelveModFour(a: nat)
    ensures a % 12 % 4 == a % 4
  {
  }

  lemma FourResidues(a: nat, b: nat, c: nat, d: nat)
    requires b % 4 == (a + 3) % 4 && c % 4 == (b + 3) % 4 && d % 4 == (c + 3) % 4
    ensures {a % 4, b % 4, c % 4, d % 4} == {0, 1, 2, 3}
  {
  }

  /** The generator's weakness: with 12 words to choose from, any four draws in a row
      pick one index from each residue class modulo 4. */
  lemma FourDrawsHitEveryResidue(x: nat, n: nat)
    ensures {Draw(x, n) % 12 % 4, Draw(x, n + 1) % 12 % 4, Draw(x, n + 2) % 12 % 4, Draw(x, n + 3) % 12 % 4}
            == {0, 1, 2, 3}
  {
    var a, b, c, d := Draw(x, n), Draw(x, n + 1), Draw(x, n + 2), Draw(x, n + 3);
    DrawModFour(x, n);
    DrawModFour(x, n + 1);
    DrawModFour(x, n + 2);
    FourResidues(a, b, c, d);
    TwelveModFour(a);
    TwelveModFour(b);
    TwelveModFour(c);
    TwelveModFour(d);
  }
}
