/** Miller-Rabin with random bases: it never refuses a prime, whatever bases are drawn. */
module Primality {
  import opened Prelude
  import opened Dh

  predicate IsPrime(n: int) {
    n >= 2 && forall k :: 2 <= k < n ==> n % k != 0
  }

  // ---- Euclid's lemma ----

  lemma MultipleZero(k: int, p: int)
    requires p > 0
    ensures (k * p) % p == 0
  {
    ModShift(0, k, p);
  }

  lemma {:induction false} Euclid(p: int, a: int, b: int)
    requires IsPrime(p) && 0 < a < p && (a * b) % p == 0
    ensures b % p == 0
    decreases a
  {
    if a > 1 {
      var q, r := p / a, p % a;
      assert p == q * a + r;
      var t := (a * b) / p;
      assert a * b == t * p;
      assert r * b == (b - q * t) * p by {
        assert r * b == p * b - q * (a * b);
        assert q * (t * p) == (q * t) * p;
      }
      MultipleZero(b - q * t, p);
      Euclid(p, r, b);
    }
  }

  lemma EuclidMod(p: int, a: int, b: int)
    requires IsPrime(p) && (a * b) % p == 0
    ensures a % p == 0 || b % p == 0
  {
    if a % p != 0 {
      ModMul(a, b, p);
      Euclid(p, a % p, b);
    }
  }

  // ---- Fermat's little theorem, through the binomial expansion of (1 + a)^p ----

  function Choose(n: nat, k: nat): nat {
    if k == 0 then 1 else if n == 0 then 0 else Choose(n - 1, k - 1) + Choose(n - 1, k)
  }

  lemma {:induction false} ChooseEdge(n: nat, k: nat)
    requires k >= n
    ensures Choose(n, k) == if k == n then 1 else 0
  {
    if n == 0 {
    } else {
      ChooseEdge(n - 1, k - 1);
      ChooseEdge(n - 1, k);
    }
  }

  lemma AbsorbSum(n: int, k: int, u: int, v: int, x: int, y: int)
    requires u == x + y && (k - 1) * u == (n - 1) * x && k * v == (n - 1) * y
    ensures k * (u + v) == n * u
  {
    assert (n - 1) * u == (n - 1) * x + (n - 1) * y;
    assert k * (u + v) == (k - 1) * u + u + k * v;
  }

  lemma {:induction false} Absorb(n: nat, k: nat)
    requires n >= 1 && k >= 1
    ensures k * Choose(n, k) == n * Choose(n - 1, k - 1)
  {
    if n == 1 {
      ChooseEdge(1, k);
      ChooseEdge(0, k - 1);
    } else {
      var x := if k == 1 then 0 else Choose(n - 2, k - 2);
      var u, v, y := Choose(n - 1, k - 1), Choose(n - 1, k), Choose(n - 2, k - 1);
      Absorb(n - 1, k);
      if k > 1 { Absorb(n - 1, k - 1); } else { assert u == y == 1; }
      AbsorbSum(n, k, u, v, x, y);
    }
  }

  lemma ChooseDivides(p: nat, k: nat)
    requires IsPrime(p) && 0 < k < p
    ensures Choose(p, k) % p == 0
  {
    Absorb(p, k);
    var c, d := Choose(p, k), Choose(p - 1, k - 1);
    assert k * c == d * p;
    MultipleZero(d, p);
    Euclid(p, k, c);
  }

  /** The first m terms of the expansion of (1 + a)^n. */
  function Expansion(n: nat, a: int, m: nat): int {
    if m == 0 then 0 else Expansion(n, a, m - 1) + Choose(n, m - 1) * Pow(a, m - 1)
  }

  lemma TermSplits(x: int, y: int, a: int, w: int, e: int)
    ensures (x + y) * (a * w) == x * (a * w) + a * (y * w)
    ensures a * (e + y * w) == a * e + a * (y * w)
  {
    assert y * (a * w) == a * (y * w);
  }

  lemma {:induction false} ExpansionStep(n: nat, a: int, m: nat)
    requires n >= 1 && m >= 1
    ensures Expansion(n, a, m) == Expansion(n - 1, a, m) + a * Expansion(n - 1, a, m - 1)
  {
    if m == 1 {
      assert Expansion(n, a, 0) == 0 && Expansion(n - 1, a, 0) == 0;
    } else {
      ExpansionStep(n, a, m - 1);
      var x, y, w := Choose(n - 1, m - 1), Choose(n - 1, m - 2), Pow(a, m - 2);
      var e := Expansion(n - 1, a, m - 2);
      TermSplits(x, y, a, w, e);
      assert Expansion(n, a, m) == Expansion(n, a, m - 1) + (x + y) * (a * w);
      assert Expansion(n - 1, a, m) == Expansion(n - 1, a, m - 1) + x * (a * w);
      assert Expansion(n - 1, a, m - 1) == e + y * w;
    }
  }

  lemma {:induction false} Binomial(n: nat, a: int)
    ensures Pow(1 + a, n) == Expansion(n, a, n + 1)
  {
    if n == 0 {
      assert Expansion(0, a, 1) == Expansion(0, a, 0) + 1;
    } else {
      Binomial(n - 1, a);
      ExpansionStep(n, a, n + 1);
      ChooseEdge(n - 1, n);
      var e := Expansion(n - 1, a, n);
      assert Expansion(n - 1, a, n + 1) == e + 0 * Pow(a, n);
      assert (1 + a) * e == e + a * e;
    }
  }

  lemma {:induction false} MiddleVanishes(p: nat, a: int, m: nat)
    requires IsPrime(p) && 1 <= m <= p
    ensures Expansion(p, a, m) % p == 1
  {
    if m == 1 {
      assert Expansion(p, a, 0) == 0 && Choose(p, 0) == 1 && Pow(a, 0) == 1;
    } else {
      MiddleVanishes(p, a, m - 1);
      ChooseDivides(p, m - 1);
      var t := Choose(p, m - 1) / p;
      assert Choose(p, m - 1) * Pow(a, m - 1) == (t * Pow(a, m - 1)) * p;
      ModShift(Expansion(p, a, m - 1), t * Pow(a, m - 1), p);
    }
  }

  lemma AddMod(x: int, y: int, z: int, p: int)
    requires p > 0 && x % p == y % p
    ensures (x + z) % p == (y + z) % p
  {
    var k := x / p - y / p;
    assert x + z == (y + z) + k * p;
    ModShift(y + z, k, p);
  }

  /** The last term of the expansion is a^n. */
  lemma BinomialEnds(n: nat, a: int)
    ensures Pow(1 + a, n) == Expansion(n, a, n) + Pow(a, n)
  {
    Binomial(n, a);
    ChooseEdge(n, n);
    assert Expansion(n, a, n + 1) == Expansion(n, a, n) + 1 * Pow(a, n);
  }

  lemma FermatStep(p: nat, a: nat)
    requires IsPrime(p)
    ensures Pow(1 + a, p) % p == (1 + Pow(a, p)) % p
  {
    BinomialEnds(p, a);
    MiddleVanishes(p, a, p);
    ResidueAdds(Expansion(p, a, p), Pow(a, p), p);
  }

  lemma ResidueAdds(e: int, w: int, p: int)
    requires p > 1 && e % p == 1
    ensures (e + w) % p == (1 + w) % p
  {
    AddMod(e, 1, w, p);
  }

  lemma {:induction false} FermatPower(p: nat, a: nat)
    requires IsPrime(p)
    ensures Pow(a, p) % p == a % p
  {
    if a == 0 {
      assert Pow(0, p) == 0 * Pow(0, p - 1);
    } else {
      FermatPower(p, a - 1);
      FermatStep(p, a - 1);
      AddMod(Pow(a - 1, p), a - 1, 1, p);
    }
  }

  lemma CancelFactor(p: nat, a: int, x: int)
    requires IsPrime(p) && a % p != 0 && (a * x) % p == a % p
    ensures x % p == 1
  {
    DifferenceZero(p, a, x);
    EuclidMod(p, a, x - 1);
    AddMod(x - 1, 0, 1, p);
  }

  lemma DifferenceZero(p: nat, a: int, x: int)
    requires p > 0 && (a * x) % p == a % p
    ensures (a * (x - 1)) % p == 0
  {
    var k := (a * x) / p - a / p;
    assert a * (x - 1) == a * x - a == k * p;
    MultipleZero(k, p);
  }

  /** a^(p-1) = 1 modulo a prime that does not divide a. */
  lemma Fermat(p: nat, a: nat)
    requires IsPrime(p) && a % p != 0
    ensures PowMod(a, p - 1, p) == 1
  {
    FermatPower(p, a);
    CancelFactor(p, a, Pow(a, p - 1));
  }

  /** Modulo a prime, 1 has no square root but 1 and p - 1. */
  lemma RootsOfOne(p: nat, x: nat)
    requires IsPrime(p) && x < p && (x * x) % p == 1
    ensures x == 1 || x == p - 1
  {
    Factors(x, (x * x) / p, p);
    MultipleZero((x * x) / p, p);
    EuclidMod(p, x - 1, x + 1);
    if x == 0 { AddMod(-1, 0, p, p); }
  }

  lemma Factors(x: int, k: int, p: int)
    requires x * x == k * p + 1
    ensures (x - 1) * (x + 1) == k * p
  {
  }

  // ---- The test ----

  /** x, x^2, x^4, ... modulo n. */
  function Squared(x: nat, i: nat, n: nat): nat
    requires n > 0
  {
    if i == 0 then x else SquareMod(Squared(x, i - 1, n), n)
  }

  function SquareMod(x: nat, n: nat): nat
    requires n > 0
  {
    x * x % n
  }

  lemma {:induction false} SquaredIsPower(a: nat, d: nat, i: nat, n: nat)
    requires n > 1
    ensures d * Two(i) >= 0 && Squared(PowMod(a, d, n), i, n) == PowMod(a, d * Two(i), n)
  {
    if i > 0 {
      SquaredIsPower(a, d, i - 1, n);
      var e := d * Two(i - 1);
      assert d * Two(i) == e + e;
      PowAdd(a, e, e);
      var x := Pow(a, e);
      ModMul(x, x, n);
      ModMul(x, x % n, n);
      assert (x % n) * x == x * (x % n);
    } else {
      assert d * Two(0) == d;
    }
  }

  /** A base that does not show n composite: x is 1, or n - 1 is met within s terms. */
  ghost predicate Passes(n: nat, x: nat, s: nat)
    requires n > 0
  {
    x == 1 || exists i :: 0 <= i < s && Squared(x, i, n) == n - 1
  }

  lemma {:induction false} LastBeforeOne(n: nat, x: nat, s: nat)
    requires IsPrime(n) && x < n && Squared(x, s, n) == 1
    ensures Passes(n, x, s)
  {
    if s == 0 {
    } else {
      var y := Squared(x, s - 1, n);
      RootsOfOne(n, y);
      if y == 1 {
        LastBeforeOne(n, x, s - 1);
      }
    }
  }

  function Times(d: nat, s: nat): nat { d * Two(s) }

  /** n is a strong probable prime to base a: the power d of a is 1, or one of the powers d, 2d, 4d, ... below d * 2^s
      is n - 1, all modulo n. */
  ghost predicate Strong(n: nat, a: nat, d: nat, s: nat)
    requires n > 0
  {
    PowMod(a, d, n) == 1 || exists i: nat :: i < s && PowMod(a, Times(d, i), n) == n - 1
  }

  /** Squaring again and again meets exactly those powers. */
  lemma PassesIsStrong(n: nat, a: nat, d: nat, s: nat)
    requires n > 1
    ensures Passes(n, PowMod(a, d, n), s) <==> Strong(n, a, d, s)
  {
    forall i: nat ensures Squared(PowMod(a, d, n), i, n) == PowMod(a, Times(d, i), n) { SquaredIsPower(a, d, i, n); }
    if Strong(n, a, d, s) && PowMod(a, d, n) != 1 {
      var i: nat :| i < s && PowMod(a, Times(d, i), n) == n - 1;
      assert Squared(PowMod(a, d, n), i, n) == n - 1;
    }
    if i :| 0 <= i < s && Squared(PowMod(a, d, n), i, n) == n - 1 {
      assert PowMod(a, Times(d, i), n) == n - 1;
    }
  }

  /** For a prime, every base passes. */
  lemma PrimePasses(n: nat, a: nat, d: nat, s: nat)
    requires IsPrime(n) && 0 < a < n && n - 1 == d * Two(s)
    ensures Strong(n, a, d, s)
  {
    Fermat(n, a);
    SquaredIsPower(a, d, s, n);
    LastBeforeOne(n, PowMod(a, d, n), s);
    PassesIsStrong(n, a, d, s);
  }

  lemma SquareOfLast(n: nat)
    requires n > 1
    ensures SquareMod(n - 1, n) == 1 && SquareMod(1, n) == 1
  {
    assert (n - 1) * (n - 1) == 1 + (n - 2) * n;
    ModShift(1, n - 2, n);
  }

  /** After n - 1 or 1 come only ones. */
  lemma {:induction false} OnesFollow(x: nat, i: nat, s: nat, n: nat)
    requires n > 1 && i <= s
    requires Squared(x, i, n) == 1 || (i < s && Squared(x, i, n) == n - 1)
    ensures Squared(x, s, n) == 1
    decreases s
  {
    SquareOfLast(n);
    if i < s && (Squared(x, i, n) == 1 || i < s - 1) { OnesFollow(x, i, s - 1, n); }
  }

  /** A strong probable prime to a base passes the test of Fermat for it. */
  lemma StrongIsFermat(n: nat, a: nat, d: nat, s: nat)
    requires n > 1 && n - 1 == d * Two(s) && Strong(n, a, d, s)
    ensures PowMod(a, n - 1, n) == 1
  {
    var x := PowMod(a, d, n);
    PassesIsStrong(n, a, d, s);
    SquaredIsPower(a, d, s, n);
    if x == 1 {
      OnesFollow(x, 0, s, n);
    } else {
      var i :| 0 <= i < s && Squared(x, i, n) == n - 1;
      OnesFollow(x, i, s, n);
    }
  }

  const SMALL_PRIMES: seq<int> := [2, 3, 5, 7, 11, 13, 17, 19, 23, 29, 31, 37, 41, 43, 47]

  const MILLER_RABIN_ROUNDS: nat := 15

  /** n - 1 as an odd number times a power of two. */
  method Decompose(n: nat) returns (d: nat, s: nat)
    requires n >= 2
    ensures n - 1 == d * Two(s) && d % 2 == 1 && (n % 2 == 1 ==> s > 0)
  {
    d, s := n - 1, 0;
    while d % 2 == 0
      invariant d > 0 && n - 1 == d * Two(s) && (s == 0 ==> d == n - 1)
      decreases d
    {
      ghost var e := d / 2;
      assert d * Two(s) == e * Two(s + 1);
      d := d / 2;
      s := s + 1;
    }
  }

  /** One base: the first term, then at most s - 1 squarings. */
  method Round(n: nat, a: nat, d: nat, s: nat) returns (ok: bool)
    requires n > 1 && s > 0
    ensures ok <==> Strong(n, a, d, s)
  {
    ok := Squares(n, PowMod(a, d, n), s);
    PassesIsStrong(n, a, d, s);
  }

  method Squares(n: nat, x0: nat, s: nat) returns (ok: bool)
    requires n > 1 && s > 0
    ensures ok <==> Passes(n, x0, s)
  {
    var x, i := x0, 0;
    if x == 1 { return true; }
    if x == n - 1 {
      assert Squared(x0, i, n) == n - 1;
      return true;
    }
    while i < s - 1
      invariant 0 <= i <= s - 1
      invariant x == Squared(x0, i, n)
      invariant forall j :: 0 <= j <= i ==> Squared(x0, j, n) != n - 1
    {
      x := SquareMod(x, n);
      i := i + 1;
      if x == n - 1 {
        assert Squared(x0, i, n) == n - 1;
        return true;
      }
    }
    return false;
  }

  /** n is a strong probable prime to base a, for the odd d and the s with n - 1 == d * 2^s. */
  ghost predicate BasePasses(n: nat, a: nat)
    requires n > 3
  {
    exists d, s :: d % 2 == 1 && n - 1 == Times(d, s) && Strong(n, a, d, s)
  }

  /** The odd part of a number, and how often it is halved, are unique. */
  lemma {:induction false} TimesUnique(d: nat, s: nat, d': nat, s': nat)
    requires d % 2 == 1 && d' % 2 == 1 && Times(d, s) == Times(d', s')
    ensures d == d' && s == s'
  {
    TimesParity(d, s);
    TimesParity(d', s');
    if s > 0 && s' > 0 { TimesUnique(d, s - 1, d', s' - 1); }
  }

  lemma TimesParity(d: nat, s: nat)
    requires d % 2 == 1
    ensures if s == 0 then Times(d, s) == d else Times(d, s) == 2 * Times(d, s - 1)
  {
    if s > 0 { assert d * (2 * Two(s - 1)) == 2 * (d * Two(s - 1)); }
  }

  lemma PassesFermat(n: nat, a: nat)
    requires n > 3 && BasePasses(n, a)
    ensures PowMod(a, n - 1, n) == 1
  {
    var d, s :| d % 2 == 1 && n - 1 == Times(d, s) && Strong(n, a, d, s);
    StrongIsFermat(n, a, d, s);
  }

  /** The verdict: a small prime, or no small divisor and a strong probable prime to every drawn base. */
  ghost predicate ProbablePrime(n: int, draws: nat -> nat, rounds: nat) {
    if n < 2 then false
    else if exists i :: 0 <= i < |SMALL_PRIMES| && n % SMALL_PRIMES[i] == 0 then n in SMALL_PRIMES
    else forall i :: 0 <= i < rounds ==> n > 3 && BasePasses(n, draws(i) % (n - 3) + 2)
  }

  /** The test decides exactly that, and so never refuses a prime, whatever is drawn. */
  method IsProbablePrime(n: int, draws: nat -> nat, rounds: nat) returns (r: bool)
    ensures r <==> ProbablePrime(n, draws, rounds)
    ensures IsPrime(n) ==> r
    ensures r && (forall i :: 0 <= i < |SMALL_PRIMES| ==> n % SMALL_PRIMES[i] != 0) ==>
      forall i :: 0 <= i < rounds ==> n > 3 && PowMod(draws(i) % (n - 3) + 2, n - 1, n) == 1
  {
    if n < 2 { return false; }
    var i := 0;
    while i < |SMALL_PRIMES|
      invariant 0 <= i <= |SMALL_PRIMES|
      invariant forall j :: 0 <= j < i ==> n % SMALL_PRIMES[j] != 0
    {
      if n % SMALL_PRIMES[i] == 0 {
        r := n == SMALL_PRIMES[i];
        SmallDivisor(n, i);
        return;
      }
      i := i + 1;
    }
    NoSmallDivisor(n);
    var d, s := Decompose(n);
    i := 0;
    while i < rounds
      invariant 0 <= i <= rounds
      invariant forall j :: 0 <= j < i ==> BasePasses(n, draws(j) % (n - 3) + 2)
      invariant forall j :: 0 <= j < i ==> PowMod(draws(j) % (n - 3) + 2, n - 1, n) == 1
    {
      var a := draws(i) % (n - 3) + 2;
      r := Round(n, a, d, s);
      BasePassesWith(n, a, d, s);
      if !r {
        if IsPrime(n) { PrimePasses(n, a, d, s); }
        return;
      }
      PassesFermat(n, a);
      i := i + 1;
    }
    return true;
  }

  lemma BasePassesWith(n: nat, a: nat, d: nat, s: nat)
    requires n > 3 && d % 2 == 1 && n - 1 == d * Two(s)
    ensures BasePasses(n, a) <==> Strong(n, a, d, s)
  {
    assert n - 1 == Times(d, s);
    if BasePasses(n, a) {
      var d', s' :| d' % 2 == 1 && n - 1 == Times(d', s') && Strong(n, a, d', s');
      TimesUnique(d, s, d', s');
    }
  }

  lemma SmallDivisor(n: nat, i: nat)
    requires n >= 2 && i < |SMALL_PRIMES| && n % SMALL_PRIMES[i] == 0
    requires forall j :: 0 <= j < i ==> n % SMALL_PRIMES[j] != 0
    ensures n in SMALL_PRIMES <==> n == SMALL_PRIMES[i]
    ensures IsPrime(n) ==> n == SMALL_PRIMES[i]
  {
    SmallAtMost(i);
    if n in SMALL_PRIMES {
      var j :| 0 <= j < |SMALL_PRIMES| && SMALL_PRIMES[j] == n;
      assert n % SMALL_PRIMES[j] == 0;
      if j > i { SmallPrimesApart(j, i); }
    }
    BelowModulus(n, SMALL_PRIMES[i]);
  }

  lemma BelowModulus(n: nat, m: nat)
    requires m > 0
    ensures n < m ==> n % m == n
  {
  }

  lemma SmallAtMost(i: nat)
    requires i < |SMALL_PRIMES|
    ensures SMALL_PRIMES[i] >= 2
  {
  }

  lemma SmallPrimesApart(j: nat, i: nat)
    requires i < j < |SMALL_PRIMES|
    ensures SMALL_PRIMES[j] % SMALL_PRIMES[i] != 0
  {
  }

  lemma NoSmallDivisor(n: nat)
    requires n >= 2 && forall j :: 0 <= j < |SMALL_PRIMES| ==> n % SMALL_PRIMES[j] != 0
    ensures n > 3 && n % 2 == 1
  {
    assert SMALL_PRIMES[0] == 2 && SMALL_PRIMES[1] == 3;
  }

  // ---- The server's parameters ----

  const DH_BITS := 2048

  /** The published condition on p for each of the six generators; 4 has none. */
  predicate GeneratorOk(g: int, p: int) {
    || g == 4
    || (g == 2 && p % 8 == 7)
    || (g == 3 && p % 3 == 2)
    || (g == 5 && p % 5 in {1, 4})
    || (g == 6 && p % 24 in {19, 23})
    || (g == 7 && p % 7 in {3, 5, 6})
  }

  predicate SafePrime(p: int) {
    p > 0 && IsPrime(p) && IsPrime((p - 1) / 2)
  }

  /** The checks in their order. Parameters the protocol allows are never refused, whatever bases are drawn, and
      accepted ones are in range, have the published condition, and passed both primality tests. */
  method CheckConfig(g: int, p: int, draws: nat -> nat, halfDraws: nat -> nat) returns (r: Result<()>)
    ensures r.Ok? <==>
      && Two(DH_BITS - 1) < p < Two(DH_BITS) && 1 < g < p - 1 && GeneratorOk(g, p)
      && ProbablePrime(p, draws, MILLER_RABIN_ROUNDS) && ProbablePrime((p - 1) / 2, halfDraws, MILLER_RABIN_ROUNDS)
    ensures Two(DH_BITS - 1) < p < Two(DH_BITS) && 1 < g < p - 1 && GeneratorOk(g, p) && SafePrime(p) ==> r.Ok?
  {
    if !(Two(DH_BITS - 1) < p < Two(DH_BITS)) { return Err("size"); }
    if !(1 < g < p - 1) { return Err("generator range"); }
    if !GeneratorOk(g, p) { return Err("generator residue"); }
    var prime := IsProbablePrime(p, draws, MILLER_RABIN_ROUNDS);
    if !prime { return Err("prime"); }
    prime := IsProbablePrime((p - 1) / 2, halfDraws, MILLER_RABIN_ROUNDS);
    if !prime { return Err("prime"); }
    return Ok(());
  }
}
