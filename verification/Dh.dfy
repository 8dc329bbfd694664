/** Diffie-Hellman values: the range checks, the shared key, and why both ends derive the same one. */
module Dh {
  import opened Prelude
  import opened Framing

  /** The chat's parameters; `floor` is the 2^1984 margin that public values must keep from both ends. */
  datatype Group = Group(p: nat, g: nat, floor: nat) {
    predicate Valid() { p > 1 }
  }

  function Pow(b: int, e: nat): int {
    if e == 0 then 1 else b * Pow(b, e - 1)
  }

  function PowMod(b: int, e: nat, p: int): (r: int)
    requires p > 0
    ensures 0 <= r < p
  {
    Pow(b, e) % p
  }

  predicate PeerValueOk(value: int, grp: Group) {
    1 < value < grp.p - 1 && grp.floor <= value <= grp.p - grp.floor
  }

  function SharedKey(peer: int, secret: nat, grp: Group): Result<Key>
    requires grp.Valid()
  {
    if !PeerValueOk(peer, grp) then Err("public value out of range") else Ok(PowMod(peer, secret, grp.p))
  }

  lemma ModMul(a: int, b: int, p: int)
    requires p > 0
    ensures (a * b) % p == ((a % p) * b) % p
  {
    var q := a / p;
    assert a == q * p + a % p;
    assert a * b == (a % p) * b + (q * b) * p by {
      assert (q * p) * b == (q * b) * p;
    }
    ModShift((a % p) * b, q * b, p);
  }

  lemma ModShift(x: int, k: int, p: int)
    requires p > 0
    ensures (x + k * p) % p == x % p
  {
    var q, r := x / p, x % p;
    assert x + k * p == (q + k) * p + r;
    DivModUnique(x + k * p, q + k, r, p);
  }

  lemma DivModUnique(x: int, q: int, r: int, p: int)
    requires p > 0 && 0 <= r < p && x == q * p + r
    ensures x % p == r && x / p == q
  {
    var q', r' := x / p, x % p;
    assert x == q' * p + r';
    assert (q - q') * p == r' - r;
    if q > q' { MulAtLeast(q - q', p); } else if q < q' { MulAtLeast(q' - q, p); }
  }

  lemma MulAtLeast(k: int, p: int)
    requires k >= 1 && p > 0
    ensures k * p >= p
  {
  }

  /** Reducing the base first does not change a power. */
  lemma {:induction false} PowModBase(b: int, e: nat, p: int)
    requires p > 0
    ensures PowMod(b % p, e, p) == PowMod(b, e, p)
  {
    if e == 0 {
    } else {
      PowModBase(b, e - 1, p);
      var r, s := Pow(b % p, e - 1), Pow(b, e - 1);
      ModMul(b, s, p);
      ModMul(s, b % p, p);
      ModMul(r, b % p, p);
      assert (b % p) * s == s * (b % p) && (b % p) * r == r * (b % p);
    }
  }

  lemma {:induction false} PowAdd(b: int, m: nat, n: nat)
    ensures Pow(b, m + n) == Pow(b, m) * Pow(b, n)
  {
    if m == 0 {
    } else {
      PowAdd(b, m - 1, n);
      assert b * (Pow(b, m - 1) * Pow(b, n)) == (b * Pow(b, m - 1)) * Pow(b, n);
    }
  }

  lemma {:induction false} PowPow(b: int, m: nat, n: nat)
    ensures m * n >= 0 && Pow(Pow(b, m), n) == Pow(b, m * n)
  {
    if n == 0 {
      assert m * n == 0;
    } else {
      PowPow(b, m, n - 1);
      assert m * n == m + m * (n - 1);
      PowAdd(b, m, m * (n - 1));
    }
  }

  /** (g^a)^b = (g^b)^a mod p: the two ends of an exchange derive one key. */
  lemma Agreement(g: int, a: nat, b: nat, p: int)
    requires p > 0
    ensures PowMod(PowMod(g, a, p), b, p) == PowMod(PowMod(g, b, p), a, p)
  {
    PowModBase(Pow(g, a), b, p);
    PowModBase(Pow(g, b), a, p);
    PowPow(g, a, b);
    PowPow(g, b, a);
    assert a * b == b * a;
  }
}
