/** Bytes, and whole numbers as little-endian bytes. */
module Octets {
  import opened Prelude

  type Byte = n: nat | n < 256
  type Bytes = seq<Byte>

  function Little(n: nat, width: nat): (r: Bytes)
    ensures |r| == width
  {
    if width == 0 then [] else [n % 256] + Little(n / 256, width - 1)
  }

  function FromLittle(b: Bytes): nat {
    if b == [] then 0 else b[0] + 256 * FromLittle(b[1..])
  }

  function Limit(width: nat): nat {
    if width == 0 then 1 else 256 * Limit(width - 1)
  }

  lemma {:induction false} LittleRoundTrip(n: nat, width: nat)
    requires n < Limit(width)
    ensures FromLittle(Little(n, width)) == n
  {
    if width == 0 {
    } else {
      LittleRoundTrip(n / 256, width - 1);
      assert Little(n, width)[1..] == Little(n / 256, width - 1);
    }
  }

  lemma {:induction false} FromLittleBelow(b: Bytes)
    ensures FromLittle(b) < Limit(|b|)
  {
    if b == [] {
    } else {
      FromLittleBelow(b[1..]);
    }
  }

  lemma {:induction false} LittleBack(b: Bytes)
    ensures Little(FromLittle(b), |b|) == b
  {
    if b == [] {
    } else {
      assert FromLittle(b) % 256 == b[0] && FromLittle(b) / 256 == FromLittle(b[1..]);
      LittleBack(b[1..]);
    }
  }

  /** What four bytes are worth, the first one least. */
  function Worth(b: Bytes): int
    requires |b| == 4
  {
    b[0] as int + 0x100 * b[1] as int + 0x1_0000 * b[2] as int + 0x100_0000 * b[3] as int
  }

  lemma WorthIsLittle(b: Bytes)
    requires |b| == 4
    ensures Worth(b) == FromLittle(b)
  {
    assert FromLittle(b[4..]) == 0 && b[1..][1..] == b[2..] && b[2..][1..] == b[3..] && b[3..][1..] == b[4..];
    assert FromLittle(b[3..]) == b[3] + 256 * FromLittle(b[4..]);
    assert FromLittle(b[2..]) == b[2] + 256 * FromLittle(b[3..]);
    assert FromLittle(b[1..]) == b[1] + 256 * FromLittle(b[2..]);
  }

  lemma LittleThree(n: nat)
    requires n < 0x100_0000
    ensures var b := Little(n, 3); b[0] as int + 0x100 * b[1] as int + 0x1_0000 * b[2] as int == n
  {
    var m := n / 256;
    assert Little(n, 3) == [n % 256] + Little(m, 2);
    assert Little(m, 2) == [m % 256] + Little(m / 256, 1);
    assert Little(m / 256, 1) == [m / 256 % 256] + Little(m / 256 / 256, 0);
  }

  lemma LittleFour(n: nat)
    requires n < 0x1_0000_0000
    ensures Worth(Little(n, 4)) == n
  {
    LittleThree(n / 256);
    assert Little(n, 4) == [n % 256] + Little(n / 256, 3);
  }

  lemma LittleEight(n: nat)
    requires n < 0x1_0000_0000_0000_0000
    ensures Worth(Little(n, 8)[..4]) + 0x1_0000_0000 * Worth(Little(n, 8)[4..]) == n
  {
    var m1, m2, m3, m4 := n / 256, n / 256 / 256, n / 256 / 256 / 256, n / 256 / 256 / 256 / 256;
    assert Little(n, 8) == [n % 256] + Little(m1, 7);
    assert Little(m1, 7) == [m1 % 256] + Little(m2, 6);
    assert Little(m2, 6) == [m2 % 256] + Little(m3, 5);
    assert Little(m3, 5) == [m3 % 256] + Little(m4, 4);
    assert Little(n, 8)[4..] == Little(m4, 4);
    LittleFour(m4);
  }

  lemma Limits()
    ensures Limit(1) == 0x100 && Limit(3) == 0x100_0000
    ensures Limit(4) == 0x1_0000_0000 && Limit(8) == 0x1_0000_0000_0000_0000
  {
    assert Limit(2) == 0x1_0000;
    assert Limit(4) == 256 * Limit(3);
    assert Limit(6) == 256 * Limit(5) == 0x1_0000_0000_0000;
  }

  // ---- Reading from the front ----

  datatype Parsed<+T> = Parsed(value: T, rest: Bytes)

  function ReadBytes(b: Bytes, n: nat): Result<Parsed<Bytes>> {
    if |b| < n then Err("short") else Ok(Parsed(b[..n], b[n..]))
  }

  function ReadWord(b: Bytes, width: nat): Result<Parsed<nat>> {
    var raw :- ReadBytes(b, width);
    Ok(Parsed(FromLittle(raw.value), raw.rest))
  }

  lemma TakeFront(a: Bytes, b: Bytes)
    ensures (a + b)[..|a|] == a && (a + b)[|a|..] == b
  {
  }

  lemma WordRoundTrip(n: nat, width: nat, suffix: Bytes)
    requires n < Limit(width)
    ensures ReadWord(Little(n, width) + suffix, width) == Ok(Parsed(n, suffix))
  {
    TakeFront(Little(n, width), suffix);
    LittleRoundTrip(n, width);
  }

  lemma Nested(a: Bytes, b: Bytes, c: Bytes)
    ensures (a + b) + c == a + (b + c)
  {
  }
}
