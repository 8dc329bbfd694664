/** File encryption: the chained block mode over a whole buffer, and the streams that produce it in pieces. */
module Ige {
  import opened Prelude
  import opened Octets

  type Block = b: Bytes | |b| == 16 witness seq(16, i => 0)
  type Iv = b: Bytes | |b| == 32 witness seq(32, i => 0)

  const CHUNK := 65536

  /** A keyed block cipher and its inverse. */
  datatype Cipher = Cipher(enc: Block -> Block, dec: Block -> Block)

  ghost predicate Invertible(c: Cipher) {
    forall b: Block :: c.dec(c.enc(b)) == b
  }

  /** Both directions: the cipher permutes the blocks. */
  ghost predicate Permutes(c: Cipher) {
    Invertible(c) && forall b: Block :: c.enc(c.dec(b)) == b
  }

  /** Exclusive or of the low `bits` bits. */
  function XorBits(a: nat, b: nat, bits: nat): nat {
    if bits == 0 then 0 else (a + b) % 2 + 2 * XorBits(a / 2, b / 2, bits - 1)
  }

  lemma {:induction false} XorBitsBelow(a: nat, b: nat, bits: nat)
    ensures XorBits(a, b, bits) < Two(bits)
  {
    if bits == 0 {
    } else {
      XorBitsBelow(a / 2, b / 2, bits - 1);
    }
  }

  lemma {:induction false} XorBitsTwice(a: nat, b: nat, bits: nat)
    requires a < Two(bits)
    ensures XorBits(XorBits(a, b, bits), b, bits) == a
  {
    if bits == 0 {
    } else {
      var low, high := (a + b) % 2, XorBits(a / 2, b / 2, bits - 1);
      LowBit(a, b, low, high);
      XorBitsTwice(a / 2, b / 2, bits - 1);
    }
  }

  lemma LowBit(a: nat, b: nat, low: nat, high: nat)
    requires low == (a + b) % 2
    ensures (low + 2 * high) / 2 == high && (low + 2 * high + b) % 2 == a % 2
  {
  }

  lemma EightBits()
    ensures Two(8) == 256
  {
    assert Two(4) == 16;
  }

  function XorByte(a: Byte, b: Byte): Byte {
    EightBits();
    XorBitsBelow(a, b, 8);
    XorBits(a, b, 8)
  }

  function Xor(a: Block, b: Block): Block {
    seq(16, i requires 0 <= i < 16 => XorByte(a[i], b[i]))
  }

  function Bit(x: nat, k: nat): nat { if k == 0 then x % 2 else Bit(x / 2, k - 1) }

  lemma {:induction false} XorBitsAt(a: nat, b: nat, bits: nat, k: nat)
    requires k < bits
    ensures Bit(XorBits(a, b, bits), k) == (Bit(a, k) + Bit(b, k)) % 2
    decreases bits
  {
    var low, high := (a + b) % 2, XorBits(a / 2, b / 2, bits - 1);
    LowBit(a, b, low, high);
    assert (low + 2 * high) % 2 == low;
    if k > 0 { XorBitsAt(a / 2, b / 2, bits - 1, k - 1); }
  }

  /** Bit by bit, the exclusive or of two blocks is set exactly where one of them is set and the other is not. */
  lemma XorDecides(a: Block, b: Block, i: nat, k: nat)
    requires i < 16 && k < 8
    ensures Bit(Xor(a, b)[i], k) == 1 <==> Bit(a[i], k) != Bit(b[i], k)
  {
    XorBitsAt(a[i], b[i], 8, k);
    BitIsBit(a[i], k);
    BitIsBit(b[i], k);
  }

  lemma {:induction false} BitIsBit(x: nat, k: nat)
    ensures Bit(x, k) == 0 || Bit(x, k) == 1
    decreases k
  {
    if k > 0 { BitIsBit(x / 2, k - 1); }
  }

  lemma XorTwice(a: Block, b: Block)
    ensures Xor(Xor(a, b), b) == a
  {
    forall i | 0 <= i < 16 ensures Xor(Xor(a, b), b)[i] == a[i] {
      EightBits();
      XorBitsTwice(a[i], b[i], 8);
    }
  }

  // ---- One call over a whole buffer ----

  /** One block: what it becomes, given the last ciphertext block and the last plaintext block. */
  datatype Mode = Mode(step: (Block, Iv) -> Block, decrypting: bool)

  function Encrypting(c: Cipher): Mode {
    Mode((block: Block, iv: Iv) => Xor(c.enc(Xor(block, iv[..16])), iv[16..]), false)
  }

  function Decrypting(c: Cipher): Mode {
    Mode((block: Block, iv: Iv) => Xor(c.dec(Xor(block, iv[16..])), iv[..16]), true)
  }

  /** The chaining value: last ciphertext, then last plaintext. */
  function Link(m: Mode, taken: Block, made: Block): Iv {
    if m.decrypting then taken + made else made + taken
  }

  /** The whole blocks of a buffer, each chained to the one before it. */
  function Chain(m: Mode, text: Bytes, iv: Iv): (r: Bytes)
    ensures |r| == |text| - |text| % 16
    decreases |text|
  {
    if |text| < 16 then []
    else
      var made := m.step(text[..16], iv);
      made + Chain(m, text[16..], Link(m, text[..16], made))
  }

  lemma ChainCons(m: Mode, head: Block, tail: Bytes, iv: Iv)
    ensures var made := m.step(head, iv);
      Chain(m, head + tail, iv) == made + Chain(m, tail, Link(m, head, made))
  {
    assert (head + tail)[..16] == head && (head + tail)[16..] == tail;
  }

  lemma StepInverts(c: Cipher, block: Block, iv: Iv)
    requires Invertible(c)
    ensures Decrypting(c).step(Encrypting(c).step(block, iv), iv) == block
  {
    var inner := Xor(block, iv[..16]);
    XorTwice(c.enc(inner), iv[16..]);
    XorTwice(block, iv[..16]);
  }

  /** Decryption undoes encryption, for every buffer of whole blocks. */
  lemma {:induction false} RoundTrip(c: Cipher, plain: Bytes, iv: Iv)
    requires Invertible(c) && |plain| % 16 == 0
    ensures Chain(Decrypting(c), Chain(Encrypting(c), plain, iv), iv) == plain
    decreases |plain|
  {
    if |plain| >= 16 {
      var head, tail := plain[..16], plain[16..];
      assert plain == head + tail;
      var made := Encrypting(c).step(head, iv);
      ChainCons(Encrypting(c), head, tail, iv);
      ChainCons(Decrypting(c), made, Chain(Encrypting(c), tail, made + head), iv);
      StepInverts(c, head, iv);
      RoundTrip(c, tail, made + head);
    }
  }

  lemma StepInvertsBack(c: Cipher, block: Block, iv: Iv)
    requires Permutes(c)
    ensures Encrypting(c).step(Decrypting(c).step(block, iv), iv) == block
  {
    var inner := Xor(block, iv[16..]);
    XorTwice(c.dec(inner), iv[..16]);
    XorTwice(block, iv[16..]);
  }

  /** And encryption undoes decryption: every ciphertext of whole blocks is that of one plaintext. */
  lemma {:induction false} RoundTripBack(c: Cipher, text: Bytes, iv: Iv)
    requires Permutes(c) && |text| % 16 == 0
    ensures Chain(Encrypting(c), Chain(Decrypting(c), text, iv), iv) == text
    decreases |text|
  {
    if |text| >= 16 {
      var head, tail := text[..16], text[16..];
      assert text == head + tail;
      var made := Decrypting(c).step(head, iv);
      ChainCons(Decrypting(c), head, tail, iv);
      ChainCons(Encrypting(c), made, Chain(Decrypting(c), tail, head + made), iv);
      StepInvertsBack(c, head, iv);
      RoundTripBack(c, tail, head + made);
    }
  }

  // ---- Block by block ----

  /** How much of n bytes is whole blocks. */
  function Whole(n: nat): (whole: nat)
    ensures whole <= n < whole + 16 && whole % 16 == 0
  {
    n - n % 16
  }

  function Nth(s: Bytes, i: nat): Block
    requires 16 * i + 16 <= |s|
  {
    s[16 * i..16 * i + 16]
  }

  /** The block before block i, or the first half or second half of the iv before block 0. */
  function Before(s: Bytes, i: nat, first: Block): Block
    requires 16 * i <= |s|
  {
    if i == 0 then first else Nth(s, i - 1)
  }

  /** `text` holds the ciphertext of the first blocks of `plain`: each block is chained to the ciphertext block before
      it on the way in and to the plaintext block before it on the way out. */
  ghost predicate Sealed(c: Cipher, iv: Iv, plain: Bytes, text: Bytes) {
    |text| <= |plain| && forall i: nat :: 16 * i + 16 <= |text| ==>
      Nth(text, i) == Xor(c.enc(Xor(Nth(plain, i), Before(text, i, iv[..16]))), Before(plain, i, iv[16..]))
  }

  /** `plain` holds what the first blocks of `text` decrypt to. */
  ghost predicate Opened(c: Cipher, iv: Iv, text: Bytes, plain: Bytes) {
    |plain| <= |text| && forall i: nat :: 16 * i + 16 <= |plain| ==>
      Nth(plain, i) == Xor(c.dec(Xor(Nth(text, i), Before(plain, i, iv[16..]))), Before(text, i, iv[..16]))
  }

  /** Where the chain stands before block i. */
  function LinkAt(m: Mode, iv: Iv, taken: Bytes, made: Bytes, i: nat): Iv
    requires 16 * i <= |made| && 16 * i <= |taken|
  {
    if i == 0 then iv else Link(m, Nth(taken, i - 1), Nth(made, i - 1))
  }

  predicate StepAt(m: Mode, iv: Iv, taken: Bytes, made: Bytes, i: nat)
    requires 16 * i + 16 <= |made| <= |taken|
  {
    Nth(made, i) == m.step(Nth(taken, i), LinkAt(m, iv, taken, made, i))
  }

  /** Each block of `made` is one step from that of `taken`, chained to the blocks before. */
  ghost predicate Stepped(m: Mode, iv: Iv, taken: Bytes, made: Bytes) {
    |made| <= |taken| && forall i: nat :: 16 * i + 16 <= |made| ==> StepAt(m, iv, taken, made, i)
  }

  lemma NthTail(s: Bytes, i: nat)
    requires 16 * i + 32 <= |s|
    ensures Nth(s[16..], i) == Nth(s, i + 1)
  {
  }

  lemma StepTail(m: Mode, iv: Iv, taken: Bytes, made: Bytes, i: nat)
    requires 16 * i + 32 <= |made| <= |taken|
    ensures StepAt(m, Link(m, taken[..16], made[..16]), taken[16..], made[16..], i)
       <==> StepAt(m, iv, taken, made, i + 1)
  {
    NthTail(made, i);
    NthTail(taken, i);
    if i == 0 {
      assert Nth(taken, 0) == taken[..16] && Nth(made, 0) == made[..16];
    } else {
      NthTail(made, i - 1);
      NthTail(taken, i - 1);
    }
  }

  lemma SteppedTail(m: Mode, iv: Iv, taken: Bytes, made: Bytes)
    requires 16 <= |made| <= |taken|
    ensures Stepped(m, iv, taken, made) <==>
      && made[..16] == m.step(taken[..16], iv)
      && Stepped(m, Link(m, taken[..16], made[..16]), taken[16..], made[16..])
  {
    var taken', made', iv' := taken[16..], made[16..], Link(m, taken[..16], made[..16]);
    assert StepAt(m, iv, taken, made, 0) <==> made[..16] == m.step(taken[..16], iv) by {
      assert Nth(taken, 0) == taken[..16] && Nth(made, 0) == made[..16];
    }
    if Stepped(m, iv, taken, made) {
      forall i: nat | 16 * i + 16 <= |made'| ensures StepAt(m, iv', taken', made', i) {
        assert StepAt(m, iv, taken, made, i + 1);
        StepTail(m, iv, taken, made, i);
      }
    }
    if StepAt(m, iv, taken, made, 0) && Stepped(m, iv', taken', made') {
      forall i: nat | 16 * i + 16 <= |made| ensures StepAt(m, iv, taken, made, i) {
        if i > 0 {
          assert StepAt(m, iv', taken', made', i - 1);
          StepTail(m, iv, taken, made, i - 1);
        }
      }
    }
  }

  /** One call makes exactly the blocks that are each one step on. */
  lemma {:induction false} ChainSteps(m: Mode, iv: Iv, taken: Bytes, made: Bytes)
    requires |made| == Whole(|taken|)
    ensures Stepped(m, iv, taken, made) <==> made == Chain(m, taken, iv)
    decreases |taken|
  {
    if |taken| >= 16 {
      SteppedTail(m, iv, taken, made);
      ChainSteps(m, Link(m, taken[..16], made[..16]), taken[16..], made[16..]);
      assert made == made[..16] + made[16..];
      var first := m.step(taken[..16], iv);
      if made == Chain(m, taken, iv) { assert made[..16] == first && made[16..] == Chain(m, taken, iv)[16..]; }
    }
  }

  /** So a whole buffer is encrypted, or decrypted, exactly if the block equations hold. */
  lemma SealedIsChain(c: Cipher, iv: Iv, plain: Bytes, text: Bytes)
    requires |text| == Whole(|plain|)
    ensures Sealed(c, iv, plain, text) <==> text == Chain(Encrypting(c), plain, iv)
  {
    ChainSteps(Encrypting(c), iv, plain, text);
    SealedIsStepped(c, iv, plain, text);
  }

  lemma SealedIsStepped(c: Cipher, iv: Iv, plain: Bytes, text: Bytes)
    requires |text| <= |plain|
    ensures Sealed(c, iv, plain, text) <==> Stepped(Encrypting(c), iv, plain, text)
  {
    forall i: nat | 16 * i + 16 <= |text|
      ensures StepAt(Encrypting(c), iv, plain, text, i) <==>
        Nth(text, i) == Xor(c.enc(Xor(Nth(plain, i), Before(text, i, iv[..16]))), Before(plain, i, iv[16..]))
    {
      LinkHalves(Encrypting(c), iv, plain, text, i);
    }
  }

  lemma LinkHalves(m: Mode, iv: Iv, taken: Bytes, made: Bytes, i: nat)
    requires 16 * i <= |made| && 16 * i <= |taken|
    ensures var (ciphered, plain) := if m.decrypting then (taken, made) else (made, taken);
      && LinkAt(m, iv, taken, made, i)[..16] == Before(ciphered, i, iv[..16])
      && LinkAt(m, iv, taken, made, i)[16..] == Before(plain, i, iv[16..])
  {
  }

  lemma OpenedIsChain(c: Cipher, iv: Iv, text: Bytes, plain: Bytes)
    requires |plain| == Whole(|text|)
    ensures Opened(c, iv, text, plain) <==> plain == Chain(Decrypting(c), text, iv)
  {
    ChainSteps(Decrypting(c), iv, text, plain);
    OpenedIsStepped(c, iv, text, plain);
  }

  lemma OpenedIsStepped(c: Cipher, iv: Iv, text: Bytes, plain: Bytes)
    requires |plain| <= |text|
    ensures Opened(c, iv, text, plain) <==> Stepped(Decrypting(c), iv, text, plain)
  {
    forall i: nat | 16 * i + 16 <= |plain|
      ensures StepAt(Decrypting(c), iv, text, plain, i) <==>
        Nth(plain, i) == Xor(c.dec(Xor(Nth(text, i), Before(plain, i, iv[16..]))), Before(text, i, iv[..16]))
    {
      LinkHalves(Decrypting(c), iv, text, plain, i);
    }
  }

  /** The equations hold of any part from the start. */
  lemma SealedPart(c: Cipher, iv: Iv, plain: Bytes, text: Bytes, part: Bytes)
    requires Sealed(c, iv, plain, text) && part <= text
    ensures Sealed(c, iv, plain, part)
  {
    forall i: nat | 16 * i + 16 <= |part|
      ensures Nth(part, i) == Nth(text, i) && Before(part, i, iv[..16]) == Before(text, i, iv[..16])
    {
    }
  }

  // ---- Carried across pieces ----

  /** Where the chain stands after a piece. */
  function Carried(m: Mode, iv: Iv, taken: Bytes, made: Bytes): Iv
    requires |taken| == |made| && (|taken| == 0 || |taken| >= 16)
  {
    if taken == [] then iv else Link(m, taken[|taken| - 16..], made[|made| - 16..])
  }

  lemma CarriedOn(m: Mode, iv: Iv, head: Block, made: Block, tail: Bytes, rest: Bytes)
    requires |tail| == |rest| && |tail| % 16 == 0
    ensures Carried(m, iv, head + tail, made + rest) == Carried(m, Link(m, head, made), tail, rest)
  {
    if tail == [] {
      assert head + tail == head && made + rest == made;
    } else {
      assert (head + tail)[|head + tail| - 16..] == tail[|tail| - 16..];
      assert (made + rest)[|made + rest| - 16..] == rest[|rest| - 16..];
    }
  }

  lemma Regroup(a: Bytes, b: Bytes, x: Bytes, y: Bytes, z: Bytes)
    requires |a| >= 16
    ensures a == a[..16] + a[16..] && a + b == a[..16] + (a[16..] + b) && x + (y + z) == (x + y) + z
  {
  }

  /** Two pieces, the second from where the first left the chain, are one call over both. */
  lemma {:induction false} ChainSplits(m: Mode, a: Bytes, b: Bytes, iv: Iv)
    requires |a| % 16 == 0
    ensures Chain(m, a + b, iv) == Chain(m, a, iv) + Chain(m, b, Carried(m, iv, a, Chain(m, a, iv)))
    decreases |a|
  {
    if a == [] {
      assert a + b == b;
    } else {
      var head, tail := a[..16], a[16..];
      var made := m.step(head, iv);
      var next := Link(m, head, made);
      var y := Chain(m, tail, next);
      Regroup(a, b, made, y, Chain(m, b, Carried(m, next, tail, y)));
      ChainCons(m, head, tail, iv);
      ChainCons(m, head, tail + b, iv);
      CarriedOn(m, iv, head, made, tail, y);
      ChainSplits(m, tail, b, next);
    }
  }

  lemma AlignedRest(n: int, whole: int)
    requires n % 16 == 0 && whole % 16 == 0
    ensures (n - whole) % 16 == 0
  {
  }

  lemma Cut(plain: Bytes, whole: nat, later: Bytes)
    requires whole <= |plain|
    ensures plain + later == plain[..whole] + (plain[whole..] + later)
  {
  }

  /** Processing the whole blocks at hand first changes nothing about the result. */
  lemma FlushStep(m: Mode, iv: Iv, ready: Bytes, plain: Bytes, whole: nat, later: Bytes)
    requires whole <= |plain| && whole % 16 == 0
    ensures var piece := Chain(m, plain[..whole], iv);
      ready + Chain(m, plain + later, iv) ==
      (ready + piece) + Chain(m, plain[whole..] + later, Carried(m, iv, plain[..whole], piece))
  {
    Cut(plain, whole, later);
    ChainSplits(m, plain[..whole], plain[whole..] + later, iv);
  }

  class Stream {
    const mode: Mode
    var iv: Iv

    constructor (mode: Mode, iv: Iv)
      ensures this.mode == mode && this.iv == iv
    {
      this.mode, this.iv := mode, iv;
    }

    /** One piece; the chaining value moves to its last blocks. */
    method Process(text: Bytes) returns (r: Bytes)
      requires |text| >= 16 && |text| % 16 == 0
      modifies this
      ensures r == Chain(mode, text, old(iv)) && iv == Carried(mode, old(iv), text, r)
    {
      r := Chain(mode, text, iv);
      iv := Link(mode, text[|text| - 16..], r[|r| - 16..]);
    }
  }

  // ---- Encrypting while reading ----

  /** A file: a read returns at least one byte until the end, and any number up to what was asked. */
  class Source {
    var rest: Bytes

    constructor (content: Bytes)
      ensures rest == content
    {
      rest := content;
    }

    method Read(most: nat) returns (piece: Bytes)
      requires most > 0
      modifies this
      ensures piece + rest == old(rest) && |piece| <= most
      ensures piece == [] <==> old(rest) == []
    {
      var n: nat :| n <= most && n <= |rest| && (n == 0 <==> rest == []);
      piece := rest[..n];
      rest := rest[n..];
    }
  }

  /** What a file that still holds `rest` adds to the plaintext, `left` bytes before the declared end. */
  function Later(rest: Bytes, left: nat, pad: Bytes): Bytes {
    if left <= |rest| then rest[..left] + pad else rest
  }

  lemma LaterStep(plain: Bytes, rest: Bytes, piece: Bytes, rest': Bytes, left: nat, pad: Bytes)
    requires piece + rest' == rest && |piece| <= left
    ensures var left' := left - |piece|;
      plain + Later(rest, left, pad) ==
      if left' == 0 then (plain + (piece + pad)) + Later(rest', 0, []) else (plain + piece) + Later(rest', left', pad)
  {
    assert rest[..|piece|] == piece && rest[|piece|..] == rest';
    if left <= |rest| {
      assert rest[..left] == piece + rest'[..left - |piece|];
    }
  }

  class EncryptingReader {
    const source: Source
    const stream: Stream
    const size: nat
    var left: nat
    var pad: Option<Bytes>
    var plain: Bytes
    var ready: Bytes

    predicate Valid()
      reads this
    {
      && |plain| < 16 && (pad.None? ==> left == 0)
      && (|plain| + left + |pad.GetOr([])|) % 16 == 0
    }

    constructor (source: Source, cipher: Cipher, iv: Iv, size: nat, padding: Bytes)
      requires (size + |padding|) % 16 == 0 && |padding| < 16
      ensures Valid() && this.source == source && fresh(stream)
      ensures this.size == size + |padding| && Complete() == (size <= |source.rest|)
      ensures Complete() ==> Coming() == Chain(Encrypting(cipher), source.rest[..size] + padding, iv)
      ensures Complete() ==> |Coming()| == this.size && Sealed(cipher, iv, source.rest[..size] + padding, Coming())
    {
      this.source, left, pad := source, size, Some(padding);
      stream := new Stream(Encrypting(cipher), iv);
      plain, ready := [], [];
      this.size := size + |padding|;
      new;
      if size <= |source.rest| {
        assert Unread() == source.rest[..size] + padding;
        assert [] + Chain(Encrypting(cipher), Unread(), iv) == Chain(Encrypting(cipher), Unread(), iv);
        SealedIsChain(cipher, iv, source.rest[..size] + padding, Coming());
      }
    }

    /** The file still holds everything its declared size promises. */
    predicate Complete()
      reads this`left, source
    {
      left <= |source.rest|
    }

    /** The plaintext still to be encrypted. */
    function Unread(): Bytes
      reads this`plain, this`left, this`pad, source
    {
      plain + Later(source.rest, left, pad.GetOr([]))
    }

    /** Everything the reader will still hand out. */
    function Coming(): Bytes
      reads this, source, stream
    {
      ready + Chain(stream.mode, Unread(), stream.iv)
    }

    /** Encrypt the whole blocks at hand, whatever plaintext is still to follow. */
    method Flush(ghost later: Bytes)
      modifies this`plain, this`ready, stream
      ensures |plain| == |old(plain)| - Whole(|old(plain)|)
      ensures ready + Chain(stream.mode, plain + later, stream.iv) ==
        old(ready) + Chain(stream.mode, old(plain) + later, old(stream.iv))
    {
      var whole := Whole(|plain|);
      if whole > 0 {
        FlushStep(stream.mode, stream.iv, ready, plain, whole, later);
        var piece := stream.Process(plain[..whole]);
        ready := ready + piece;
        plain := plain[whole..];
      }
    }

    /** Read one piece; at the declared end the padding follows. `ok` is false when the file ended early. */
    method Take() returns (ok: bool)
      requires Valid() && (left > 0 || pad.Some?)
      modifies this`left, this`pad, this`plain, source
      ensures Complete() == old(Complete()) && Unread() == old(Unread())
      ensures pad.None? ==> left == 0
      ensures (|plain| + left + |pad.GetOr([])|) % 16 == 0
      ensures ok <==> old(left) == 0 || old(source.rest) != []
      ensures ok ==> left < old(left) || (left == old(left) && old(pad).Some? && pad.None?)
      ensures !ok ==> source.rest == [] && unchanged(this)
    {
      var piece := [];
      if left > 0 {
        piece := source.Read(Min(CHUNK, left));
        if piece == [] { return false; }
      }
      LaterStep(plain, old(source.rest), piece, source.rest, left, pad.GetOr([]));
      left := left - |piece|;
      if left == 0 {
        piece := piece + pad.GetOr([]);
        pad := None;
      }
      plain := plain + piece;
      ok := true;
    }

    method Fill() returns (ok: bool)
      requires Valid() && (left > 0 || pad.Some?)
      modifies this`left, this`pad, this`plain, this`ready, source, stream
      ensures Complete() == old(Complete()) && Coming() == old(Coming())
      ensures ok ==> Valid() && (left < old(left) || (left == old(left) && old(pad).Some? && pad.None?))
      ensures ok <==> old(left) == 0 || old(source.rest) != []
      ensures !ok ==> source.rest == [] && unchanged(this, stream)
    {
      ok := Take();
      if ok {
        AlignedRest(|plain| + left + |pad.GetOr([])|, Whole(|plain|));
        Flush(Later(source.rest, left, pad.GetOr([])));
      }
    }

    /** The next bytes of the ciphertext, as many as asked for while there are any, whatever the file's own reads
        return. It fails exactly when the file ends before its declared size and what it held is not enough. */
    method Read(asked: int) returns (ok: bool, out: Bytes)
      requires Valid()
      modifies this`left, this`pad, this`plain, this`ready, source, stream
      ensures Complete() == old(Complete())
      ensures ok ==> Valid() && out + Coming() == old(Coming())
      ensures var count := if asked < 0 then size else asked;
        && (ok <==> old(Complete()) || |old(Coming())| >= count)
        && (ok ==> |out| == Min(count, |old(Coming())|))
    {
      var count := if asked < 0 then size else asked;
      while |ready| < count && (left > 0 || pad.Some?)
        invariant Valid() && Coming() == old(Coming()) && Complete() == old(Complete())
        decreases left, pad.Some?
      {
        ok := Fill();
        if !ok {
          return false, [];
        }
      }
      var n := Min(count, |ready|);
      ok, out := true, ready[..n];
      ghost var before := ready;
      ready := ready[n..];
      assert before == out + ready;
    }
  }

  function Concat(pieces: seq<Bytes>): Bytes {
    if pieces == [] then [] else Concat(pieces[..|pieces| - 1]) + pieces[|pieces| - 1]
  }

  lemma ConcatNext(pieces: seq<Bytes>, i: nat)
    requires i < |pieces|
    ensures Concat(pieces[..i + 1]) == Concat(pieces[..i]) + pieces[i]
  {
    assert pieces[..i + 1][..i] == pieces[..i];
  }

  lemma ConcatSnoc(outs: seq<Bytes>, out: Bytes, coming: Bytes)
    ensures Concat(outs + [out]) + coming == Concat(outs) + (out + coming)
  {
    assert (outs + [out])[..|outs|] == outs;
  }

  /** Any sequence of read sizes: what was handed out, followed by what is still coming, is what was coming, so that the
      blocks handed out satisfy the same equations. */
  method ReadPieces(
      reader: EncryptingReader, asked: seq<int>, ghost cipher: Cipher, ghost iv: Iv, ghost plain: Bytes)
    returns (ok: bool, outs: seq<Bytes>)
    requires reader.Valid() && reader.Complete() && Sealed(cipher, iv, plain, reader.Coming())
    modifies reader, reader.source, reader.stream
    ensures ok && reader.Valid() && |outs| == |asked|
    ensures Concat(outs) + reader.Coming() == old(reader.Coming())
    ensures Sealed(cipher, iv, plain, Concat(outs))
  {
    outs := [];
    ok := true;
    var i := 0;
    while i < |asked|
      invariant 0 <= i == |outs| <= |asked| && ok
      invariant reader.Valid() && reader.Complete()
      invariant Concat(outs) + reader.Coming() == old(reader.Coming())
    {
      ghost var before := reader.Coming();
      var out;
      ok, out := reader.Read(asked[i]);
      ConcatSnoc(outs, out, reader.Coming());
      outs := outs + [out];
      i := i + 1;
    }
    SealedPart(cipher, iv, plain, old(reader.Coming()), Concat(outs));
  }

  /** The whole file in one read. */
  method EncryptFile(content: Bytes, cipher: Cipher, iv: Iv, padding: Bytes) returns (r: Bytes)
    requires (|content| + |padding|) % 16 == 0 && |padding| < 16
    ensures |r| == |content| + |padding| && Sealed(cipher, iv, content + padding, r)
  {
    var source := new Source(content);
    var reader := new EncryptingReader(source, cipher, iv, |content|, padding);
    assert content[..|content|] == content;
    ghost var whole := reader.Coming();
    var ok;
    ok, r := reader.Read(-1);
    assert whole[..|r|] == r;
    SealedPart(cipher, iv, content + padding, whole, r);
  }

  // ---- Decrypting a stream of pieces ----

  predicate LengthsOk(total: nat, size: int) {
    size >= 0 && total % 16 == 0 && 0 <= total - size < 16
  }

  function Prefix(s: Bytes, n: nat): Bytes {
    if n <= |s| then s[..n] else s
  }

  /** Bytes short of a block add nothing; later ones only extend what was made. */
  lemma ChainGrows(m: Mode, done: Bytes, tail: Bytes, more: Bytes, iv: Iv)
    requires |done| % 16 == 0 && |tail| < 16
    ensures Chain(m, done + tail, iv) == Chain(m, done, iv)
    ensures var made := Chain(m, done, iv);
      Chain(m, (done + tail) + more, iv) == made + Chain(m, tail + more, Carried(m, iv, done, made))
  {
    ChainSplits(m, done, tail, iv);
    ChainSplits(m, done, tail + more, iv);
    assert (done + tail) + more == done + (tail + more);
  }

  lemma CarriedTwice(m: Mode, iv: Iv, a: Bytes, b: Bytes, x: Bytes, y: Bytes)
    requires |a| == |x| && |a| % 16 == 0 && |b| == |y| >= 16
    ensures Carried(m, Carried(m, iv, a, x), b, y) == Carried(m, iv, a + b, x + y)
  {
    assert (a + b)[|a + b| - 16..] == b[|b| - 16..] && (x + y)[|x + y| - 16..] == y[|y| - 16..];
  }

  /** Where a decrypting stream stands after it was fed `done`, whole blocks. */
  ghost predicate Fed(stream: Stream, iv: Iv, done: Bytes)
    reads stream
  {
    |done| % 16 == 0 && stream.iv == Carried(stream.mode, iv, done, Chain(stream.mode, done, iv))
  }

  /** Feeding the whole blocks at hand makes all there is to make. */
  lemma FeedMakes(m: Mode, iv: Iv, done: Bytes, pending: Bytes, whole: nat)
    requires |done| % 16 == 0 && whole == Whole(|pending|)
    ensures var made := Chain(m, done, iv);
      var piece := Chain(m, pending[..whole], Carried(m, iv, done, made));
      made + piece == Chain(m, done + pending[..whole], iv) == Chain(m, done + pending, iv)
  {
    ChainSplits(m, done, pending[..whole], iv);
    Rejoin(done, pending, whole);
    ChainGrows(m, done + pending[..whole], pending[whole..], [], iv);
  }

  /** Feed the stream the whole blocks at hand. */
  method Feed(stream: Stream, ghost iv: Iv, ghost done: Bytes, pending: Bytes) returns (plain: Bytes)
    requires Fed(stream, iv, done) && |pending| >= 16
    modifies stream
    ensures Fed(stream, iv, done + pending[..Whole(|pending|)])
    ensures Chain(stream.mode, done, iv) + plain == Chain(stream.mode, done + pending, iv)
  {
    var whole := Whole(|pending|);
    FeedMakes(stream.mode, iv, done, pending, whole);
    plain := stream.Process(pending[..whole]);
    CarriedTwice(stream.mode, iv, done, pending[..whole], Chain(stream.mode, done, iv), plain);
  }

  lemma TakenPrefix(made: Bytes, next: Bytes, left: nat, size: nat)
    requires |made| + left == size
    ensures made + Prefix(next, left) == Prefix(made + next, size)
    ensures made + [] == made == Prefix(made, size)
  {
  }

  lemma Rejoin(done: Bytes, pending: Bytes, whole: nat)
    requires whole <= |pending|
    ensures (done + pending[..whole]) + pending[whole..] == done + pending
  {
  }

  /** Decrypt what is at hand while output is still wanted; the rest of a block stays. */
  method Continue(stream: Stream, ghost iv: Iv, ghost done: Bytes, pending: Bytes, ghost made: Bytes, left: nat)
    returns (plain: Bytes, rest: Bytes, ghost done': Bytes)
    requires Fed(stream, iv, done) && made == Chain(stream.mode, done, iv)
    modifies stream
    ensures Fed(stream, iv, done') && done' + rest == done + pending && |rest| < 16
    ensures made + plain == Prefix(Chain(stream.mode, done + pending, iv), |made| + left)
  {
    var whole := Whole(|pending|);
    if whole > 0 {
      var next := Feed(stream, iv, done, pending);
      TakenPrefix(made, next, left, |made| + left);
      Rejoin(done, pending, whole);
      plain, rest, done' := Prefix(next, left), pending[whole..], done + pending[..whole];
    } else {
      ChainGrows(stream.mode, done, pending, [], iv);
      TakenPrefix(made, [], left, |made| + left);
      plain, rest, done' := [], pending, done;
    }
  }

  /** `whole` holds the decryption of every whole block of `text`. */
  ghost predicate Decrypted(c: Cipher, iv: Iv, text: Bytes, whole: Bytes) {
    |whole| == |text| - |text| % 16 && Opened(c, iv, text, whole)
  }

  /** There is one such buffer only. */
  lemma OneDecryption(c: Cipher, iv: Iv, text: Bytes, a: Bytes, b: Bytes)
    requires Decrypted(c, iv, text, a) && Decrypted(c, iv, text, b)
    ensures a == b
  {
    OpenedIsChain(c, iv, text, a);
    OpenedIsChain(c, iv, text, b);
  }

  /** However the ciphertext is split, exactly the first `size` bytes of its decryption come out, and the call
      succeeds exactly when the total length fits the declared size. */
  method DecryptStream(pieces: seq<Bytes>, cipher: Cipher, iv: Iv, size: int) returns (ok: bool, plain: Bytes)
    ensures ok <==> LengthsOk(|Concat(pieces)|, size)
    ensures size < 0 ==> plain == []
    ensures size >= 0 ==> exists whole ::
      Decrypted(cipher, iv, Concat(pieces), whole) && plain == if size <= |whole| then whole[..size] else whole
  {
    if size < 0 { return false, []; }
    var stream := new Stream(Decrypting(cipher), iv);
    var pending: Bytes, left, total := [], size, 0;
    ghost var done: Bytes, all: Bytes, m := [], [], Decrypting(cipher);
    plain := [];
    var i := 0;
    while i < |pieces|
      invariant 0 <= i <= |pieces| && stream.mode == m && fresh(stream)
      invariant all == Concat(pieces[..i]) && total == |all| && 0 <= left == size - |plain|
      invariant plain == Prefix(Chain(m, all, iv), size)
      invariant |pending| < 16
      invariant left > 0 ==> Fed(stream, iv, done) && done + pending == all
    {
      var piece := pieces[i];
      ConcatNext(pieces, i);
      Extends(m, all, piece, iv, size);
      total := total + |piece|;
      if left > 0 {
        ChainGrows(m, done, pending, [], iv);
        Nested(done, pending, piece);
        var next;
        next, pending, done := Continue(stream, iv, done, pending + piece, plain, left);
        plain := plain + next;
        left := left - |next|;
      } else {
        pending := (pending + piece)[Whole(|pending + piece|)..];
      }
      all := all + piece;
      i := i + 1;
    }
    assert pieces[..i] == pieces;
    ok := LengthsOk(total, size);
    OpenedIsChain(cipher, iv, Concat(pieces), Chain(m, Concat(pieces), iv));
    assert Decrypted(cipher, iv, Concat(pieces), Chain(m, Concat(pieces), iv));
  }

  lemma Extends(m: Mode, all: Bytes, more: Bytes, iv: Iv, size: nat)
    ensures size <= |Chain(m, all, iv)| ==> Prefix(Chain(m, all + more, iv), size) == Prefix(Chain(m, all, iv), size)
  {
    var whole := Whole(|all|);
    ChainGrows(m, all[..whole], all[whole..], more, iv);
    assert all[..whole] + all[whole..] == all;
  }

  method DecryptFile(ciphertext: Bytes, cipher: Cipher, iv: Iv, size: int) returns (ok: bool, plain: Bytes)
    ensures ok <==> LengthsOk(|ciphertext|, size)
    ensures ok ==> |plain| == size && exists whole :: Decrypted(cipher, iv, ciphertext, whole) && plain == whole[..size]
  {
    if !LengthsOk(|ciphertext|, size) { return false, []; }
    assert [ciphertext][..0] == [] && Concat([]) == [];
    ConcatNext([ciphertext], 0);
    assert [ciphertext][..1] == [ciphertext] && [] + ciphertext == ciphertext;
    ok, plain := DecryptStream([ciphertext], cipher, iv, size);
  }

  /** Decrypting an encrypted file, in any pieces, returns the content, the empty file included. */
  method FileRoundTrip(content: Bytes, cipher: Cipher, iv: Iv, padding: Bytes, pieces: seq<Bytes>)
    returns (ok: bool, plain: Bytes)
    requires Invertible(cipher) && (|content| + |padding|) % 16 == 0 && |padding| < 16
    requires |Concat(pieces)| == |content| + |padding| && Sealed(cipher, iv, content + padding, Concat(pieces))
    ensures ok && plain == content
  {
    RoundTrip(cipher, content + padding, iv);
    SealedIsChain(cipher, iv, content + padding, Concat(pieces));
    OpenedIsChain(cipher, iv, Concat(pieces), content + padding);
    ok, plain := DecryptStream(pieces, cipher, iv, |content|);
    ghost var whole :| Decrypted(cipher, iv, Concat(pieces), whole)
      && plain == if |content| <= |whole| then whole[..|content|] else whole;
    OneDecryption(cipher, iv, Concat(pieces), whole, content + padding);
  }
}
