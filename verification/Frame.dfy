/** The encrypted frame of one message: length, padding, message key, and the checks on the way back. */
module Frame {
  import opened Prelude
  import opened Octets
  import opened Ige

  const MIN_PADDING := 12
  const KEY_LENGTH := 256
  const HEADER_LENGTH := 24

  /** The hashes of a shared key, uninterpreted: what names it, what keys a payload, what a message key derives. */
  datatype Primitives = Primitives(
    fingerprint: Bytes -> Bytes,
    messageKey: (Bytes, Bytes, int) -> Block,
    derived: (Bytes, Block, int) -> (Cipher, Iv))

  ghost predicate Sound(h: Primitives) {
    && (forall key :: |h.fingerprint(key)| == 8)
    && (forall key, m, x :: Permutes(h.derived(key, m, x).0))
  }

  /** 12 to 27 bytes, so that the whole is a number of blocks. */
  function PadLength(n: nat): (pad: nat)
    ensures MIN_PADDING <= pad < MIN_PADDING + 16 && (n + pad) % 16 == 0
  {
    MIN_PADDING + (16 - (n + MIN_PADDING) % 16) % 16
  }

  predicate Usable(key: Bytes, x: int) { |key| == KEY_LENGTH && (x == 0 || x == 8) }

  function Payload(body: Bytes, padding: Bytes): Bytes { Little(|body|, 4) + body + padding }

  /** The frame of a body and its padding. */
  function Seal(h: Primitives, key: Bytes, body: Bytes, padding: Bytes, x: int): Bytes {
    var payload := Payload(body, padding);
    var m := h.messageKey(key, payload, x);
    var (cipher, iv) := h.derived(key, m, x);
    h.fingerprint(key) + m + Chain(Encrypting(cipher), payload, iv)
  }

  function EncryptFrame(h: Primitives, key: Bytes, body: Bytes, x: int, random: nat -> Bytes): Result<Bytes> {
    if !Usable(key, x) then Err("key or offset")
    else if |body| >= Limit(4) then Err("too long")
    else Ok(Seal(h, key, body, random(PadLength(4 + |body|)), x))
  }

  /** The checks in their documented order; nothing is repaired. */
  function DecryptFrame(h: Primitives, key: Bytes, frame: Bytes, x: int): Result<Bytes> {
    if !Usable(key, x) then Err("key or offset")
    else if |frame| < HEADER_LENGTH + 16 then Err("too short")
    else if frame[..8] != h.fingerprint(key) then Err("fingerprint")
    else if (|frame| - HEADER_LENGTH) % 16 != 0 then Err("blocks")
    else
      var m := frame[8..HEADER_LENGTH];
      var (cipher, iv) := h.derived(key, m, x);
      var plain := Chain(Decrypting(cipher), frame[HEADER_LENGTH..], iv);
      if h.messageKey(key, plain, x) != m then Err("message key")
      else if |plain| % 16 != 0 then Err("alignment")
      else
        var declared := FromLittle(plain[..4]);
        if declared > |plain| - 4 then Err("declared length")
        else if |plain| - 4 - declared < MIN_PADDING then Err("padding")
        else Ok(plain[4..4 + declared])
  }

  ghost predicate Exact(random: nat -> Bytes) { forall n :: |random(n)| == n }

  lemma PayloadParts(body: Bytes, padding: Bytes)
    requires |body| < Limit(4)
    ensures var p := Payload(body, padding);
      |p| == 4 + |body| + |padding| && FromLittle(p[..4]) == |body| && p[4..4 + |body|] == body
  {
    LittleRoundTrip(|body|, 4);
    assert Payload(body, padding)[..4] == Little(|body|, 4);
  }

  /** Padding a frame can carry: at least 12 bytes, to whole blocks. */
  predicate Pads(body: Bytes, padding: Bytes) {
    |body| < Limit(4) && |padding| >= MIN_PADDING && (4 + |body| + |padding|) % 16 == 0
  }

  lemma SealOpens(h: Primitives, key: Bytes, body: Bytes, padding: Bytes, x: int)
    requires Sound(h) && Usable(key, x) && Pads(body, padding)
    ensures DecryptFrame(h, key, Seal(h, key, body, padding, x), x) == Ok(body)
    ensures |Seal(h, key, body, padding, x)| == HEADER_LENGTH + 4 + |body| + |padding|
  {
    var payload := Payload(body, padding);
    PayloadParts(body, padding);
    var m := h.messageKey(key, payload, x);
    var (cipher, iv) := h.derived(key, m, x);
    RoundTrip(cipher, payload, iv);
    Header(h.fingerprint(key), m, Chain(Encrypting(cipher), payload, iv));
  }

  /** Every body under 2^32 bytes comes back, whatever the padding bytes; the frame is the header and whole blocks
      holding the body, its length and 12 to 27 bytes more. */
  lemma FrameRoundTrip(h: Primitives, key: Bytes, body: Bytes, x: int, random: nat -> Bytes)
    requires Sound(h) && Exact(random) && Usable(key, x) && |body| < Limit(4)
    ensures var frame := EncryptFrame(h, key, body, x, random);
      && frame.Ok? && DecryptFrame(h, key, frame.value, x) == Ok(body)
      && IsFrame(h, key, frame.value, x, body, Payload(body, random(PadLength(4 + |body|))))
      && (|frame.value| - HEADER_LENGTH) % 16 == 0
      && HEADER_LENGTH + 4 + |body| + MIN_PADDING <= |frame.value| < HEADER_LENGTH + 4 + |body| + MIN_PADDING + 16
  {
    SealOpens(h, key, body, random(PadLength(4 + |body|)), x);
    SealedIsFrame(h, key, body, random(PadLength(4 + |body|)), x);
  }

  lemma Header(name: Bytes, m: Block, text: Bytes)
    requires |name| == 8
    ensures var frame := name + m + text;
      frame[..8] == name && frame[8..HEADER_LENGTH] == m && frame[HEADER_LENGTH..] == text
  {
  }

  /** An accepted frame is the one its body and the padding it carries are sealed into. */
  lemma OpenedIsSealed(h: Primitives, key: Bytes, frame: Bytes, x: int) returns (padding: Bytes)
    requires Sound(h) && DecryptFrame(h, key, frame, x).Ok?
    ensures var body := DecryptFrame(h, key, frame, x).value;
      Pads(body, padding) && frame == Seal(h, key, body, padding, x)
  {
    var m, text := frame[8..HEADER_LENGTH], frame[HEADER_LENGTH..];
    var (cipher, iv) := h.derived(key, m, x);
    var plain := Chain(Decrypting(cipher), text, iv);
    RoundTripBack(cipher, text, iv);
    padding := plain[4 + FromLittle(plain[..4])..];
    PayloadBack(plain);
    assert frame == frame[..8] + m + text;
  }

  lemma PayloadBack(plain: Bytes)
    requires |plain| >= 4 && 4 + FromLittle(plain[..4]) <= |plain|
    ensures var declared := FromLittle(plain[..4]);
      declared < Limit(4) && Payload(plain[4..4 + declared], plain[4 + declared..]) == plain
  {
    LittleBack(plain[..4]);
    FromLittleBelow(plain[..4]);
  }

  /** What a frame of a body is, byte by byte: the name of the key; the message key of a payload; and, under what that
      key and the message key derive, that payload block by block. The payload is the body's length in four bytes, the
      body, and at least 12 bytes more, to whole blocks. */
  ghost predicate IsFrame(h: Primitives, key: Bytes, frame: Bytes, x: int, body: Bytes, payload: Bytes) {
    && |payload| % 16 == 0 && |payload| >= 4 + |body| + 12 && |frame| == 24 + |payload|
    && Worth(payload[..4]) == |body| && payload[4..4 + |body|] == body
    && frame[..8] == h.fingerprint(key) && frame[8..24] == h.messageKey(key, payload, x)
    && var (cipher, iv) := h.derived(key, frame[8..24], x);
      Sealed(cipher, iv, payload, frame[24..])
  }

  lemma SealedIsFrame(h: Primitives, key: Bytes, body: Bytes, padding: Bytes, x: int)
    requires Sound(h) && Pads(body, padding)
    ensures IsFrame(h, key, Seal(h, key, body, padding, x), x, body, Payload(body, padding))
  {
    var payload := Payload(body, padding);
    PayloadParts(body, padding);
    WorthIsLittle(payload[..4]);
    var m := h.messageKey(key, payload, x);
    var (cipher, iv) := h.derived(key, m, x);
    var text := Chain(Encrypting(cipher), payload, iv);
    Header(h.fingerprint(key), m, text);
    SealedIsChain(cipher, iv, payload, text);
  }

  lemma FrameIsSealed(h: Primitives, key: Bytes, frame: Bytes, x: int, body: Bytes, payload: Bytes)
    requires Sound(h) && IsFrame(h, key, frame, x, body, payload)
    ensures var padding := payload[4 + |body|..];
      Pads(body, padding) && frame == Seal(h, key, body, padding, x)
  {
    var padding := payload[4 + |body|..];
    WorthIsLittle(payload[..4]);
    FromLittleBelow(payload[..4]);
    LittleBack(payload[..4]);
    assert payload == Payload(body, padding);
    var m := h.messageKey(key, payload, x);
    var (cipher, iv) := h.derived(key, m, x);
    SealedIsChain(cipher, iv, payload, frame[24..]);
    assert frame == frame[..8] + frame[8..24] + frame[24..];
  }

  /** A frame yields a body if and only if it is a frame of that body. Nothing else that reaches an end is read. */
  lemma AcceptedIsSealed(h: Primitives, key: Bytes, frame: Bytes, x: int, body: Bytes)
    requires Sound(h)
    ensures DecryptFrame(h, key, frame, x) == Ok(body) <==>
      && |key| == 256 && (x == 0 || x == 8)
      && exists payload :: IsFrame(h, key, frame, x, body, payload)
  {
    if DecryptFrame(h, key, frame, x) == Ok(body) {
      var padding := OpenedIsSealed(h, key, frame, x);
      SealedIsFrame(h, key, body, padding, x);
    }
    if Usable(key, x) && exists payload :: IsFrame(h, key, frame, x, body, payload) {
      var payload :| IsFrame(h, key, frame, x, body, payload);
      FrameIsSealed(h, key, frame, x, body, payload);
      SealOpens(h, key, body, payload[4 + |body|..], x);
    }
  }
}
