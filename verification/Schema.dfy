/** What the generated writers and readers of any schema do: every well-typed object comes back as it was. */
module Schema {
  import opened Prelude
  import opened Octets

  const MAX_NESTING := 32
  const VECTOR := 0x1CB5C415
  const BOOL_TRUE := 0x997275B5
  const BOOL_FALSE := 0xBC799737

  type Bit = n: nat | n < 32

  /** A field type. An object may be constrained to a result family. */
  datatype Type =
    | IntType | LongType | DoubleType | TextType | BoolType
    | VectorType(inner: Type)
    | ObjectType(family: Option<string>)

  /** A field: always there, there when its flag bit is set, or carried by the bit itself. */
  datatype Field = Plain(ty: Type) | Optional(word: nat, bit: Bit, ty: Type) | Flag(word: nat, bit: Bit)

  /** One constructor: its result family, how many flag words lead it, and its other fields in order. */
  datatype Ctor = Ctor(family: string, words: nat, fields: seq<Field>)

  type Registry = map<nat, Ctor>

  /** A value; strings and byte strings are their bytes, a double its eight bytes, `Absent` the default of a field
      that was never given. */
  datatype Value =
    | Int(n: int) | Long(n: int) | Double(bits: Bytes) | Text(bytes: Bytes) | Bool(b: bool)
    | Vector(items: seq<Value>)
    | Object(id: nat, values: seq<Value>)
    | Absent

  // ---- Well-typed values ----

  predicate InRange(n: int, width: nat) { 0 <= Limit(width) + 2 * n < 2 * Limit(width) }

  /** What the writer of a type accepts: signed numbers in range, short enough strings and vectors, objects of the
      right family, nested no deeper than a reader follows. */
  predicate WellTyped(s: Registry, ty: Type, v: Value, depth: nat)
    decreases v, 0
  {
    match ty
    case IntType => v.Int? && InRange(v.n, 4)
    case LongType => v.Long? && InRange(v.n, 8)
    case DoubleType => v.Double? && |v.bits| == 8
    case TextType => v.Text? && |v.bytes| < Limit(3)
    case BoolType => v.Bool?
    case VectorType(inner) =>
      v.Vector? && InRange(|v.items|, 4) && forall i :: 0 <= i < |v.items| ==> WellTyped(s, inner, v.items[i], depth)
    case ObjectType(family) =>
      && v.Object? && v.id in s && depth < MAX_NESTING
      && (family.None? || family.value == s[v.id].family)
      && FieldsTyped(s, s[v.id].fields, v.values, depth + 1)
  }

  predicate FieldsTyped(s: Registry, fields: seq<Field>, values: seq<Value>, depth: nat)
    decreases values, 0
  {
    |fields| == |values| && forall i :: 0 <= i < |values| ==> FieldTyped(s, fields[i], values[i], depth)
  }

  predicate FieldTyped(s: Registry, f: Field, v: Value, depth: nat)
    decreases v, 1
  {
    match f
    case Plain(ty) => WellTyped(s, ty, v, depth)
    case Optional(_, _, ty) => v.Absent? || WellTyped(s, ty, v, depth)
    case Flag(_, _) => v.Absent? || v.Bool?
  }

  /** A schema whose ids fit a word, and whose flag bits are distinct bits of declared words. */
  ghost predicate WellFormed(s: Registry) {
    forall id :: id in s ==> id < Limit(4) && CtorOk(s[id])
  }

  ghost predicate CtorOk(c: Ctor) {
    && (forall i :: 0 <= i < |c.fields| && !c.fields[i].Plain? ==> c.fields[i].word < c.words)
    && DistinctBits(c.fields)
  }

  ghost predicate DistinctBits(fields: seq<Field>) {
    forall i, j :: 0 <= i < j < |fields| && !fields[i].Plain? && !fields[j].Plain?
      ==> fields[i].word != fields[j].word || fields[i].bit != fields[j].bit
  }

  // ---- Writing ----

  function Unsigned(n: int, width: nat): nat
    requires InRange(n, width)
  {
    if n < 0 then n + Limit(width) else n
  }

  function Signed(w: nat, width: nat): int {
    if 2 * w >= Limit(width) then w - Limit(width) else w
  }

  function Zeros(n: nat): (r: Bytes)
    ensures |r| == n
  {
    seq(n, i => 0)
  }

  /** Up to the next multiple of four. */
  function Fill(n: nat): nat { (4 - n % 4) % 4 }

  function WriteText(b: Bytes): Bytes {
    if |b| < 254 then [|b|] + (b + Zeros(Fill(|b| + 1)))
    else [254] + (Little(|b|, 3) + (b + Zeros(Fill(|b|))))
  }

  predicate Present(f: Field, v: Value) {
    match f
    case Plain(_) => true
    case Optional(_, _, _) => !v.Absent?
    case Flag(_, _) => v == Bool(true)
  }

  predicate HasBit(w: nat, k: nat) { if k == 0 then w % 2 == 1 else HasBit(w / 2, k - 1) }

  /** A word with one more bit set, if it was not. */
  function SetBit(w: nat, k: nat): nat {
    if k == 0 then w - w % 2 + 1 else w % 2 + 2 * SetBit(w / 2, k - 1)
  }

  /** One flag word: the bits of the fields that are there. */
  function FlagWord(fields: seq<Field>, values: seq<Value>, word: nat): nat
    requires |fields| == |values|
  {
    if fields == [] then 0
    else
      var rest := FlagWord(fields[1..], values[1..], word);
      if !fields[0].Plain? && fields[0].word == word && Present(fields[0], values[0])
      then SetBit(rest, fields[0].bit)
      else rest
  }

  function WriteWords(fields: seq<Field>, values: seq<Value>, from: nat, words: nat): Bytes
    requires |fields| == |values| && from <= words
    decreases words - from
  {
    if from == words then []
    else Little(FlagWord(fields, values, from), 4) + WriteWords(fields, values, from + 1, words)
  }

  function Write(s: Registry, ty: Type, v: Value, depth: nat): Bytes
    requires WellTyped(s, ty, v, depth)
    decreases v, 0
  {
    match ty
    case IntType => Little(Unsigned(v.n, 4), 4)
    case LongType => Little(Unsigned(v.n, 8), 8)
    case DoubleType => v.bits
    case TextType => WriteText(v.bytes)
    case BoolType => Little(if v.b then BOOL_TRUE else BOOL_FALSE, 4)
    case VectorType(inner) =>
      Little(VECTOR, 4) + (Little(Unsigned(|v.items|, 4), 4) + WriteItems(s, inner, v.items, depth))
    case ObjectType(_) =>
      var c := s[v.id];
      assert FieldsTyped(s, c.fields, v.values, depth + 1);
      Little(v.id, 4) + (WriteWords(c.fields, v.values, 0, c.words) + WriteFields(s, c.fields, v.values, depth + 1))
  }

  function WriteItems(s: Registry, inner: Type, items: seq<Value>, depth: nat): Bytes
    requires forall i :: 0 <= i < |items| ==> WellTyped(s, inner, items[i], depth)
    decreases items, 0
  {
    if items == [] then []
    else Write(s, inner, items[0], depth) + WriteItems(s, inner, items[1..], depth)
  }

  function WriteFields(s: Registry, fields: seq<Field>, values: seq<Value>, depth: nat): Bytes
    requires FieldsTyped(s, fields, values, depth)
    decreases values, 0
  {
    if values == [] then []
    else WriteField(s, fields[0], values[0], depth) + WriteFields(s, fields[1..], values[1..], depth)
  }

  function WriteField(s: Registry, f: Field, v: Value, depth: nat): Bytes
    requires FieldTyped(s, f, v, depth)
    decreases v, 1
  {
    match f
    case Plain(ty) => Write(s, ty, v, depth)
    case Optional(_, _, ty) => if v.Absent? then [] else Write(s, ty, v, depth)
    case Flag(_, _) => []
  }

  // ---- Reading ----

  function ReadText(b: Bytes): Result<Parsed<Bytes>> {
    var first :- ReadWord(b, 1);
    var size :- if first.value == 254 then ReadWord(first.rest, 3) else Ok(first);
    var data :- ReadBytes(size.rest, size.value);
    var fill :- ReadBytes(data.rest, Fill(if first.value == 254 then size.value else size.value + 1));
    Ok(Parsed(data.value, fill.rest))
  }

  function ReadWords(b: Bytes, words: nat): Result<Parsed<seq<nat>>> {
    if words == 0 then Ok(Parsed([], b))
    else
      var first :- ReadWord(b, 4);
      var rest :- ReadWords(first.rest, words - 1);
      Ok(Parsed([first.value] + rest.value, rest.rest))
  }

  function Left(depth: nat): nat { if depth < MAX_NESTING then MAX_NESTING - depth else 0 }

  function Read(s: Registry, ty: Type, b: Bytes, depth: nat): Result<Parsed<Value>>
    decreases 2 * Left(depth), ty, 0
  {
    match ty
    case IntType =>
      var w :- ReadWord(b, 4);
      Ok(Parsed(Int(Signed(w.value, 4)), w.rest))
    case LongType =>
      var w :- ReadWord(b, 8);
      Ok(Parsed(Long(Signed(w.value, 8)), w.rest))
    case DoubleType =>
      var raw :- ReadBytes(b, 8);
      Ok(Parsed(Double(raw.value), raw.rest))
    case TextType =>
      var text :- ReadText(b);
      Ok(Parsed(Text(text.value), text.rest))
    case BoolType =>
      var w :- ReadWord(b, 4);
      if w.value == BOOL_TRUE then Ok(Parsed(Bool(true), w.rest))
      else if w.value == BOOL_FALSE then Ok(Parsed(Bool(false), w.rest))
      else Err("bool")
    case VectorType(inner) =>
      var marker :- ReadWord(b, 4);
      if marker.value != VECTOR then Err("expected a vector")
      else
        var size :- ReadWord(marker.rest, 4);
        var count := Signed(size.value, 4);
        if count < 0 || count > |size.rest| / 4 then Err("invalid vector length")
        else
          var items :- ReadItems(s, inner, count, size.rest, depth);
          Ok(Parsed(Vector(items.value), items.rest))
    case ObjectType(family) =>
      var id :- ReadWord(b, 4);
      if id.value !in s then Err("unknown constructor")
      else if family.Some? && s[id.value].family != family.value then Err("unexpected family")
      else if depth >= MAX_NESTING then Err("nesting too deep")
      else
        var flags :- ReadWords(id.rest, s[id.value].words);
        var values :- ReadFields(s, s[id.value].fields, flags.value, flags.rest, depth + 1);
        Ok(Parsed(Object(id.value, values.value), values.rest))
  }

  function ReadItems(s: Registry, inner: Type, count: nat, b: Bytes, depth: nat): Result<Parsed<seq<Value>>>
    decreases 2 * Left(depth), inner, 1 + count
  {
    if count == 0 then Ok(Parsed([], b))
    else
      var first :- Read(s, inner, b, depth);
      var rest :- ReadItems(s, inner, count - 1, first.rest, depth);
      Ok(Parsed([first.value] + rest.value, rest.rest))
  }

  function ReadFields(s: Registry, fields: seq<Field>, flags: seq<nat>, b: Bytes,
    depth: nat): Result<Parsed<seq<Value>>>
    decreases 2 * Left(depth) + 1, |fields|
  {
    if fields == [] then Ok(Parsed([], b))
    else
      var first :- ReadField(s, fields[0], flags, b, depth);
      var rest :- ReadFields(s, fields[1..], flags, first.rest, depth);
      Ok(Parsed([first.value] + rest.value, rest.rest))
  }

  predicate Set(flags: seq<nat>, word: nat, bit: Bit) {
    word < |flags| && HasBit(flags[word], bit)
  }

  function ReadField(s: Registry, f: Field, flags: seq<nat>, b: Bytes, depth: nat): Result<Parsed<Value>>
    decreases 2 * Left(depth) + 1, 0
  {
    match f
    case Plain(ty) => Read(s, ty, b, depth)
    case Optional(word, bit, ty) => if Set(flags, word, bit) then Read(s, ty, b, depth) else Ok(Parsed(Absent, b))
    case Flag(word, bit) => Ok(Parsed(Bool(Set(flags, word, bit)), b))
  }

  // ---- What comes back: a flag that was never given reads as false ----

  function Settled(s: Registry, v: Value): Value
    decreases v, 0
  {
    match v
    case Vector(items) => Vector(SettledItems(s, items))
    case Object(id, values) => if id in s then Object(id, SettledFields(s, s[id].fields, values)) else v
    case _ => v
  }

  function SettledItems(s: Registry, items: seq<Value>): seq<Value>
    decreases items, 0
  {
    if items == [] then [] else [Settled(s, items[0])] + SettledItems(s, items[1..])
  }

  function SettledFields(s: Registry, fields: seq<Field>, values: seq<Value>): seq<Value>
    decreases values, 0
  {
    if values == [] || fields == [] then []
    else [SettledField(s, fields[0], values[0])] + SettledFields(s, fields[1..], values[1..])
  }

  function SettledField(s: Registry, f: Field, v: Value): Value
    decreases v, 1
  {
    if f.Flag? then Bool(v == Bool(true)) else Settled(s, v)
  }

  // ---- What is written, byte by byte ----

  /** A string or byte string: its length in one byte if that is below 254, and otherwise after a byte 254 in three
      more; its bytes; and zeros up to a multiple of four. */
  lemma TextDecides(b: Bytes)
    requires |b| < 0x100_0000
    ensures var r, head := WriteText(b), if |b| < 254 then 1 else 4;
      && |r| % 4 == 0 && head + |b| <= |r| < head + |b| + 4
      && (|b| < 254 ==> r[0] == |b|)
      && (|b| >= 254 ==> r[0] == 254 && r[1] as int + 0x100 * r[2] as int + 0x1_0000 * r[3] as int == |b|)
      && r[head..head + |b|] == b && (forall i :: head + |b| <= i < |r| ==> r[i] == 0)
  {
    if |b| < 254 {
      Framed([|b|], b, Zeros(Fill(|b| + 1)));
      Filled(|b| + 1);
    } else {
      LittleThree(|b|);
      Nested([254], Little(|b|, 3), b + Zeros(Fill(|b|)));
      Framed([254] + Little(|b|, 3), b, Zeros(Fill(|b|)));
      Filled(|b|);
    }
  }

  lemma Filled(n: nat)
    ensures (n + Fill(n)) % 4 == 0 && (4 + (n + Fill(n))) % 4 == 0 && Fill(n) < 4
  {
  }

  lemma Framed(head: Bytes, b: Bytes, fill: Bytes)
    ensures var r := head + (b + fill);
      && |r| == |head| + |b| + |fill| && r[..|head|] == head && r[|head|..|head| + |b|] == b
      && (forall i :: 0 <= i < |head| ==> r[i] == head[i])
      && forall i :: |head| + |b| <= i < |r| ==> r[i] == fill[i - |head| - |b|]
  {
  }

  /** A number, as four or eight bytes of its two's complement. */
  lemma IntDecides(s: Registry, n: int, depth: nat)
    requires -0x8000_0000 <= n < 0x8000_0000
    ensures Limit(4) == 0x1_0000_0000 && WellTyped(s, IntType, Int(n), depth)
    ensures Worth(Write(s, IntType, Int(n), depth)) == if n < 0 then n + 0x1_0000_0000 else n
  {
    Limits();
    LittleFour(Unsigned(n, 4));
  }

  lemma LongDecides(s: Registry, n: int, depth: nat)
    requires -0x8000_0000_0000_0000 <= n < 0x8000_0000_0000_0000
    ensures Limit(8) == 0x1_0000_0000_0000_0000 && WellTyped(s, LongType, Long(n), depth)
    ensures var r := Write(s, LongType, Long(n), depth);
      && |r| == 8
      && Worth(r[..4]) + 0x1_0000_0000 * Worth(r[4..]) == if n < 0 then n + 0x1_0000_0000_0000_0000 else n
  {
    Limits();
    LittleEight(Unsigned(n, 8));
  }

  /** A double stands as its eight bytes, a boolean as one of two ids, and a vector as its id, its length and its items
      in turn. */
  lemma WrittenDecides(s: Registry, ty: Type, v: Value, depth: nat)
    requires WellTyped(s, ty, v, depth)
    ensures ty.DoubleType? ==> Write(s, ty, v, depth) == v.bits
    ensures ty.BoolType? ==> Write(s, ty, v, depth) == Little(if v.b then 0x997275B5 else 0xBC799737, 4)
    ensures ty.VectorType? ==>
      Write(s, ty, v, depth)
      == Little(0x1CB5C415, 4) + Little(|v.items|, 4) + WriteItems(s, ty.inner, v.items, depth)
  {
  }

  lemma {:induction false} ItemsCounted(s: Registry, inner: Type, count: nat, b: Bytes, depth: nat)
    requires ReadItems(s, inner, count, b, depth).Ok?
    ensures |ReadItems(s, inner, count, b, depth).value.value| == count
    decreases count
  {
    if count > 0 { ItemsCounted(s, inner, count - 1, Read(s, inner, b, depth).value.rest, depth); }
  }

  /** Whatever the bytes: a boolean is read from its two ids only; a vector only behind its id and with a length that a
      quarter of the bytes left allows; an object only under a known id, of the family asked for, less than 32 deep. */
  lemma ReadRefuses(s: Registry, ty: Type, b: Bytes, depth: nat)
    requires Read(s, ty, b, depth).Ok?
    ensures var v := Read(s, ty, b, depth).value.value;
      && (ty.BoolType? ==> |b| >= 4 && v.Bool? && Worth(b[..4]) == if v.b then 0x997275B5 else 0xBC799737)
      && (ty.VectorType? ==>
          |b| >= 8 && Worth(b[..4]) == 0x1CB5C415 && v.Vector? && |v.items| == Worth(b[4..8]) <= (|b| - 8) / 4)
      && (ty.ObjectType? ==>
          && |b| >= 4 && v.Object? && v.id == Worth(b[..4]) && v.id in s && depth < 32
          && (ty.family.None? || ty.family.value == s[v.id].family))
  {
    if |b| >= 4 { WorthIsLittle(b[..4]); }
    if ty.VectorType? {
      var rest := b[4..];
      assert |rest| >= 4 && b[4..8] == rest[..4];
      WorthIsLittle(rest[..4]);
      Limits();
      FromLittleBelow(rest[..4]);
      ItemsCounted(s, ty.inner, Signed(FromLittle(rest[..4]), 4), rest[4..], depth);
    }
  }

  // ---- Words and strings come back ----

  lemma SignRoundTrip(n: int, width: nat)
    requires InRange(n, width)
    ensures Unsigned(n, width) < Limit(width) && Signed(Unsigned(n, width), width) == n
  {
  }

  lemma TextRoundTrip(b: Bytes, suffix: Bytes)
    requires |b| < Limit(3)
    ensures ReadText(WriteText(b) + suffix) == Ok(Parsed(b, suffix))
  {
    var fill := Zeros(Fill(if |b| < 254 then |b| + 1 else |b|));
    var tail := b + (fill + suffix);
    TakeFront(b, fill + suffix);
    TakeFront(fill, suffix);
    Nested(b, fill, suffix);
    Limits();
    if |b| < 254 {
      FirstByte(|b|);
      WordRoundTrip(|b|, 1, tail);
      Nested([|b|], b + fill, suffix);
    } else {
      FirstByte(254);
      WordRoundTrip(254, 1, Little(|b|, 3) + tail);
      WordRoundTrip(|b|, 3, tail);
      Nested(Little(|b|, 3), b + fill, suffix);
      Nested([254], Little(|b|, 3) + (b + fill), suffix);
    }
  }

  lemma FirstByte(n: nat)
    requires n < 256
    ensures Little(n, 1) == [n]
  {
    assert Little(n / 256, 0) == [];
  }

  // ---- Flag words come back ----

  predicate Carries(f: Field, v: Value, word: nat, bit: Bit) {
    !f.Plain? && f.word == word && f.bit == bit && Present(f, v)
  }

  lemma {:induction false} SetBitHas(w: nat, b: nat, c: nat)
    ensures HasBit(SetBit(w, b), c) <==> b == c || HasBit(w, c)
    decreases b
  {
    if b == 0 {
      assert SetBit(w, 0) / 2 == w / 2;
    } else {
      assert SetBit(w, b) % 2 == w % 2 && SetBit(w, b) / 2 == SetBit(w / 2, b - 1);
      if c > 0 { SetBitHas(w / 2, b - 1, c - 1); }
    }
  }

  /** Setting a bit adds its power of two, unless it was set. */
  lemma {:induction false} SetBitAdds(w: nat, k: nat)
    ensures SetBit(w, k) == w + if HasBit(w, k) then 0 else Two(k)
    decreases k
  {
    if k > 0 { SetBitAdds(w / 2, k - 1); }
  }

  lemma {:induction false} SetBitBelow(w: nat, k: nat, bits: nat)
    requires w < Two(bits) && k < bits
    ensures SetBit(w, k) < Two(bits)
    decreases bits
  {
    var half := Two(bits - 1);
    assert Two(bits) == 2 * half && w / 2 < half;
    if k > 0 { SetBitBelow(w / 2, k - 1, bits - 1); }
  }

  /** A bit of a written word is set exactly when some field that is there carries it. */
  lemma {:induction false} FlagWordBits(fields: seq<Field>, values: seq<Value>, word: nat, bit: Bit)
    requires |fields| == |values|
    ensures HasBit(FlagWord(fields, values, word), bit)
      <==> exists i :: 0 <= i < |fields| && Carries(fields[i], values[i], word, bit)
  {
    if fields == [] {
      NoBits(bit);
    } else {
      var f, rest := fields[0], FlagWord(fields[1..], values[1..], word);
      FlagWordBits(fields[1..], values[1..], word, bit);
      if !f.Plain? { SetBitHas(rest, f.bit, bit); }
      if i :| 0 <= i < |fields| - 1 && Carries(fields[1..][i], values[1..][i], word, bit) {
        assert Carries(fields[i + 1], values[i + 1], word, bit);
      }
      if i :| 0 <= i < |fields| && Carries(fields[i], values[i], word, bit) {
        assert i == 0 || Carries(fields[1..][i - 1], values[1..][i - 1], word, bit);
      }
    }
  }

  lemma {:induction false} NoBits(k: nat)
    ensures !HasBit(0, k)
  {
    if k > 0 { NoBits(k - 1); }
  }

  /** The powers of two of the fields of a word that are there, added up. */
  function Powers(fields: seq<Field>, values: seq<Value>, word: nat): nat
    requires |fields| == |values|
  {
    if fields == [] then 0
    else
      Powers(fields[1..], values[1..], word)
      + if !fields[0].Plain? && fields[0].word == word && Present(fields[0], values[0]) then Two(fields[0].bit) else 0
  }

  /** A written word is the sum of the powers of two of the fields that are there. */
  lemma {:induction false} FlagWordValue(fields: seq<Field>, values: seq<Value>, word: nat)
    requires |fields| == |values| && DistinctBits(fields)
    ensures FlagWord(fields, values, word) == Powers(fields, values, word)
  {
    if fields != [] {
      var f, tail, left := fields[0], fields[1..], values[1..];
      forall i, j | 0 <= i < j < |tail| && !tail[i].Plain? && !tail[j].Plain?
        ensures tail[i].word != tail[j].word || tail[i].bit != tail[j].bit
      {
        assert tail[i] == fields[i + 1] && tail[j] == fields[j + 1];
      }
      FlagWordValue(tail, left, word);
      if !f.Plain? && f.word == word {
        SetBitAdds(FlagWord(tail, left, word), f.bit);
        FlagWordBits(tail, left, word, f.bit);
        forall i | 0 <= i < |tail| ensures !Carries(tail[i], left[i], word, f.bit) {
          assert tail[i] == fields[i + 1];
        }
      }
    }
  }

  lemma {:induction false} FlagWordBelow(fields: seq<Field>, values: seq<Value>, word: nat)
    requires |fields| == |values|
    ensures FlagWord(fields, values, word) < Limit(4)
  {
    Limits();
    assert Two(16) == 0x10000 by { assert Two(8) == 256; }
    assert Two(32) == 0x1_0000_0000 by { assert Two(24) == 0x100_0000; }
    if fields != [] {
      FlagWordBelow(fields[1..], values[1..], word);
      if !fields[0].Plain? { SetBitBelow(FlagWord(fields[1..], values[1..], word), fields[0].bit, 32); }
    }
  }

  lemma {:induction false} WordsSize(fields: seq<Field>, values: seq<Value>, from: nat, words: nat)
    requires |fields| == |values| && from <= words
    ensures |WriteWords(fields, values, from, words)| == 4 * (words - from)
    decreases words - from
  {
    if from < words { WordsSize(fields, values, from + 1, words); }
  }

  /** The four bytes of each written flag word are worth the sum of the powers of two of its fields that are there. */
  lemma {:induction false} WrittenFlags(fields: seq<Field>, values: seq<Value>, from: nat, words: nat, k: nat)
    requires |fields| == |values| && from <= k < words && DistinctBits(fields)
    ensures var bytes, at := WriteWords(fields, values, from, words), 4 * (k - from);
      |bytes| == 4 * (words - from) && Worth(bytes[at..at + 4]) == Powers(fields, values, k)
    decreases words - from
  {
    var w, tail := FlagWord(fields, values, from), WriteWords(fields, values, from + 1, words);
    WordsSize(fields, values, from + 1, words);
    if k == from {
      FlagWordValue(fields, values, from);
      FlagWordBelow(fields, values, from);
      Limits();
      LittleFour(w);
      assert (Little(w, 4) + tail)[0..4] == Little(w, 4);
    } else {
      var at := 4 * (k - from - 1);
      WrittenFlags(fields, values, from + 1, words, k);
      assert (Little(w, 4) + tail)[at + 4..at + 8] == tail[at..at + 4];
    }
  }

  function WordsOf(fields: seq<Field>, values: seq<Value>, from: nat, words: nat): (r: seq<nat>)
    requires |fields| == |values| && from <= words
    ensures |r| == words - from && forall k :: 0 <= k < words - from ==> r[k] == FlagWord(fields, values, from + k)
    decreases words - from
  {
    if from == words then [] else [FlagWord(fields, values, from)] + WordsOf(fields, values, from + 1, words)
  }

  lemma {:induction false} WordsRoundTrip(fields: seq<Field>, values: seq<Value>, from: nat, words: nat, suffix: Bytes)
    requires |fields| == |values| && from <= words
    ensures ReadWords(WriteWords(fields, values, from, words) + suffix, words - from)
      == Ok(Parsed(WordsOf(fields, values, from, words), suffix))
    decreases words - from
  {
    if from == words {
      assert WriteWords(fields, values, from, words) + suffix == suffix;
    } else {
      var w := FlagWord(fields, values, from);
      var tail := WriteWords(fields, values, from + 1, words);
      FlagWordBelow(fields, values, from);
      Nested(Little(w, 4), tail, suffix);
      WordRoundTrip(w, 4, tail + suffix);
      WordsRoundTrip(fields, values, from + 1, words, suffix);
    }
  }

  /** The words a reader holds agree with which fields are there. */
  ghost predicate Agree(fields: seq<Field>, values: seq<Value>, flags: seq<nat>) {
    && |fields| == |values|
    && (forall i :: 0 <= i < |fields| && !fields[i].Plain? ==>
          (Set(flags, fields[i].word, fields[i].bit) <==> Present(fields[i], values[i])))
  }

  lemma WordsAgree(c: Ctor, values: seq<Value>, flags: seq<nat>)
    requires CtorOk(c) && |c.fields| == |values| && |flags| == c.words
    requires forall k :: 0 <= k < c.words ==> flags[k] == FlagWord(c.fields, values, k)
    ensures Agree(c.fields, values, flags)
  {
    forall i | 0 <= i < |c.fields| && !c.fields[i].Plain?
      ensures Set(flags, c.fields[i].word, c.fields[i].bit) <==> Present(c.fields[i], values[i])
    {
      var f := c.fields[i];
      FlagWordBits(c.fields, values, f.word, f.bit);
      if Present(f, values[i]) { assert Carries(f, values[i], f.word, f.bit); }
      if j :| 0 <= j < |c.fields| && Carries(c.fields[j], values[j], f.word, f.bit) {
        assert j == i;
      }
    }
  }

  // ---- The guard on vector lengths never refuses a written vector ----

  /** Everything written takes at least four bytes. */
  lemma WrittenSize(s: Registry, ty: Type, v: Value, depth: nat)
    requires WellTyped(s, ty, v, depth)
    ensures |Write(s, ty, v, depth)| >= 4
  {
  }

  lemma {:induction false} ItemsSize(s: Registry, inner: Type, items: seq<Value>, depth: nat)
    requires forall i :: 0 <= i < |items| ==> WellTyped(s, inner, items[i], depth)
    ensures |WriteItems(s, inner, items, depth)| >= 4 * |items|
  {
    if items == [] {
    } else {
      WrittenSize(s, inner, items[0], depth);
      ItemsSize(s, inner, items[1..], depth);
    }
  }

  // ---- The round trip ----

  /** Reading what was written, whatever follows it, returns the value and leaves exactly what follows. */
  lemma {:induction false} RoundTrip(s: Registry, ty: Type, v: Value, depth: nat, suffix: Bytes)
    requires WellFormed(s) && WellTyped(s, ty, v, depth)
    ensures Read(s, ty, Write(s, ty, v, depth) + suffix, depth) == Ok(Parsed(Settled(s, v), suffix))
    decreases v, 0
  {
    Limits();
    match ty
    case IntType =>
      SignRoundTrip(v.n, 4);
      WordRoundTrip(Unsigned(v.n, 4), 4, suffix);
    case LongType =>
      SignRoundTrip(v.n, 8);
      WordRoundTrip(Unsigned(v.n, 8), 8, suffix);
    case DoubleType => TakeFront(v.bits, suffix);
    case TextType => TextRoundTrip(v.bytes, suffix);
    case BoolType => WordRoundTrip(if v.b then BOOL_TRUE else BOOL_FALSE, 4, suffix);
    case VectorType(inner) => VectorRoundTrip(s, inner, v, depth, suffix);
    case ObjectType(family) => ObjectRoundTrip(s, family, v, depth, suffix);
  }

  lemma {:induction false} VectorRoundTrip(s: Registry, inner: Type, v: Value, depth: nat, suffix: Bytes)
    requires WellFormed(s) && WellTyped(s, VectorType(inner), v, depth)
    ensures Read(s, VectorType(inner), Write(s, VectorType(inner), v, depth) + suffix, depth)
      == Ok(Parsed(Settled(s, v), suffix))
    decreases v.items, 2
  {
    Limits();
    var body := WriteItems(s, inner, v.items, depth);
    var size := Little(Unsigned(|v.items|, 4), 4);
    SignRoundTrip(|v.items|, 4);
    Nested(size, body, suffix);
    Nested(Little(VECTOR, 4), size + body, suffix);
    WordRoundTrip(VECTOR, 4, size + (body + suffix));
    WordRoundTrip(Unsigned(|v.items|, 4), 4, body + suffix);
    ItemsSize(s, inner, v.items, depth);
    ItemsRoundTrip(s, inner, v.items, depth, suffix);
  }

  lemma {:induction false} ItemsRoundTrip(s: Registry, inner: Type, items: seq<Value>, depth: nat, suffix: Bytes)
    requires WellFormed(s) && forall i :: 0 <= i < |items| ==> WellTyped(s, inner, items[i], depth)
    ensures ReadItems(s, inner, |items|, WriteItems(s, inner, items, depth) + suffix, depth)
      == Ok(Parsed(SettledItems(s, items), suffix))
    decreases items, 1
  {
    if items == [] {
      assert WriteItems(s, inner, items, depth) + suffix == suffix;
    } else {
      var tail := WriteItems(s, inner, items[1..], depth);
      Nested(Write(s, inner, items[0], depth), tail, suffix);
      RoundTrip(s, inner, items[0], depth, tail + suffix);
      ItemsRoundTrip(s, inner, items[1..], depth, suffix);
    }
  }

  lemma {:induction false} ObjectRoundTrip(s: Registry, family: Option<string>, v: Value, depth: nat, suffix: Bytes)
    requires WellFormed(s) && WellTyped(s, ObjectType(family), v, depth)
    ensures Read(s, ObjectType(family), Write(s, ObjectType(family), v, depth) + suffix, depth)
      == Ok(Parsed(Settled(s, v), suffix))
    decreases v.values, 2
  {
    var c := s[v.id];
    assert FieldsTyped(s, c.fields, v.values, depth + 1);
    var words := WriteWords(c.fields, v.values, 0, c.words);
    var body := WriteFields(s, c.fields, v.values, depth + 1);
    Nested(words, body, suffix);
    Nested(Little(v.id, 4), words + body, suffix);
    WordRoundTrip(v.id, 4, words + (body + suffix));
    WordsRoundTrip(c.fields, v.values, 0, c.words, body + suffix);
    var flags := ReadWords(words + (body + suffix), c.words).value.value;
    WordsAgree(c, v.values, flags);
    FieldsRoundTrip(s, c.fields, v.values, flags, depth + 1, suffix);
  }

  lemma {:induction false} FieldsRoundTrip(
      s: Registry, fields: seq<Field>, values: seq<Value>, flags: seq<nat>, depth: nat, suffix: Bytes)
    requires WellFormed(s) && FieldsTyped(s, fields, values, depth) && Agree(fields, values, flags)
    ensures ReadFields(s, fields, flags, WriteFields(s, fields, values, depth) + suffix, depth)
      == Ok(Parsed(SettledFields(s, fields, values), suffix))
    decreases values, 1
  {
    if values == [] {
      assert WriteFields(s, fields, values, depth) + suffix == suffix;
    } else {
      var tail := WriteFields(s, fields[1..], values[1..], depth);
      Nested(WriteField(s, fields[0], values[0], depth), tail, suffix);
      FieldRoundTrip(s, fields[0], values[0], flags, depth, tail + suffix);
      FieldsRoundTrip(s, fields[1..], values[1..], flags, depth, suffix);
    }
  }

  lemma {:induction false} FieldRoundTrip(s: Registry, f: Field, v: Value, flags: seq<nat>, depth: nat, suffix: Bytes)
    requires WellFormed(s) && FieldTyped(s, f, v, depth)
    requires !f.Plain? ==> (Set(flags, f.word, f.bit) <==> Present(f, v))
    ensures ReadField(s, f, flags, WriteField(s, f, v, depth) + suffix, depth)
      == Ok(Parsed(SettledField(s, f, v), suffix))
    decreases v, 1
  {
    if f.Plain? || (f.Optional? && !v.Absent?) {
      RoundTrip(s, f.ty, v, depth, suffix);
    } else {
      assert WriteField(s, f, v, depth) + suffix == suffix;
    }
  }

  // ---- What a reader accepts ----

  lemma WordBelow(b: Bytes, width: nat)
    ensures ReadWord(b, width).Ok? ==> ReadWord(b, width).value.value < Limit(width)
  {
    if |b| >= width { FromLittleBelow(b[..width]); }
  }

  lemma TextShort(b: Bytes)
    ensures ReadText(b).Ok? ==> |ReadText(b).value.value| < Limit(3)
  {
    Limits();
    WordBelow(b, 1);
    if ReadWord(b, 1).Ok? { WordBelow(ReadWord(b, 1).value.rest, 3); }
  }

  /** Whatever bytes it is given, a reader returns only well-typed values: numbers in range, constructors of the
      expected family, nesting within the bound. */
  lemma {:induction false} ReadIsTyped(s: Registry, ty: Type, b: Bytes, depth: nat)
    ensures Read(s, ty, b, depth).Ok? ==> WellTyped(s, ty, Read(s, ty, b, depth).value.value, depth)
    decreases 2 * Left(depth), ty, 0
  {
    match ty
    case IntType => WordBelow(b, 4);
    case LongType => WordBelow(b, 8);
    case DoubleType =>
    case TextType => TextShort(b);
    case BoolType =>
    case VectorType(inner) =>
      var marker := ReadWord(b, 4);
      if marker.Ok? {
        var size := ReadWord(marker.value.rest, 4);
        WordBelow(marker.value.rest, 4);
        if size.Ok? && Signed(size.value.value, 4) >= 0 {
          ItemsAreTyped(s, inner, Signed(size.value.value, 4), size.value.rest, depth);
        }
      }
    case ObjectType(family) =>
      var id := ReadWord(b, 4);
      if id.Ok? && id.value.value in s && depth < MAX_NESTING {
        var c := s[id.value.value];
        var flags := ReadWords(id.value.rest, c.words);
        if flags.Ok? { FieldsAreTyped(s, c.fields, flags.value.value, flags.value.rest, depth + 1); }
      }
  }

  lemma {:induction false} ItemsAreTyped(s: Registry, inner: Type, count: nat, b: Bytes, depth: nat)
    ensures var read := ReadItems(s, inner, count, b, depth);
      read.Ok? ==>
        |read.value.value| == count && forall i :: 0 <= i < count ==> WellTyped(s, inner, read.value.value[i], depth)
    decreases 2 * Left(depth), inner, 1 + count
  {
    if count == 0 {
    } else {
      ReadIsTyped(s, inner, b, depth);
      var first := Read(s, inner, b, depth);
      if first.Ok? {
        var rest := ReadItems(s, inner, count - 1, first.value.rest, depth);
        ItemsAreTyped(s, inner, count - 1, first.value.rest, depth);
        if rest.Ok? { FirstTyped(s, inner, first.value.value, rest.value.value, depth); }
      }
    }
  }

  lemma FirstTyped(s: Registry, inner: Type, first: Value, rest: seq<Value>, depth: nat)
    requires WellTyped(s, inner, first, depth)
    requires forall i :: 0 <= i < |rest| ==> WellTyped(s, inner, rest[i], depth)
    ensures var items := [first] + rest;
      |items| == |rest| + 1 && forall i :: 0 <= i < |items| ==> WellTyped(s, inner, items[i], depth)
  {
  }

  lemma {:induction false} FieldsAreTyped(s: Registry, fields: seq<Field>, flags: seq<nat>, b: Bytes, depth: nat)
    ensures var read := ReadFields(s, fields, flags, b, depth);
      read.Ok? ==> FieldsTyped(s, fields, read.value.value, depth)
    decreases 2 * Left(depth) + 1, |fields|
  {
    if fields == [] {
    } else {
      if !fields[0].Flag? { ReadIsTyped(s, fields[0].ty, b, depth); }
      var first := ReadField(s, fields[0], flags, b, depth);
      if first.Ok? { FieldsAreTyped(s, fields[1..], flags, first.value.rest, depth); }
    }
  }

  // ---- Wide integers: no declared field uses them, and they would not come back ----

  /** `bytes(n)` of a number is n zero bytes. */
  function WriteWide(n: nat): Bytes { Zeros(n) }

  lemma {:induction false} ZerosAreZero(n: nat)
    ensures FromLittle(Zeros(n)) == 0
  {
    if n == 0 {
    } else {
      assert Zeros(n)[1..] == Zeros(n - 1);
      ZerosAreZero(n - 1);
    }
  }

  /** A 128- or 256-bit number written by the generated code is never what the generated reader returns. */
  lemma WideNeverReturns(n: nat, width: nat, suffix: Bytes)
    requires width == 16 || width == 32
    ensures ReadWord(WriteWide(n) + suffix, width) != Ok(Parsed(n, suffix))
  {
    if ReadWord(WriteWide(n) + suffix, width) == Ok(Parsed(n, suffix)) {
      assert n == width;
      TakeFront(Zeros(n), suffix);
      ZerosAreZero(n);
    }
  }
}
