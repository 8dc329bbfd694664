/** The reader as the generated code runs it: a cursor over the bytes and a nesting depth that is put back. */
module SchemaReader {
  import opened Prelude
  import opened Octets
  import opened Schema

  /** A call's outcome against the specification's: the same value and the same bytes left, or both refuse. */
  ghost predicate Matches<T(!new)>(spec: Result<Parsed<T>>, r: Result<T>, rest: Bytes) {
    if r.Ok? then spec == Ok(Parsed(r.value, rest)) else spec.Err?
  }

  /** What a loop that already has `done` makes of the rest. */
  function Before<T>(done: seq<T>, rest: Result<Parsed<seq<T>>>): Result<Parsed<seq<T>>> {
    if rest.Err? then rest else Ok(Parsed(done + rest.value.value, rest.value.rest))
  }

  lemma BeforeNothing<T>(rest: Result<Parsed<seq<T>>>)
    ensures Before([], rest) == rest
  {
    if rest.Ok? { assert [] + rest.value.value == rest.value.value; }
  }

  lemma BeforeNext<T>(done: seq<T>, next: T, rest: Result<Parsed<seq<T>>>)
    ensures Before(done, Before([next], rest)) == Before(done + [next], rest)
  {
    if rest.Ok? { assert done + ([next] + rest.value.value) == (done + [next]) + rest.value.value; }
  }

  lemma ItemNext(
      s: Registry, inner: Type, count: nat, b: Bytes, depth: nat, done: seq<Value>, item: Value, rest: Bytes)
    requires count > 0 && Read(s, inner, b, depth) == Ok(Parsed(item, rest))
    ensures Before(done, ReadItems(s, inner, count, b, depth)) ==
      Before(done + [item], ReadItems(s, inner, count - 1, rest, depth))
  {
    BeforeNext(done, item, ReadItems(s, inner, count - 1, rest, depth));
  }

  lemma ItemFails(s: Registry, inner: Type, count: nat, b: Bytes, depth: nat, done: seq<Value>)
    requires count > 0 && Read(s, inner, b, depth).Err?
    ensures Before(done, ReadItems(s, inner, count, b, depth)).Err?
  {
  }

  lemma ItemsDone(s: Registry, inner: Type, b: Bytes, depth: nat, done: seq<Value>)
    ensures Before(done, ReadItems(s, inner, 0, b, depth)) == Ok(Parsed(done, b))
  {
    assert done + [] == done;
  }

  class Reader {
    const data: Bytes
    var position: nat
    var depth: nat

    predicate Valid()
      reads this
    {
      position <= |data|
    }

    function Rest(): Bytes
      requires Valid()
      reads this
    {
      data[position..]
    }

    constructor (data: Bytes)
      ensures Valid() && Rest() == data && depth == 0
    {
      this.data, position, depth := data, 0, 0;
    }

    method Bytes(n: nat) returns (r: Result<Bytes>)
      requires Valid()
      modifies this`position
      ensures Valid() && Matches(ReadBytes(old(Rest()), n), r, Rest())
    {
      if |data| - position < n { return Err("short"); }
      assert data[position..][..n] == data[position..position + n] && data[position..][n..] == data[position + n..];
      r := Ok(data[position..position + n]);
      position := position + n;
    }

    method Word(width: nat) returns (r: Result<nat>)
      requires Valid()
      modifies this`position
      ensures Valid() && Matches(ReadWord(old(Rest()), width), r, Rest())
    {
      var raw := Bytes(width);
      r := if raw.Ok? then Ok(FromLittle(raw.value)) else Err(raw.reason);
    }

    method Text() returns (r: Result<Bytes>)
      requires Valid()
      modifies this`position
      ensures Valid() && Matches(ReadText(old(Rest())), r, Rest())
    {
      var first := Word(1);
      if first.Err? { return Err(first.reason); }
      var size, fill := first.value, Fill(first.value + 1);
      if first.value == 254 {
        var long := Word(3);
        if long.Err? { return Err(long.reason); }
        size, fill := long.value, Fill(long.value);
      }
      var bytes := Bytes(size);
      if bytes.Err? { return bytes; }
      var skipped := Bytes(fill);
      r := if skipped.Ok? then bytes else skipped;
    }

    method Words(words: nat) returns (r: Result<seq<nat>>)
      requires Valid()
      modifies this`position
      ensures Valid() && Matches(ReadWords(old(Rest()), words), r, Rest())
    {
      var flags: seq<nat> := [];
      BeforeNothing(ReadWords(Rest(), words));
      var i := 0;
      while i < words
        invariant 0 <= i <= words && Valid()
        invariant ReadWords(old(Rest()), words) == Before(flags, ReadWords(Rest(), words - i))
      {
        ghost var b := Rest();
        var w := Word(4);
        if w.Err? { return Err(w.reason); }
        var next := w.value;
        BeforeNext(flags, next, ReadWords(Rest(), words - i - 1));
        assert ReadWords(b, words - i) == Before([next], ReadWords(Rest(), words - i - 1));
        flags := flags + [next];
        i := i + 1;
      }
      assert flags + [] == flags;
      r := Ok(flags);
    }

    /** One value of a type. The depth is what it was, on every way out. */
    method Value(s: Registry, ty: Type) returns (r: Result<Value>)
      requires Valid()
      modifies this
      ensures Valid() && depth == old(depth)
      ensures Matches(Read(s, ty, old(Rest()), depth), r, Rest())
      decreases 2 * Left(depth), ty, 1
    {
      match ty {
        case IntType =>
          var w := Word(4);
          r := if w.Ok? then Ok(Int(Signed(w.value, 4))) else Err(w.reason);
        case LongType =>
          var w := Word(8);
          r := if w.Ok? then Ok(Long(Signed(w.value, 8))) else Err(w.reason);
        case DoubleType =>
          var raw := Bytes(8);
          r := if raw.Ok? then Ok(Double(raw.value)) else Err(raw.reason);
        case TextType =>
          var text := Text();
          r := if text.Ok? then Ok(Schema.Text(text.value)) else Err(text.reason);
        case BoolType =>
          var w := Word(4);
          if w.Err? { return Err(w.reason); }
          r := if w.value == BOOL_TRUE then Ok(Bool(true))
               else if w.value == BOOL_FALSE then Ok(Bool(false))
               else Err("bool");
        case VectorType(inner) =>
          var marker := Word(4);
          if marker.Err? { return Err(marker.reason); }
          if marker.value != VECTOR { return Err("expected a vector"); }
          var size := Word(4);
          if size.Err? { return Err(size.reason); }
          var count := Signed(size.value, 4);
          if count < 0 || count > (|data| - position) / 4 { return Err("invalid vector length"); }
          var items := Items(s, inner, count);
          r := if items.Ok? then Ok(Vector(items.value)) else Err(items.reason);
        case ObjectType(family) =>
          r := BoxedObject(s, family);
      }
    }

    /** One boxed object, optionally of a given family. */
    method BoxedObject(s: Registry, family: Option<string>) returns (r: Result<Value>)
      requires Valid()
      modifies this
      ensures Valid() && depth == old(depth)
      ensures Matches(Read(s, ObjectType(family), old(Rest()), depth), r, Rest())
      decreases 2 * Left(depth), ObjectType(family), 0
    {
      var id := Word(4);
      if id.Err? { return Err(id.reason); }
      if id.value !in s { return Err("unknown constructor"); }
      if family.Some? && s[id.value].family != family.value { return Err("unexpected family"); }
      if depth >= MAX_NESTING { return Err("nesting too deep"); }
      depth := depth + 1;
      var flags := Words(s[id.value].words);
      if flags.Err? {
        depth := depth - 1;
        return Err(flags.reason);
      }
      var values := Fields(s, s[id.value].fields, flags.value);
      depth := depth - 1;
      r := if values.Ok? then Ok(Object(id.value, values.value)) else Err(values.reason);
    }

    /** One more item: what was to come is that item and what is still to come. */
    method NextItem(
        s: Registry, inner: Type, ghost left: nat, ghost items: seq<Value>, ghost all: Result<Parsed<seq<Value>>>)
      returns (r: Result<Value>)
      requires Valid() && left > 0 && all == Before(items, ReadItems(s, inner, left, Rest(), depth))
      modifies this
      ensures Valid() && depth == old(depth)
      ensures r.Ok? ==> all == Before(items + [r.value], ReadItems(s, inner, left - 1, Rest(), depth))
      ensures r.Err? ==> all.Err?
      decreases 2 * Left(depth), inner, 2
    {
      ghost var b := Rest();
      r := Value(s, inner);
      if r.Ok? {
        ItemNext(s, inner, left, b, depth, items, r.value, Rest());
      } else {
        ItemFails(s, inner, left, b, depth, items);
      }
    }

    method Items(s: Registry, inner: Type, count: nat) returns (r: Result<seq<Value>>)
      requires Valid()
      modifies this
      ensures Valid() && depth == old(depth)
      ensures Matches(ReadItems(s, inner, count, old(Rest()), depth), r, Rest())
      decreases 2 * Left(depth), inner, 3
    {
      var items: seq<Value> := [];
      ghost var all := ReadItems(s, inner, count, Rest(), depth);
      BeforeNothing(all);
      var left := count;
      while left > 0
        invariant Valid() && depth == old(depth)
        invariant all == Before(items, ReadItems(s, inner, left, Rest(), depth))
      {
        var item := NextItem(s, inner, left, items, all);
        if item.Err? { return Err(item.reason); }
        items := items + [item.value];
        left := left - 1;
      }
      ItemsDone(s, inner, Rest(), depth, items);
      r := Ok(items);
    }

    method OneField(s: Registry, f: Field, flags: seq<nat>) returns (r: Result<Value>)
      requires Valid()
      modifies this
      ensures Valid() && depth == old(depth)
      ensures Matches(ReadField(s, f, flags, old(Rest()), depth), r, Rest())
      decreases 2 * Left(depth) + 1, 0
    {
      match f {
        case Plain(ty) => r := Value(s, ty);
        case Optional(word, bit, ty) =>
          if Set(flags, word, bit) { r := Value(s, ty); } else { r := Ok(Absent); }
        case Flag(word, bit) => r := Ok(Bool(Set(flags, word, bit)));
      }
    }

    method Fields(s: Registry, fields: seq<Field>, flags: seq<nat>) returns (r: Result<seq<Value>>)
      requires Valid()
      modifies this
      ensures Valid() && depth == old(depth)
      ensures Matches(ReadFields(s, fields, flags, old(Rest()), depth), r, Rest())
      decreases 2 * Left(depth) + 1, 1
    {
      var values: seq<Value> := [];
      BeforeNothing(ReadFields(s, fields, flags, Rest(), depth));
      var i := 0;
      while i < |fields|
        invariant 0 <= i <= |fields| && Valid() && depth == old(depth)
        invariant ReadFields(s, fields, flags, old(Rest()), depth) ==
          Before(values, ReadFields(s, fields[i..], flags, Rest(), depth))
      {
        ghost var b := Rest();
        assert fields[i..][0] == fields[i] && fields[i..][1..] == fields[i + 1..];
        var value := OneField(s, fields[i], flags);
        if value.Err? { return Err(value.reason); }
        BeforeNext(values, value.value, ReadFields(s, fields[i + 1..], flags, Rest(), depth));
        assert ReadFields(s, fields[i..], flags, b, depth) ==
          Before([value.value], ReadFields(s, fields[i + 1..], flags, Rest(), depth));
        values := values + [value.value];
        i := i + 1;
      }
      assert values + [] == values;
      r := Ok(values);
    }
  }
}
