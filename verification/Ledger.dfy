/** The durable ingress ledger: a chain of committed batches, what of each was applied, and its restart check. */
module Ledger {
  import opened Prelude
  import Framing

  /** The update machine's state; `qts` is the counter that acknowledges secret-chat updates. */
  datatype Box = Box(qts: nat, rest: int)

  /** One received envelope: pushed live, or the answer to a difference request. */
  datatype Envelope = Envelope(raw: int, request: Option<int>)

  /** What an envelope holds for this package: a frame of a conversation, under the key it names; one that does not
      decrypt or unwrap under that key, and whether this ends the chat; a repeated step of a conversation that is
      already set up; the end of one; or something that is not a secret-chat update. */
  datatype Update =
    | Secret(chat: int, key: Framing.Key, wrapper: Framing.Wrapper)
    | Broken(chat: int, key: Framing.Key, fatal: bool)
    | Repeated(chat: int)
    | Discarded(chat: int)
    | Other

  /** The update machine, as functions of a saved state and an envelope, and the digest that names an envelope. */
  datatype Machine = Machine(
    after: (Box, Envelope) -> Box, updates: (Box, Envelope) -> seq<Update>, identity: Envelope -> int)

  datatype Batch = Batch(identity: int, envelope: Envelope, before: Box, after: Box, cursor: nat, applied: set<nat>)

  datatype State = State(checkpoint: Option<Box>, batches: seq<Batch>)

  function UpdatesFor(m: Machine, b: Batch): seq<Update> { m.updates(b.before, b.envelope) }

  // ---- The apply set and its contiguous cursor ----

  /** Everything below the cursor is applied, the cursor itself is not. */
  ghost predicate CursorAt(applied: set<nat>, cursor: nat) {
    cursor !in applied && forall i: nat :: i < cursor ==> i in applied
  }

  lemma CursorUnique(applied: set<nat>, c: nat, d: nat)
    requires CursorAt(applied, c) && CursorAt(applied, d)
    ensures c == d
  {
  }

  lemma {:induction false} CursorExists(applied: set<nat>, from: nat)
    requires forall i: nat :: i < from ==> i in applied
    ensures exists c: nat :: CursorAt(applied, c)
    decreases |set i | i in applied && i >= from|
  {
    if from !in applied {
      assert CursorAt(applied, from);
    } else {
      var left, next := set i | i in applied && i >= from, set i | i in applied && i >= from + 1;
      assert left == next + {from};
      CursorExists(applied, from + 1);
    }
  }

  ghost function CursorOf(applied: set<nat>): (c: nat)
    ensures CursorAt(applied, c)
  {
    CursorExists(applied, 0);
    var c: nat :| CursorAt(applied, c);
    c
  }

  /** The first number from `from` on that is not applied. */
  method Contiguous(applied: set<nat>, from: nat) returns (c: nat)
    requires forall i: nat :: i < from ==> i in applied
    ensures CursorAt(applied, c)
  {
    c := from;
    ghost var left := set i | i in applied && i >= c;
    while c in applied
      invariant forall i: nat :: i < c ==> i in applied
      invariant left == set i | i in applied && i >= c
      decreases |left|
    {
      ghost var next := set i | i in applied && i >= c + 1;
      assert left == next + {c};
      left := next;
      c := c + 1;
    }
  }

  ghost predicate BatchOk(m: Machine, b: Batch) {
    && b.identity == m.identity(b.envelope)
    && b.after == m.after(b.before, b.envelope) && b.before.qts <= b.after.qts
    && CursorAt(b.applied, b.cursor)
    && (forall i :: i in b.applied ==> i < |UpdatesFor(m, b)|)
  }

  ghost predicate Chained(batches: seq<Batch>) {
    forall j :: 0 < j < |batches| ==> batches[j - 1].after.qts == batches[j].before.qts
  }

  ghost predicate DistinctNames(batches: seq<Batch>) {
    forall i, j :: 0 <= i < j < |batches| ==> batches[i].identity != batches[j].identity
  }

  /** What must hold of a ledger before it may authorize an acknowledgment. */
  ghost predicate LedgerOk(m: Machine, s: State) {
    match s
    case State(checkpoint, batches) =>
      && (checkpoint.None? ==> batches == [])
      && (forall j :: 0 <= j < |batches| ==> BatchOk(m, batches[j]))
      && Chained(batches) && DistinctNames(batches)
      && (batches != [] ==> batches[|batches| - 1].after.qts == checkpoint.value.qts)
  }

  lemma {:induction false} ChainBelow(m: Machine, s: State, j: nat)
    requires LedgerOk(m, s) && j < |s.batches|
    ensures s.batches[j].after.qts <= s.checkpoint.value.qts
    decreases |s.batches| - j
  {
    if j + 1 < |s.batches| { ChainBelow(m, s, j + 1); }
  }

  /** The restart check accepts exactly the well-formed ledgers. */
  method Validate(m: Machine, s: State) returns (ok: bool)
    ensures ok <==> LedgerOk(m, s)
  {
    if s.checkpoint.None? { return s.batches == []; }
    var identities: set<int>, previous: Option<nat> := {}, None;
    ghost var frontier := s.checkpoint.value.qts;
    var j := 0;
    while j < |s.batches|
      invariant 0 <= j <= |s.batches|
      invariant forall i :: 0 <= i < j ==> BatchOk(m, s.batches[i]) && s.batches[i].after.qts <= frontier
      invariant Chained(s.batches[..j]) && DistinctNames(s.batches[..j])
      invariant identities == set i | 0 <= i < j :: s.batches[i].identity
      invariant previous == if j == 0 then None else Some(s.batches[j - 1].after.qts)
    {
      var b := s.batches[j];
      if b.identity in identities {
        Repeated(s.batches, j, identities);
        return false;
      }
      if b.identity != m.identity(b.envelope) { return false; }
      identities := identities + {b.identity};
      if b.before.qts > b.after.qts { return false; }
      if b.after.qts > s.checkpoint.value.qts {
        if LedgerOk(m, s) { ChainBelow(m, s, j); }
        return false;
      }
      if previous.Some? && b.before.qts != previous.value { return false; }
      previous := Some(b.after.qts);
      if exists i :: i in b.applied && i >= |UpdatesFor(m, b)| { return false; }
      var c := Contiguous(b.applied, 0);
      if c != b.cursor {
        if LedgerOk(m, s) { CursorUnique(b.applied, c, b.cursor); }
        return false;
      }
      if b.after != m.after(b.before, b.envelope) { return false; }
      j := j + 1;
    }
    assert s.batches[..j] == s.batches;
    ok := previous.None? || previous.value == s.checkpoint.value.qts;
  }

  lemma Repeated(batches: seq<Batch>, j: nat, identities: set<int>)
    requires j < |batches| && identities == set i | 0 <= i < j :: batches[i].identity
    requires batches[j].identity in identities
    ensures !DistinctNames(batches)
  {
    var i :| 0 <= i < j && batches[i].identity == batches[j].identity;
  }
}
