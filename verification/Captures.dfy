/** The captured envelopes of one authorization: which of their updates are done, and what keeps that record exact. */
module Captures {
  import opened Prelude
  import opened Ledger

  /** Every envelope ever captured, oldest first; the pending batches are the newest of them. */
  type History = seq<(Box, Envelope)>

  function Removed(history: History, s: State): int { |history| - |s.batches| }

  ghost predicate Matches(history: History, s: State) {
    && |s.batches| <= |history|
    && (forall j :: 0 <= j < |s.batches| ==>
          (s.batches[j].before, s.batches[j].envelope) == history[Removed(history, s) + j])
  }

  function Total(m: Machine, history: History, n: nat): nat
    requires n < |history|
  {
    |m.updates(history[n].0, history[n].1)|
  }

  /** An update is done when its capture left the ledger, or its batch says it was applied. */
  predicate Done(history: History, s: State, n: nat, i: nat)
    requires |s.batches| <= |history| && n < |history|
  {
    n < Removed(history, s) || i in s.batches[n - Removed(history, s)].applied
  }

  /** The effects in the committed protocol state: each done update once, and no other. */
  ghost predicate ExactlyOnce(m: Machine, history: History, s: State, effects: seq<(nat, nat)>)
    requires |s.batches| <= |history|
  {
    match s
    case State(_, _) =>
      && (forall a, b :: 0 <= a < b < |effects| ==> effects[a] != effects[b])
      && (forall n: nat, i: nat :: n < |history| && i < Total(m, history, n) ==>
            (Done(history, s, n, i) <==> (n, i) in effects))
      && (forall e :: e in effects ==> e.0 < |history| && e.1 < Total(m, history, e.0))
  }

  predicate IsPending(m: Machine, s: State, envelope: Envelope) {
    exists j :: 0 <= j < |s.batches| && s.batches[j].identity == m.identity(envelope)
  }

  /** An envelope that starts at the frontier and does not move it back. */
  predicate Continues(m: Machine, s: State, envelope: Envelope, box: Box)
    requires s.checkpoint.Some?
  {
    box.qts == s.checkpoint.value.qts <= m.after(box, envelope).qts
  }

  function NewBatch(m: Machine, envelope: Envelope, box: Box): Batch {
    Batch(m.identity(envelope), envelope, box, m.after(box, envelope), 0, {})
  }

  function Extended(s: State, b: Batch): State { State(Some(b.after), s.batches + [b]) }

  function Marked(s: State, j: nat, i: nat, cursor: nat): State
    requires j < |s.batches|
  {
    var b := s.batches[j];
    s.(batches := s.batches[j := b.(applied := b.applied + {i}, cursor := cursor)])
  }

  /** Update i of batch j is marked, and its cursor moved past it if it can. */
  ghost predicate Advanced(s: State, s': State, j: nat, i: nat) {
    j < |s.batches| && exists cursor :: CursorAt(s.batches[j].applied + {i}, cursor) && s' == Marked(s, j, i, cursor)
  }

  function Dropped(s: State, k: nat): State
    requires k <= |s.batches|
  {
    s.(batches := s.batches[k..])
  }

  predicate Complete(m: Machine, b: Batch) { b.cursor == |UpdatesFor(m, b)| }

  lemma CaptureKeeps(m: Machine, history: History, s: State, effects: seq<(nat, nat)>, b: Batch)
    requires LedgerOk(m, s) && Matches(history, s) && ExactlyOnce(m, history, s, effects) && s.checkpoint.Some?
    requires b == NewBatch(m, b.envelope, b.before)
    requires forall j :: 0 <= j < |s.batches| ==> s.batches[j].identity != b.identity
    requires b.before.qts == s.checkpoint.value.qts <= b.after.qts
    ensures var s' := Extended(s, b);
      var history' := history + [(b.before, b.envelope)];
      LedgerOk(m, s') && Matches(history', s') && ExactlyOnce(m, history', s', effects)
  {
    var s', history' := Extended(s, b), history + [(b.before, b.envelope)];
    assert CursorAt(b.applied, 0);
    forall n: nat, i: nat | n < |history'| && i < Total(m, history', n)
      ensures Done(history', s', n, i) <==> (n, i) in effects
    {
      if n < |history| {
        assert Total(m, history, n) == Total(m, history', n);
        assert Done(history', s', n, i) <==> Done(history, s, n, i);
      }
    }
    forall e | e in effects ensures e.0 < |history'| && e.1 < Total(m, history', e.0) {
      assert e.1 < Total(m, history, e.0);
    }
  }

  lemma MarkKeeps(m: Machine, history: History, s: State, effects: seq<(nat, nat)>, j: nat, i: nat, cursor: nat)
    requires LedgerOk(m, s) && Matches(history, s) && ExactlyOnce(m, history, s, effects)
    requires j < |s.batches| && i < |UpdatesFor(m, s.batches[j])| && i !in s.batches[j].applied
    requires CursorAt(s.batches[j].applied + {i}, cursor)
    ensures var s' := Marked(s, j, i, cursor);
      LedgerOk(m, s') && Matches(history, s')
      && ExactlyOnce(m, history, s', effects + [(Removed(history, s) + j, i)])
  {
    var s', at := Marked(s, j, i, cursor), Removed(history, s) + j;
    assert !Done(history, s, at, i);
    forall n: nat, k: nat | n < |history| && k < Total(m, history, n)
      ensures Done(history, s', n, k) <==> (n, k) in effects + [(at, i)]
    {
      assert Done(history, s', n, k) <==> Done(history, s, n, k) || (n == at && k == i);
    }
  }

  lemma DropKeeps(m: Machine, history: History, s: State, effects: seq<(nat, nat)>, k: nat)
    requires LedgerOk(m, s) && Matches(history, s) && ExactlyOnce(m, history, s, effects)
    requires k <= |s.batches| && forall j :: 0 <= j < k ==> Complete(m, s.batches[j])
    ensures var s' := Dropped(s, k);
      LedgerOk(m, s') && Matches(history, s') && ExactlyOnce(m, history, s', effects)
  {
    var s' := Dropped(s, k);
    forall n: nat, i: nat | n < |history| && i < Total(m, history, n)
      ensures Done(history, s', n, i) <==> Done(history, s, n, i)
    {
      if Removed(history, s) <= n < Removed(history, s') {
        var b := s.batches[n - Removed(history, s)];
        assert BatchOk(m, b) && Complete(m, b);
      }
    }
  }
}
