/** Two honest ends over a network that loses, duplicates and reorders: what every run keeps. */
module Delivery {
  import opened Prelude
  import opened Framing
  import opened Sequence

  /** One end: its committed state, every wrapper it ever committed, and everything it accepted. */
  datatype End = End(s: State, sent: seq<Wrapper>, got: seq<Wrapper>)

  datatype System = System(a: End, b: End)

  function Start(): System {
    System(End(Initial(true), [], []), End(Initial(false), [], []))
  }

  function Echo(w: Wrapper): int { w.inSeq / 2 }

  predicate SameHeader(v: Wrapper, o: Wrapper) {
    v.inSeq == o.inSeq && v.outSeq == o.outSeq && v.layer == o.layer
  }

  /** A frame of slot `o`: the original bytes, or the self-delete that replaced withdrawn content. */
  predicate Carries(v: Wrapper, o: Wrapper) {
    && SameHeader(v, o)
    && (v.action == o.action || (o.action.Content? && v.action == Withdrawn(o.action.id)))
  }

  /** What an accepted slot leaves in the mailbox: a resend request is consumed and becomes a no-op. */
  predicate Stored(v: Wrapper, o: Wrapper) {
    Carries(v, o) || (o.action.Resend? && v == o.(action := Noop))
  }

  // ---- What holds of the direction from a sender to a receiver ----

  ghost predicate SlotOk(s: End, n: int)
    requires 0 <= n < |s.sent|
  {
    var w := s.sent[n];
    && w.outSeq == TransformOut(n, s.s.outbound)
    && w.inSeq == TransformIn(Echo(w), s.s.outbound)
    && 0 <= Echo(w) <= s.s.inSeq
    && MIN_LAYER <= w.layer <= OutgoingLayer(s.s.layer)
  }

  ghost predicate Slots(s: End) {
    && |s.sent| == s.s.outSeq
    && (forall n :: 0 <= n < |s.sent| ==> SlotOk(s, n))
    && (forall m, n :: 0 <= m <= n < |s.sent| ==>
          Echo(s.sent[m]) <= Echo(s.sent[n]) && s.sent[m].layer <= s.sent[n].layer)
  }

  /** The receiver accepted exactly a prefix of what the sender committed, each slot once, in order. */
  ghost predicate Prefix(sent: seq<Wrapper>, inSeq: int, got: seq<Wrapper>) {
    && 0 <= inSeq <= |sent|
    && |got| == inSeq
    && (forall n :: 0 <= n < inSeq ==> Stored(got[n], sent[n]))
  }

  ghost predicate Watermark(sent: seq<Wrapper>, c: State) {
    && c.inSeq <= |sent|
    && c.peerIn == (if c.inSeq == 0 then 0 else Echo(sent[c.inSeq - 1]))
    && c.wrapperLayer == (if c.inSeq == 0 then 0 else sent[c.inSeq - 1].layer)
  }

  /** Queued numbers are real slots ahead of the counter and within the recovery window. */
  ghost predicate Waiting(sent: seq<Wrapper>, c: State, lo: int, hi: int) {
    forall k :: k in c.queue ==> lo <= k <= hi && 0 <= k < |sent| && Stored(c.queue[k], sent[k])
  }

  ghost predicate GapOk(c: State) {
    && (c.gapRequested <==> c.queue != map[])
    && (c.gapRequested ==> c.gapEnd.Some? && c.gapEnd.value in c.queue)
    && (!c.gapRequested ==> c.gapEnd == None && c.resendDue == None)
  }

  /** A due span starts at or below the missing head, ends just below the hole's end, and is answerable. */
  ghost predicate DueOk(c: State) {
    c.resendDue.Some? ==>
      && c.gapRequested && c.gapEnd.Some?
      && (var due := c.resendDue.value;
          var end := c.gapEnd.value;
          && due.last == 2 * (end - 1) + OutParity(!c.outbound)
          && due.first % 2 == OutParity(!c.outbound)
          && 0 <= due.first <= 2 * c.inSeq + OutParity(!c.outbound)
          && c.inSeq < end && 2 * end + OutParity(!c.outbound) <= due.first + 2 * MAX_RESEND_COUNT)
  }

  /** A committed request of `r` that covers every slot its peer still owes below the hole's end. */
  ghost predicate Asked(r: End, k: int) {
    && 0 <= k < |r.sent|
    && r.s.gapEnd.Some?
    && r.sent[k].action.Resend?
    && r.sent[k].action.first <= 2 * r.s.inSeq + OutParity(!r.s.outbound)
    && r.sent[k].action.last == 2 * (r.s.gapEnd.value - 1) + OutParity(!r.s.outbound)
  }

  ghost predicate NoOrphan(r: End) {
    r.s.gapRequested ==> r.s.resendDue.Some? || exists k :: Asked(r, k)
  }

  /** Every slot the peer has not acknowledged is retained; whatever is retained is a committed slot. */
  ghost predicate Retained(s: End) {
    && (forall n :: 0 <= s.s.peerIn <= n < |s.sent| ==> TransformOut(n, s.s.outbound) in s.s.outbox)
    && (forall k :: k in s.s.outbox ==>
          && 0 <= k && k % 2 == OutParity(s.s.outbound) && k / 2 < |s.sent|
          && Carries(s.s.outbox[k].wrapper, s.sent[k / 2]))
  }

  /** A request in slot `n` starts at the echo it carries and stays inside what the peer has sent. */
  ghost predicate AskHonest(s: End, n: int, peerOut: int)
    requires 0 <= n < |s.sent|
  {
    s.sent[n].action.Resend? ==>
      var first, last := s.sent[n].action.first, s.sent[n].action.last;
      && 0 <= first <= last
      && first % 2 == last % 2 == OutParity(!s.s.outbound)
      && first >= 2 * Echo(s.sent[n])
      && last < 2 * peerOut
      && last - first < 2 * MAX_RESEND_COUNT
  }

  ghost predicate Asks(s: End, peerOut: int) {
    forall n :: 0 <= n < |s.sent| ==> AskHonest(s, n, peerOut)
  }

  /** The mailbox is what was accepted and not yet delivered. */
  ghost predicate Mailbox(r: End) {
    && |r.s.mailbox| <= |r.got|
    && r.s.mailbox == r.got[|r.got| - |r.s.mailbox|..]
  }

  /** An end on its own. */
  ghost predicate Own(e: End) {
    Slots(e) && GapOk(e.s) && DueOk(e.s) && NoOrphan(e) && Retained(e) && Mailbox(e) && e.s.peerIn >= 0
  }

  /** One direction: what receiver `r` holds of sender `s`. */
  ghost predicate Flow(s: End, r: End) {
    && s.s.outbound != r.s.outbound
    && Prefix(s.sent, r.s.inSeq, r.got)
    && Watermark(s.sent, r.s)
    && Waiting(s.sent, r.s, r.s.inSeq + 1, r.s.inSeq + MAX_RESEND_COUNT)
    && Asks(s, |r.sent|)
    && r.s.peerIn <= |r.sent|
  }

  ghost predicate Inv(x: End, y: End) {
    Own(x) && Own(y) && Flow(x, y) && Flow(y, x)
  }

  /** The part of the invariant a receive depends on. */
  ghost predicate CanReceive(s: End, r: End) {
    && Slots(s) && s.s.inSeq <= r.s.outSeq
    && Flow(s, r) && GapOk(r.s) && DueOk(r.s) && NoOrphan(r)
  }

  lemma InitialInv()
    ensures Inv(Start().a, Start().b)
  {
  }

  // ---- Receiving ----

  /** With an honest slot, the checks fail exactly when the slot is beyond the recovery window. */
  lemma PreflightHonest(s: End, r: End, n: nat, w: Wrapper)
    requires CanReceive(s, r) && n < |s.sent| && SameHeader(w, s.sent[n])
    ensures Preflight(r.s, w) ==
      if n < r.s.inSeq || n in r.s.queue then Replay
      else if n - r.s.inSeq > MAX_RESEND_COUNT then Fatal else Fresh
    ensures w.outSeq == TransformOut(n, s.s.outbound) && w.outSeq / 2 == n
  {
    Header(s, n, w);
    if n >= r.s.inSeq && n !in r.s.queue {
      SlotOrderOk(s, r, n, w);
      if r.s.inSeq < n <= r.s.inSeq + MAX_RESEND_COUNT { QueueBelowCount(s, r, n); }
    }
  }

  lemma Header(s: End, n: nat, w: Wrapper)
    requires Slots(s) && n < |s.sent| && SameHeader(w, s.sent[n])
    ensures w.outSeq == TransformOut(n, s.s.outbound) && w.outSeq / 2 == n
    ensures w.outSeq % 2 == OutParity(s.s.outbound) && w.inSeq % 2 == InParity(s.s.outbound)
    ensures w.inSeq >= 0 && w.outSeq >= 0
  {
    assert SlotOk(s, n);
  }

  lemma SlotOrderOk(s: End, r: End, n: nat, w: Wrapper)
    requires Slots(s) && s.s.inSeq <= r.s.outSeq && Watermark(s.sent, r.s)
    requires r.s.inSeq <= n < |s.sent| && SameHeader(w, s.sent[n])
    ensures OrderOk(r.s, w)
  {
    assert SlotOk(s, n);
    if r.s.inSeq > 0 {
      assert Echo(s.sent[r.s.inSeq - 1]) <= Echo(s.sent[n]);
      assert s.sent[r.s.inSeq - 1].layer <= s.sent[n].layer;
    }
  }

  /** The count guard never fires: distinct numbers in the window, one of them still free. */
  lemma QueueBelowCount(s: End, r: End, n: nat)
    requires Waiting(s.sent, r.s, r.s.inSeq + 1, r.s.inSeq + MAX_RESEND_COUNT)
    requires r.s.inSeq < n <= r.s.inSeq + MAX_RESEND_COUNT && n !in r.s.queue
    ensures |r.s.queue| < MAX_RESEND_COUNT
  {
    var all := r.s.queue.Keys + {n as int};
    RangeCardinality(all, r.s.inSeq + 1, r.s.inSeq + MAX_RESEND_COUNT + 1);
    assert |all| == |r.s.queue.Keys| + 1;
    assert |r.s.queue.Keys| == |r.s.queue|;
  }

  function Popped(c: State): State
    requires c.inSeq in c.queue
  {
    Advance(c.(queue := c.queue - {c.inSeq}), c.queue[c.inSeq])
  }

  lemma PopHonest(s: End, c: State, hi: int)
    requires Slots(s) && s.s.inSeq <= c.outSeq && c.inSeq in c.queue
    requires Watermark(s.sent, c) && Waiting(s.sent, c, c.inSeq, hi)
    ensures OrderOk(c, c.queue[c.inSeq]) && c.peerIn <= Popped(c).peerIn
    ensures Watermark(s.sent, Popped(c)) && Waiting(s.sent, Popped(c), Popped(c).inSeq, hi)
  {
    assert Stored(c.queue[c.inSeq], s.sent[c.inSeq]);
    assert SlotOk(s, c.inSeq);
    if c.inSeq > 0 {
      assert Echo(s.sent[c.inSeq - 1]) <= Echo(s.sent[c.inSeq]);
    }
  }

  lemma RanOne(sent: seq<Wrapper>, c: State, tail: Drained, hi: int)
    requires c.inSeq in c.queue && c.inSeq < |sent| && Stored(c.queue[c.inSeq], sent[c.inSeq])
    requires Ran(sent, Popped(c), tail, hi) && c.peerIn <= Popped(c).peerIn
    ensures Ran(sent, c, Drained(tail.state, [c.queue[c.inSeq]] + tail.ready), hi)
  {
    var ready := [c.queue[c.inSeq]] + tail.ready;
    forall i | 0 <= i < |ready| ensures Stored(ready[i], sent[c.inSeq + i]) {
      if i > 0 { assert ready[i] == tail.ready[i - 1]; }
    }
    forall k | c.inSeq <= k < tail.state.inSeq ensures k in c.queue {
      if k > c.inSeq { assert k in Popped(c).queue; }
    }
  }

  /** Draining an honest queue never fails and accepts exactly the consecutive run of queued slots. */
  lemma {:induction false} DrainHonest(s: End, c: State, hi: int)
    requires Slots(s) && s.s.inSeq <= c.outSeq
    requires Watermark(s.sent, c) && Waiting(s.sent, c, c.inSeq, hi)
    ensures Drain(c).Ok?
    ensures Ran(s.sent, c, Drain(c).value, hi)
    decreases |c.queue|
  {
    if c.inSeq in c.queue {
      PopHonest(s, c, hi);
      DrainHonest(s, Popped(c), hi);
      RanOne(s.sent, c, Drain(Popped(c)).value, hi);
    }
  }

  /** What a drain from `c` did: `d.ready` are the slots from `c.inSeq` on, and the rest still waits. */
  ghost predicate Ran(sent: seq<Wrapper>, c: State, d: Drained, hi: int) {
    && d.state == c.(inSeq := d.state.inSeq, peerIn := d.state.peerIn, wrapperLayer := d.state.wrapperLayer,
                     queue := d.state.queue)
    && d.state.inSeq == c.inSeq + |d.ready| <= |sent|
    && (forall i :: 0 <= i < |d.ready| ==> Stored(d.ready[i], sent[c.inSeq + i]))
    && d.state.queue == (map k | k in c.queue && k > d.state.inSeq :: c.queue[k])
    && (forall k :: c.inSeq <= k < d.state.inSeq ==> k in c.queue)
    && d.state.inSeq !in c.queue
    && c.peerIn <= d.state.peerIn
    && Watermark(sent, d.state) && Waiting(sent, d.state, d.state.inSeq + 1, hi)
  }

  /** Every slot from the next expected one to the end of the hole is missing. */
  ghost predicate HoleBelow(c: State) {
    c.gapEnd.Some? ==> forall k :: c.inSeq <= k < c.gapEnd.value ==> k !in c.queue
  }

  /** The due span is the missing run: from the next expected slot to just below the first queued one. */
  ghost predicate ExactlyMissing(c: State) {
    && c.gapEnd.Some? && c.gapEnd.value in c.queue && HoleBelow(c)
    && (forall k :: k in c.queue ==> c.gapEnd.value <= k)
    && c.resendDue
      == Some(Span(2 * c.inSeq + OutParity(!c.outbound), 2 * (c.gapEnd.value - 1) + OutParity(!c.outbound)))
  }

  /** A hole is open that was not the open one before: there was none, or the counter has passed its end. */
  predicate NewHole(c: State, d: State) {
    d.queue != map[] && (c.gapEnd == None || c.gapEnd.value <= d.inSeq)
  }

  /** The gap fields after settling: none when nothing waits, the next hole when the old one closed. */
  lemma SettleHonest(c: State, base: int)
    requires forall k :: k in c.queue ==> c.inSeq < k <= base + MAX_RESEND_COUNT
    requires 0 <= base <= c.inSeq
    requires c.gapRequested ==> c.gapEnd.Some? && (c.gapEnd.value in c.queue || c.gapEnd.value <= c.inSeq)
    requires !c.gapRequested ==> c.queue == map[] && c.gapEnd == None && c.resendDue == None
    requires c.gapRequested && c.resendDue.Some? && c.inSeq < c.gapEnd.value ==> DueOk(c)
    ensures var (r, resend) := SettleGap(c, OutParity(!c.outbound));
      && r == c.(gapRequested := r.gapRequested, gapEnd := r.gapEnd, resendDue := r.resendDue)
      && GapOk(r) && DueOk(r)
      && (r.gapRequested && r.resendDue == None ==> c.gapRequested && c.resendDue == None && r.gapEnd == c.gapEnd)
      && (resend.Some? ==> r.resendDue == resend && ExactlyMissing(r) && NewHole(c, r))
      && (resend == None ==> !NewHole(c, r) && (r.resendDue == None || r.resendDue == c.resendDue))
  {
    var waiting := map k | k in c.queue && k > c.inSeq :: c.queue[k];
    assert waiting == c.queue;
  }

  /** Slot `n` joined what was received: counted up to the first missing number, queued beyond it. */
  ghost predicate Moved(c: State, n: int, d: State) {
    && (forall k :: k in d.queue <==> (k in c.queue || k == n) && k >= d.inSeq)
    && (forall k :: c.inSeq <= k < d.inSeq ==> k in c.queue || k == n)
    && d.inSeq !in d.queue && (n == c.inSeq ==> n < d.inSeq)
  }

  /** Accepting touches only the incoming side of the state, and only moves it forward. */
  ghost predicate OnlyIncoming(c: State, d: State) {
    && d == c.(layer := d.layer, inSeq := d.inSeq, peerIn := d.peerIn, wrapperLayer := d.wrapperLayer,
               queue := d.queue, gapRequested := d.gapRequested, gapEnd := d.gapEnd, resendDue := d.resendDue)
    && c.layer <= d.layer && c.peerIn <= d.peerIn && c.inSeq <= d.inSeq
  }

  ghost predicate Inflow(sent: seq<Wrapper>, d: State, got: seq<Wrapper>) {
    && Prefix(sent, d.inSeq, got) && Watermark(sent, d)
    && Waiting(sent, d, d.inSeq + 1, d.inSeq + MAX_RESEND_COUNT)
  }

  /** The hole that stays open is asked for; a span is decided exactly for a new hole, and is the missing run. */
  ghost predicate GapSide(r: End, d: State, resend: Option<Span>) {
    && GapOk(d) && DueOk(d) && NoOrphan(End(d, r.sent, r.got))
    && (resend.Some? ==> d.resendDue == resend && ExactlyMissing(d) && NewHole(r.s, d))
    && (resend == None ==> !NewHole(r.s, d) && (d.resendDue == None || d.resendDue == r.s.resendDue))
  }

  /** What accepting slot `n` leaves: the same outgoing side, a longer prefix or a longer queue. */
  ghost predicate AcceptedOk(s: End, r: End, n: int, acc: Accepted) {
    && OnlyIncoming(r.s, acc.state)
    && Moved(r.s, n, acc.state)
    && Inflow(s.sent, acc.state, r.got + acc.ready)
    && GapSide(r, acc.state, acc.resend)
  }

  /** A request still covers the hole after more slots below or above it arrive. */
  lemma StillAsked(r: End, d: State)
    requires NoOrphan(r) && r.s.gapRequested && r.s.resendDue == None
    requires d.gapEnd == r.s.gapEnd && d.inSeq >= r.s.inSeq && d.outbound == r.s.outbound
    ensures NoOrphan(End(d, r.sent, r.got))
  {
    var k :| Asked(r, k);
    assert Asked(End(d, r.sent, r.got), k);
  }

  lemma AheadState(c: State, n: int, w: Wrapper, d: State)
    requires GapOk(c) && DueOk(c) && c.inSeq < n <= c.inSeq + MAX_RESEND_COUNT
    requires forall k :: k in c.queue ==> c.inSeq < k
    requires w.outSeq == TransformOut(n, !c.outbound) && w.outSeq / 2 == n && w.outSeq % 2 == OutParity(!c.outbound)
    requires d == QueueAhead(c, w).state
    ensures d == c.(queue := c.queue[n := w], gapRequested := true, gapEnd := d.gapEnd, resendDue := d.resendDue)
    ensures c.gapRequested ==> d.gapEnd == c.gapEnd && d.resendDue == c.resendDue
    ensures !c.gapRequested ==> QueueAhead(c, w).resend == d.resendDue && ExactlyMissing(d) && NewHole(c, d)
    ensures c.gapRequested ==> QueueAhead(c, w).resend == None && !NewHole(c, d)
    ensures GapOk(d) && DueOk(d)
  {
    assert n in d.queue;
  }

  lemma AcceptAhead(s: End, r: End, n: nat, w: Wrapper)
    requires CanReceive(s, r) && r.s.inSeq < n < |s.sent| && Stored(w, s.sent[n]) && Preflight(r.s, w) == Fresh
    ensures Accept(r.s, w).Ok? && AcceptedOk(s, r, n, Accept(r.s, w).value)
  {
    Header(s, n, w);
    PreflightHonest(s, r, n, w);
    var c0 := r.s.(layer := RaiseRemoteLayer(r.s.layer, w.layer));
    assert Accept(r.s, w) == Ok(QueueAhead(c0, w));
    AheadOk(s, r, n, w, c0);
  }

  lemma AheadOk(s: End, r: End, n: nat, w: Wrapper, c0: State)
    requires CanReceive(s, r)
    requires r.s.inSeq < n < |s.sent| && n <= r.s.inSeq + MAX_RESEND_COUNT && Stored(w, s.sent[n])
    requires w.outSeq == TransformOut(n, !r.s.outbound)
    requires c0 == r.s.(layer := c0.layer) && r.s.layer <= c0.layer
    ensures AcceptedOk(s, r, n, QueueAhead(c0, w))
  {
    var acc := QueueAhead(c0, w);
    AheadState(c0, n, w, acc.state);
    assert r.got + acc.ready == r.got;
    if r.s.gapRequested && r.s.resendDue == None { StillAsked(r, acc.state); }
  }

  lemma AcceptNext(s: End, r: End, w: Wrapper)
    requires CanReceive(s, r) && r.s.inSeq < |s.sent| && Stored(w, s.sent[r.s.inSeq]) && Preflight(r.s, w) == Fresh
    ensures Accept(r.s, w).Ok? && AcceptedOk(s, r, r.s.inSeq, Accept(r.s, w).value)
  {
    Header(s, r.s.inSeq, w);
    SlotOrderOk(s, r, r.s.inSeq, w);
    var c := Counted(r.s, w);
    NextStart(s.sent, r.s, w);
    DrainHonest(s, c, r.s.inSeq + MAX_RESEND_COUNT);
    AcceptUnfolds(r.s, w);
    NextOk(s, r, w, c, Drain(c).value);
  }

  function Counted(c: State, w: Wrapper): State {
    Advance(c.(layer := RaiseRemoteLayer(c.layer, w.layer)), w)
  }

  lemma NextStart(sent: seq<Wrapper>, c: State, w: Wrapper)
    requires c.inSeq < |sent| && Stored(w, sent[c.inSeq])
    requires Waiting(sent, c, c.inSeq + 1, c.inSeq + MAX_RESEND_COUNT)
    ensures Watermark(sent, Counted(c, w))
    ensures Waiting(sent, Counted(c, w), c.inSeq + 1, c.inSeq + MAX_RESEND_COUNT)
  {
  }

  lemma AcceptUnfolds(c: State, w: Wrapper)
    requires Preflight(c, w) == Fresh && w.outSeq == TransformOut(c.inSeq, !c.outbound)
    requires Drain(Counted(c, w)).Ok?
    ensures var run := Drain(Counted(c, w)).value;
      var (d, resend) := SettleGap(run.state, OutParity(!c.outbound));
      Accept(c, w) == Ok(Accepted(d, [w] + run.ready, resend))
  {
  }

  lemma NextOk(s: End, r: End, w: Wrapper, c: State, run: Drained)
    requires CanReceive(s, r)
    requires r.s.inSeq < |s.sent| && Stored(w, s.sent[r.s.inSeq])
    requires c == Advance(r.s.(layer := c.layer), w) && r.s.layer <= c.layer && r.s.peerIn <= c.peerIn
    requires Ran(s.sent, c, run, r.s.inSeq + MAX_RESEND_COUNT)
    ensures var (d, resend) := SettleGap(run.state, OutParity(!r.s.outbound));
      AcceptedOk(s, r, r.s.inSeq, Accepted(d, [w] + run.ready, resend))
  {
    NextSettled(r, c, run.state);
    var (d, resend) := SettleGap(run.state, OutParity(!r.s.outbound));
    NextInflow(s.sent, r, w, c, run, d);
    NextMoved(r.s, c, run.state, d);
    assert OnlyIncoming(r.s, d);
  }

  lemma NextInflow(sent: seq<Wrapper>, r: End, w: Wrapper, c: State, run: Drained, d: State)
    requires Prefix(sent, r.s.inSeq, r.got) && r.s.inSeq < |sent| && Stored(w, sent[r.s.inSeq])
    requires c.inSeq == r.s.inSeq + 1 && Ran(sent, c, run, r.s.inSeq + MAX_RESEND_COUNT)
    requires d == run.state.(gapRequested := d.gapRequested, gapEnd := d.gapEnd, resendDue := d.resendDue)
    ensures Inflow(sent, d, r.got + ([w] + run.ready))
  {
    assert run.state.inSeq == c.inSeq + |run.ready| <= |sent|;
    NextPrefix(sent, r, w, run.ready);
    SettledInflow(sent, run.state, d, r.s.inSeq + MAX_RESEND_COUNT);
  }

  lemma SettledInflow(sent: seq<Wrapper>, c: State, d: State, hi: int)
    requires Watermark(sent, c) && Waiting(sent, c, c.inSeq + 1, hi) && hi <= c.inSeq + MAX_RESEND_COUNT
    requires d == c.(gapRequested := d.gapRequested, gapEnd := d.gapEnd, resendDue := d.resendDue)
    ensures Watermark(sent, d) && Waiting(sent, d, d.inSeq + 1, d.inSeq + MAX_RESEND_COUNT)
  {
  }

  /** The gap side of an in-order acceptance. */
  lemma NextSettled(r: End, c: State, c2: State)
    requires GapOk(r.s) && DueOk(r.s) && NoOrphan(r)
    requires c.queue == r.s.queue && c.inSeq == r.s.inSeq + 1 <= c2.inSeq
    requires c2.outbound == r.s.outbound
    requires c2.gapRequested == r.s.gapRequested && c2.gapEnd == r.s.gapEnd && c2.resendDue == r.s.resendDue
    requires c2.queue == map k | k in c.queue && k > c2.inSeq :: c.queue[k]
    requires forall k :: k in c2.queue ==> c2.inSeq < k <= r.s.inSeq + MAX_RESEND_COUNT
    ensures var (d, resend) := SettleGap(c2, OutParity(!r.s.outbound));
      && d == c2.(gapRequested := d.gapRequested, gapEnd := d.gapEnd, resendDue := d.resendDue)
      && GapSide(r, d, resend)
  {
    NextGapReady(r, c, c2);
    SettleHonest(c2, r.s.inSeq);
    var (d, resend) := SettleGap(c2, OutParity(!r.s.outbound));
    if d.gapRequested && d.resendDue == None { StillAsked(r, d); }
  }

  lemma NextMoved(c: State, c1: State, c2: State, d: State)
    requires c1.queue == c.queue && c1.inSeq == c.inSeq + 1 <= c2.inSeq == d.inSeq && d.queue == c2.queue
    requires c2.queue == map k | k in c1.queue && k > c2.inSeq :: c1.queue[k]
    requires c2.inSeq !in c1.queue && forall k :: c1.inSeq <= k < c2.inSeq ==> k in c1.queue
    ensures Moved(c, c.inSeq, d)
  {
  }

  lemma NextGapReady(r: End, c: State, d: State)
    requires GapOk(r.s) && DueOk(r.s)
    requires c.queue == r.s.queue && c.inSeq == r.s.inSeq + 1
    requires d.inSeq >= c.inSeq && d.outbound == r.s.outbound
    requires d.gapRequested == r.s.gapRequested && d.gapEnd == r.s.gapEnd && d.resendDue == r.s.resendDue
    requires d.queue == map k | k in c.queue && k > d.inSeq :: c.queue[k]
    ensures d.gapRequested ==> d.gapEnd.Some? && (d.gapEnd.value in d.queue || d.gapEnd.value <= d.inSeq)
    ensures !d.gapRequested ==> d.queue == map[] && d.gapEnd == None && d.resendDue == None
    ensures d.gapRequested && d.resendDue.Some? && d.inSeq < d.gapEnd.value ==> DueOk(d)
  {
  }

  lemma NextPrefix(sent: seq<Wrapper>, r: End, w: Wrapper, ready: seq<Wrapper>)
    requires Prefix(sent, r.s.inSeq, r.got) && r.s.inSeq + 1 + |ready| <= |sent| && Stored(w, sent[r.s.inSeq])
    requires forall i :: 0 <= i < |ready| ==> Stored(ready[i], sent[r.s.inSeq + 1 + i])
    ensures Prefix(sent, r.s.inSeq + 1 + |ready|, r.got + ([w] + ready))
  {
    var got := r.got + ([w] + ready);
    forall i | 0 <= i < |got| ensures Stored(got[i], sent[i]) {
      if i > r.s.inSeq { assert got[i] == ready[i - r.s.inSeq - 1]; }
    }
  }

  lemma AcceptHonest(s: End, r: End, n: nat, w: Wrapper)
    requires CanReceive(s, r) && n < |s.sent| && Stored(w, s.sent[n]) && Preflight(r.s, w) == Fresh
    ensures Accept(r.s, w).Ok? && AcceptedOk(s, r, n, Accept(r.s, w).value)
  {
    PreflightHonest(s, r, n, w);
    if n > r.s.inSeq { AcceptAhead(s, r, n, w); } else { AcceptNext(s, r, w); }
  }

  // ---- Resend requests ----

  /** An honest request can be answered whenever it arrives, in or out of order. */
  lemma AnswerHonest(s: End, r: End, n: nat)
    requires Slots(s) && Watermark(s.sent, r.s) && s.s.outbound != r.s.outbound
    requires r.s.inSeq <= n < |s.sent| && AskHonest(s, n, |r.sent|) && s.sent[n].action.Resend?
    requires Retained(r) && 0 <= r.s.peerIn
    ensures AskOk(r.s, s.sent[n].action.first, s.sent[n].action.last)
    ensures Held(r.s, s.sent[n].action.first, s.sent[n].action.last)
  {
    var first, last := s.sent[n].action.first, s.sent[n].action.last;
    if r.s.inSeq > 0 {
      assert Echo(s.sent[r.s.inSeq - 1]) <= Echo(s.sent[n]);
    } else {
      assert SlotOk(s, n);
    }
    forall k | InSpan(k, first, last) ensures k in r.s.outbox {
      var m := k / 2;
      assert k == TransformOut(m, r.s.outbound);
      assert r.s.peerIn <= m < |r.sent|;
    }
  }

  /** Dropping what the echo covers and requeueing the answered records keeps every unacknowledged slot. */
  lemma RetainedAfter(r: End, d: State, answer: map<int, Record>)
    requires Retained(r) && 0 <= r.s.peerIn <= d.peerIn
    requires d.outbox == r.s.outbox && d.outbound == r.s.outbound
    requires forall n :: n in answer ==> n in r.s.outbox && answer[n] == r.s.outbox[n]
    ensures Retained(End(Requeue(Forget(d, d.peerIn), answer), r.sent, r.got))
  {
    var f := Forget(d, d.peerIn);
    var e := Requeue(f, answer);
    forall n | d.peerIn <= n < |r.sent| ensures TransformOut(n, r.s.outbound) in e.outbox {
      assert TransformOut(n, r.s.outbound) in r.s.outbox;
    }
    forall k | k in e.outbox
      ensures 0 <= k && k % 2 == OutParity(r.s.outbound) && k / 2 < |r.sent|
      ensures Carries(e.outbox[k].wrapper, r.sent[k / 2])
    {
      assert k in r.s.outbox && e.outbox[k].wrapper == r.s.outbox[k].wrapper;
    }
  }

  /** The frame of a fresh slot that the mailbox keeps: a request is consumed, the rest is kept as it is. */
  function Consumed(w: Wrapper): Wrapper {
    if w.action.Resend? then w.(action := Noop) else w
  }

  function Answered(w: Wrapper, c: State): map<int, Record> {
    if w.action.Resend?
    then map n | n in c.outbox && InSpan(n, w.action.first, w.action.last) :: c.outbox[n]
    else map[]
  }

  function CommitState(c: State, w: Wrapper, acc: Accepted): State {
    var d := Requeue(Forget(acc.state, acc.state.peerIn), Answered(w, c));
    d.(mailbox := d.mailbox + acc.ready)
  }

  lemma ReceiveUnfolds(c: State, w: Wrapper)
    requires Preflight(c, w) == Fresh
    requires w.action.Resend? ==> AskOk(c, w.action.first, w.action.last) && Held(c, w.action.first, w.action.last)
    requires Accept(c, Consumed(w)).Ok?
    ensures Receive(c, w).Ok?
    ensures var got := Receive(c, w).value;
      && got.state == CommitState(c, w, Accept(c, Consumed(w)).value)
      && got.ready == Accept(c, Consumed(w)).value.ready && got.isNew
  {
  }

  function After(r: End, w: Wrapper, acc: Accepted): End {
    End(CommitState(r.s, w, acc), r.sent, r.got + acc.ready)
  }

  lemma OwnAfter(s: End, r: End, n: int, w: Wrapper, acc: Accepted)
    requires Own(r) && AcceptedOk(s, r, n, acc)
    ensures Own(After(r, w, acc))
  {
    var r' := After(r, w, acc);
    RetainedAfter(r, acc.state, Answered(w, r.s));
    SlotsGrow(r, r');
    if r'.s.gapRequested && r'.s.resendDue == None {
      var k :| Asked(End(acc.state, r.sent, r.got), k);
      assert Asked(r', k);
    }
    assert r'.s.mailbox == r.s.mailbox + acc.ready;
  }

  lemma SlotsGrow(e: End, e': End)
    requires Slots(e) && e'.sent == e.sent && e'.s.outSeq == e.s.outSeq && e'.s.outbound == e.s.outbound
    requires e.s.inSeq <= e'.s.inSeq && e.s.layer <= e'.s.layer
    ensures Slots(e')
  {
    forall n | 0 <= n < |e'.sent| ensures SlotOk(e', n) {
      assert SlotOk(e, n);
    }
  }

  /** One fresh frame of an honest slot is always accepted, and keeps the invariant of both ends. */
  lemma ReceiveHonest(s: End, r: End, n: nat, w: Wrapper)
    requires Inv(s, r) && n < |s.sent| && Carries(w, s.sent[n]) && Preflight(r.s, w) == Fresh
    ensures Receive(r.s, w).Ok? && Accept(r.s, Consumed(w)).Ok?
    ensures var acc := Accept(r.s, Consumed(w)).value;
      && Receive(r.s, w).value.state == After(r, w, acc).s && Receive(r.s, w).value.ready == acc.ready
      && AcceptedOk(s, r, n, acc)
      && Inv(s, After(r, w, acc))
  {
    PreflightHonest(s, r, n, w);
    assert AskHonest(s, n, |r.sent|);
    if w.action.Resend? { AnswerHonest(s, r, n); }
    var v := Consumed(w);
    assert Preflight(r.s, v) == Fresh;
    AcceptHonest(s, r, n, v);
    ReceiveUnfolds(r.s, w);
    var acc := Accept(r.s, v).value;
    OwnAfter(s, r, n, w, acc);
    FlowAfter(s, r, n, w, acc);
  }

  lemma FlowAfter(s: End, r: End, n: int, w: Wrapper, acc: Accepted)
    requires Slots(s) && s.s.inSeq <= |r.sent|
    requires Flow(s, r) && Flow(r, s) && AcceptedOk(s, r, n, acc)
    ensures Flow(s, After(r, w, acc)) && Flow(After(r, w, acc), s)
  {
    var r' := After(r, w, acc);
    if r'.s.inSeq > 0 {
      assert SlotOk(s, r'.s.inSeq - 1);
    }
    forall m | 0 <= m < |r.sent| ensures AskHonest(r', m, |s.sent|) {
      assert AskHonest(r, m, |s.sent|);
    }
  }

  // ---- Sending ----

  function Sent(x: End, action: Action, key: Key): End {
    End(Send(x.s, action, key), x.sent + [NextWrapper(x.s, action)], x.got)
  }

  lemma SlotsExtended(x: End, action: Action, key: Key)
    requires Slots(x)
    ensures Slots(Sent(x, action, key))
  {
    var x' := Sent(x, action, key);
    forall n | 0 <= n < |x'.sent| ensures SlotOk(x', n) {
      if n < |x.sent| { assert SlotOk(x, n); }
    }
    forall m, n | 0 <= m <= n < |x'.sent|
      ensures Echo(x'.sent[m]) <= Echo(x'.sent[n]) && x'.sent[m].layer <= x'.sent[n].layer
    {
      if m < |x.sent| { assert SlotOk(x, m); }
    }
  }

  lemma RetainedExtended(x: End, action: Action, key: Key)
    requires Slots(x) && Retained(x) && x.s.peerIn <= |x.sent|
    ensures Retained(Sent(x, action, key))
  {
    var x' := Sent(x, action, key);
    forall n | 0 <= x'.s.peerIn <= n < |x'.sent| ensures TransformOut(n, x'.s.outbound) in x'.s.outbox {
      if n < |x.sent| { assert TransformOut(n, x.s.outbound) in x.s.outbox; }
    }
    forall k | k in x'.s.outbox
      ensures 0 <= k && k % 2 == OutParity(x'.s.outbound) && k / 2 < |x'.sent|
      ensures Carries(x'.s.outbox[k].wrapper, x'.sent[k / 2])
    {
      if k != TransformOut(|x.sent|, x.s.outbound) { assert k in x.s.outbox; }
    }
  }

  lemma NoOrphanExtended(x: End, x': End)
    requires NoOrphan(x) && x.sent <= x'.sent
    requires x'.s.gapRequested == x.s.gapRequested && x'.s.gapEnd == x.s.gapEnd && x'.s.inSeq == x.s.inSeq
    requires x'.s.outbound == x.s.outbound
    requires x'.s.resendDue == x.s.resendDue
    ensures NoOrphan(x')
  {
    if x'.s.gapRequested && x'.s.resendDue == None {
      var k :| Asked(x, k);
      assert Asked(x', k);
    }
  }

  lemma FlowExtended(x: End, y: End, action: Action, key: Key)
    requires Flow(x, y) && Flow(y, x) && Slots(x)
    requires AskHonest(Sent(x, action, key), |x.sent|, |y.sent|)
    ensures Flow(Sent(x, action, key), y) && Flow(y, Sent(x, action, key))
  {
    var x' := Sent(x, action, key);
    forall n | 0 <= n < |x'.sent| ensures AskHonest(x', n, |y.sent|) {
      if n < |x.sent| { assert AskHonest(x, n, |y.sent|); }
    }
    forall n | 0 <= n < |y.sent| ensures AskHonest(y, n, |x'.sent|) {
      assert AskHonest(y, n, |x.sent|);
    }
  }

  /** A committed send keeps the invariant of both ends; a request must be an honest one. */
  lemma SendHonest(x: End, y: End, action: Action, key: Key)
    requires Inv(x, y) && AskHonest(Sent(x, action, key), |x.sent|, |y.sent|)
    ensures Inv(Sent(x, action, key), y)
  {
    SlotsExtended(x, action, key);
    RetainedExtended(x, action, key);
    FlowExtended(x, y, action, key);
    NoOrphanExtended(x, Sent(x, action, key));
  }

  /** The request that a due span becomes when it is written: exactly what is missing below the hole's end. */
  lemma DueSpanCoversTheHole(x: End, y: End)
    requires Inv(x, y) && x.s.resendDue.Some?
    ensures var span := DueSpan(x.s);
      && x.s.gapEnd.Some? && x.s.inSeq < x.s.gapEnd.value
      && span.first == 2 * x.s.inSeq + OutParity(!x.s.outbound)
      && span.last == 2 * (x.s.gapEnd.value - 1) + OutParity(!x.s.outbound)
      && span.first <= span.last
      && AskHonest(Sent(x, Resend(span.first, span.last), 0), |x.sent|, |y.sent|)
  {
    assert x.s.gapEnd.value in x.s.queue;
  }

  /** A written request names a slot that waits in the queue just when something was queued below the hole's end
      after the span was decided. */
  lemma WrittenSpanExact(x: End, y: End)
    requires Inv(x, y) && x.s.resendDue.Some?
    ensures HoleBelow(x.s) <==>
      forall k :: k in x.s.queue ==> !InSpan(TransformOut(k, !x.s.outbound), DueSpan(x.s).first, DueSpan(x.s).last)
  {
    DueSpanCoversTheHole(x, y);
    if !HoleBelow(x.s) {
      var k :| x.s.inSeq <= k < x.s.gapEnd.value && k in x.s.queue;
      assert InSpan(TransformOut(k, !x.s.outbound), DueSpan(x.s).first, DueSpan(x.s).last);
    }
  }

  function Requested(x: End, key: Key): End {
    if x.s.resendDue == None || DueSpan(x.s).first > DueSpan(x.s).last then End(RequestDue(x.s, key), x.sent, x.got)
    else
      var span := DueSpan(x.s);
      End(RequestDue(x.s, key), x.sent + [NextWrapper(x.s, Resend(span.first, span.last))], x.got)
  }

  /** Writing the due request consumes the mark in the same commit, so the hole is never orphaned. */
  lemma RequestHonest(x: End, y: End, key: Key)
    requires Inv(x, y)
    ensures Inv(Requested(x, key), y)
  {
    if x.s.resendDue.Some? {
      DueSpanCoversTheHole(x, y);
      var span := DueSpan(x.s);
      var x1 := Sent(x, Resend(span.first, span.last), key);
      assert AskHonest(x1, |x.sent|, |y.sent|);
      SendHonest(x, y, Resend(span.first, span.last), key);
      var x2 := Requested(x, key);
      assert x2 == End(x1.s.(resendDue := None), x1.sent, x1.got);
      assert Asked(x2, |x.sent|);
      Settled(x1, x2, y);
    }
  }

  lemma Settled(x: End, x': End, y: End)
    requires Inv(x, y) && x' == End(x.s.(resendDue := None), x.sent, x.got) && NoOrphan(x')
    ensures Inv(x', y)
  {
    SlotsGrow(x, x');
    forall n | 0 <= n < |x'.sent| ensures AskHonest(x', n, |y.sent|) { assert AskHonest(x, n, |y.sent|); }
  }

  // ---- Local steps: withdrawing content, marking a record, delivering from the mailbox ----

  /** A change of the outbox alone that keeps every slot's record, and of the mailbox or the layer. */
  lemma LocalHonest(x: End, x': End, y: End)
    requires Inv(x, y) && x'.sent == x.sent && x'.got == x.got && Mailbox(x') && x.s.layer <= x'.s.layer
    requires x'.s == x.s.(outbox := x'.s.outbox, mailbox := x'.s.mailbox, layer := x'.s.layer)
    requires x'.s.outbox.Keys == x.s.outbox.Keys
    requires forall k :: k in x.s.outbox ==> Carries(x'.s.outbox[k].wrapper, x.sent[k / 2])
    ensures Inv(x', y)
  {
    SlotsGrow(x, x');
    NoOrphanExtended(x, x');
    forall n | 0 <= n < |x'.sent| ensures AskHonest(x', n, |y.sent|) { assert AskHonest(x, n, |y.sent|); }
    forall k | k in x'.s.outbox
      ensures 0 <= k && k % 2 == OutParity(x'.s.outbound) && k / 2 < |x'.sent|
      ensures Carries(x'.s.outbox[k].wrapper, x'.sent[k / 2])
    {
      assert k in x.s.outbox;
    }
    forall n | 0 <= x'.s.peerIn <= n < |x'.sent| ensures TransformOut(n, x'.s.outbound) in x'.s.outbox {
      assert TransformOut(n, x.s.outbound) in x.s.outbox;
    }
  }

  lemma WithdrawHonest(x: End, y: End, ids: set<int>, key: Key)
    requires Inv(x, y)
    ensures Inv(End(Withdraw(x.s, ids, key), x.sent, x.got), y)
  {
    LocalHonest(x, End(Withdraw(x.s, ids, key), x.sent, x.got), y);
  }

  lemma MarkHonest(x: End, y: End, n: int, pending: bool, failures: nat)
    requires Inv(x, y)
    ensures Inv(End(MarkRecord(x.s, n, pending, failures), x.sent, x.got), y)
  {
    MarkCarries(x, n, pending, failures);
    LocalHonest(x, End(MarkRecord(x.s, n, pending, failures), x.sent, x.got), y);
  }

  lemma MarkCarries(x: End, n: int, pending: bool, failures: nat)
    requires Retained(x)
    ensures var s := MarkRecord(x.s, n, pending, failures);
      && s == x.s.(outbox := s.outbox) && s.outbox.Keys == x.s.outbox.Keys
      && forall k :: k in x.s.outbox ==> 0 <= k / 2 < |x.sent| && Carries(s.outbox[k].wrapper, x.sent[k / 2])
  {
  }

  lemma DeliverHonest(x: End, y: End)
    requires Inv(x, y)
    ensures Inv(End(Deliver(x.s), x.sent, x.got), y)
  {
    var x' := End(Deliver(x.s), x.sent, x.got);
    if x.s.mailbox != [] {
      assert x'.s.mailbox == x.got[|x.got| - |x'.s.mailbox|..];
    }
    LocalHonest(x, x', y);
  }

  // ---- Runs ----

  /** One step of one end. An arriving frame is any slot its peer ever committed, as often as it likes. */
  datatype Step =
    | Commit(action: Action, key: Key)
    | AskDue(key: Key)
    | Arrive(slot: nat, withdrawn: bool)
    | Dispatch
    | WithdrawContent(ids: set<int>, key: Key)
    | Mark(record: int, pending: bool, failures: nat)

  datatype Move = Move(byA: bool, step: Step)

  function FrameOf(o: Wrapper, withdrawn: bool): Wrapper {
    if withdrawn && o.action.Content? then o.(action := Withdrawn(o.action.id)) else o
  }

  /** The new state of the end that moves; `Err` is a fatal refusal, which closes the chat. */
  ghost function StepEnd(x: End, y: End, step: Step): Result<End> {
    match step
    case Commit(action, key) => Ok(if action.Resend? then x else Sent(x, action, key))
    case AskDue(key) => Ok(Requested(x, key))
    case Arrive(slot, withdrawn) =>
      if slot >= |y.sent| then Ok(x)
      else
        var got :- Receive(x.s, FrameOf(y.sent[slot], withdrawn));
        Ok(End(got.state, x.sent, x.got + got.ready))
    case Dispatch => Ok(End(Deliver(x.s), x.sent, x.got))
    case WithdrawContent(ids, key) => Ok(End(Withdraw(x.s, ids, key), x.sent, x.got))
    case Mark(record, pending, failures) => Ok(End(MarkRecord(x.s, record, pending, failures), x.sent, x.got))
  }

  ghost function Exec(sys: System, move: Move): Result<System> {
    if move.byA then
      var a :- StepEnd(sys.a, sys.b, move.step);
      Ok(System(a, sys.b))
    else
      var b :- StepEnd(sys.b, sys.a, move.step);
      Ok(System(sys.a, b))
  }

  ghost function Run(sys: System, moves: seq<Move>): Result<System>
    decreases |moves|
  {
    if moves == [] then Ok(sys)
    else
      var next :- Exec(sys, moves[0]);
      Run(next, moves[1..])
  }

  /** The one arrival no recovery is promised for: a fresh slot more than the window ahead. */
  predicate BeyondWindow(x: End, y: End, step: Step) {
    && step.Arrive? && step.slot < |y.sent|
    && step.slot !in x.s.queue && step.slot - x.s.inSeq > MAX_RESEND_COUNT
  }

  predicate Beyond(sys: System, move: Move) {
    if move.byA then BeyondWindow(sys.a, sys.b, move.step) else BeyondWindow(sys.b, sys.a, move.step)
  }

  lemma ArriveVerdict(x: End, y: End, slot: nat, w: Wrapper)
    requires Inv(x, y) && slot < |y.sent| && Carries(w, y.sent[slot])
    ensures Preflight(x.s, w) ==
      if slot < x.s.inSeq || slot in x.s.queue then Replay
      else if slot - x.s.inSeq > MAX_RESEND_COUNT then Fatal else Fresh
  {
    PreflightHonest(y, x, slot, w);
  }

  lemma ArriveHonest(x: End, y: End, slot: nat, w: Wrapper)
    requires Inv(x, y) && slot < |y.sent| && Carries(w, y.sent[slot])
    ensures Receive(x.s, w).Err? <==> slot !in x.s.queue && slot - x.s.inSeq > MAX_RESEND_COUNT
    ensures Receive(x.s, w).Ok? ==>
      Inv(End(Receive(x.s, w).value.state, x.sent, x.got + Receive(x.s, w).value.ready), y)
  {
    ArriveVerdict(x, y, slot, w);
    if Preflight(x.s, w) == Fresh {
      ReceiveHonest(y, x, slot, w);
    } else {
      NotFresh(x.s, w);
      assert End(x.s, x.sent, x.got + []) == x;
    }
  }

  /** A receive decides a span exactly when it leaves a new hole, and the span is then the missing run; otherwise
      the due span stays or is cleared. */
  lemma SpanDecided(x: End, y: End, slot: nat, w: Wrapper)
    requires Inv(x, y) && slot < |y.sent| && Carries(w, y.sent[slot]) && Receive(x.s, w).Ok?
    requires Receive(x.s, w).value.isNew
    ensures var d := Receive(x.s, w).value.state;
      if NewHole(x.s, d) then ExactlyMissing(d) else d.resendDue == None || d.resendDue == x.s.resendDue
  {
    ReceiveHonest(y, x, slot, w);
    var acc := Accept(x.s, Consumed(w)).value;
    DecidedAfter(y, x, slot, w, acc);
  }

  lemma DecidedAfter(s: End, r: End, n: int, w: Wrapper, acc: Accepted)
    requires AcceptedOk(s, r, n, acc)
    ensures var d := After(r, w, acc).s;
      if NewHole(r.s, d) then ExactlyMissing(d) else d.resendDue == None || d.resendDue == r.s.resendDue
  {
    var c, d := acc.state, After(r, w, acc).s;
    assert d == c.(outbox := d.outbox, mailbox := d.mailbox);
  }

  /** A refused or replayed frame changes nothing. */
  lemma NotFresh(c: State, w: Wrapper)
    requires Preflight(c, w) != Fresh
    ensures Preflight(c, w) == Fatal ==> Receive(c, w).Err?
    ensures Preflight(c, w) == Replay ==>
      Receive(c, w).Ok? && Receive(c, w).value.state == c && Receive(c, w).value.ready == []
      && !Receive(c, w).value.isNew
  {
  }

  lemma StepHonest(x: End, y: End, step: Step)
    requires Inv(x, y)
    ensures StepEnd(x, y, step).Err? <==> BeyondWindow(x, y, step)
    ensures StepEnd(x, y, step).Ok? ==> Inv(StepEnd(x, y, step).value, y)
  {
    match step
    case Commit(action, key) => if !action.Resend? { SendHonest(x, y, action, key); }
    case AskDue(key) => RequestHonest(x, y, key);
    case Arrive(slot, withdrawn) => if slot < |y.sent| { ArriveHonest(x, y, slot, FrameOf(y.sent[slot], withdrawn)); }
    case Dispatch => DeliverHonest(x, y);
    case WithdrawContent(ids, key) => WithdrawHonest(x, y, ids, key);
    case Mark(record, pending, failures) => MarkHonest(x, y, record, pending, failures);
  }

  ghost predicate SysInv(sys: System) { Inv(sys.a, sys.b) }

  /** In every invariant state, a step is fatally refused exactly when a frame jumps beyond the window. */
  lemma ExecHonest(sys: System, move: Move)
    requires SysInv(sys)
    ensures Exec(sys, move).Err? <==> Beyond(sys, move)
    ensures Exec(sys, move).Ok? ==> SysInv(Exec(sys, move).value)
  {
    if move.byA { StepHonest(sys.a, sys.b, move.step); } else { StepHonest(sys.b, sys.a, move.step); }
  }

  /** No step of the run delivers a frame from beyond the window. */
  ghost predicate InWindow(sys: System, moves: seq<Move>)
    decreases |moves|
  {
    moves != [] ==>
      && !Beyond(sys, moves[0])
      && (Exec(sys, moves[0]).Ok? ==> InWindow(Exec(sys, moves[0]).value, moves[1..]))
  }

  lemma {:induction false} RunHonest(sys: System, moves: seq<Move>)
    requires SysInv(sys)
    ensures Run(sys, moves).Ok? <==> InWindow(sys, moves)
    ensures Run(sys, moves).Ok? ==> SysInv(Run(sys, moves).value)
    decreases |moves|
  {
    if moves == [] {
    } else {
      ExecHonest(sys, moves[0]);
      if Exec(sys, moves[0]).Ok? { RunHonest(Exec(sys, moves[0]).value, moves[1..]); }
    }
  }

  /** `got` is the first |got| committed slots, in order, each exactly once. */
  ghost predicate ExactPrefix(got: seq<Wrapper>, sent: seq<Wrapper>) {
    |got| <= |sent| && forall n :: 0 <= n < |got| ==> Stored(got[n], sent[n]) && got[n].outSeq / 2 == n
  }

  /** Over every run of two honest ends: a fatal refusal happens exactly when a frame arrives from beyond
      the recovery window, and otherwise each end has accepted an exact prefix of what the other sent. */
  lemma Safety(moves: seq<Move>)
    ensures Run(Start(), moves).Ok? <==> InWindow(Start(), moves)
    ensures Run(Start(), moves).Ok? ==>
      var sys := Run(Start(), moves).value;
      && |sys.a.got| == sys.a.s.inSeq && ExactPrefix(sys.a.got, sys.b.sent)
      && |sys.b.got| == sys.b.s.inSeq && ExactPrefix(sys.b.got, sys.a.sent)
  {
    InitialInv();
    RunHonest(Start(), moves);
    if Run(Start(), moves).Ok? {
      var sys := Run(Start(), moves).value;
      PrefixExact(sys.b, sys.a);
      PrefixExact(sys.a, sys.b);
    }
  }

  lemma PrefixExact(s: End, r: End)
    requires Slots(s) && Prefix(s.sent, r.s.inSeq, r.got)
    ensures ExactPrefix(r.got, s.sent)
  {
    forall n | 0 <= n < |r.got| ensures r.got[n].outSeq / 2 == n {
      assert SlotOk(s, n) && Stored(r.got[n], s.sent[n]);
    }
  }

  /** Over every run: a step that leaves a due span which was not due before is the receive of a frame that opened
      a new hole, and the span is the missing run from the next expected slot to just below the first queued one. */
  lemma DecidedSpans(moves: seq<Move>, move: Move)
    requires Run(Start(), moves).Ok? && Exec(Run(Start(), moves).value, move).Ok?
    ensures var sys, sys' := Run(Start(), moves).value, Exec(Run(Start(), moves).value, move).value;
      var (x, x') := if move.byA then (sys.a.s, sys'.a.s) else (sys.b.s, sys'.b.s);
      x'.resendDue.Some? && x'.resendDue != x.resendDue ==> move.step.Arrive? && NewHole(x, x') && ExactlyMissing(x')
  {
    InitialInv();
    RunHonest(Start(), moves);
    var sys := Run(Start(), moves).value;
    if move.byA { StepDecides(sys.a, sys.b, move.step); } else { StepDecides(sys.b, sys.a, move.step); }
  }

  lemma StepDecides(x: End, y: End, step: Step)
    requires Inv(x, y) && StepEnd(x, y, step).Ok?
    ensures var x' := StepEnd(x, y, step).value;
      x'.s.resendDue.Some? && x'.s.resendDue != x.s.resendDue ==>
        step.Arrive? && NewHole(x.s, x'.s) && ExactlyMissing(x'.s)
  {
    if step.Arrive? && step.slot < |y.sent| {
      var w := FrameOf(y.sent[step.slot], step.withdrawn);
      if Receive(x.s, w).value.isNew { SpanDecided(x, y, step.slot, w); } else { ReplayKeeps(x.s, w); }
    }
  }

  lemma ReplayKeeps(c: State, w: Wrapper)
    requires Receive(c, w).Ok? && !Receive(c, w).value.isNew
    ensures Receive(c, w).value.state == c
  {
  }

  /** Three slots committed by an end that received nothing. */
  function Three(): End { Sent(Sent(Sent(Start().b, Noop, 0), Noop, 0), Noop, 0) }

  /** The receiver after slot 2, and after slot 1 behind it. */
  function Ahead2(): State { QueueAhead(Initial(true).(layer := 73), Three().sent[2]).state }

  function Ahead1(): State { QueueAhead(Ahead2(), Three().sent[1]).state }

  /** A no-op ahead of the counter is queued, and nothing else of an end without acknowledgements moves. */
  lemma QueuedNoop(c: State, w: Wrapper)
    requires Preflight(c, w) == Fresh && w.action.Noop? && c.inSeq < w.outSeq / 2 && c.peerIn == 0
    ensures Receive(c, w).Ok?
    ensures Receive(c, w).value.state == QueueAhead(c.(layer := RaiseRemoteLayer(c.layer, w.layer)), w).state
    ensures Receive(c, w).value.ready == []
  {
    var c1 := QueueAhead(c.(layer := RaiseRemoteLayer(c.layer, w.layer)), w).state;
    assert Requeue(c1, map[]).outbox == c1.outbox;
    assert c1.mailbox + [] == c1.mailbox;
  }

  /** The slots of an end that received nothing. */
  lemma ThreeSlots()
    ensures |Three().sent| == 3
    ensures Three().sent[1] == Wrapper(1, 2, 73, Noop) && Three().sent[2] == Wrapper(1, 4, 73, Noop)
  {
  }

  /** One of them arrives ahead at an end that has counted nothing. */
  lemma ArrivesAhead(c: State, y: End, slot: nat)
    requires c.outbound && c.inSeq == c.outSeq == 0 && c.peerIn == 0 && c.wrapperLayer == 0 && c.layer <= 73
    requires 0 < slot <= MAX_RESEND_COUNT && slot < |y.sent| && y.sent[slot] == Wrapper(1, 2 * slot, 73, Noop)
    requires slot !in c.queue && |c.queue| < MAX_RESEND_COUNT
    ensures StepEnd(End(c, [], []), y, Arrive(slot, false)) ==
      Ok(End(QueueAhead(c.(layer := 73), y.sent[slot]).state, [], []))
  {
    QueuedNoop(c, y.sent[slot]);
    assert RaiseRemoteLayer(c.layer, 73) == 73;
    assert FrameOf(y.sent[slot], false) == y.sent[slot];
    assert [] + Receive(c, y.sent[slot]).value.ready == [];
  }

  lemma AheadArrivals()
    ensures StepEnd(Start().a, Three(), Arrive(2, false)) == Ok(End(Ahead2(), [], []))
    ensures StepEnd(End(Ahead2(), [], []), Three(), Arrive(1, false)) == Ok(End(Ahead1(), [], []))
  {
    ThreeSlots();
    ArrivesAhead(Initial(true), Three(), 2);
    var c := Ahead2();
    assert c.queue == map[2 := Three().sent[2]] && c.layer == 73;
    ArrivesAhead(c, Three(), 1);
    assert c.(layer := 73) == c;
  }

  lemma LateRun()
    ensures var late := [Move(true, Arrive(2, false)), Move(true, Arrive(1, false))];
      Run(System(Start().a, Three()), late) == Ok(System(End(Ahead1(), [], []), Three()))
  {
    AheadArrivals();
    var late := [Move(true, Arrive(2, false)), Move(true, Arrive(1, false))];
    assert late[1..] == [late[1]] && late[1..][1..] == [];
  }

  lemma RunFirst(sys: System, move: Move, rest: seq<Move>)
    requires Exec(sys, move).Ok?
    ensures Run(sys, [move] + rest) == Run(Exec(sys, move).value, rest)
  {
    assert ([move] + rest)[1..] == rest;
  }

  lemma ThreeRun(late: seq<Move>)
    ensures var say := Move(false, Commit(Noop, 0));
      Run(Start(), [say] + ([say] + ([say] + late))) == Run(System(Start().a, Three()), late)
  {
    var say, a, b := Move(false, Commit(Noop, 0)), Start().a, Start().b;
    RunFirst(Start(), say, [say] + ([say] + late));
    RunFirst(System(a, Sent(b, Noop, 0)), say, [say] + late);
    RunFirst(System(a, Sent(Sent(b, Noop, 0), Noop, 0)), say, late);
  }

  /** The due span still names slot 1, which waits in the queue. */
  ghost predicate OutOfDate(x: State) {
    && x.resendDue.Some? && 1 in x.queue && !HoleBelow(x)
    && InSpan(TransformOut(1, !x.outbound), DueSpan(x).first, DueSpan(x).last)
  }

  lemma TwoAhead(c: State, v: Wrapper, w: Wrapper)
    requires c.outbound && c.inSeq == 0 && !c.gapRequested && v.outSeq == 4 && w.outSeq == 2
    ensures OutOfDate(QueueAhead(QueueAhead(c, v).state, w).state)
  {
    var x := QueueAhead(QueueAhead(c, v).state, w).state;
    assert 1 in x.queue;
  }

  /** The span can be out of date by the time it is written: slot 2 opens the hole, slot 1 arrives before the
      request, and the request still names it. */
  lemma WrittenSpanOutOfDate() returns (moves: seq<Move>)
    ensures Run(Start(), moves).Ok? && OutOfDate(Run(Start(), moves).value.a.s)
  {
    var say := Move(false, Commit(Noop, 0));
    var late := [Move(true, Arrive(2, false)), Move(true, Arrive(1, false))];
    moves := [say] + ([say] + ([say] + late));
    ThreeRun(late);
    LateRun();
    TwoAhead(Initial(true).(layer := 73), Three().sent[2], Three().sent[1]);
  }

  /** What a step hands out of the mailbox. */
  function Taken(x: End, step: Step): seq<Wrapper> {
    if step.Dispatch? && x.s.mailbox != [] then [x.s.mailbox[0]] else []
  }

  function One(sys: System, ofA: bool): End { if ofA then sys.a else sys.b }

  /** Everything one end handed out of its mailbox during a run from the start, in order. */
  ghost function Delivered(moves: seq<Move>, ofA: bool): seq<Wrapper>
    decreases |moves|
  {
    if moves == [] then []
    else
      var init, last := moves[..|moves| - 1], moves[|moves| - 1];
      var sys := Run(Start(), init);
      Delivered(init, ofA) + (if sys.Ok? && last.byA == ofA then Taken(One(sys.value, ofA), last.step) else [])
  }

  lemma ArrivalDelivers(x: End, y: End, slot: nat, w: Wrapper)
    requires Inv(x, y) && slot < |y.sent| && Carries(w, y.sent[slot]) && Receive(x.s, w).Ok?
    ensures Receive(x.s, w).value.state.mailbox == x.s.mailbox + Receive(x.s, w).value.ready
  {
    if Preflight(x.s, w) == Fresh {
      ReceiveHonest(y, x, slot, w);
      MailboxAfter(y, x, slot, w, Accept(x.s, Consumed(w)).value);
    } else {
      NotFresh(x.s, w);
    }
  }

  lemma MailboxAfter(s: End, r: End, n: int, w: Wrapper, acc: Accepted)
    requires AcceptedOk(s, r, n, acc)
    ensures After(r, w, acc).s.mailbox == r.s.mailbox + acc.ready
  {
  }

  lemma LocalDelivers(x: End, y: End, step: Step, before: seq<Wrapper>)
    requires StepEnd(x, y, step).Ok? && (step.Arrive? ==> step.slot >= |y.sent|) && x.got == before + x.s.mailbox
    ensures var x' := StepEnd(x, y, step).value; x'.got == before + Taken(x, step) + x'.s.mailbox
  {
  }

  lemma StepDelivers(x: End, y: End, step: Step, before: seq<Wrapper>)
    requires Inv(x, y) && StepEnd(x, y, step).Ok? && x.got == before + x.s.mailbox
    ensures var x' := StepEnd(x, y, step).value; x'.got == before + Taken(x, step) + x'.s.mailbox
  {
    if step.Arrive? && step.slot < |y.sent| {
      var w := FrameOf(y.sent[step.slot], step.withdrawn);
      ArrivalDelivers(x, y, step.slot, w);
      ReceivedDelivers(x, y, step, before);
    } else {
      LocalDelivers(x, y, step, before);
    }
  }

  lemma ReceivedDelivers(x: End, y: End, step: Step, before: seq<Wrapper>)
    requires step.Arrive? && step.slot < |y.sent| && StepEnd(x, y, step).Ok? && x.got == before + x.s.mailbox
    requires var got := Receive(x.s, FrameOf(y.sent[step.slot], step.withdrawn));
      got.Ok? && got.value.state.mailbox == x.s.mailbox + got.value.ready
    ensures var x' := StepEnd(x, y, step).value; x'.got == before + Taken(x, step) + x'.s.mailbox
  {
  }

  lemma {:induction false} RunAppend(sys: System, moves: seq<Move>, move: Move)
    ensures Run(sys, moves).Err? ==> Run(sys, moves + [move]).Err?
    ensures Run(sys, moves).Ok? ==> Run(sys, moves + [move]) == Exec(Run(sys, moves).value, move)
    decreases |moves|
  {
    if moves == [] {
      assert moves + [move] == [move] && [move][1..] == [];
    } else {
      assert (moves + [move])[1..] == moves[1..] + [move];
      if Exec(sys, moves[0]).Ok? { RunAppend(Exec(sys, moves[0]).value, moves[1..], move); }
    }
  }

  /** The last move of a run, from the state before it. */
  lemma LastMove(moves: seq<Move>) returns (sys: System)
    requires moves != [] && Run(Start(), moves).Ok?
    ensures Run(Start(), moves[..|moves| - 1]) == Ok(sys) && SysInv(sys)
    ensures Run(Start(), moves) == Exec(sys, moves[|moves| - 1])
  {
    var init := moves[..|moves| - 1];
    RunAppend(Start(), init, moves[|moves| - 1]);
    assert init + [moves[|moves| - 1]] == moves;
    sys := Run(Start(), init).value;
    InitialInv();
    RunHonest(Start(), init);
  }

  lemma ExecDelivers(sys: System, move: Move, ofA: bool, before: seq<Wrapper>)
    requires SysInv(sys) && Exec(sys, move).Ok? && One(sys, ofA).got == before + One(sys, ofA).s.mailbox
    ensures var x := One(Exec(sys, move).value, ofA);
      x.got == before + (if move.byA == ofA then Taken(One(sys, ofA), move.step) else []) + x.s.mailbox
  {
    if move.byA == ofA {
      if ofA { StepDelivers(sys.a, sys.b, move.step, before); } else { StepDelivers(sys.b, sys.a, move.step, before); }
    }
  }

  lemma {:induction false} RunDelivered(moves: seq<Move>, ofA: bool)
    requires Run(Start(), moves).Ok?
    ensures var x := One(Run(Start(), moves).value, ofA); x.got == Delivered(moves, ofA) + x.s.mailbox
    decreases |moves|
  {
    if moves == [] {
    } else {
      var init, last := moves[..|moves| - 1], moves[|moves| - 1];
      var sys := LastMove(moves);
      RunDelivered(init, ofA);
      ExecDelivers(sys, last, ofA, Delivered(init, ofA));
    }
  }

  /** Over every run, what each end handed out of its mailbox followed by what still waits there is what it accepted:
      an exact prefix of what the other sent, nothing dropped, repeated or reordered on the way. */
  lemma MailboxConserved(moves: seq<Move>)
    requires Run(Start(), moves).Ok?
    ensures var sys := Run(Start(), moves).value;
      && Delivered(moves, true) + sys.a.s.mailbox == sys.a.got && ExactPrefix(Delivered(moves, true), sys.b.sent)
      && Delivered(moves, false) + sys.b.s.mailbox == sys.b.got && ExactPrefix(Delivered(moves, false), sys.a.sent)
  {
    Safety(moves);
    var sys := Run(Start(), moves).value;
    RunDelivered(moves, true);
    RunDelivered(moves, false);
    PartExact(Delivered(moves, true), sys.a.s.mailbox, sys.b.sent);
    PartExact(Delivered(moves, false), sys.b.s.mailbox, sys.a.sent);
  }

  lemma PartExact(part: seq<Wrapper>, rest: seq<Wrapper>, sent: seq<Wrapper>)
    requires ExactPrefix(part + rest, sent)
    ensures ExactPrefix(part, sent)
  {
    assert forall n :: 0 <= n < |part| ==> (part + rest)[n] == part[n];
  }

  /** A received frame reports record x as acknowledged if and only if it moves the echo on, x is retained and the
      new echo covers its slot; and every slot from the old echo up to the new one is among them. */
  lemma EchoAcknowledges(s: End, r: End, n: nat, w: Wrapper, x: int, m: int)
    requires Inv(s, r) && n < |s.sent| && Carries(w, s.sent[n]) && Preflight(r.s, w) == Fresh
    ensures Receive(r.s, w).Ok?
    ensures var got := Receive(r.s, w).value;
      && (x in got.acknowledged <==> r.s.peerIn < got.state.peerIn && x in r.s.outbox && x / 2 < got.state.peerIn)
      && (r.s.peerIn <= m < got.state.peerIn ==> 2 * m + (if r.s.outbound then 1 else 0) in got.acknowledged)
  {
    ReceiveHonest(s, r, n, w);
    var acc := Accept(r.s, Consumed(w)).value;
    Acknowledges(r.s, w, acc, x);
    if r.s.peerIn <= m < acc.state.peerIn {
      EchoedRetained(s, r, n, w, acc, m);
      Acknowledges(r.s, w, acc, TransformOut(m, r.s.outbound));
    }
    SameOutbox(s, r, n, acc, x);
  }

  lemma SameOutbox(s: End, r: End, n: int, acc: Accepted, x: int)
    requires Retained(r) && AcceptedOk(s, r, n, acc)
    ensures acc.state.outbox == r.s.outbox && acc.state.outbound == r.s.outbound
    ensures x in r.s.outbox ==> (x / 2 < acc.state.peerIn <==> x <= TransformOut(acc.state.peerIn - 1, r.s.outbound))
  {
  }

  lemma Acknowledges(c: State, w: Wrapper, acc: Accepted, x: int)
    requires Preflight(c, w) == Fresh && Receive(c, w).Ok? && Accept(c, Consumed(w)) == Ok(acc)
    ensures Receive(c, w).value.state.peerIn == acc.state.peerIn
    ensures x in Receive(c, w).value.acknowledged <==>
      && acc.state.peerIn > c.peerIn && x in acc.state.outbox
      && x <= TransformOut(acc.state.peerIn - 1, acc.state.outbound)
  {
  }

  lemma EchoedRetained(s: End, r: End, n: int, w: Wrapper, acc: Accepted, m: int)
    requires Retained(r) && Flow(After(r, w, acc), s) && AcceptedOk(s, r, n, acc)
    requires 0 <= r.s.peerIn <= m < acc.state.peerIn <= |r.sent|
    ensures TransformOut(m, r.s.outbound) in acc.state.outbox && acc.state.outbound == r.s.outbound
  {
    assert TransformOut(m, r.s.outbound) in r.s.outbox;
  }

  /** In every committed state with a gap, each missing slot below the hole's end is due or already asked for. */
  lemma HoleCovered(s: End, r: End, m: int)
    requires Inv(s, r) && r.s.gapRequested && r.s.inSeq <= m < r.s.gapEnd.value && m !in r.s.queue
    ensures
      || (r.s.resendDue.Some?
          && InSpan(TransformOut(m, s.s.outbound), r.s.resendDue.value.first, r.s.resendDue.value.last))
      || exists k :: 0 <= k < |r.sent| && r.sent[k].action.Resend?
           && InSpan(TransformOut(m, s.s.outbound), r.sent[k].action.first, r.sent[k].action.last)
  {
    if r.s.resendDue == None {
      var k :| Asked(r, k);
      assert AskHonest(r, k, |s.sent|);
      assert InSpan(TransformOut(m, s.s.outbound), r.sent[k].action.first, r.sent[k].action.last);
    }
  }
}
