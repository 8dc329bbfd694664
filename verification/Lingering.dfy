/** Acknowledged slots that stay retained: when a receive leaves one, and a run that does. */
module Lingering {
  import opened Prelude
  import opened Framing
  import opened Sequence
  import opened Delivery

  /** Slot record n is retained although the peer has acknowledged it. */
  predicate Lingers(c: State, n: int) { n in c.outbox && n / 2 < c.peerIn }

  /** The frame is new and asks for slot record n. */
  predicate AsksFor(w: Wrapper, n: int) { w.action.Resend? && InSpan(n, w.action.first, w.action.last) }

  lemma ForgetDropsAll(r: End, c: State, n: int)
    requires Retained(r) && c.outbox == r.s.outbox && c.outbound == r.s.outbound
    ensures !Lingers(Forget(c, c.peerIn), n)
  {
  }

  /** An honest request asks for a span that is held. */
  lemma AskedHeld(s: End, r: End, slot: nat, w: Wrapper)
    requires Inv(s, r) && slot < |s.sent| && Carries(w, s.sent[slot]) && Preflight(r.s, w) == Fresh
    ensures w.action.Resend? ==>
      w.action.first <= w.action.last && Held(r.s, w.action.first, w.action.last)
  {
    PreflightHonest(s, r, slot, w);
    if w.action.Resend? {
      assert AskHonest(s, slot, |r.sent|);
      AnswerHonest(s, r, slot);
    }
  }

  /** What a new frame leaves retained below the echo: exactly the part of the answered span that lies there. */
  lemma ReceiveLingers(s: End, r: End, slot: nat, w: Wrapper, n: int)
    requires Inv(s, r) && slot < |s.sent| && Carries(w, s.sent[slot]) && Preflight(r.s, w) == Fresh
    ensures Receive(r.s, w).Ok?
    ensures var d := Receive(r.s, w).value.state; Lingers(d, n) <==> AsksFor(w, n) && n / 2 < d.peerIn
  {
    ReceiveHonest(s, r, slot, w);
    AskedHeld(s, r, slot, w);
    AcceptedLingers(s, r, slot, w, Accept(r.s, Consumed(w)).value, n);
  }

  lemma AcceptedLingers(s: End, r: End, slot: nat, w: Wrapper, acc: Accepted, n: int)
    requires Retained(r) && AcceptedOk(s, r, slot, acc)
    requires w.action.Resend? ==> Held(r.s, w.action.first, w.action.last)
    ensures Lingers(After(r, w, acc).s, n) <==> AsksFor(w, n) && n / 2 < acc.state.peerIn
  {
    ForgetDropsAll(r, acc.state, n);
  }

  /** So a receive leaves such a slot if and only if the answered span starts below the new echo. */
  lemma SpanStartsBelow(s: End, r: End, slot: nat, w: Wrapper)
    requires Inv(s, r) && slot < |s.sent| && Carries(w, s.sent[slot]) && Preflight(r.s, w) == Fresh
    ensures Receive(r.s, w).Ok?
    ensures var d := Receive(r.s, w).value.state;
      (exists n :: Lingers(d, n)) <==> w.action.Resend? && w.action.first / 2 < d.peerIn
  {
    ReceiveLingers(s, r, slot, w, 0);
    var d := Receive(r.s, w).value.state;
    AskedHeld(s, r, slot, w);
    if w.action.Resend? { ReceiveLingers(s, r, slot, w, w.action.first); }
    if n :| Lingers(d, n) { ReceiveLingers(s, r, slot, w, n); }
  }

  /** Over every run: only the receive of a new frame changes which acknowledged slots are retained, and it leaves
      exactly those of the answered span. */
  lemma LingeringSlots(moves: seq<Move>, move: Move, n: int)
    requires Run(Start(), moves).Ok? && Exec(Run(Start(), moves).value, move).Ok?
    ensures var sys, sys' := Run(Start(), moves).value, Exec(Run(Start(), moves).value, move).value;
      var (x, x', y) := if move.byA then (sys.a, sys'.a, sys.b) else (sys.b, sys'.b, sys.a);
      if move.step.Arrive? && move.step.slot < |y.sent|
        && Preflight(x.s, FrameOf(y.sent[move.step.slot], move.step.withdrawn)) == Fresh
      then Lingers(x'.s, n) <==> AsksFor(y.sent[move.step.slot], n) && n / 2 < x'.s.peerIn
      else Lingers(x'.s, n) <==> Lingers(x.s, n)
  {
    InitialInv();
    RunHonest(Start(), moves);
    var sys := Run(Start(), moves).value;
    if move.byA { StepLingers(sys.a, sys.b, move.step, n); } else { StepLingers(sys.b, sys.a, move.step, n); }
  }

  lemma StepLingers(x: End, y: End, step: Step, n: int)
    requires Inv(x, y) && StepEnd(x, y, step).Ok?
    ensures var x' := StepEnd(x, y, step).value;
      if step.Arrive? && step.slot < |y.sent| && Preflight(x.s, FrameOf(y.sent[step.slot], step.withdrawn)) == Fresh
      then Lingers(x'.s, n) <==> AsksFor(y.sent[step.slot], n) && n / 2 < x'.s.peerIn
      else Lingers(x'.s, n) <==> Lingers(x.s, n)
  {
    match step
    case Commit(action, key) => SentLingers(x, y, action, key, n);
    case AskDue(key) =>
      if x.s.resendDue.Some? { SentLingers(x, y, Resend(DueSpan(x.s).first, DueSpan(x.s).last), key, n); }
    case Arrive(slot, withdrawn) =>
      if slot < |y.sent| {
        var w := FrameOf(y.sent[slot], withdrawn);
        if Preflight(x.s, w) == Fresh { ReceiveLingers(y, x, slot, w, n); } else { NotFresh(x.s, w); }
      }
    case Dispatch =>
    case WithdrawContent(ids, key) =>
    case Mark(record, pending, failures) =>
  }

  /** A new slot is above every echo. */
  lemma SentLingers(x: End, y: End, action: Action, key: Key, n: int)
    requires Inv(x, y)
    ensures Lingers(Sent(x, action, key).s, n) <==> Lingers(x.s, n)
  {
    var k := TransformOut(x.s.outSeq, x.s.outbound);
    assert k / 2 == x.s.outSeq == |x.sent| && x.s.peerIn <= |x.sent|;
    assert k !in x.s.outbox;
  }

  // ---- A run that leaves one ----

  lemma Tells(moves: seq<Move>, a: End, b: End, byA: bool, step: Step, x: End) returns (moves': seq<Move>)
    requires Run(Start(), moves) == Ok(System(a, b))
    requires if byA then StepEnd(a, b, step) == Ok(x) else StepEnd(b, a, step) == Ok(x)
    ensures moves' == moves + [Move(byA, step)]
    ensures Run(Start(), moves') == Ok(if byA then System(x, b) else System(a, x))
  {
    moves' := moves + [Move(byA, step)];
    RunAppend(Start(), moves, Move(byA, step));
  }

  lemma SentFields(x: End, action: Action, key: Key) returns (e: End)
    ensures e == Sent(x, action, key) && e.sent == x.sent + [NextWrapper(x.s, action)] && e.got == x.got
    ensures e.s == x.s.(outSeq := x.s.outSeq + 1, outbox := e.s.outbox)
    ensures e.s.outbox == x.s.outbox[NextWrapper(x.s, action).outSeq := Record(NextWrapper(x.s, action), key, true, 0)]
  {
    e := Sent(x, action, key);
  }

  /** Two slots committed by an end that received nothing. */
  ghost predicate TwoSent(a: End) {
    && a.sent == [Wrapper(0, 1, 73, Noop), Wrapper(0, 3, 73, Noop)] && a.got == [] && Held(a.s, 1, 1)
    && a.s == Initial(true).(outSeq := 2, outbox := a.s.outbox)
  }

  lemma TwoStory() returns (moves: seq<Move>, a: End)
    ensures Run(Start(), moves) == Ok(System(a, Start().b)) && TwoSent(a)
  {
    var a1 := SentFields(Start().a, Noop, 0);
    a := SentFields(a1, Noop, 0);
    moves := Tells([], Start().a, Start().b, true, Commit(Noop, 0), a1);
    moves := Tells(moves, a1, Start().b, true, Commit(Noop, 0), a);
    assert NextWrapper(Initial(true), Noop) == Wrapper(0, 1, 73, Noop);
    assert NextWrapper(a1.s, Noop) == Wrapper(0, 3, 73, Noop);
  }

  /** The other end after the second of them: it is to ask for the first. */
  ghost predicate OneAhead(b: End) {
    && b.sent == [] && b.got == []
    && b.s == Initial(false).(layer := 73, queue := map[1 := Wrapper(0, 3, 73, Noop)], gapRequested := true,
                              gapEnd := Some(1), resendDue := Some(Span(1, 1)))
  }

  lemma Ahead(a: End) returns (b: End)
    requires a.sent == [Wrapper(0, 1, 73, Noop), Wrapper(0, 3, 73, Noop)]
    ensures StepEnd(Start().b, a, Arrive(1, false)) == Ok(b) && OneAhead(b)
  {
    QueuedNoop(Initial(false), a.sent[1]);
    b := StepEnd(Start().b, a, Arrive(1, false)).value;
  }

  /** It asks. */
  lemma Asks(b0: End) returns (b: End)
    requires OneAhead(b0)
    ensures b == Requested(b0, 0) && b.sent == [Wrapper(1, 0, 73, Resend(1, 1))] && b.got == []
    ensures b.s == b0.s.(outSeq := 1, outbox := b.s.outbox, resendDue := None)
  {
    b := Requested(b0, 0);
    assert DueSpan(b0.s) == Span(1, 1);
  }

  /** It receives the first slot after all, and counts both. */
  ghost predicate HasAsked(b: End) {
    && b.sent == [Wrapper(1, 0, 73, Resend(1, 1))] && b.s.inSeq == 2 && b.s.outSeq == 1 && b.s.layer == 73
    && !b.s.outbound
  }

  lemma Late(b0: End, a: End) returns (b: End)
    requires b0.s == Initial(false).(outSeq := 1, outbox := b0.s.outbox, layer := 73, gapRequested := true,
      queue := map[1 := Wrapper(0, 3, 73, Noop)], gapEnd := Some(1))
    requires a.sent == [Wrapper(0, 1, 73, Noop), Wrapper(0, 3, 73, Noop)]
      && b0.sent == [Wrapper(1, 0, 73, Resend(1, 1))]
    ensures StepEnd(b0, a, Arrive(0, false)) == Ok(b) && HasAsked(b)
  {
    CountsBoth(b0.s, a.sent[0], a.sent[1]);
    b := StepEnd(b0, a, Arrive(0, false)).value;
  }

  lemma AskedStory() returns (moves: seq<Move>, a: End, b: End)
    ensures Run(Start(), moves) == Ok(System(a, b)) && TwoSent(a) && HasAsked(b)
  {
    moves, a := TwoStory();
    var b0 := Ahead(a);
    var b1 := Asks(b0);
    b := Late(b1, a);
    moves := Tells(moves, a, Start().b, false, Arrive(1, false), b0);
    moves := Tells(moves, a, b0, false, AskDue(0), b1);
    moves := Tells(moves, a, b1, false, Arrive(0, false), b);
  }

  /** The next slot arrives, and the one that waits behind it is counted as well. */
  lemma CountsBoth(c: State, w: Wrapper, v: Wrapper)
    requires Preflight(c, w) == Fresh && w.outSeq / 2 == c.inSeq == 0 && c.queue == map[1 := v] && w.layer <= c.layer
    requires w.inSeq / 2 <= v.inSeq / 2 <= c.outSeq && w.layer <= v.layer
    requires w.action.Resend? ==> AskOk(c, w.action.first, w.action.last) && Held(c, w.action.first, w.action.last)
    ensures Receive(c, w).Ok?
    ensures var d := Receive(c, w).value.state;
      d.inSeq == 2 && d.peerIn == v.inSeq / 2 && d.outSeq == c.outSeq && d.layer == c.layer && d.outbound == c.outbound
  {
    var x := Consumed(w);
    var c1 := Advance(c.(layer := RaiseRemoteLayer(c.layer, x.layer)), x);
    assert Drain(Advance(c1.(queue := c1.queue - {1}), v)).Ok?;
    assert Drain(c1).Ok? && Drain(c1).value.state == Advance(c1.(queue := c1.queue - {1}), v);
    ReceiveUnfolds(c, w);
  }

  /** The first end receives the later slot, and then the request. */
  lemma Answers(x: End, y: End) returns (a: End, a': End)
    requires x.s == Initial(true).(outSeq := 2, outbox := x.s.outbox) && Held(x.s, 1, 1)
    requires y.sent == [Wrapper(1, 0, 73, Resend(1, 1)), Wrapper(5, 2, 73, Noop)]
    ensures StepEnd(x, y, Arrive(1, false)) == Ok(a) && StepEnd(a, y, Arrive(0, false)) == Ok(a')
    ensures Preflight(a.s, y.sent[0]) == Fresh && a'.s.peerIn == 2
  {
    QueuedNoop(x.s, y.sent[1]);
    a := StepEnd(x, y, Arrive(1, false)).value;
    assert a.s == x.s.(layer := 73, queue := map[1 := y.sent[1]], gapRequested := true, gapEnd := a.s.gapEnd,
                       resendDue := a.s.resendDue);
    CountsBoth(a.s, y.sent[0], y.sent[1]);
    a' := StepEnd(a, y, Arrive(0, false)).value;
  }

  /** A run whose sender still retains a slot that the peer has acknowledged: the request that asks for it is counted
      together with a later slot whose echo covers it. */
  lemma LingeringRun() returns (moves: seq<Move>)
    ensures Run(Start(), moves).Ok? && Lingers(Run(Start(), moves).value.a.s, 1)
  {
    var m0, x, b0 := AskedStory();
    var b := SentFields(b0, Noop, 0);
    assert b.sent == [Wrapper(1, 0, 73, Resend(1, 1)), Wrapper(5, 2, 73, Noop)];
    var a, a' := Answers(x, b);
    var m1 := Tells(m0, x, b0, false, Commit(Noop, 0), b);
    var m2 := Tells(m1, x, b, true, Arrive(1, false), a);
    moves := Tells(m2, a, b, true, Arrive(0, false), a');
    LingeringSlots(m2, Move(true, Arrive(0, false)), 1);
  }
}
