/** A resend span from the step that decided it to the step that writes it: what has arrived in between. */
module SpanHistory {
  import opened Framing
  import opened Sequence
  import opened Delivery

  /** The step is the arrival of slot q at x. */
  predicate Brings(y: End, step: Step, q: int) { step.Arrive? && step.slot == q && q < |y.sent| }

  /** The queue of an end changes only by arrivals and by what the counter passes. */
  lemma StepQueue(x: End, y: End, step: Step, q: int)
    requires Inv(x, y) && StepEnd(x, y, step).Ok?
    ensures var d := StepEnd(x, y, step).value.s;
      x.s.inSeq <= d.inSeq && (q >= d.inSeq ==> (q in d.queue <==> q in x.s.queue || Brings(y, step, q)))
  {
    if step.Arrive? && step.slot < |y.sent| {
      ArriveQueue(x, y, step.slot, FrameOf(y.sent[step.slot], step.withdrawn), q);
    }
  }

  lemma ArriveQueue(x: End, y: End, slot: nat, w: Wrapper, q: int)
    requires Inv(x, y) && slot < |y.sent| && Carries(w, y.sent[slot]) && Receive(x.s, w).Ok?
    ensures var d := Receive(x.s, w).value.state;
      x.s.inSeq <= d.inSeq && (q >= d.inSeq ==> (q in d.queue <==> q in x.s.queue || q == slot))
  {
    ArriveVerdict(x, y, slot, w);
    if Preflight(x.s, w) == Fresh {
      ReceiveHonest(y, x, slot, w);
      AcceptedQueue(y, x, slot, w, Accept(x.s, Consumed(w)).value, q);
    } else {
      NotFresh(x.s, w);
    }
  }

  lemma AcceptedQueue(s: End, r: End, slot: nat, w: Wrapper, acc: Accepted, q: int)
    requires AcceptedOk(s, r, slot, acc)
    ensures var d := After(r, w, acc).s;
      r.s.inSeq <= d.inSeq && (q >= d.inSeq ==> (q in d.queue <==> q in r.s.queue || q == slot))
  {
  }

  /** Slot q has come to one end during a run from some state. */
  ghost predicate Came(sys: System, moves: seq<Move>, ofA: bool, q: int)
    decreases |moves|
  {
    moves != [] &&
      var init, last := moves[..|moves| - 1], moves[|moves| - 1];
      || Came(sys, init, ofA, q)
      || (Run(sys, init).Ok? && last.byA == ofA && Brings(One(Run(sys, init).value, !ofA), last.step, q))
  }

  lemma ExecQueue(sys: System, move: Move, ofA: bool, q: int)
    requires SysInv(sys) && Exec(sys, move).Ok?
    ensures var c, d := One(sys, ofA).s, One(Exec(sys, move).value, ofA).s;
      && c.inSeq <= d.inSeq
      && (q >= d.inSeq ==>
            (q in d.queue <==> q in c.queue || (move.byA == ofA && Brings(One(sys, !ofA), move.step, q))))
  {
    if move.byA == ofA {
      if ofA { StepQueue(sys.a, sys.b, move.step, q); } else { StepQueue(sys.b, sys.a, move.step, q); }
    }
  }

  /** Over every run from an invariant state: what waits at an end is what waited before or came since, as far as the
      counter has not passed it. */
  lemma {:induction false} QueueHistory(sys: System, moves: seq<Move>, ofA: bool, q: int)
    requires SysInv(sys) && Run(sys, moves).Ok?
    ensures var c, d := One(sys, ofA).s, One(Run(sys, moves).value, ofA).s;
      c.inSeq <= d.inSeq && (q >= d.inSeq ==> (q in d.queue <==> q in c.queue || Came(sys, moves, ofA, q)))
    decreases |moves|
  {
    if moves == [] {
    } else {
      var init, last := moves[..|moves| - 1], moves[|moves| - 1];
      assert init + [last] == moves;
      RunAppend(sys, init, last);
      RunHonest(sys, init);
      QueueHistory(sys, init, ofA, q);
      ExecQueue(Run(sys, init).value, last, ofA, q);
    }
  }

  /** A span that one step decided and that is still due when the request is written: it names only missing slots if and
      only if none of the slots that it then names has come since the step that decided it. */
  lemma WrittenSpanHistory(moves: seq<Move>, since: seq<Move>, ofA: bool)
    requires Run(Start(), moves).Ok? && Run(Run(Start(), moves).value, since).Ok?
    requires var sys := Run(Start(), moves).value;
      var c, x := One(sys, ofA).s, One(Run(sys, since).value, ofA).s;
      ExactlyMissing(c) && x.resendDue.Some? && x.gapEnd == c.gapEnd
    ensures var sys := Run(Start(), moves).value;
      var x := One(Run(sys, since).value, ofA).s;
      (forall k :: k in x.queue ==> !InSpan(TransformOut(k, !x.outbound), DueSpan(x).first, DueSpan(x).last))
      <==> (forall q :: x.inSeq <= q < x.gapEnd.value ==> !Came(sys, since, ofA, q))
  {
    InitialInv();
    RunHonest(Start(), moves);
    var sys := Run(Start(), moves).value;
    RunHonest(sys, since);
    var sys' := Run(sys, since).value;
    if ofA {
      SpanHistory(sys.a.s, sys, since, ofA, sys'.a, sys'.b);
    } else {
      SpanHistory(sys.b.s, sys, since, ofA, sys'.b, sys'.a);
    }
  }

  lemma SpanHistory(c: State, sys: System, since: seq<Move>, ofA: bool, x: End, y: End)
    requires SysInv(sys) && Run(sys, since).Ok? && c == One(sys, ofA).s && x == One(Run(sys, since).value, ofA)
    requires Inv(x, y) && ExactlyMissing(c) && x.s.resendDue.Some? && x.s.gapEnd == c.gapEnd
    ensures (forall k :: k in x.s.queue ==>
      !InSpan(TransformOut(k, !x.s.outbound), DueSpan(x.s).first, DueSpan(x.s).last))
      <==> (forall q :: x.s.inSeq <= q < x.s.gapEnd.value ==> !Came(sys, since, ofA, q))
  {
    WrittenSpanExact(x, y);
    if HoleBelow(x.s) {
      forall q: int | x.s.inSeq <= q < x.s.gapEnd.value ensures !Came(sys, since, ofA, q) {
        QueueHistory(sys, since, ofA, q);
      }
    } else {
      var k :| x.s.inSeq <= k < x.s.gapEnd.value && k in x.s.queue;
      QueueHistory(sys, since, ofA, k);
    }
  }
}
