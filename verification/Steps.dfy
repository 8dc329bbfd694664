/** What each step of one end does, said without the functions that define it: for any state and any input. */
module Steps {
  import opened Prelude
  import opened Framing
  import opened Sequence

  /** The end that opened the chat numbers what it sends oddly and what it has received evenly; the other end the other
      way round. */
  function OwnNumber(n: nat, outbound: bool): int { if outbound then 2 * n + 1 else 2 * n }

  function PeerNumber(n: nat, outbound: bool): int { OwnNumber(n, !outbound) }

  /** A frame that this end's peer could have numbered is a replay if its slot is counted or queued, is new if its echo
      and its layer go on from what is known and it is near enough, and ends the chat otherwise. */
  lemma PreflightDecides(c: State, echo: nat, slot: nat, layer: int, action: Action)
    ensures var seen := slot < c.inSeq || slot in c.queue;
      var follows := c.peerIn <= echo <= c.outSeq && c.wrapperLayer <= layer;
      var near := slot <= c.inSeq + 1000 && (slot <= c.inSeq || |c.queue| < 1000);
      Preflight(c, Wrapper(OwnNumber(echo, c.outbound), PeerNumber(slot, c.outbound), layer, action))
        == if seen then Replay else if follows && near then Fresh else Fatal
  {
  }

  /** Any other frame ends the chat. */
  lemma PreflightRefuses(c: State, w: Wrapper)
    requires forall echo: nat, slot: nat ::
      w.inSeq != OwnNumber(echo, c.outbound) || w.outSeq != PeerNumber(slot, c.outbound)
    ensures Preflight(c, w) == Fatal
  {
    if w.inSeq >= 0 && w.outSeq >= 0 {
      assert w.inSeq != OwnNumber(w.inSeq / 2, c.outbound) || w.outSeq != PeerNumber(w.outSeq / 2, c.outbound);
    }
  }

  /** A send retains one record more, at the next number, pending and untried under the given key; it carries the echo
      of what was received and the layer for this peer. Nothing else changes. */
  lemma SendDecides(c: State, action: Action, key: Key)
    ensures var n := OwnNumber(c.outSeq, c.outbound);
      var w := Wrapper(if c.outbound then 2 * c.inSeq else 2 * c.inSeq + 1, n, OutgoingLayer(c.layer), action);
      Send(c, action, key) == c.(outSeq := c.outSeq + 1, outbox := c.outbox[n := Record(w, key, true, 0)])
  {
  }

  /** A request for the slots from `a` to `b` of this end is met if there are at most 1000 of them and each is retained,
      with exactly their records; otherwise it is refused. */
  lemma AnswerDecides(c: State, a: nat, b: nat)
    requires a <= b
    ensures var answer := AnswerResend(c, OwnNumber(a, c.outbound), OwnNumber(b, c.outbound));
      && (answer.Ok? <==> b - a < 1000 && forall k: nat :: a <= k <= b ==> OwnNumber(k, c.outbound) in c.outbox)
      && (answer.Ok? ==>
          forall n :: n in answer.value <==> exists k: nat :: a <= k <= b && n == OwnNumber(k, c.outbound))
      && (answer.Ok? ==> forall n :: n in answer.value ==> n in c.outbox && answer.value[n] == c.outbox[n])
  {
    var first, last := OwnNumber(a, c.outbound), OwnNumber(b, c.outbound);
    forall n | InSpan(n, first, last) ensures a <= n / 2 <= b && n == OwnNumber(n / 2, c.outbound) {}
    forall k: nat | a <= k <= b ensures InSpan(OwnNumber(k, c.outbound), first, last) {}
  }

  /** Any other request is refused. */
  lemma AnswerRefuses(c: State, first: int, last: int)
    requires forall a: nat, b: nat :: a <= b ==> first != OwnNumber(a, c.outbound) || last != OwnNumber(b, c.outbound)
    ensures AnswerResend(c, first, last).Err?
  {
    if 0 <= first <= last {
      assert first != OwnNumber(first / 2, c.outbound) || last != OwnNumber(last / 2, c.outbound);
    }
  }

  /** Forgetting up to an echo drops this end's slots below it and no others. */
  lemma ForgetDecides(c: State, peerIn: nat, slot: nat)
    ensures var n, d := OwnNumber(slot, c.outbound), Forget(c, peerIn);
      && d.(outbox := c.outbox) == c
      && (n in d.outbox <==> n in c.outbox && peerIn <= slot)
      && (n in d.outbox ==> d.outbox[n] == c.outbox[n])
  {
  }

  /** Answered records are retained and pending again, and nothing else changes. */
  lemma RequeueDecides(c: State, answer: map<int, Record>, n: int)
    ensures var d := Requeue(c, answer);
      && d.(outbox := c.outbox) == c && (n in d.outbox <==> n in c.outbox || n in answer)
      && (n in answer ==> d.outbox[n] == Record(answer[n].wrapper, answer[n].key, true, answer[n].failures))
      && (n in c.outbox && n !in answer ==> d.outbox[n] == c.outbox[n])
  {
  }

  /** Delivery takes the head of the mailbox; a layer notice raises the peer's layer to what it says, if that is more.
      */
  lemma DeliverDecides(c: State)
    requires c.mailbox != []
    ensures var d, action := Deliver(c), c.mailbox[0].action;
      && d.(mailbox := c.mailbox, layer := c.layer) == c && [c.mailbox[0]] + d.mailbox == c.mailbox
      && d.layer == if action.NotifyLayer? && action.layer > c.layer then action.layer else c.layer
  {
  }

  /** What is written for a due span is a request for the part of it from the next expected slot on, and the mark is
      cleared with it; if nothing of it is missing any more, the mark is just cleared. */
  lemma RequestDecides(c: State, from: nat, to: nat, key: Key)
    requires c.resendDue == Some(Span(PeerNumber(from, c.outbound), PeerNumber(to, c.outbound)))
    ensures var start := Max(from, c.inSeq);
      RequestDue(c, key).(resendDue := c.resendDue) ==
        if start > to then c else Send(c, Resend(PeerNumber(start, c.outbound), PeerNumber(to, c.outbound)), key)
    ensures RequestDue(c, key).resendDue.None?
  {
  }

  /** The queued frames from a slot on, up to the first hole. */
  ghost predicate IsRun(queue: map<int, Wrapper>, from: int, run: seq<Wrapper>)
    decreases |run|
  {
    if run == [] then from !in queue
    else from in queue && run[0] == queue[from] && IsRun(queue, from + 1, run[1..])
  }

  lemma {:induction false} RunAbove(queue: map<int, Wrapper>, low: int, from: int, run: seq<Wrapper>)
    requires low < from
    ensures IsRun(queue - {low}, from, run) <==> IsRun(queue, from, run)
    decreases |run|
  {
    if run != [] { RunAbove(queue, low, from + 1, run[1..]); }
  }

  /** There always is such a run. */
  lemma {:induction false} RunFrom(queue: map<int, Wrapper>, from: int) returns (run: seq<Wrapper>)
    ensures IsRun(queue, from, run)
    decreases |queue|
  {
    run := [];
    if from in queue {
      var tail := RunFrom(queue - {from}, from + 1);
      RunAbove(queue, from, from + 1, tail);
      run := [queue[from]] + tail;
      assert run[1..] == tail;
    }
  }

  /** Echo and layer never go back from one frame to the next, and no echo is beyond what this end has sent. */
  ghost predicate InOrderFrom(echo: int, layer: int, sent: int, run: seq<Wrapper>) {
    && (forall j :: 0 <= j < |run| ==> echo <= run[j].inSeq / 2 <= sent && layer <= run[j].layer)
    && (forall i, j :: 0 <= i < j < |run| ==> run[i].inSeq / 2 <= run[j].inSeq / 2 && run[i].layer <= run[j].layer)
  }

  lemma OrderTail(echo: int, layer: int, sent: int, run: seq<Wrapper>)
    requires run != []
    ensures InOrderFrom(echo, layer, sent, run) <==>
      && echo <= run[0].inSeq / 2 <= sent && layer <= run[0].layer
      && InOrderFrom(run[0].inSeq / 2, run[0].layer, sent, run[1..])
  {
    var tail := run[1..];
    if InOrderFrom(echo, layer, sent, run) {
      forall j | 0 <= j < |tail|
        ensures run[0].inSeq / 2 <= tail[j].inSeq / 2 <= sent && run[0].layer <= tail[j].layer
      {
        assert tail[j] == run[j + 1];
      }
      forall i, j | 0 <= i < j < |tail|
        ensures tail[i].inSeq / 2 <= tail[j].inSeq / 2 && tail[i].layer <= tail[j].layer
      {
        assert tail[i] == run[i + 1] && tail[j] == run[j + 1];
      }
    }
    if echo <= run[0].inSeq / 2 <= sent && layer <= run[0].layer
      && InOrderFrom(run[0].inSeq / 2, run[0].layer, sent, tail)
    {
      forall j | 0 <= j < |run| ensures echo <= run[j].inSeq / 2 <= sent && layer <= run[j].layer {
        if j > 0 { assert run[j] == tail[j - 1]; }
      }
      forall i, j | 0 <= i < j < |run|
        ensures run[i].inSeq / 2 <= run[j].inSeq / 2 && run[i].layer <= run[j].layer
      {
        assert run[j] == tail[j - 1] && (i > 0 ==> run[i] == tail[i - 1]);
      }
    }
  }

  /** What a run that was taken leaves: the counter behind it, its last frame's echo and layer, and the other frames. */
  ghost function RunTaken(c: State, run: seq<Wrapper>): State {
    c.(inSeq := c.inSeq + |run|,
       peerIn := if run == [] then c.peerIn else run[|run| - 1].inSeq / 2,
       wrapperLayer := if run == [] then c.wrapperLayer else run[|run| - 1].layer,
       queue := map k | k in c.queue && !(c.inSeq <= k < c.inSeq + |run|) :: c.queue[k])
  }

  lemma TakenTail(c: State, next: State, run: seq<Wrapper>)
    requires run != [] && next == Advance(c.(queue := c.queue - {c.inSeq}), run[0])
    ensures RunTaken(next, run[1..]) == RunTaken(c, run)
  {
    assert RunTaken(next, run[1..]).queue == RunTaken(c, run).queue;
  }

  /** Draining takes exactly the run from the next expected slot on, and raises exactly if that run is out of order. */
  lemma {:induction false} DrainDecides(c: State, run: seq<Wrapper>)
    requires IsRun(c.queue, c.inSeq, run)
    ensures Drain(c).Ok? <==> InOrderFrom(c.peerIn, c.wrapperLayer, c.outSeq, run)
    ensures Drain(c).Ok? ==> Drain(c).value == Drained(RunTaken(c, run), run)
    decreases |run|
  {
    if run == [] {
      assert RunTaken(c, run).queue == c.queue;
    } else {
      var item, tail := run[0], run[1..];
      RunAbove(c.queue, c.inSeq, c.inSeq + 1, tail);
      OrderTail(c.peerIn, c.wrapperLayer, c.outSeq, run);
      if OrderOk(c, item) {
        var next := Advance(c.(queue := c.queue - {c.inSeq}), item);
        DrainDecides(next, tail);
        TakenTail(c, next, run);
        assert run == [item] + tail;
      }
    }
  }

  /** The counters once a new frame at the next expected slot is counted. */
  function WithNext(c: State, w: Wrapper): State {
    c.(inSeq := c.inSeq + 1, peerIn := w.inSeq / 2, wrapperLayer := w.layer,
       layer := if w.layer > c.layer then w.layer else c.layer)
  }

  lemma AcceptParts(c: State, w: Wrapper)
    requires Preflight(c, w) == Fresh && w.outSeq / 2 == c.inSeq
    ensures Accept(c, w).Ok? <==> Drain(WithNext(c, w)).Ok?
    ensures Accept(c, w).Ok? ==>
      var run := Drain(WithNext(c, w)).value;
      var (settled, resend) := SettleGap(run.state, w.outSeq % 2);
      Accept(c, w).value == Accepted(settled, [w] + run.ready, resend)
  {
  }

  /** What still waits is what lies beyond the counter. If nothing does, no hole is open. Otherwise the hole before the
      first frame that waits is the next one to ask for, unless an earlier one is still open. */
  lemma GapDecides(c: State)
    ensures var (d, resend) := SettleGap(c, if c.outbound then 0 else 1);
      && d.queue == (map k | k in c.queue && k > c.inSeq :: c.queue[k])
      && d == c.(queue := d.queue, gapRequested := d.gapRequested, gapEnd := d.gapEnd, resendDue := d.resendDue)
      && (if d.queue == map[] then !d.gapRequested && d.gapEnd.None? && d.resendDue.None? && resend.None?
          else if c.gapEnd.Some? && c.inSeq < c.gapEnd.value then d == c.(queue := d.queue) && resend.None?
          else (
            && d.gapRequested && d.gapEnd.Some? && IsFirstWaiting(d.queue, d.gapEnd.value)
            && resend == d.resendDue
            && resend == Some(Span(2 * c.inSeq + (if c.outbound then 0 else 1),
                                   2 * (d.gapEnd.value - 1) + (if c.outbound then 0 else 1)))))
  {
  }

  /** A new frame at the next expected slot is taken together with the run queued behind it, unless that run is out of
      order. */
  lemma AcceptDecides(c: State, w: Wrapper, run: seq<Wrapper>)
    requires Preflight(c, w) == Fresh && w.outSeq / 2 == c.inSeq && IsRun(c.queue, c.inSeq + 1, run)
    ensures Accept(c, w).Ok? <==> InOrderFrom(w.inSeq / 2, w.layer, c.outSeq, run)
    ensures Accept(c, w).Ok? ==>
      var (settled, resend) := SettleGap(RunTaken(WithNext(c, w), run), if c.outbound then 0 else 1);
      Accept(c, w).value == Accepted(settled, [w] + run, resend)
  {
    AcceptParts(c, w);
    DrainDecides(WithNext(c, w), run);
  }

  /** A new frame further on waits in the queue; if no hole is open yet, the one up to it is what is asked for. */
  lemma AheadDecides(c: State, w: Wrapper)
    requires Preflight(c, w) == Fresh && w.outSeq / 2 > c.inSeq
    ensures Accept(c, w).Ok? && Accept(c, w).value.ready == []
    ensures var d, slot := Accept(c, w).value.state, w.outSeq / 2;
      var waits := c.(queue := c.queue[slot := w], layer := if w.layer > c.layer then w.layer else c.layer);
      var hole := Span(PeerNumber(c.inSeq, c.outbound), PeerNumber(slot - 1, c.outbound));
      d == if c.gapRequested then waits
           else waits.(gapRequested := true, gapEnd := Some(slot), resendDue := Some(hole))
  {
  }

  lemma {:induction false} DrainLeaves(c: State)
    requires Drain(c).Ok?
    ensures var d := Drain(c).value.state;
      d.outbox == c.outbox && d.mailbox == c.mailbox && d.outbound == c.outbound && d.outSeq == c.outSeq
    decreases |c.queue|
  {
    if c.inSeq in c.queue { DrainLeaves(Advance(c.(queue := c.queue - {c.inSeq}), c.queue[c.inSeq])); }
  }

  /** Acceptance touches no retained record and no mailbox. */
  lemma AcceptLeaves(c: State, w: Wrapper)
    requires Preflight(c, w) == Fresh && Accept(c, w).Ok?
    ensures var d := Accept(c, w).value.state;
      d.outbox == c.outbox && d.mailbox == c.mailbox && d.outbound == c.outbound && d.outSeq == c.outSeq
  {
    if w.outSeq / 2 == c.inSeq {
      AcceptParts(c, w);
      DrainLeaves(WithNext(c, w));
      LeftAsIs(Drain(WithNext(c, w)).value.state, w.outSeq % 2);
    }
  }

  lemma LeftAsIs(c: State, parity: int)
    ensures var d := SettleGap(c, parity).0;
      d.outbox == c.outbox && d.mailbox == c.mailbox && d.outbound == c.outbound && d.outSeq == c.outSeq
  {
  }

  /** What a request asks to have sent again, if the frame is one. */
  ghost function Wanted(c: State, w: Wrapper): Result<map<int, Record>> {
    if w.action.Resend? then AnswerResend(c, w.action.first, w.action.last) else Ok(map[])
  }

  predicate AsksAgain(w: Wrapper, n: int) {
    w.action.Resend? && w.action.first <= n <= w.action.last && n % 2 == w.action.first % 2
  }

  /** A new frame is received if it is accepted and, when it asks for slots, they can all be sent again; such a frame
      counts as an empty one. What becomes ready joins the mailbox, and what the echo newly passed is reported. */
  lemma ReceiveDecides(c: State, w: Wrapper, n: int)
    requires Preflight(c, w) == Fresh
    ensures var stored := if w.action.Resend? then Wrapper(w.inSeq, w.outSeq, w.layer, Noop) else w;
      && Preflight(c, stored) == Fresh
      && (Receive(c, w).Ok? <==> Accept(c, stored).Ok? && Wanted(c, w).Ok?)
      && (Receive(c, w).Ok? ==>
          var got, acc := Receive(c, w).value, Accept(c, stored).value;
          && got.isNew && got.ready == acc.ready && got.answer == Wanted(c, w).value
          && got.state == acc.state.(outbox := got.state.outbox, mailbox := c.mailbox + acc.ready)
          && (n in got.acknowledged <==>
              n in c.outbox && c.peerIn < acc.state.peerIn && n <= TransformOut(acc.state.peerIn - 1, c.outbound)))
  {
    var stored := if w.action.Resend? then w.(action := Noop) else w;
    assert Preflight(c, stored) == Fresh;
    if Accept(c, stored).Ok? { AcceptLeaves(c, stored); }
  }

  /** A slot of this end stays retained if the echo has not passed it or it was asked for, and if it was asked for it is
      pending again. */
  lemma ReceiveRetains(c: State, w: Wrapper, slot: nat)
    requires Preflight(c, w) == Fresh && Receive(c, w).Ok?
    ensures var n, d := OwnNumber(slot, c.outbound), Receive(c, w).value.state;
      && (n in d.outbox <==> n in c.outbox && (AsksAgain(w, n) || d.peerIn <= slot))
      && (n in d.outbox && AsksAgain(w, n) ==>
          d.outbox[n] == Record(c.outbox[n].wrapper, c.outbox[n].key, true, c.outbox[n].failures))
      && (n in d.outbox && !AsksAgain(w, n) ==> d.outbox[n] == c.outbox[n])
  {
    var stored := if w.action.Resend? then w.(action := Noop) else w;
    var n := OwnNumber(slot, c.outbound);
    ReceiveDecides(c, w, n);
    AcceptLeaves(c, stored);
    var kept := Accept(c, stored).value.state;
    RetainsParts(c, w);
    KeptDecides(kept, Wanted(c, w).value, slot);
    WantedDecides(c, w, n);
  }

  lemma RetainsParts(c: State, w: Wrapper)
    requires Preflight(c, w) == Fresh && Receive(c, w).Ok?
    ensures var kept := Accept(c, if w.action.Resend? then w.(action := Noop) else w).value.state;
      Receive(c, w).value.state.outbox == Requeue(Forget(kept, kept.peerIn), Wanted(c, w).value).outbox
  {
  }

  lemma WantedDecides(c: State, w: Wrapper, n: int)
    requires Wanted(c, w).Ok?
    ensures var answer := Wanted(c, w).value;
      (n in answer <==> AsksAgain(w, n)) && (n in answer ==> n in c.outbox && answer[n] == c.outbox[n])
  {
    if AsksAgain(w, n) { assert InSpan(n, w.action.first, w.action.last); }
  }

  lemma KeptDecides(c: State, answer: map<int, Record>, slot: nat)
    ensures var n, d := OwnNumber(slot, c.outbound), Requeue(Forget(c, c.peerIn), answer);
      && (n in d.outbox <==> n in answer || (n in c.outbox && c.peerIn <= slot))
      && (n in answer ==> d.outbox[n] == Record(answer[n].wrapper, answer[n].key, true, answer[n].failures))
      && (n in d.outbox && n !in answer ==> d.outbox[n] == c.outbox[n])
  {
  }
}
