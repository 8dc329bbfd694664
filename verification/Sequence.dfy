/** What one end does with its counters, gap queue and retained outbox, as functions on values. */
module Sequence {
  import opened Prelude
  import opened Framing

  const MAX_RESEND_COUNT := 1000

  datatype Span = Span(first: int, last: int)

  /** One retained outgoing record: the wrapper it serializes and the key its stored frame uses. */
  datatype Record = Record(wrapper: Wrapper, key: Key, pending: bool, failures: nat)

  /** The committed sequence state of one chat: record fields, both queues and the mailbox. */
  datatype State = State(
    outbound: bool,
    inSeq: nat,
    outSeq: nat,
    peerIn: int,
    layer: int,
    wrapperLayer: int,
    gapRequested: bool,
    gapEnd: Option<int>,
    resendDue: Option<Span>,
    queue: map<int, Wrapper>,
    outbox: map<int, Record>,
    mailbox: seq<Wrapper>)

  function Initial(outbound: bool): State {
    State(outbound, 0, 0, 0, INITIAL_REMOTE_LAYER, 0, false, None, None, map[], map[], [])
  }

  datatype Verdict = Fresh | Replay | Fatal

  predicate OrderOk(c: State, w: Wrapper) {
    c.peerIn <= w.inSeq / 2 <= c.outSeq && c.wrapperLayer <= w.layer
  }

  function Preflight(c: State, w: Wrapper): Verdict {
    if w.inSeq < 0 || w.outSeq < 0 then Fatal
    else if w.inSeq % 2 != InParity(!c.outbound) || w.outSeq % 2 != OutParity(!c.outbound) then Fatal
    else if w.outSeq / 2 < c.inSeq || w.outSeq / 2 in c.queue then Replay
    else if !OrderOk(c, w) then Fatal
    else if w.outSeq / 2 - c.inSeq > MAX_RESEND_COUNT then Fatal
    else if w.outSeq / 2 > c.inSeq && |c.queue| >= MAX_RESEND_COUNT then Fatal
    else Fresh
  }

  /** One chronological step: the wrapper is the next expected slot. */
  function Advance(c: State, w: Wrapper): State {
    c.(peerIn := w.inSeq / 2, wrapperLayer := w.layer, inSeq := c.inSeq + 1)
  }

  datatype Drained = Drained(state: State, ready: seq<Wrapper>)

  /** Take the next expected slot from the queue for as long as it is there. */
  function Drain(c: State): Result<Drained>
    decreases |c.queue|
  {
    if c.inSeq !in c.queue then Ok(Drained(c, []))
    else if !OrderOk(c, c.queue[c.inSeq]) then Err("order")
    else
      var item := c.queue[c.inSeq];
      var tail :- Drain(Advance(c.(queue := c.queue - {c.inSeq}), item));
      Ok(Drained(tail.state, [item] + tail.ready))
  }

  /** The least queued number, as the head of the sorted list of what still waits. */
  ghost predicate IsFirstWaiting(queue: map<int, Wrapper>, least: int) {
    least in queue && forall k :: k in queue ==> least <= k
  }

  lemma {:induction false} FirstWaitingExists(keys: set<int>) returns (least: int)
    requires keys != {}
    ensures least in keys && forall k :: k in keys ==> least <= k
    decreases |keys|
  {
    var some := Member(keys);
    var rest := keys - {some};
    least := some;
    if rest != {} {
      var other := FirstWaitingExists(rest);
      least := Min(some, other);
    }
    forall k | k in keys ensures least <= k {
      assert k == some || k in rest;
    }
  }

  ghost function FirstWaiting(queue: map<int, Wrapper>): (least: int)
    requires queue != map[]
    ensures IsFirstWaiting(queue, least)
  {
    assert exists least :: IsFirstWaiting(queue, least) by {
      assert |queue| == |queue.Keys|;
      var least := FirstWaitingExists(queue.Keys);
      assert IsFirstWaiting(queue, least);
    }
    var least :| IsFirstWaiting(queue, least);
    least
  }

  datatype Accepted = Accepted(state: State, ready: seq<Wrapper>, resend: Option<Span>)

  /** Gap bookkeeping after a run of slots was accepted: clear it, move to the next hole, or keep it. */
  ghost function SettleGap(c: State, parity: int): (r: (State, Option<Span>)) {
    var waiting := map k | k in c.queue && k > c.inSeq :: c.queue[k];
    var c0 := c.(queue := waiting);
    if waiting == map[] then (c0.(gapRequested := false, gapEnd := None, resendDue := None), None)
    else if c.gapEnd == None || c.inSeq >= c.gapEnd.value then
      var end := FirstWaiting(waiting);
      var span := Span(2 * c.inSeq + parity, 2 * (end - 1) + parity);
      (c0.(gapRequested := true, gapEnd := Some(end), resendDue := Some(span)), Some(span))
    else (c0, None)
  }

  /** A slot beyond the next expected one is queued; only the first of a hole marks it. */
  function QueueAhead(c: State, w: Wrapper): Accepted {
    var raw := w.outSeq / 2;
    var c1 := c.(queue := c.queue[raw := w]);
    if c.gapRequested then Accepted(c1, [], None)
    else
      var span := Span(2 * c.inSeq + w.outSeq % 2, w.outSeq - 2);
      Accepted(c1.(gapRequested := true, gapEnd := Some(raw), resendDue := Some(span)), [], Some(span))
  }

  ghost function Accept(c: State, w: Wrapper): Result<Accepted> {
    match Preflight(c, w)
    case Fatal => Err("preflight")
    case Replay => Ok(Accepted(c, [], None))
    case Fresh =>
      var c0 := c.(layer := RaiseRemoteLayer(c.layer, w.layer));
      if w.outSeq / 2 > c.inSeq then Ok(QueueAhead(c0, w))
      else
        var run :- Drain(Advance(c0, w));
        var (settled, resend) := SettleGap(run.state, w.outSeq % 2);
        Ok(Accepted(settled, [w] + run.ready, resend))
  }

  predicate AskOk(c: State, first: int, last: int) {
    && 0 <= first <= last
    && first % 2 == last % 2 == OutParity(c.outbound)
    && (last - first) / 2 + 1 <= MAX_RESEND_COUNT
  }

  predicate InSpan(n: int, first: int, last: int) {
    first <= n <= last && n % 2 == first % 2
  }

  ghost predicate Held(c: State, first: int, last: int) {
    forall n :: InSpan(n, first, last) ==> n in c.outbox
  }

  /** The records a resend names: every retained slot of the span, or a refusal. */
  ghost function AnswerResend(c: State, first: int, last: int): Result<map<int, Record>> {
    if !AskOk(c, first, last) || !Held(c, first, last) then Err("unsatisfiable")
    else Ok(map n | n in c.outbox && InSpan(n, first, last) :: c.outbox[n])
  }

  function Forget(c: State, peerIn: int): State {
    if peerIn > 0 then
      var highest := TransformOut(peerIn - 1, c.outbound);
      c.(outbox := map n | n in c.outbox && n > highest :: c.outbox[n])
    else c
  }

  /** Answered records go back into the outbox as pending, whether or not the drop above took them. */
  function Requeue(c: State, answer: map<int, Record>): State {
    c.(outbox := c.outbox + map n | n in answer :: answer[n].(pending := true))
  }

  datatype Received = Received(
    state: State, isNew: bool, ready: seq<Wrapper>, answer: map<int, Record>, acknowledged: set<int>)

  /** The whole receive commit: check, answer, accept, acknowledge, forget, requeue, mailbox. */
  ghost function Receive(c: State, w: Wrapper): Result<Received> {
    match Preflight(c, w)
    case Fatal => Err("preflight")
    case Replay => Ok(Received(c, false, [], map[], {}))
    case Fresh =>
      var answer :- if w.action.Resend? then AnswerResend(c, w.action.first, w.action.last) else Ok(map[]);
      var stored := if w.action.Resend? then w.(action := Noop) else w;
      var accepted :- Accept(c, stored);
      var c1 := accepted.state;
      var acknowledged :=
        if c1.peerIn > c.peerIn
        then set n | n in c1.outbox && n <= TransformOut(c1.peerIn - 1, c1.outbound)
        else {};
      var c2 := Requeue(Forget(c1, c1.peerIn), answer);
      Ok(Received(c2.(mailbox := c2.mailbox + accepted.ready), true, accepted.ready, answer, acknowledged))
  }

  /** The wrapper the next send commits. */
  function NextWrapper(c: State, action: Action): Wrapper {
    Wrapper(TransformIn(c.inSeq, c.outbound), TransformOut(c.outSeq, c.outbound), OutgoingLayer(c.layer), action)
  }

  function Send(c: State, action: Action, key: Key): State {
    var w := NextWrapper(c, action);
    c.(outSeq := c.outSeq + 1, outbox := c.outbox[w.outSeq := Record(w, key, true, 0)])
  }

  /** The part of a due span that is still missing when its request is written. */
  function DueSpan(c: State): Span
    requires c.resendDue.Some?
  {
    var due := c.resendDue.value;
    Span(Max(due.first, 2 * c.inSeq + due.first % 2), due.last)
  }

  function RequestDue(c: State, key: Key): State {
    if c.resendDue == None then c
    else
      var span := DueSpan(c);
      if span.first > span.last then c.(resendDue := None)
      else Send(c, Resend(span.first, span.last), key).(resendDue := None)
  }

  /** Content whose id is withdrawn becomes a self-delete in the same slot, under the current key. */
  function Withdraw(c: State, ids: set<int>, key: Key): State {
    c.(outbox := map n | n in c.outbox ::
        var r := c.outbox[n];
        if r.wrapper.action.Content? && r.wrapper.action.id in ids
        then r.(wrapper := r.wrapper.(action := Withdrawn(r.wrapper.action.id)), key := key)
        else r)
  }

  /** Withdrawing `ids` has left the slots as they were: none carries a withdrawn message any more; each that did
      carries its self-delete, under the same numbers and layer and the given key, as pending and as often refused as
      before; and every other record is untouched. */
  ghost predicate TakenBack(before: map<int, Record>, now: map<int, Record>, ids: set<int>, key: Key) {
    && now.Keys == before.Keys
    && (forall n :: n in now && now[n].wrapper.action.Content? ==> now[n].wrapper.action.id !in ids)
    && forall n :: n in before ==>
      var b := before[n];
      if b.wrapper.action.Content? && b.wrapper.action.id in ids
      then now[n] == Record(Wrapper(b.wrapper.inSeq, b.wrapper.outSeq, b.wrapper.layer, Withdrawn(b.wrapper.action.id)),
                            key, b.pending, b.failures)
      else now[n] == b
  }

  /** Withdrawal takes back exactly the content it names, and touches nothing but the outbox. */
  lemma WithdrawDecides(c: State, ids: set<int>, key: Key)
    ensures TakenBack(c.outbox, Withdraw(c, ids, key).outbox, ids, key)
    ensures Withdraw(c, ids, key).(outbox := c.outbox) == c
  {
  }

  /** A confirmed transmission, or a refused protocol step's first failure. */
  function MarkRecord(c: State, n: int, pending: bool, failures: nat): State {
    if n in c.outbox then c.(outbox := c.outbox[n := c.outbox[n].(pending := pending, failures := failures)]) else c
  }

  /** Delivering the head of the mailbox; a layer notice raises the peer's capability. */
  function Deliver(c: State): State {
    if c.mailbox == [] then c
    else
      var action := c.mailbox[0].action;
      c.(mailbox := c.mailbox[1..],
         layer := if action.NotifyLayer? then RaiseRemoteLayer(c.layer, action.layer) else c.layer)
  }
}
