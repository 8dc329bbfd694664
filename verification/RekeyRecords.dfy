/** What the outbox holds, over every run: each retained record is the slot as it was committed, and names the key that
    its frame is under. */
module RekeyRecords {
  import opened Framing
  import opened Sequence
  import opened Delivery
  import opened Dh
  import opened Rekey
  import opened RekeyPhases
  import opened RekeyRun
  import Receiving

  // ---- A receive ----

  lemma AcceptUnchanged(c: State, w: Wrapper)
    requires Accept(c, w).Ok?
    ensures Accept(c, w).value.state.outbox == c.outbox
  {
    var c0 := c.(layer := RaiseRemoteLayer(c.layer, w.layer));
    if Preflight(c, w) == Fresh && w.outSeq / 2 <= c.inSeq { DrainUnchanged(Advance(c0, w)); }
  }

  lemma {:induction false} DrainUnchanged(c: State)
    ensures Drain(c).Ok? ==> Drain(c).value.state.outbox == c.outbox
    decreases |c.queue|
  {
    if c.inSeq in c.queue && OrderOk(c, c.queue[c.inSeq]) {
      DrainUnchanged(Advance(c.(queue := c.queue - {c.inSeq}), c.queue[c.inSeq]));
    }
  }

  lemma ReceiveUnchanged(c: State, w: Wrapper)
    requires Receive(c, w).Ok?
    ensures OutboxWithin(Receive(c, w).value.state, c)
  {
    if Preflight(c, w) == Fresh {
      Receiving.ReceiveParts(c, w);
      var acc := Accept(c, Receiving.StoredAs(w)).value;
      AcceptUnchanged(c, Receiving.StoredAs(w));
      RequeueWithin(acc, c, Receiving.AnswerTo(c, w).value);
    }
  }

  /** Nothing is retained that was not, and no retained record is another wrapper or under another key. */
  ghost predicate OutboxWithin(d: State, c: State) {
    forall n :: n in d.outbox ==>
      n in c.outbox && d.outbox[n].wrapper == c.outbox[n].wrapper && d.outbox[n].key == c.outbox[n].key
  }

  lemma RequeueWithin(acc: Accepted, c: State, answer: map<int, Record>)
    requires acc.state.outbox == c.outbox
    requires forall n :: n in answer ==> n in c.outbox && answer[n] == c.outbox[n]
    ensures OutboxWithin(Receiving.AcceptedState(acc, answer), c)
  {
  }

  // ---- One step ----

  /** Every retained record is its slot, under the key that was current when the slot was committed. */
  ghost predicate AsCommitted(x: Side, past: Past) {
    forall n :: n in x.e.s.outbox ==>
      && 0 <= n / 2 < |x.e.sent| == |x.epochs| && x.e.s.outbox[n].wrapper == x.e.sent[n / 2]
      && x.epochs[n / 2] < |past.keys| && x.e.s.outbox[n].key == past.keys[x.epochs[n / 2]]
  }

  /** One more slot, under key number t. */
  lemma SentRecorded(x: Side, e: End, action: Action, key: Key, t: nat, past: Past, past': Past)
    requires AsCommitted(x, past) && x.e.s.outSeq == |x.e.sent| == |x.epochs| && past.keys <= past'.keys
    requires e.s.outbox == x.e.s.outbox && e.s.outSeq == x.e.s.outSeq && e.sent == x.e.sent
    requires t < |past'.keys| && key == past'.keys[t]
    ensures AsCommitted(x.(e := Sent(e, action, key), epochs := x.epochs + [t]), past')
  {
    var x' := x.(e := Sent(e, action, key), epochs := x.epochs + [t]);
    var n := TransformOut(e.s.outSeq, e.s.outbound);
    assert n / 2 == |x.e.sent|;
    forall m | m in x'.e.s.outbox && m != n
      ensures 0 <= m / 2 < |x.epochs| && x'.e.s.outbox[m] == x.e.s.outbox[m]
        && x'.e.sent[m / 2] == x.e.sent[m / 2] && x'.epochs[m / 2] == x.epochs[m / 2]
    {
      assert m in x.e.s.outbox;
    }
  }

  lemma ArrivedRecorded(x: Side, w: Wrapper, key: Key, past: Past)
    requires AsCommitted(x, past) && ArrivedAs(x, w, key).Ok?
    ensures AsCommitted(ArrivedAs(x, w, key).value, past)
  {
    if SelectKey(x.k, key).Some? { ReceiveUnchanged(x.e.s, w); }
  }

  /** A reply is under the key that its slot's epoch names. */
  lemma ReplyUnderItsKey(x: Side, past: Past, action: Action, b: nat, grp: Group)
    requires grp.Valid() && Handle(x.k, action, b, grp).Ok? && x.e.s.mailbox != []
    requires x.epoch < |past.keys| && x.k.key == past.keys[x.epoch]
    requires var effect := Handle(x.k, action, b, grp).value;
      && effect.reply.Some? && past.keys <= Recorded(past, action, effect).keys
      && Took(x, action, effect).epoch < |Recorded(past, action, effect).keys|
      && effect.keys.key == Recorded(past, action, effect).keys[Took(x, action, effect).epoch]
    ensures var effect := Handle(x.k, action, b, grp).value;
      var t := if action.CommitKey? && Switches(action, effect) then x.epoch + 1 else x.epoch;
      t < |Recorded(past, action, effect).keys|
      && ReplyKey(x.k, effect.reply.value) == Recorded(past, action, effect).keys[t]
  {
  }

  lemma TookRecorded(x: Side, past: Past, action: Action, b: nat, grp: Group)
    requires grp.Valid() && Handle(x.k, action, b, grp).Ok? && x.e.s.mailbox != []
    requires AsCommitted(x, past) && x.e.s.outSeq == |x.e.sent| && SideOk(x, past)
    requires var effect := Handle(x.k, action, b, grp).value;
      past.keys <= Recorded(past, action, effect).keys
        && SideOk(Took(x, action, effect), Recorded(past, action, effect))
    ensures var effect := Handle(x.k, action, b, grp).value;
      AsCommitted(Took(x, action, effect), Recorded(past, action, effect))
  {
    var effect := Handle(x.k, action, b, grp).value;
    if effect.reply.Some? {
      var t := if action.CommitKey? && Switches(action, effect) then x.epoch + 1 else x.epoch;
      ReplyUnderItsKey(x, past, action, b, grp);
      SentRecorded(x, Shifted(x).e, effect.reply.value, ReplyKey(x.k, effect.reply.value), t, past,
        Recorded(past, action, effect));
    }
  }

  /** A slot of the end's own, under its current key. */
  lemma OwnSlotRecorded(x: Side, past: Past, past': Past, action: Action)
    requires AsCommitted(x, past) && SideOk(x, past) && x.e.s.outSeq == |x.e.sent| && past.keys <= past'.keys
    ensures AsCommitted(Wrote(x, action), past')
  {
    SentRecorded(x, x.e, action, x.k.key, x.epoch, past, past');
  }

  lemma AskRecorded(x: Side, past: Past)
    requires AsCommitted(x, past) && SideOk(x, past) && x.e.s.outSeq == |x.e.sent|
    ensures AsCommitted(AskedDue(x), past)
  {
    if x.e.s.resendDue.Some? { OwnSlotRecorded(x, past, past, Resend(DueSpan(x.e.s).first, DueSpan(x.e.s).last)); }
  }

  lemma KeysGrow(x: Side, y: Side, past: Past, step: KeyStep, grp: Group)
    requires grp.Valid() && Shaped(x, y, past) && StepSide(x, y, past, step, grp).Ok?
    ensures past.keys <= StepSide(x, y, past, step, grp).value.past.keys
  {
  }

  lemma JointSides(x: Side, y: Side, past: Past, grp: Group)
    requires grp.Valid() && Joint(x, y, past, grp)
    ensures Shaped(x, y, past) && SideOk(x, past) && x.e.s.outSeq == |x.e.sent|
  {
  }

  /** What a step never takes back: the keys there have been, and the mover's own facts. */
  lemma StepGrows(x: Side, y: Side, past: Past, step: KeyStep, grp: Group)
    requires grp.Valid() && Joint(x, y, past, grp) && StepSide(x, y, past, step, grp).Ok?
    ensures var turn := StepSide(x, y, past, step, grp).value;
      && Shaped(x, y, past) && SideOk(x, past) && x.e.s.outSeq == |x.e.sent|
      && past.keys <= turn.past.keys && SideOk(turn.x, turn.past)
  {
    JointSides(x, y, past, grp);
    StepJoint(x, y, past, step, grp);
    KeysGrow(x, y, past, step, grp);
    var turn := StepSide(x, y, past, step, grp).value;
    JointSides(turn.x, y, turn.past, grp);
  }

  /** A step of either end keeps the mover's records, and the peer's. */
  lemma StepRecorded(x: Side, y: Side, past: Past, step: KeyStep, grp: Group)
    requires grp.Valid() && Shaped(x, y, past) && SideOk(x, past) && StepSide(x, y, past, step, grp).Ok?
    requires AsCommitted(x, past) && AsCommitted(y, past) && x.e.s.outSeq == |x.e.sent|
    requires var turn := StepSide(x, y, past, step, grp).value;
      past.keys <= turn.past.keys && SideOk(turn.x, turn.past)
    ensures var turn := StepSide(x, y, past, step, grp).value;
      AsCommitted(turn.x, turn.past) && AsCommitted(y, turn.past)
  {
    match step
    case Say(action) => OwnSlotRecorded(x, past, past, action);
    case Ask => AskRecorded(x, past);
    case Begin(xid, secret) =>
      OwnSlotRecorded(x, past, past.(ids := past.ids + {xid}), RequestKey(xid, Publish(grp, secret)));
    case Arrival(slot) =>
      if slot < |y.e.sent| { ArrivedRecorded(x, y.e.sent[slot], past.keys[y.epochs[slot]], past); }
    case Dispatch(b) =>
      if x.e.s.mailbox != [] && FreshJoin(x.k, x.e.s.mailbox[0].action, b, grp, past.keys) {
        TookRecorded(x, past, x.e.s.mailbox[0].action, b, grp);
      }
  }

  // ---- Over every run ----

  ghost predicate WorldRecorded(w: World) { AsCommitted(w.a, w.past) && AsCommitted(w.b, w.past) }

  lemma AdvancedRecorded(w: World, move: KeyMove, grp: Group)
    requires grp.Valid() && WorldInv(w, grp) && WorldRecorded(w) && Advanced(w, move, grp).Ok?
    ensures WorldRecorded(Advanced(w, move, grp).value)
  {
    if move.byA {
      StepGrows(w.a, w.b, w.past, move.step, grp);
      StepRecorded(w.a, w.b, w.past, move.step, grp);
    } else {
      JointFlips(w.a, w.b, w.past, grp);
      StepGrows(w.b, w.a, w.past, move.step, grp);
      StepRecorded(w.b, w.a, w.past, move.step, grp);
    }
  }

  lemma {:induction false} RunRecorded(w: World, moves: seq<KeyMove>, grp: Group)
    requires grp.Valid() && WorldInv(w, grp) && WorldRecorded(w) && RunKeys(w, moves, grp).Ok?
    ensures WorldRecorded(RunKeys(w, moves, grp).value)
    decreases |moves|
  {
    if moves == [] {
    } else {
      AdvancedInv(w, moves[0], grp);
      AdvancedRecorded(w, moves[0], grp);
      RunRecorded(Advanced(w, moves[0], grp).value, moves[1..], grp);
    }
  }

  /** Every slot of y that x has not accepted, and that y may still transmit, is kept as it was committed, and under a
      key that x holds. */
  ghost predicate StoredOpenable(x: Side, y: Side) {
    forall n :: x.e.s.inSeq <= n < |y.e.sent| ==>
      && TransformOut(n, y.e.s.outbound) in y.e.s.outbox
      && y.e.s.outbox[TransformOut(n, y.e.s.outbound)].wrapper == y.e.sent[n]
      && SelectKey(x.k, y.e.s.outbox[TransformOut(n, y.e.s.outbound)].key).Some?
  }

  lemma RecordsOpen(x: Side, y: Side, past: Past, grp: Group)
    requires grp.Valid() && Joint(x, y, past, grp) && AsCommitted(y, past)
    ensures StoredOpenable(x, y)
  {
    NothingStranded(x, y, past, grp);
    EchoBehind(x.e, y.e);
    OpenRecords(x, y, past);
  }

  /** What the peer has been told of never runs ahead of what was accepted. */
  lemma EchoBehind(x: End, y: End)
    requires Slots(x) && Watermark(x.sent, y.s)
    ensures 0 <= y.s.peerIn <= x.s.inSeq
  {
    if y.s.inSeq > 0 { assert SlotOk(x, y.s.inSeq - 1); }
  }

  lemma OpenRecords(x: Side, y: Side, past: Past)
    requires |y.epochs| == |y.e.sent| && (forall n :: 0 <= n < |y.epochs| ==> y.epochs[n] < |past.keys|)
    requires Openable(x, y, past) && AsCommitted(y, past) && Retained(y.e) && 0 <= y.e.s.peerIn <= x.e.s.inSeq
    ensures StoredOpenable(x, y)
  {
    forall n | x.e.s.inSeq <= n < |y.e.sent|
      ensures TransformOut(n, y.e.s.outbound) in y.e.s.outbox && TransformOut(n, y.e.s.outbound) / 2 == n
    {
    }
  }

  /** What the stored records name: after every run, each slot that the other end still lacks is retained as it was
      committed, and the key its record names is one that the other end holds. */
  lemma StoredRecordsOpen(key: Key, moves: seq<KeyMove>, grp: Group)
    requires grp.Valid() && RunKeys(Opened(key), moves, grp).Ok?
    ensures var w := RunKeys(Opened(key), moves, grp).value;
      WorldRecorded(w) && StoredOpenable(w.a, w.b) && StoredOpenable(w.b, w.a)
  {
    OpenedInv(key, grp);
    RunKeysInv(Opened(key), moves, grp);
    RunRecorded(Opened(key), moves, grp);
    var w := RunKeys(Opened(key), moves, grp).value;
    RecordsOpen(w.a, w.b, w.past, grp);
    JointFlips(w.a, w.b, w.past, grp);
    RecordsOpen(w.b, w.a, w.past, grp);
  }
}
