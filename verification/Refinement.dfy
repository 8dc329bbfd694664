/** Two program ends are the two ends of the run: every commit of one is one step of it. */
module Refinement {
  import opened Prelude
  import opened Framing
  import opened Dh
  import opened Sequence
  import opened Rekey
  import opened Chat
  import opened Storage
  import opened Sequencing
  import opened Receiving
  import Outbox
  import Dispatching
  import Delivery
  import R = RekeyRun
  import RekeyPhases
  import RekeyRecords

  // ---- One end ----

  /** The end that a receive leaves, as the program decides it. */
  lemma ArrivalIsReceive(x: R.Side, w: Wrapper, key: Key)
    ensures SelectKey(x.k, key).None? ==> R.ArrivedAs(x, w, key) == Ok(x)
    ensures SelectKey(x.k, key).Some? ==>
      var named, run := SelectKey(x.k, key).value, R.ArrivedAs(x, w, key);
      && (Preflight(x.e.s, w) == Replay ==> run == Ok(x))
      && (Preflight(x.e.s, w) != Replay ==> (run.Ok? <==> Takes(x.e.s, x.k, named, w)))
      && (Takes(x.e.s, x.k, named, w) ==>
            run.value.e.s == Receive(x.e.s, w).value.state
              && Ok(run.value.k) == OnFrame(x.k, named, run.value.e.s.gapRequested))
  {
  }

  /** One end as the program holds it: the chat entity and its store, and beside them the end of the run that they
      stand for. */
  class Endpoint {
    const chat: SecretChat
    const storage: MemoryStorage
    ghost var side: R.Side

    /** The committed chat and store are the end's sequence state and key slots. */
    ghost predicate Mirrors()
      reads this, chat, storage
    {
      && Settled(chat, storage) && chat.key.Some?
      && View(chat, storage) == side.e.s && chat.Slots() == side.k
    }

    /** A chat that was just set up, with a fresh key and empty queues. */
    constructor (chat: SecretChat, storage: MemoryStorage, key: Key)
      requires Settled(chat, storage) && chat.key.Some? && chat.Slots() == Established(key)
      requires View(chat, storage) == Initial(chat.outbound)
      ensures Mirrors() && side == R.Side(Delivery.End(Initial(chat.outbound), [], []), Established(key), [], 0, 0)
      ensures this.chat == chat && this.storage == storage
    {
      this.chat, this.storage := chat, storage;
      side := R.Side(Delivery.End(Initial(chat.outbound), [], []), Established(key), [], 0, 0);
    }

    method Receive(key: Key, w: Wrapper, written: bool) returns (r: Receipt)
      requires Mirrors() && !chat.state.Closed?
      modifies this`side, chat, storage
      ensures Mirrors()
      ensures r.Fatal? <==> R.ArrivedAs(old(side), w, key).Err?
      ensures r.Committed() || r.Unopened? ==> R.ArrivedAs(old(side), w, key) == Ok(side)
      ensures !r.Committed() ==> side == old(side)
      ensures r.Unopened? <==> SelectKey(old(side).k, key).None?
      ensures r.Replayed? ==> Preflight(old(side).e.s, w) == Replay
      ensures r.Unwritten? ==> !written
    {
      ArrivalIsReceive(side, w, key);
      r := OnEncryptedMessage(chat, storage, key, w, None, written);
      if r.Committed() { side := R.ArrivedAs(side, w, key).value; }
    }

    method Say(action: Action, written: bool) returns (ok: bool)
      requires Mirrors()
      modifies this`side, chat, storage
      ensures Mirrors() && side == if ok then R.Wrote(old(side), action) else old(side)
      ensures written && Outbox.Sendable(old(chat.state)) ==> ok
    {
      ok := Outbox.SendAction(chat, storage, action, None, written);
      if ok { side := R.Wrote(side, action); }
    }

    method Ask(written: bool) returns (ok: bool)
      requires Mirrors() && Outbox.Sendable(chat.state)
      requires side.e.s.resendDue.Some? ==> DueSpan(side.e.s).first <= DueSpan(side.e.s).last
      modifies this`side, chat, storage
      ensures Mirrors() && side == if ok then R.AskedDue(old(side)) else old(side)
      ensures written ==> ok
    {
      ok := Outbox.RequestDueResend(chat, storage, written);
      if ok { side := R.AskedDue(side); }
    }

    method Begin(xid: int, secret: nat, grp: Group, written: bool) returns (ok: bool)
      requires Mirrors() && grp.Valid()
      modifies this`side, chat, storage
      ensures Mirrors()
      ensures ok ==> MayStart(old(side).k) && BeginExchange(old(side).k, xid, secret).Ok?
      ensures side == if ok then R.Wrote(old(side), RequestKey(xid, Publish(grp, secret))).(
        k := BeginExchange(old(side).k, xid, secret).value) else old(side)
      ensures written && MayStart(old(side).k) && old(chat.state).Ready? ==> ok
    {
      ok := Outbox.StartRekey(chat, storage, xid, secret, grp, written);
      if ok {
        side := R.Wrote(side, RequestKey(xid, Publish(grp, secret))).(k := BeginExchange(side.k, xid, secret).value);
      }
    }

    /** Handle the head of the mailbox. */
    method Dispatch(b: nat, grp: Group, written: bool) returns (outcome: Dispatching.Outcome)
      requires Mirrors() && grp.Valid() && !chat.state.Closed? && side.e.s.mailbox != []
      modifies this`side, chat, storage
      ensures var action := old(side).e.s.mailbox[0].action;
        var effect := Handle(old(side).k, action, b, grp);
        && (outcome.Closing? ==> effect.Err?) && (written && effect.Err? ==> outcome.Closing?)
        && (outcome.Done? ==> effect.Ok? && side == R.Took(old(side), action, effect.value))
      ensures !outcome.Done? ==> side == old(side)
      ensures outcome.Closing? ==> Outbox.Ended(chat, storage)
      ensures !outcome.Closing? ==> Mirrors()
      ensures written ==> !outcome.Unwritten?
    {
      outcome := Dispatching.DispatchHead(chat, storage, b, grp, written);
      if outcome.Done? {
        ghost var action := side.e.s.mailbox[0].action;
        DispatchedIsTook(side, action, Handle(side.k, action, b, grp).value);
        side := R.Took(side, action, Handle(side.k, action, b, grp).value);
      }
    }
  }

  lemma DispatchedIsTook(x: R.Side, action: Action, effect: Effect)
    requires x.e.s.mailbox != []
    ensures R.Took(x, action, effect).e.s == Dispatching.Dispatched(x.e.s, effect, x.k)
    ensures R.Took(x, action, effect).k == effect.keys
  {
  }

  // ---- Two ends ----

  /** What every state of a run gives an end to act on. */
  ghost predicate Able(x: R.Side, y: R.Side, past: R.Past) {
    && R.Shaped(x, y, past)
    && Outbox.Sendable(x.k.state) && (x.k.state.Ready? <==> x.k.xid.None?)
    && (x.e.s.resendDue.Some? ==> DueSpan(x.e.s).first <= DueSpan(x.e.s).last)
  }

  lemma JointAble(x: R.Side, y: R.Side, past: R.Past, grp: Group)
    requires grp.Valid() && R.Joint(x, y, past, grp)
    ensures Able(x, y, past)
  {
    if x.e.s.resendDue.Some? { Delivery.DueSpanCoversTheHole(x.e, y.e); }
  }

  /** The mover and the other end of a state. */
  function Mover(w: R.World, byA: bool): R.Side { if byA then w.a else w.b }

  function Moved(w: R.World, byA: bool, x: R.Side, past: R.Past): R.World {
    if byA then R.World(x, w.b, past) else R.World(w.a, x, past)
  }

  lemma RunAble(key: Key, moves: seq<R.KeyMove>, grp: Group, w: R.World, byA: bool)
    requires grp.Valid() && R.RunKeys(R.Opened(key), moves, grp) == Ok(w)
    ensures Able(Mover(w, byA), Mover(w, !byA), w.past)
  {
    R.OpenedInv(key, grp);
    R.RunKeysInv(R.Opened(key), moves, grp);
    R.JointFlips(w.a, w.b, w.past, grp);
    if byA { JointAble(w.a, w.b, w.past, grp); } else { JointAble(w.b, w.a, w.past, grp); }
  }

  /** A step of one end is a step of the run. */
  lemma StepIsAdvance(w: R.World, byA: bool, step: R.KeyStep, grp: Group)
    requires grp.Valid() && R.Shaped(Mover(w, byA), Mover(w, !byA), w.past)
    ensures var turn := R.StepSide(Mover(w, byA), Mover(w, !byA), w.past, step, grp);
      R.Advanced(w, R.KeyMove(byA, step), grp) ==
        if turn.Err? then Err(turn.reason) else Ok(Moved(w, byA, turn.value.x, turn.value.past))
  {
  }

  /** The states of a run, one more than its moves. */
  ghost predicate Traced(key: Key, worlds: seq<R.World>, moves: seq<R.KeyMove>, grp: Group)
    requires grp.Valid()
  {
    && |worlds| == |moves| + 1 && worlds[0] == R.Opened(key)
    && forall i {:trigger moves[i]} :: 0 <= i < |moves| ==> R.Advanced(worlds[i], moves[i], grp) == Ok(worlds[i + 1])
  }

  function Last(worlds: seq<R.World>): R.World
    requires worlds != []
  {
    worlds[|worlds| - 1]
  }

  /** A traced run is a run. */
  lemma {:induction false} TracedRuns(key: Key, worlds: seq<R.World>, moves: seq<R.KeyMove>, grp: Group)
    requires grp.Valid() && Traced(key, worlds, moves, grp)
    ensures R.RunKeys(R.Opened(key), moves, grp) == Ok(Last(worlds))
    decreases |moves|
  {
    if moves == [] {
    } else {
      var n := |moves| - 1;
      TracedRuns(key, worlds[..n + 1], moves[..n], grp);
      RunOn(R.Opened(key), moves[..n], moves[n], grp);
      assert moves[..n] + [moves[n]] == moves;
    }
  }

  lemma TraceOn(key: Key, worlds: seq<R.World>, moves: seq<R.KeyMove>, grp: Group, move: R.KeyMove, w: R.World)
    requires grp.Valid() && Traced(key, worlds, moves, grp) && R.Advanced(Last(worlds), move, grp) == Ok(w)
    ensures Traced(key, worlds + [w], moves + [move], grp)
  {
  }

  lemma TraceAble(key: Key, worlds: seq<R.World>, moves: seq<R.KeyMove>, grp: Group, byA: bool)
    requires grp.Valid() && Traced(key, worlds, moves, grp)
    ensures Able(Mover(Last(worlds), byA), Mover(Last(worlds), !byA), Last(worlds).past)
  {
    TracedRuns(key, worlds, moves, grp);
    RunAble(key, moves, grp, Last(worlds), byA);
  }

  lemma SayTraces(key: Key, worlds: seq<R.World>, moves: seq<R.KeyMove>, grp: Group, byA: bool, action: Action)
    requires grp.Valid() && Traced(key, worlds, moves, grp)
    requires action.Content? || action.Noop? || action.NotifyLayer?
    ensures Outbox.Sendable(Mover(Last(worlds), byA).k.state)
    ensures var w := Last(worlds);
      Traced(key, worlds + [Moved(w, byA, R.Wrote(Mover(w, byA), action), w.past)],
        moves + [R.KeyMove(byA, R.Say(action))], grp)
  {
    var w := Last(worlds);
    TraceAble(key, worlds, moves, grp, byA);
    StepIsAdvance(w, byA, R.Say(action), grp);
    TraceOn(key, worlds, moves, grp, R.KeyMove(byA, R.Say(action)),
      Moved(w, byA, R.Wrote(Mover(w, byA), action), w.past));
  }

  lemma {:induction false} RunOn(w: R.World, moves: seq<R.KeyMove>, move: R.KeyMove, grp: Group)
    requires grp.Valid() && R.RunKeys(w, moves, grp).Ok?
    ensures R.RunKeys(w, moves + [move], grp) == R.Advanced(R.RunKeys(w, moves, grp).value, move, grp)
    decreases |moves|
  {
    if moves == [] {
      assert moves + [move] == [move] && [move][1..] == [];
    } else {
      assert (moves + [move])[1..] == moves[1..] + [move];
      RunOn(R.Advanced(w, moves[0], grp).value, moves[1..], move, grp);
    }
  }

  lemma AskTraces(key: Key, worlds: seq<R.World>, moves: seq<R.KeyMove>, grp: Group, byA: bool)
    requires grp.Valid() && Traced(key, worlds, moves, grp)
    ensures var w := Last(worlds);
      var x := Mover(w, byA);
      && Outbox.Sendable(x.k.state)
      && (x.e.s.resendDue.Some? ==> DueSpan(x.e.s).first <= DueSpan(x.e.s).last)
      && Traced(key, worlds + [Moved(w, byA, R.AskedDue(x), w.past)], moves + [R.KeyMove(byA, R.Ask)], grp)
  {
    var w := Last(worlds);
    TraceAble(key, worlds, moves, grp, byA);
    StepIsAdvance(w, byA, R.Ask, grp);
    TraceOn(key, worlds, moves, grp, R.KeyMove(byA, R.Ask), Moved(w, byA, R.AskedDue(Mover(w, byA)), w.past));
  }

  /** An id drawn at random: new to the chat, or by coincidence that of a request not yet seen. */
  predicate Drawn(w: R.World, byA: bool, xid: int, grp: Group) {
    && grp.Valid() && R.Shaped(Mover(w, byA), Mover(w, !byA), w.past)
    && R.FreshId(Mover(w, byA), Mover(w, !byA), w.past, xid, grp)
  }

  function Begun(x: R.Side, xid: int, secret: nat, grp: Group): R.Side
    requires grp.Valid() && BeginExchange(x.k, xid, secret).Ok?
  {
    R.Wrote(x, RequestKey(xid, Publish(grp, secret))).(k := BeginExchange(x.k, xid, secret).value)
  }

  lemma BeginTraces(
      key: Key, worlds: seq<R.World>, moves: seq<R.KeyMove>, grp: Group, byA: bool, xid: int, secret: nat)
    requires grp.Valid() && Traced(key, worlds, moves, grp) && Drawn(Last(worlds), byA, xid, grp)
    ensures var w := Last(worlds);
      var x := Mover(w, byA);
      && (MayStart(x.k) ==> x.k.state.Ready?)
      && (MayStart(x.k) && BeginExchange(x.k, xid, secret).Ok? ==>
            Traced(key, worlds + [Moved(w, byA, Begun(x, xid, secret, grp), w.past.(ids := w.past.ids + {xid}))],
              moves + [R.KeyMove(byA, R.Begin(xid, secret))], grp))
  {
    var w := Last(worlds);
    var x := Mover(w, byA);
    TraceAble(key, worlds, moves, grp, byA);
    if MayStart(x.k) && BeginExchange(x.k, xid, secret).Ok? {
      StepIsAdvance(w, byA, R.Begin(xid, secret), grp);
      TraceOn(key, worlds, moves, grp, R.KeyMove(byA, R.Begin(xid, secret)),
        Moved(w, byA, Begun(x, xid, secret, grp), w.past.(ids := w.past.ids + {xid})));
    }
  }

  /** A frame the peer committed in `slot`, with the key it is under. */
  predicate FrameAt(w: R.World, byA: bool, slot: nat, key: Key, frame: Wrapper) {
    var y := Mover(w, !byA);
    && slot < |y.e.sent| == |y.epochs| && frame == y.e.sent[slot]
    && y.epochs[slot] < |w.past.keys| && key == w.past.keys[y.epochs[slot]]
  }

  lemma ArrivalTraces(
      key: Key, worlds: seq<R.World>, moves: seq<R.KeyMove>, grp: Group, byA: bool, slot: nat, named: Key,
        frame: Wrapper)
    requires grp.Valid() && Traced(key, worlds, moves, grp) && FrameAt(Last(worlds), byA, slot, named, frame)
    ensures var w := Last(worlds);
      var x := Mover(w, byA);
      && !x.k.state.Closed? && (R.ArrivedAs(x, frame, named).Err? <==> R.TooFar(x, slot))
      && (R.Expected(x, slot) ==> SelectKey(x.k, named).Some? && Preflight(x.e.s, frame) == Fresh)
      && (R.ArrivedAs(x, frame, named).Ok? ==>
            Traced(key, worlds + [Moved(w, byA, R.ArrivedAs(x, frame, named).value, w.past)],
              moves + [R.KeyMove(byA, R.Arrival(slot))], grp))
  {
    var w := Last(worlds);
    TraceAble(key, worlds, moves, grp, byA);
    TracedRuns(key, worlds, moves, grp);
    RunArrival(key, moves, grp, w, byA, slot, named, frame);
    if R.ArrivedAs(Mover(w, byA), frame, named).Ok? {
      StepIsAdvance(w, byA, R.Arrival(slot), grp);
      TraceOn(key, worlds, moves, grp, R.KeyMove(byA, R.Arrival(slot)),
        Moved(w, byA, R.ArrivedAs(Mover(w, byA), frame, named).value, w.past));
    }
  }

  lemma RunArrival(
      key: Key, moves: seq<R.KeyMove>, grp: Group, w: R.World, byA: bool, slot: nat, named: Key, frame: Wrapper)
    requires grp.Valid() && R.RunKeys(R.Opened(key), moves, grp) == Ok(w) && FrameAt(w, byA, slot, named, frame)
    ensures var x := Mover(w, byA);
      && (R.ArrivedAs(x, frame, named).Err? <==> R.TooFar(x, slot))
      && (R.Expected(x, slot) ==> SelectKey(x.k, named).Some? && Preflight(x.e.s, frame) == Fresh)
  {
    R.OpenedInv(key, grp);
    R.RunKeysInv(R.Opened(key), moves, grp);
    R.JointFlips(w.a, w.b, w.past, grp);
    if byA {
      JointArrival(w.a, w.b, w.past, grp, slot);
    } else {
      JointArrival(w.b, w.a, w.past, grp, slot);
    }
  }

  lemma JointArrival(x: R.Side, y: R.Side, past: R.Past, grp: Group, slot: nat)
    requires grp.Valid() && R.Joint(x, y, past, grp) && slot < |y.e.sent|
    ensures R.ArrivedAs(x, y.e.sent[slot], past.keys[y.epochs[slot]]).Err? <==> R.TooFar(x, slot)
    ensures R.Expected(x, slot) ==>
      SelectKey(x.k, past.keys[y.epochs[slot]]).Some? && Preflight(x.e.s, y.e.sent[slot]) == Fresh
  {
    R.FrameArrives(x, y, past, grp, slot, y.e.sent[slot], y.epochs[slot]);
    Delivery.ArriveVerdict(x.e, y.e, slot, y.e.sent[slot]);
  }

  /** The exchange key an end would join with was never used in this chat; secrets are drawn at random. */
  predicate NewKey(w: R.World, byA: bool, b: nat, grp: Group) {
    var x := Mover(w, byA);
    grp.Valid() && x.e.s.mailbox != [] && RekeyPhases.FreshJoin(x.k, x.e.s.mailbox[0].action, b, grp, w.past.keys)
  }

  lemma DispatchTraces(key: Key, worlds: seq<R.World>, moves: seq<R.KeyMove>, grp: Group, byA: bool, b: nat)
    requires grp.Valid() && Traced(key, worlds, moves, grp) && NewKey(Last(worlds), byA, b, grp)
    ensures var w := Last(worlds);
      var x := Mover(w, byA);
      var action := x.e.s.mailbox[0].action;
      && !x.k.state.Closed?
      && (Handle(x.k, action, b, grp).Ok? ==>
            var effect := Handle(x.k, action, b, grp).value;
            Traced(key, worlds + [Moved(w, byA, R.Took(x, action, effect), R.Recorded(w.past, action, effect))],
              moves + [R.KeyMove(byA, R.Dispatch(b))], grp))
  {
    var w := Last(worlds);
    var x := Mover(w, byA);
    var action := x.e.s.mailbox[0].action;
    TraceAble(key, worlds, moves, grp, byA);
    if Handle(x.k, action, b, grp).Ok? {
      var effect := Handle(x.k, action, b, grp).value;
      StepIsAdvance(w, byA, R.Dispatch(b), grp);
      TraceOn(key, worlds, moves, grp, R.KeyMove(byA, R.Dispatch(b)),
        Moved(w, byA, R.Took(x, action, effect), R.Recorded(w.past, action, effect)));
    }
  }

  /** Two ends of one chat, and the run that their commits make up. */
  class Conversation {
    const a: Endpoint
    const b: Endpoint
    ghost const grp: Group
    ghost const first: Key
    ghost var worlds: seq<R.World>
    ghost var moves: seq<R.KeyMove>

    /** Both ends are what their commits made of them: the last state of a run. */
    ghost predicate Valid()
      reads this, a, a.chat, a.storage, b, b.chat, b.storage
    {
      && a != b && a.chat != b.chat && a.storage != b.storage && a.Mirrors() && b.Mirrors()
      && grp.Valid() && Traced(first, worlds, moves, grp) && Last(worlds).a == a.side && Last(worlds).b == b.side
    }

    constructor (a: Endpoint, b: Endpoint, ghost grp: Group, ghost first: Key)
      requires grp.Valid() && a != b && a.chat != b.chat && a.storage != b.storage && a.Mirrors() && b.Mirrors()
      requires a.side == R.Opened(first).a && b.side == R.Opened(first).b
      ensures Valid() && this.a == a && this.b == b && this.grp == grp && moves == []
    {
      this.a, this.b, this.grp, this.first := a, b, grp, first;
      worlds, moves := [R.Opened(first)], [];
    }

    /** A message, notice or no-op of one end. */
    method Say(byA: bool, action: Action, written: bool) returns (ok: bool)
      requires Valid() && (action.Content? || action.Noop? || action.NotifyLayer?)
      modifies this`worlds, this`moves, a`side, a.chat, a.storage, b`side, b.chat, b.storage
      ensures Valid() && (written ==> ok)
      ensures moves == old(moves) + (if ok then [R.KeyMove(byA, R.Say(action))] else [])
    {
      ghost var w := Last(worlds);
      SayTraces(first, worlds, moves, grp, byA, action);
      if byA { ok := a.Say(action, written); } else { ok := b.Say(action, written); }
      if ok {
        worlds := worlds + [Moved(w, byA, R.Wrote(Mover(w, byA), action), w.past)];
        moves := moves + [R.KeyMove(byA, R.Say(action))];
      }
    }

    /** The due request of one end. */
    method Ask(byA: bool, written: bool) returns (ok: bool)
      requires Valid()
      modifies this`worlds, this`moves, a`side, a.chat, a.storage, b`side, b.chat, b.storage
      ensures Valid() && (written ==> ok)
      ensures moves == old(moves) + (if ok then [R.KeyMove(byA, R.Ask)] else [])
    {
      ghost var w := Last(worlds);
      AskTraces(first, worlds, moves, grp, byA);
      if byA { ok := a.Ask(written); } else { ok := b.Ask(written); }
      if ok {
        worlds := worlds + [Moved(w, byA, R.AskedDue(Mover(w, byA)), w.past)];
        moves := moves + [R.KeyMove(byA, R.Ask)];
      }
    }

    /** One end starts a rekey with a freshly drawn id. */
    method Begin(byA: bool, xid: int, secret: nat, group: Group, written: bool) returns (ok: bool)
      requires Valid() && group == grp && Drawn(Last(worlds), byA, xid, grp)
      modifies this`worlds, this`moves, a`side, a.chat, a.storage, b`side, b.chat, b.storage
      ensures Valid() && (written && MayStart(Mover(Last(old(worlds)), byA).k) ==> ok)
      ensures moves == old(moves) + (if ok then [R.KeyMove(byA, R.Begin(xid, secret))] else [])
    {
      ghost var w := Last(worlds);
      BeginTraces(first, worlds, moves, grp, byA, xid, secret);
      if byA { ok := a.Begin(xid, secret, group, written); } else { ok := b.Begin(xid, secret, group, written); }
      if ok {
        worlds := worlds + [Moved(w, byA, Begun(Mover(w, byA), xid, secret, grp), w.past.(ids := w.past.ids + {xid}))];
        moves := moves + [R.KeyMove(byA, R.Begin(xid, secret))];
      }
    }

    /** Any slot of the peer arrives, at any time and as often as it likes: it is a step of the run unless it is fatal
        or its commit is not written; a fresh slot inside the window is taken. */
    method Receive(byA: bool, ghost slot: nat, key: Key, frame: Wrapper, written: bool) returns (r: Receipt)
      requires Valid() && FrameAt(Last(worlds), byA, slot, key, frame)
      modifies this`worlds, this`moves, a`side, a.chat, a.storage, b`side, b.chat, b.storage
      ensures Valid() && (r.Unwritten? ==> !written)
      ensures r.Fatal? <==> R.TooFar(Mover(Last(old(worlds)), byA), slot)
      ensures written && R.Expected(Mover(Last(old(worlds)), byA), slot) ==> r.Taken?
      ensures moves == old(moves) + (if r.Fatal? || r.Unwritten? then [] else [R.KeyMove(byA, R.Arrival(slot))])
    {
      ghost var w := Last(worlds);
      ArrivalTraces(first, worlds, moves, grp, byA, slot, key, frame);
      if byA { r := a.Receive(key, frame, written); } else { r := b.Receive(key, frame, written); }
      if !r.Fatal? && !r.Unwritten? {
        worlds := worlds + [Moved(w, byA, R.ArrivedAs(Mover(w, byA), frame, key).value, w.past)];
        moves := moves + [R.KeyMove(byA, R.Arrival(slot))];
      }
    }

    /** One end handles the head of its mailbox. */
    method Dispatch(byA: bool, draw: nat, group: Group, written: bool) returns (outcome: Dispatching.Outcome)
      requires Valid() && group == grp && NewKey(Last(worlds), byA, draw, grp)
      modifies this`worlds, this`moves, a`side, a.chat, a.storage, b`side, b.chat, b.storage
      ensures !outcome.Closing? ==> Valid()
      ensures written ==> !outcome.Unwritten?
      ensures moves == old(moves) + (if outcome.Done? then [R.KeyMove(byA, R.Dispatch(draw))] else [])
      ensures outcome.Closing? ==>
        var x := Mover(Last(old(worlds)), byA); Handle(x.k, x.e.s.mailbox[0].action, draw, grp).Err?
    {
      ghost var w := Last(worlds);
      DispatchTraces(first, worlds, moves, grp, byA, draw);
      if byA { outcome := a.Dispatch(draw, group, written); } else { outcome := b.Dispatch(draw, group, written); }
      if outcome.Done? {
        ghost var action := Mover(w, byA).e.s.mailbox[0].action;
        ghost var effect := Handle(Mover(w, byA).k, action, draw, grp).value;
        worlds := worlds + [Moved(w, byA, R.Took(Mover(w, byA), action, effect), R.Recorded(w.past, action, effect))];
        moves := moves + [R.KeyMove(byA, R.Dispatch(draw))];
      }
    }

    /** So what holds of every run holds of the two chats: the joint invariant, and every slot that one end committed
        and the other chat has not counted is in that end's store, under a key that the other chat holds. */
    lemma Readable()
      requires Valid()
      ensures R.RunKeys(R.Opened(first), moves, grp) == Ok(Last(worlds))
      ensures R.Joint(a.side, b.side, Last(worlds).past, grp) && Opens(a, b) && Opens(b, a)
    {
      TracedRuns(first, worlds, moves, grp);
      R.OpenedInv(first, grp);
      R.RunKeysInv(R.Opened(first), moves, grp);
      RekeyRecords.StoredRecordsOpen(first, moves, grp);
      EndOpens(a, b);
      EndOpens(b, a);
    }
  }

  /** Each slot that y's counter has passed and x's has not is stored as it was committed, and the key its record names
      opens at x. */
  ghost predicate Opens(x: Endpoint, y: Endpoint)
    reads x.chat, y, y.chat, y.storage
  {
    && |y.side.e.sent| == y.chat.outSeqNo
    && forall n :: x.chat.inSeqNo <= n < y.chat.outSeqNo ==> StoredFor(x, y, n)
  }

  ghost predicate StoredFor(x: Endpoint, y: Endpoint, n: int)
    reads x.chat, y, y.chat, y.storage
  {
    var at, out := TransformOut(n, y.chat.outbound), ToMap(y.storage.state.out);
    && 0 <= n < |y.side.e.sent| && at in out && out[at].wrapper == y.side.e.sent[n]
    && Opening(x.chat, out[at].key).Some?
  }

  lemma EndOpens(x: Endpoint, y: Endpoint)
    requires x.Mirrors() && y.Mirrors() && RekeyRecords.StoredOpenable(x.side, y.side)
    requires !x.side.k.state.Closed? && y.side.e.s.outSeq == |y.side.e.sent|
    ensures Opens(x, y)
  {
    assert x.chat.inSeqNo == x.side.e.s.inSeq && x.chat.Slots() == x.side.k;
    assert View(y.chat, y.storage) == y.side.e.s && y.chat.outSeqNo == y.side.e.s.outSeq;
  }
}
