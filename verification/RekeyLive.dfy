/** No exchange is stuck: in every reachable state something under way will settle an open one. */
module RekeyLive {
  import opened Prelude
  import opened Framing
  import opened Sequence
  import opened Delivery
  import opened Dh
  import opened Rekey
  import opened RekeyPhases
  import opened RekeyRun

  predicate Names(a: Action, xid: int) { (IsTalk(a) || a.CommitKey?) && a.xid == xid }

  /** The pair of ends says something about x's exchange, or y asks under a greater id, or y has switched. */
  ghost predicate Spoken(p: Pair) {
    p.kx.xid.Some? ==>
      || (exists a :: (a in p.tx || a in p.ty) && Names(a, p.kx.xid.value))
      || (exists a :: a in p.ty && a.RequestKey? && a.xid > p.kx.xid.value)
      || Committed(Flip(p))
  }

  lemma TalkSpoken(p: Pair, grp: Group, hist: seq<Key>)
    requires grp.Valid() && Talk(p, grp, hist)
    ensures Spoken(p)
  {
    if p.kx.xid.Some? && !Committed(Flip(p)) {
      if Lost(p, grp) {
        assert p.ty[0] in p.ty;
      } else if Tied(p, grp) || Declined(p, grp) || Aborted(Flip(p), grp, hist) {
        assert p.ty[0] in p.ty && Names(p.ty[0], p.kx.xid.value);
      } else if Joined(p, grp, hist) {
        assert p.ty[|p.ty| - 1] in p.ty && Names(p.ty[|p.ty| - 1], p.kx.xid.value);
      } else if Joined(Flip(p), grp, hist) {
        assert p.tx[|p.tx| - 1] in p.tx && Names(p.tx[|p.tx| - 1], p.kx.xid.value);
      } else {
        OwnOffer(p, grp, hist);
      }
    }
  }

  /** In every other phase with an exchange of x's, its request has not been handled. */
  lemma OwnOffer(p: Pair, grp: Group, hist: seq<Key>)
    requires grp.Valid() && Talk(p, grp, hist) && p.kx.xid.Some? && !Committed(Flip(p))
    requires !Lost(p, grp) && !Tied(p, grp) && !Declined(p, grp) && !Aborted(Flip(p), grp, hist)
    requires !Joined(p, grp, hist) && !Joined(Flip(p), grp, hist)
    ensures p.tx != [] && p.tx[|p.tx| - 1] in p.tx && Names(p.tx[|p.tx| - 1], p.kx.xid.value)
  {
    assert Asking(p.kx);
    if |p.tx| > 1 { assert p.tx[1..] == Tail(p.kx, grp); }
  }

  // ---- The commitment of a switch stays ahead of the end still to switch ----

  /** y's commitment of the exchange that x has accepted, not yet handled. */
  predicate CommitAt(x: Side, y: Side, n: int) {
    && x.seen <= n < |y.e.sent| && y.e.sent[n].action.CommitKey? && x.k.xid == Some(y.e.sent[n].action.xid)
  }

  ghost predicate CommitAhead(x: Side, y: Side)
    requires y.seen <= |x.e.sent| && x.seen <= |y.e.sent|
  {
    Switching(y, x) ==> exists n :: CommitAt(x, y, n)
  }

  lemma EpochsApart(p: Pair, grp: Group, hist: seq<Key>)
    requires grp.Valid() && Talk(p, grp, hist)
    ensures Committed(Flip(p)) <==> p.ey == p.ex + 1
    ensures Committed(p) <==> p.ex == p.ey + 1
    ensures p.ex <= p.ey + 1 && p.ey <= p.ex + 1
  {
  }

  /** What a step leaves of slots and counters, as far as the commitment goes. */
  ghost predicate StepShape(x: Side, x': Side, y: Side)
    requires y.seen <= |x.e.sent| && x.seen <= |y.e.sent|
  {
    && x.e.sent <= x'.e.sent && x.epoch <= x'.epoch <= x.epoch + 1
    && (Switching(y, x) && x'.epoch == x.epoch ==>
          && x'.k.xid == x.k.xid && x.seen <= x'.seen <= x.seen + 1
          && (x'.seen > x.seen ==> !CommitAt(x, y, x.seen)))
    && (x'.epoch > x.epoch && x.epoch == y.epoch ==>
          && |x.e.sent| < |x'.e.sent| && x'.e.sent[|x.e.sent|].action.CommitKey?
          && y.k.xid == Some(x'.e.sent[|x.e.sent|].action.xid))
  }

  lemma AheadKept(x: Side, x': Side, y: Side, past: Past, past': Past, grp: Group)
    requires grp.Valid() && y.seen <= |x.e.sent| && x.seen <= |y.e.sent| && x'.seen <= |y.e.sent| && StepShape(x, x', y)
    requires Talk(PairOf(x, y), grp, past.keys) && Talk(PairOf(x', y), grp, past'.keys)
    requires CommitAhead(x, y) && CommitAhead(y, x)
    ensures CommitAhead(x', y) && CommitAhead(y, x')
  {
    EpochsApart(PairOf(x, y), grp, past.keys);
    EpochsApart(PairOf(x', y), grp, past'.keys);
    if Switching(y, x') {
      var n :| CommitAt(x, y, n);
      assert CommitAt(x', y, n);
    }
    if Switching(x', y) {
      if x'.epoch == x.epoch {
        var n :| CommitAt(y, x, n);
        assert CommitAt(y, x', n);
      } else {
        assert CommitAt(y, x', |x.e.sent|);
      }
    }
  }

  lemma WriteShape(x: Side, x': Side, y: Side)
    requires y.seen <= |x.e.sent| && x.seen <= |y.e.sent|
    requires x.e.sent <= x'.e.sent && x'.epoch == x.epoch && x'.seen == x.seen && (x'.k.xid == x.k.xid || x.k.xid.None?)
    ensures StepShape(x, x', y)
  {
  }

  lemma ArrivalShape(x: Side, x': Side, y: Side, past: Past, grp: Group, n: nat)
    requires grp.Valid() && Joint(x, y, past, grp) && n < |y.e.sent|
    requires ArrivedAs(x, y.e.sent[n], past.keys[y.epochs[n]]) == Ok(x')
    ensures StepShape(x, x', y)
  {
    FrameArrives(x, y, past, grp, n, y.e.sent[n], y.epochs[n]);
    if Expected(x, n) {
      NamedKey(x, y, past, grp, n, y.epochs[n]);
      EpochsApart(PairOf(x, y), grp, past.keys);
    }
  }

  lemma TalkShape(x: Side, y: Side, past: Past, grp: Group, b: nat, effect: Effect)
    requires grp.Valid() && Joint(x, y, past, grp) && x.e.s.mailbox != [] && IsTalk(x.e.s.mailbox[0].action)
    requires FreshJoin(x.k, x.e.s.mailbox[0].action, b, grp, past.keys)
    requires Handle(x.k, x.e.s.mailbox[0].action, b, grp) == Ok(effect)
    ensures StepShape(x, Took(x, x.e.s.mailbox[0].action, effect), y)
  {
    HeadSlot(x, y, past);
    SaidHead(y.e.sent, x.seen);
    HandleTalk(PairOf(x, y), grp, past.keys, b);
  }

  lemma OtherShape(x: Side, y: Side, past: Past, grp: Group, b: nat, effect: Effect)
    requires grp.Valid() && Joint(x, y, past, grp) && x.e.s.mailbox != [] && !IsTalk(x.e.s.mailbox[0].action)
    requires Handle(x.k, x.e.s.mailbox[0].action, b, grp) == Ok(effect)
    ensures StepShape(x, Took(x, x.e.s.mailbox[0].action, effect), y)
  {
    var action := x.e.s.mailbox[0].action;
    HeadSlot(x, y, past);
    if action.CommitKey? && x.k.xid == Some(action.xid) {
      EndingSwitch(x, y, past, grp);
      EpochsApart(PairOf(x, y), grp, past.keys);
    } else {
      HandleInert(x, past, action, b, grp);
    }
  }

  lemma DispatchShape(x: Side, y: Side, past: Past, grp: Group, b: nat)
    requires grp.Valid() && Joint(x, y, past, grp) && StepSide(x, y, past, KeyStep.Dispatch(b), grp).Ok?
    ensures StepShape(x, StepSide(x, y, past, KeyStep.Dispatch(b), grp).value.x, y)
  {
    if x.e.s.mailbox == [] || !FreshJoin(x.k, x.e.s.mailbox[0].action, b, grp, past.keys) {
      WriteShape(x, x, y);
    } else {
      var effect := Handle(x.k, x.e.s.mailbox[0].action, b, grp).value;
      if IsTalk(x.e.s.mailbox[0].action) { TalkShape(x, y, past, grp, b, effect); }
      else { OtherShape(x, y, past, grp, b, effect); }
    }
  }

  lemma AnyShape(x: Side, y: Side, past: Past, step: KeyStep, grp: Group)
    requires grp.Valid() && Joint(x, y, past, grp) && StepSide(x, y, past, step, grp).Ok?
    ensures StepShape(x, StepSide(x, y, past, step, grp).value.x, y)
  {
    var x' := StepSide(x, y, past, step, grp).value.x;
    match step
    case Arrival(slot) =>
      if slot < |y.e.sent| { ArrivalShape(x, x', y, past, grp, slot); } else { WriteShape(x, x', y); }
    case Dispatch(b) => DispatchShape(x, y, past, grp, b);
    case _ => WriteShape(x, x', y);
  }

  lemma StepAhead(x: Side, y: Side, past: Past, step: KeyStep, grp: Group)
    requires grp.Valid() && Joint(x, y, past, grp) && StepSide(x, y, past, step, grp).Ok?
    requires CommitAhead(x, y) && CommitAhead(y, x)
    ensures var turn := StepSide(x, y, past, step, grp).value;
      && y.seen <= |turn.x.e.sent| && turn.x.seen <= |y.e.sent|
      && CommitAhead(turn.x, y) && CommitAhead(y, turn.x)
  {
    var turn := StepSide(x, y, past, step, grp).value;
    StepJoint(x, y, past, step, grp);
    AnyShape(x, y, past, step, grp);
    AheadKept(x, turn.x, y, past, turn.past, grp);
  }

  // ---- Runs ----

  ghost predicate WorldLive(w: World, grp: Group)
    requires grp.Valid()
  {
    WorldInv(w, grp) && CommitAhead(w.a, w.b) && CommitAhead(w.b, w.a)
  }

  lemma AdvancedLive(w: World, move: KeyMove, grp: Group)
    requires grp.Valid() && WorldLive(w, grp) && Advanced(w, move, grp).Ok?
    ensures WorldLive(Advanced(w, move, grp).value, grp)
  {
    AdvancedInv(w, move, grp);
    if move.byA {
      StepAhead(w.a, w.b, w.past, move.step, grp);
    } else {
      JointFlips(w.a, w.b, w.past, grp);
      StepAhead(w.b, w.a, w.past, move.step, grp);
    }
  }

  lemma {:induction false} RunLive(w: World, moves: seq<KeyMove>, grp: Group)
    requires grp.Valid() && WorldLive(w, grp) && RunKeys(w, moves, grp).Ok?
    ensures WorldLive(RunKeys(w, moves, grp).value, grp)
    decreases |moves|
  {
    if moves == [] {
    } else {
      AdvancedLive(w, moves[0], grp);
      RunLive(Advanced(w, moves[0], grp).value, moves[1..], grp);
    }
  }

  predicate Outbids(a: Action, xid: int) { a.RequestKey? && a.xid > xid }

  /** An unhandled slot of one end that settles x's exchange when it is handled: it names the exchange, or it is the
      peer's request under a greater id, which x joins instead. */
  ghost predicate UnderWay(x: Side, y: Side)
    requires x.k.xid.Some?
  {
    || (exists n :: y.seen <= n < |x.e.sent| && Names(x.e.sent[n].action, x.k.xid.value))
    || (exists n :: x.seen <= n < |y.e.sent| && Names(y.e.sent[n].action, x.k.xid.value))
    || (exists n :: x.seen <= n < |y.e.sent| && Outbids(y.e.sent[n].action, x.k.xid.value))
  }

  lemma {:induction false} SaidMember(ws: seq<Wrapper>, a: Action) returns (i: nat)
    requires a in Said(ws)
    ensures i < |ws| && ws[i].action == a
  {
    if IsTalk(ws[0].action) && ws[0].action == a { i := 0; }
    else {
      i := SaidMember(ws[1..], a);
      i := i + 1;
    }
  }

  lemma SpokenUnderWay(x: Side, y: Side)
    requires y.seen <= |x.e.sent| && x.seen <= |y.e.sent| && Spoken(PairOf(x, y)) && CommitAhead(x, y) && x.k.xid.Some?
    ensures UnderWay(x, y)
  {
    var p := PairOf(x, y);
    if a :| (a in p.tx || a in p.ty) && Names(a, p.kx.xid.value) {
      if a in p.tx {
        var i := SaidMember(x.e.sent[y.seen..], a);
        assert x.e.sent[y.seen + i].action == a;
      } else {
        var i := SaidMember(y.e.sent[x.seen..], a);
        assert y.e.sent[x.seen + i].action == a;
      }
    } else if a :| a in p.ty && a.RequestKey? && a.xid > p.kx.xid.value {
      var i := SaidMember(y.e.sent[x.seen..], a);
      assert y.e.sent[x.seen + i].action == a;
    } else {
      var n :| CommitAt(x, y, n);
      assert Names(y.e.sent[n].action, x.k.xid.value);
    }
  }

  /** In every reachable state, whichever end holds an exchange, an action that settles it is committed and not yet
      handled: no exchange is left open with nothing on its way. */
  lemma NoExchangeStuck(key: Key, moves: seq<KeyMove>, grp: Group)
    requires grp.Valid() && RunKeys(Opened(key), moves, grp).Ok?
    ensures var w := RunKeys(Opened(key), moves, grp).value;
      && (w.a.k.xid.Some? ==> UnderWay(w.a, w.b))
      && (w.b.k.xid.Some? ==> UnderWay(w.b, w.a))
  {
    OpenedInv(key, grp);
    RunLive(Opened(key), moves, grp);
    var w := RunKeys(Opened(key), moves, grp).value;
    EndLive(w.a, w.b, w.past, grp);
    JointFlips(w.a, w.b, w.past, grp);
    EndLive(w.b, w.a, w.past, grp);
  }

  lemma EndLive(x: Side, y: Side, past: Past, grp: Group)
    requires grp.Valid() && Joint(x, y, past, grp) && CommitAhead(x, y)
    ensures x.k.xid.Some? ==> UnderWay(x, y)
  {
    TalkSpoken(PairOf(x, y), grp, past.keys);
    if x.k.xid.Some? { SpokenUnderWay(x, y); }
  }

  // ---- Handling what is under way ends every exchange ----

  /** How many more slots an unhandled action can bring about, each in answer to the one before. */
  function Weight(a: Action): nat {
    match a
    case RequestKey(_, _) => 3
    case AcceptKey(_, _, _) => 2
    case CommitKey(_, _) => 1
    case _ => 0
  }

  function Load(ws: seq<Wrapper>): nat {
    if ws == [] then 0 else 1 + Weight(ws[0].action) + Load(ws[1..])
  }

  /** All that is committed and not handled, with what it can still bring about. */
  function LoadOf(x: Side, y: Side): nat
    requires y.seen <= |x.e.sent| && x.seen <= |y.e.sent|
  {
    Load(x.e.sent[y.seen..]) + Load(y.e.sent[x.seen..])
  }

  lemma {:induction false} LoadAppend(ws: seq<Wrapper>, w: Wrapper)
    ensures Load(ws + [w]) == Load(ws) + 1 + Weight(w.action)
  {
    if ws == [] {
      assert ws + [w] == [w] && [w][1..] == [];
    } else {
      assert (ws + [w])[1..] == ws[1..] + [w];
      LoadAppend(ws[1..], w);
    }
  }

  /** An answer weighs less than what it answers. */
  lemma AnswerWeighsLess(k: Keys, a: Action, b: nat, grp: Group)
    requires grp.Valid() && Handle(k, a, b, grp).Ok? && Handle(k, a, b, grp).value.reply.Some?
    ensures Weight(Handle(k, a, b, grp).value.reply.value) < Weight(a)
  {
  }

  lemma LoadHead(sent: seq<Wrapper>, seen: nat)
    requires seen < |sent|
    ensures Load(sent[seen..]) == 1 + Weight(sent[seen].action) + Load(sent[seen + 1..])
  {
    assert sent[seen..][1..] == sent[seen + 1..];
  }

  lemma LoadLast(sent: seq<Wrapper>, seen: nat, w: Wrapper)
    requires seen <= |sent|
    ensures Load((sent + [w])[seen..]) == Load(sent[seen..]) + 1 + Weight(w.action)
  {
    assert (sent + [w])[seen..] == sent[seen..] + [w];
    LoadAppend(sent[seen..], w);
  }

  /** What a dispatch adds to what x has yet to be heard of. */
  lemma TookSent(x: Side, y: Side, action: Action, effect: Effect)
    requires x.e.s.mailbox != [] && y.seen <= |x.e.sent|
    ensures var x' := Took(x, action, effect);
      && y.seen <= |x'.e.sent| && x'.seen == x.seen + 1
      && Load(x'.e.sent[y.seen..]) ==
           Load(x.e.sent[y.seen..]) + if effect.reply.Some? then 1 + Weight(effect.reply.value) else 0
  {
    if effect.reply.Some? { LoadLast(x.e.sent, y.seen, NextWrapper(Shifted(x).e.s, effect.reply.value)); }
  }

  lemma TookLoad(x: Side, y: Side, past: Past, b: nat, grp: Group)
    requires grp.Valid() && Inv(x.e, y.e) && SideOk(x, past) && y.seen <= |x.e.sent| && x.seen <= |y.e.sent|
    requires x.e.s.mailbox != [] && Handle(x.k, x.e.s.mailbox[0].action, b, grp).Ok?
    ensures var x' := Took(x, x.e.s.mailbox[0].action, Handle(x.k, x.e.s.mailbox[0].action, b, grp).value);
      && y.seen <= |x'.e.sent| && x'.seen == x.seen + 1 <= |y.e.sent| && LoadOf(x', y) < LoadOf(x, y)
  {
    var effect := Handle(x.k, x.e.s.mailbox[0].action, b, grp).value;
    HeadSlot(x, y, past);
    LoadHead(y.e.sent, x.seen);
    TookSent(x, y, x.e.s.mailbox[0].action, effect);
    HeadWeight(x.e.s.mailbox[0].action, y.e.sent[x.seen].action);
    if effect.reply.Some? { AnswerWeighsLess(x.k, x.e.s.mailbox[0].action, b, grp); }
  }

  lemma HeadWeight(a: Action, b: Action)
    requires Exchange(a) || Exchange(b) ==> a == b
    ensures Weight(a) == Weight(b)
  {
  }

  predicate Passive(step: KeyStep) { step.Arrival? || step.Dispatch? }

  /** An arrival leaves the load as it is, and a handled slot lowers it. */
  lemma StepLoad(x: Side, y: Side, past: Past, step: KeyStep, grp: Group)
    requires grp.Valid() && Shaped(x, y, past) && Inv(x.e, y.e) && SideOk(x, past) && Passive(step)
    requires StepSide(x, y, past, step, grp).Ok?
    ensures var x' := StepSide(x, y, past, step, grp).value.x;
      && y.seen <= |x'.e.sent| && x.seen <= x'.seen <= |y.e.sent|
      && LoadOf(x', y) + (x'.seen - x.seen) <= LoadOf(x, y)
  {
    match step
    case Arrival(slot) =>
    case Dispatch(b) =>
      if x.e.s.mailbox != [] && FreshJoin(x.k, x.e.s.mailbox[0].action, b, grp, past.keys) {
        TookLoad(x, y, past, b, grp);
      }
  }

  lemma JointShaped(x: Side, y: Side, past: Past, grp: Group)
    requires grp.Valid() && Joint(x, y, past, grp)
    ensures Shaped(x, y, past) && Inv(x.e, y.e) && SideOk(x, past)
  {
  }

  lemma AdvancedLoad(w: World, move: KeyMove, grp: Group)
    requires grp.Valid() && WorldInv(w, grp) && Passive(move.step) && Advanced(w, move, grp).Ok?
    ensures var w' := Advanced(w, move, grp).value;
      && w.b.seen <= |w.a.e.sent| && w.a.seen <= |w.b.e.sent| && w'.b.seen <= |w'.a.e.sent|
        && w'.a.seen <= |w'.b.e.sent|
      && LoadOf(w'.a, w'.b) + (w'.a.seen - w.a.seen) + (w'.b.seen - w.b.seen) <= LoadOf(w.a, w.b)
  {
    if move.byA {
      JointShaped(w.a, w.b, w.past, grp);
      StepLoad(w.a, w.b, w.past, move.step, grp);
    } else {
      JointFlips(w.a, w.b, w.past, grp);
      JointShaped(w.b, w.a, w.past, grp);
      StepLoad(w.b, w.a, w.past, move.step, grp);
    }
  }

  lemma {:induction false} RunLoad(w: World, moves: seq<KeyMove>, grp: Group)
    requires grp.Valid() && WorldInv(w, grp) && RunKeys(w, moves, grp).Ok?
    requires forall i :: 0 <= i < |moves| ==> Passive(moves[i].step)
    ensures var w' := RunKeys(w, moves, grp).value;
      && WorldInv(w', grp)
      && LoadOf(w'.a, w'.b) + (w'.a.seen - w.a.seen) + (w'.b.seen - w.b.seen) <= LoadOf(w.a, w.b)
    decreases |moves|
  {
    if moves == [] {
    } else {
      assert Passive(moves[0].step);
      AdvancedInv(w, moves[0], grp);
      AdvancedLoad(w, moves[0], grp);
      RunLoad(Advanced(w, moves[0], grp).value, moves[1..], grp);
    }
  }

  /** As long as an end has not handled everything, the next item waits in its mailbox or the next slot can arrive and
      brings it there. */
  lemma NextComes(x: Side, y: Side, past: Past, grp: Group)
    requires grp.Valid() && Joint(x, y, past, grp) && x.seen < |y.e.sent| && x.e.s.mailbox == []
    ensures StepSide(x, y, past, Arrival(x.e.s.inSeq), grp).Ok?
    ensures StepSide(x, y, past, Arrival(x.e.s.inSeq), grp).value.x.e.s.mailbox != []
  {
    JointShaped(x, y, past, grp);
    NextExpected(x, y, past);
    NextArrives(x, y, past, grp, x.e.s.inSeq);
  }

  lemma NextArrives(x: Side, y: Side, past: Past, grp: Group, n: nat)
    requires grp.Valid() && Joint(x, y, past, grp) && n < |y.e.sent| && Expected(x, n) && n == x.e.s.inSeq
    ensures ArrivedAs(x, y.e.sent[n], past.keys[y.epochs[n]]).Ok?
    ensures ArrivedAs(x, y.e.sent[n], past.keys[y.epochs[n]]).value.e.s.mailbox != []
  {
    FrameArrives(x, y, past, grp, n, y.e.sent[n], y.epochs[n]);
    var x' := ArrivedAs(x, y.e.sent[n], past.keys[y.epochs[n]]).value;
    assert TookSlot(x, x', y, n);
    Counted(x.e, x'.e, y.e, n);
  }

  lemma Counted(r: End, r': End, s: End, n: int)
    requires Prefix(s.sent, r.s.inSeq, r.got) && Prefix(s.sent, r'.s.inSeq, r'.got) && r.s.inSeq == n < r'.s.inSeq
    requires |r'.got| - |r'.s.mailbox| == |r.got| - |r.s.mailbox|
    ensures r'.s.mailbox != []
  {
  }

  lemma NextExpected(x: Side, y: Side, past: Past)
    requires Inv(x.e, y.e) && SideOk(x, past) && x.seen < |y.e.sent| && x.e.s.mailbox == []
    ensures x.e.s.inSeq == x.seen && Expected(x, x.e.s.inSeq)
  {
  }

  /** Handling what is under way ends every exchange: from any state of a run, however arrivals and handlings follow
      each other, no more slots are handled than the load allows; and once both ends have handled all that was
      committed, no exchange is open. */
  lemma HandlingEnds(key: Key, moves: seq<KeyMove>, more: seq<KeyMove>, grp: Group)
    requires grp.Valid() && RunKeys(Opened(key), moves, grp).Ok?
    requires RunKeys(RunKeys(Opened(key), moves, grp).value, more, grp).Ok?
    requires forall i :: 0 <= i < |more| ==> Passive(more[i].step)
    ensures var w := RunKeys(Opened(key), moves, grp).value;
      var w' := RunKeys(w, more, grp).value;
      && w.b.seen <= |w.a.e.sent| && w.a.seen <= |w.b.e.sent|
      && (w'.a.seen - w.a.seen) + (w'.b.seen - w.b.seen) <= LoadOf(w.a, w.b)
      && (w'.a.seen == |w'.b.e.sent| && w'.b.seen == |w'.a.e.sent| ==> w'.a.k.xid.None? && w'.b.k.xid.None?)
  {
    OpenedInv(key, grp);
    RunLive(Opened(key), moves, grp);
    var w := RunKeys(Opened(key), moves, grp).value;
    RunLoad(w, more, grp);
    RunLive(w, more, grp);
    var w' := RunKeys(w, more, grp).value;
    EndLive(w'.a, w'.b, w'.past, grp);
    JointFlips(w'.a, w'.b, w'.past, grp);
    EndLive(w'.b, w'.a, w'.past, grp);
  }
}
