/** Actions that settle an exchange are spent once handled: delivered again at any later time, they change nothing. */
module RekeySpent {
  import opened Prelude
  import opened Framing
  import opened Dh
  import opened Rekey
  import opened RekeyPhases
  import opened RekeyRun

  predicate Settles(a: Action) { a.AcceptKey? || a.CommitKey? || a.AbortKey? }

  /** No settling action of exchange `xid` among the first `hi` slots. */
  ghost predicate Clean(sent: seq<Wrapper>, hi: int, xid: int) {
    forall n :: 0 <= n < hi && n < |sent| && Settles(sent[n].action) ==> sent[n].action.xid != xid
  }

  ghost predicate DrawnIds(sent: seq<Wrapper>, ids: set<int>) {
    forall n :: 0 <= n < |sent| && Settles(sent[n].action) ==> sent[n].action.xid in ids
  }

  /** x's request is still ahead of its peer. */
  predicate Unseen(x: Side, y: Side, grp: Group)
    requires grp.Valid() && y.seen <= |x.e.sent|
  {
    Asking(x.k) && Offer(x.k, grp) in Said(x.e.sent[y.seen..])
  }

  /** The exchange x holds is none of those whose settling actions it has handled; while x asks, it settled nothing
      under that id itself, and while its request is unseen, neither did y. */
  ghost predicate Spent(x: Side, y: Side, past: Past, grp: Group)
    requires grp.Valid() && y.seen <= |x.e.sent|
  {
    && DrawnIds(x.e.sent, past.ids)
    && (x.k.xid.Some? ==> Clean(y.e.sent, x.seen, x.k.xid.value))
    && (Asking(x.k) ==> Clean(x.e.sent, |x.e.sent|, x.k.xid.value))
    && (Unseen(x, y, grp) ==> Clean(y.e.sent, |y.e.sent|, x.k.xid.value))
  }

  ghost predicate AllSpent(x: Side, y: Side, past: Past, grp: Group)
    requires grp.Valid() && y.seen <= |x.e.sent| && x.seen <= |y.e.sent|
  {
    Spent(x, y, past, grp) && Spent(y, x, past, grp)
  }

  /** One end moves on: at most one more slot written and one more slot handled. */
  predicate Moves(x: Side, x': Side, y: Side) {
    && x.e.sent <= x'.e.sent && |x'.e.sent| <= |x.e.sent| + 1 && x.seen <= x'.seen <= x.seen + 1
    && y.seen <= |x.e.sent| && x'.seen <= |y.e.sent|
  }

  /** The slot just written, if it settles, settles an id drawn before, and none that is asked for unseen. */
  predicate WritesSpent(x: Side, x': Side, y: Side, past: Past, grp: Group)
    requires grp.Valid() && Moves(x, x', y)
  {
    |x'.e.sent| > |x.e.sent| && Settles(x'.e.sent[|x.e.sent|].action) ==>
      && x'.e.sent[|x.e.sent|].action.xid in past.ids && !Asking(x'.k) && !Unseen(y, x', grp)
  }

  /** The exchange x is left with is the one it had, and the slot just handled does not settle it; or none; or a
      new one that nothing has settled. */
  ghost predicate HoldsSpent(x: Side, x': Side, y: Side) {
    || x'.k.xid.None?
    || (&& x'.k.xid == x.k.xid && x'.k.role == x.k.role && x'.k.secret == x.k.secret
        && (|x'.e.sent| > |x.e.sent| ==> !x'.e.sent[|x.e.sent|].action.RequestKey?)
        && (x'.seen > x.seen && 0 <= x.seen < |y.e.sent| && Settles(y.e.sent[x.seen].action) ==>
              x'.k.xid != Some(y.e.sent[x.seen].action.xid)))
    || (&& Clean(y.e.sent, x'.seen, x'.k.xid.value)
        && (Asking(x'.k) ==>
              Clean(x'.e.sent, |x'.e.sent|, x'.k.xid.value) && Clean(y.e.sent, |y.e.sent|, x'.k.xid.value)))
  }

  lemma SpentKept(x: Side, x': Side, y: Side, past: Past, past': Past, grp: Group)
    requires grp.Valid() && Moves(x, x', y) && Spent(x, y, past, grp) && past.ids <= past'.ids
    requires WritesSpent(x, x', y, past', grp) && HoldsSpent(x, x', y)
    ensures Spent(x', y, past', grp)
  {
    if Unseen(x', y, grp) && x'.k.xid == x.k.xid && x'.k.role == x.k.role && x'.k.secret == x.k.secret {
      if |x'.e.sent| > |x.e.sent| {
        assert x'.e.sent == x.e.sent + [x'.e.sent[|x.e.sent|]];
        SaidOne(x.e.sent, y.seen, x'.e.sent[|x.e.sent|]);
      } else {
        assert x'.e.sent == x.e.sent;
      }
    }
  }

  lemma PeerSpentKept(x: Side, x': Side, y: Side, past: Past, past': Past, grp: Group)
    requires grp.Valid() && Moves(x, x', y) && x.seen <= |y.e.sent| && Spent(y, x, past, grp) && past.ids <= past'.ids
    requires WritesSpent(x, x', y, past', grp)
    ensures Spent(y, x', past', grp)
  {
    if Unseen(y, x', grp) {
      if x'.seen > x.seen { SaidHead(y.e.sent, x.seen); }
      assert Unseen(y, x, grp);
    }
  }

  /** A step of x that both lemmas above apply to. */
  ghost predicate SpentStep(x: Side, x': Side, y: Side, past: Past, past': Past, grp: Group)
    requires grp.Valid()
  {
    Moves(x, x', y) && past.ids <= past'.ids && WritesSpent(x, x', y, past', grp) && HoldsSpent(x, x', y)
  }

  lemma SaySpent(x: Side, x': Side, y: Side, past: Past, grp: Group)
    requires grp.Valid() && y.seen <= |x.e.sent| && x.seen <= |y.e.sent| && x'.k == x.k && x'.seen == x.seen
    requires x.e.sent <= x'.e.sent && |x'.e.sent| <= |x.e.sent| + 1
    requires |x'.e.sent| > |x.e.sent| ==>
      !Settles(x'.e.sent[|x.e.sent|].action) && !x'.e.sent[|x.e.sent|].action.RequestKey?
    ensures SpentStep(x, x', y, past, past, grp)
  {
  }

  lemma BeginSpent(x: Side, y: Side, past: Past, grp: Group, xid: int, secret: nat)
    requires grp.Valid() && y.seen <= |x.e.sent| && x.seen <= |y.e.sent| && AllSpent(x, y, past, grp)
    requires MayStart(x.k) && FreshId(x, y, past, xid, grp) && BeginExchange(x.k, xid, secret).Ok?
    ensures SpentStep(
      x, Wrote(x, RequestKey(xid, Publish(grp, secret))).(k := BeginExchange(x.k, xid, secret).value), y,
      past, past.(ids := past.ids + {xid}), grp)
  {
    if xid in past.ids {
      assert Said(y.e.sent[x.seen..])[0] == Offer(y.k, grp);
      assert Unseen(y, x, grp);
    }
  }

  lemma ArrivalSpent(x: Side, x': Side, y: Side, past: Past, grp: Group, named: Named)
    requires grp.Valid() && y.seen <= |x.e.sent| && x.seen <= |y.e.sent| && KeysOk(x.k)
    requires x'.e.sent == x.e.sent && x'.seen == x.seen && OnFrame(x.k, named, x'.e.s.gapRequested) == Ok(x'.k)
    ensures SpentStep(x, x', y, past, past, grp)
  {
  }

  /** Who said the head of what x has yet to handle, and why x can still answer it. */
  lemma HeadPhase(p: Pair, grp: Group, hist: seq<Key>)
    requires grp.Valid() && Talk(p, grp, hist) && |p.ty| > 0
    ensures p.ty[0].RequestKey? && (p.kx.xid.None? || (Asking(p.kx) && p.kx.xid.value < p.ty[0].xid)) ==>
      Asking(p.ky) && p.ty == [Offer(p.ky, grp)]
    ensures p.ty[0].AcceptKey? ==> Accepting(p.ky) && !Accepting(p.kx)
  {
  }

  /** What handling an exchange action leaves of the ids. */
  lemma TalkSpent(p: Pair, grp: Group, hist: seq<Key>, b: nat, action: Action, effect: Effect)
    requires grp.Valid() && Talk(p, grp, hist) && |p.ty| > 0 && p.ty[0] == action
    requires Handle(p.kx, action, b, grp) == Ok(effect)
    ensures effect.reply.Some? ==>
      && Settles(effect.reply.value) && !Asking(effect.keys)
      && (Some(effect.reply.value.xid) == p.kx.xid || Some(effect.reply.value.xid) == p.ky.xid)
      && (Accepting(p.ky) || (Asking(p.ky) && p.ty == [Offer(p.ky, grp)] && action == Offer(p.ky, grp)))
    ensures effect.keys.xid.None? || effect.keys == p.kx
      || (effect.keys.xid == p.ky.xid && Asking(p.ky) && Accepting(effect.keys) && action.RequestKey?)
    ensures Settles(action) && effect.keys.xid.Some? ==> effect.keys.xid.value != action.xid
  {
    HeadPhase(p, grp, hist);
  }

  lemma TalkStep(x: Side, y: Side, past: Past, grp: Group, b: nat, effect: Effect)
    requires grp.Valid() && Joint(x, y, past, grp) && AllSpent(x, y, past, grp)
    requires x.e.s.mailbox != [] && IsTalk(x.e.s.mailbox[0].action)
    requires Handle(x.k, x.e.s.mailbox[0].action, b, grp) == Ok(effect)
    ensures SpentStep(x, Took(x, x.e.s.mailbox[0].action, effect), y, past,
      Recorded(past, x.e.s.mailbox[0].action, effect), grp)
  {
    var action := x.e.s.mailbox[0].action;
    HeadSlot(x, y, past);
    SaidHead(y.e.sent, x.seen);
    TalkSpent(PairOf(x, y), grp, past.keys, b, action, effect);
    TalkHolds(x, y, past, grp, action, effect);
  }

  lemma TalkHolds(x: Side, y: Side, past: Past, grp: Group, action: Action, effect: Effect)
    requires grp.Valid() && y.seen <= |x.e.sent| && x.seen < |y.e.sent| && Spent(y, x, past, grp)
    requires x.e.s.mailbox != [] && y.e.sent[x.seen].action == action && IsTalk(action)
    requires x.k.xid.Some? ==> x.k.xid.value in past.ids
    requires y.k.xid.Some? ==> y.k.xid.value in past.ids
    requires effect.reply.Some? ==>
      && Settles(effect.reply.value) && !Asking(effect.keys)
      && (Some(effect.reply.value.xid) == x.k.xid || Some(effect.reply.value.xid) == y.k.xid)
      && (Accepting(y.k) || (Asking(y.k) && Said(y.e.sent[x.seen..]) == [Offer(y.k, grp)] && action == Offer(y.k, grp)))
    requires effect.keys.xid.None? || effect.keys == x.k
      || (effect.keys.xid == y.k.xid && Asking(y.k) && Accepting(effect.keys) && action.RequestKey?)
    requires Settles(action) && effect.keys.xid.Some? ==> effect.keys.xid.value != action.xid
    ensures SpentStep(x, Took(x, action, effect), y, past, Recorded(past, action, effect), grp)
  {
    SaidHead(y.e.sent, x.seen);
  }

  /** A commitment, or an action outside the exchange. */
  lemma OtherStep(x: Side, y: Side, past: Past, grp: Group, b: nat, effect: Effect)
    requires grp.Valid() && Joint(x, y, past, grp) && x.e.s.mailbox != [] && !IsTalk(x.e.s.mailbox[0].action)
    requires Handle(x.k, x.e.s.mailbox[0].action, b, grp) == Ok(effect)
    ensures SpentStep(x, Took(x, x.e.s.mailbox[0].action, effect), y, past,
      Recorded(past, x.e.s.mailbox[0].action, effect), grp)
  {
    var action := x.e.s.mailbox[0].action;
    HeadSlot(x, y, past);
    if action.CommitKey? && x.k.xid == Some(action.xid) {
      EndingSwitch(x, y, past, grp);
    } else {
      HandleInert(x, past, action, b, grp);
    }
  }

  lemma StepSpent(x: Side, y: Side, past: Past, step: KeyStep, grp: Group)
    requires grp.Valid() && Joint(x, y, past, grp) && AllSpent(x, y, past, grp) && StepSide(x, y, past, step, grp).Ok?
    ensures var turn := StepSide(x, y, past, step, grp).value;
      y.seen <= |turn.x.e.sent| && turn.x.seen <= |y.e.sent| && AllSpent(turn.x, y, turn.past, grp)
  {
    var turn := StepSide(x, y, past, step, grp).value;
    SpentMove(x, y, past, step, grp);
    SpentKept(x, turn.x, y, past, turn.past, grp);
    PeerSpentKept(x, turn.x, y, past, turn.past, grp);
  }

  lemma SpentMove(x: Side, y: Side, past: Past, step: KeyStep, grp: Group)
    requires grp.Valid() && Joint(x, y, past, grp) && AllSpent(x, y, past, grp) && StepSide(x, y, past, step, grp).Ok?
    ensures var turn := StepSide(x, y, past, step, grp).value; SpentStep(x, turn.x, y, past, turn.past, grp)
  {
    match step
    case Say(action) => SayMove(x, y, past, grp, step);
    case Ask => SayMove(x, y, past, grp, step);
    case Begin(xid, secret) =>
      if MayStart(x.k) && FreshId(x, y, past, xid, grp) { BeginSpent(x, y, past, grp, xid, secret); }
      else { SaySpent(x, x, y, past, grp); }
    case Arrival(slot) => ArrivalMove(x, y, past, grp, slot);
    case Dispatch(b) => DispatchMove(x, y, past, grp, b);
  }

  lemma SayMove(x: Side, y: Side, past: Past, grp: Group, step: KeyStep)
    requires grp.Valid() && Shaped(x, y, past) && (step.Say? || step.Ask?)
    ensures SpentStep(x, StepSide(x, y, past, step, grp).value.x, y, past, past, grp)
  {
    SaySpent(x, StepSide(x, y, past, step, grp).value.x, y, past, grp);
  }

  lemma DispatchMove(x: Side, y: Side, past: Past, grp: Group, b: nat)
    requires grp.Valid() && Joint(x, y, past, grp) && AllSpent(x, y, past, grp)
    requires StepSide(x, y, past, KeyStep.Dispatch(b), grp).Ok?
    ensures var turn := StepSide(x, y, past, KeyStep.Dispatch(b), grp).value;
      SpentStep(x, turn.x, y, past, turn.past, grp)
  {
    if x.e.s.mailbox == [] || !FreshJoin(x.k, x.e.s.mailbox[0].action, b, grp, past.keys) {
      SaySpent(x, x, y, past, grp);
    } else {
      var effect := Handle(x.k, x.e.s.mailbox[0].action, b, grp).value;
      if IsTalk(x.e.s.mailbox[0].action) { TalkStep(x, y, past, grp, b, effect); }
      else { OtherStep(x, y, past, grp, b, effect); }
    }
  }

  lemma ArrivalMove(x: Side, y: Side, past: Past, grp: Group, slot: nat)
    requires grp.Valid() && Joint(x, y, past, grp) && StepSide(x, y, past, Arrival(slot), grp).Ok?
    ensures SpentStep(x, StepSide(x, y, past, Arrival(slot), grp).value.x, y, past, past, grp)
  {
    var x' := StepSide(x, y, past, Arrival(slot), grp).value.x;
    if slot >= |y.e.sent| {
      SaySpent(x, x', y, past, grp);
    } else {
      var w, t := y.e.sent[slot], y.epochs[slot];
      FrameArrives(x, y, past, grp, slot, w, t);
      if Expected(x, slot) {
        ArrivalSpent(x, x', y, past, grp, SelectKey(x.k, past.keys[t]).value);
      } else {
        SaySpent(x, x', y, past, grp);
      }
    }
  }

  // ---- Runs ----

  ghost predicate WorldSpent(w: World, grp: Group)
    requires grp.Valid()
  {
    WorldInv(w, grp) && AllSpent(w.a, w.b, w.past, grp)
  }

  lemma AdvancedSpent(w: World, move: KeyMove, grp: Group)
    requires grp.Valid() && WorldSpent(w, grp) && Advanced(w, move, grp).Ok?
    ensures WorldSpent(Advanced(w, move, grp).value, grp)
  {
    AdvancedInv(w, move, grp);
    if move.byA {
      StepSpent(w.a, w.b, w.past, move.step, grp);
    } else {
      JointFlips(w.a, w.b, w.past, grp);
      StepSpent(w.b, w.a, w.past, move.step, grp);
    }
  }

  lemma {:induction false} RunSpent(w: World, moves: seq<KeyMove>, grp: Group)
    requires grp.Valid() && WorldSpent(w, grp) && RunKeys(w, moves, grp).Ok?
    ensures WorldSpent(RunKeys(w, moves, grp).value, grp)
    decreases |moves|
  {
    if moves == [] {
    } else {
      AdvancedSpent(w, moves[0], grp);
      RunSpent(Advanced(w, moves[0], grp).value, moves[1..], grp);
    }
  }

  /** A copy of a handled action, left behind when its removal did not commit, is handled again: the effect and the
      reply it would retain, without a removal. */
  function HandledAgain(x: Side, action: Action, b: nat, grp: Group): Result<Side>
    requires grp.Valid()
  {
    var effect :- Handle(x.k, action, b, grp);
    Ok(if effect.reply.None? then x.(k := effect.keys) else Wrote(x, effect.reply.value).(k := effect.keys))
  }

  /** In every reachable state, an acceptance, a commitment or an abort that an end has handled, however long ago and
      whatever either end did since, changes nothing when it is handled again. */
  lemma SettledActionsAreSpent(key: Key, moves: seq<KeyMove>, grp: Group, n: nat, b: nat)
    requires grp.Valid() && RunKeys(Opened(key), moves, grp).Ok?
    ensures var w := RunKeys(Opened(key), moves, grp).value;
      && (n < w.a.seen && n < |w.b.e.sent| && Settles(w.b.e.sent[n].action) ==>
            HandledAgain(w.a, w.b.e.sent[n].action, b, grp) == Ok(w.a))
      && (n < w.b.seen && n < |w.a.e.sent| && Settles(w.a.e.sent[n].action) ==>
            HandledAgain(w.b, w.a.e.sent[n].action, b, grp) == Ok(w.b))
  {
    OpenedInv(key, grp);
    RunSpent(Opened(key), moves, grp);
    var w := RunKeys(Opened(key), moves, grp).value;
    SpentIsInert(w.a, w.b, w.past, grp, n, b);
    SpentIsInert(w.b, w.a, w.past, grp, n, b);
  }

  lemma SpentIsInert(x: Side, y: Side, past: Past, grp: Group, n: nat, b: nat)
    requires grp.Valid() && y.seen <= |x.e.sent| && Spent(x, y, past, grp)
    ensures n < x.seen && n < |y.e.sent| && Settles(y.e.sent[n].action) ==>
      HandledAgain(x, y.e.sent[n].action, b, grp) == Ok(x)
  {
  }
}
