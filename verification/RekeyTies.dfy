/** Two ends that draw the same exchange id: what becomes of that exchange over every further run. */
module RekeyTies {
  import opened Prelude
  import opened Framing
  import opened Sequence
  import opened Delivery
  import opened Dh
  import opened Rekey
  import opened RekeyPhases
  import opened RekeyRun
  import RekeyLive

  // ---- The phases of a tie ----

  predicate Waits(k: Keys, xid: int) { k.xid == Some(xid) && k.role == Some(Requester) }

  predicate IsOffer(a: Action, xid: int) { a.RequestKey? && a.xid == xid }

  predicate About(a: Action, xid: int) { IsTalk(a) && a.xid == xid }

  predicate NoneAbout(s: seq<Action>, from: nat, xid: int) { forall i :: from <= i < |s| ==> !About(s[i], xid) }

  /** Neither end has handled the other's request. */
  predicate BothWait(p: Pair, xid: int) {
    && Waits(p.kx, xid) && Waits(p.ky, xid)
    && |p.tx| == 1 && IsOffer(p.tx[0], xid) && |p.ty| == 1 && IsOffer(p.ty[0], xid)
  }

  /** y has, and has dropped the exchange; x has yet to. */
  predicate OneWaits(p: Pair, xid: int) {
    && Waits(p.kx, xid) && p.ky.xid != Some(xid) && p.tx == []
    && |p.ty| > 0 && IsOffer(p.ty[0], xid) && NoneAbout(p.ty, 1, xid)
  }

  /** Both have. */
  predicate BothDropped(p: Pair, xid: int) {
    p.kx.xid != Some(xid) && p.ky.xid != Some(xid) && NoneAbout(p.tx, 0, xid) && NoneAbout(p.ty, 0, xid)
  }

  predicate Tie(p: Pair, xid: int) {
    BothWait(p, xid) || OneWaits(p, xid) || OneWaits(Flip(p), xid) || BothDropped(p, xid)
  }

  /** Ends that ask under one id have not handled each other's request. */
  predicate Coincide(p: Pair) {
    p.kx.xid.Some? && Waits(p.kx, p.kx.xid.value) && Waits(p.ky, p.kx.xid.value) ==> BothWait(p, p.kx.xid.value)
  }

  // ---- One step of x ----

  predicate Rests(p: Pair, q: Pair) {
    && q.tx == p.tx && q.ty == p.ty
    && ((q.kx.xid == p.kx.xid && q.kx.role == p.kx.role) || (q.kx.xid.None? && p.kx.role == Some(Acceptor)))
  }

  predicate Starts(p: Pair, q: Pair, z: int) {
    && p.kx.xid.None? && Waits(q.kx, z) && q.ty == p.ty
    && |q.tx| == |p.tx| + 1 && q.tx[..|p.tx|] == p.tx && IsOffer(q.tx[|p.tx|], z)
  }

  predicate Handling(p: Pair, q: Pair, b: nat, grp: Group)
    requires grp.Valid()
  {
    && |p.ty| > 0 && IsTalk(p.ty[0]) && Handle(p.kx, p.ty[0], b, grp).Ok?
    && (var effect := Handle(p.kx, p.ty[0], b, grp).value;
        && q.kx == effect.keys && q.ty == p.ty[1..]
        && q.tx == p.tx + if effect.reply.Some? && IsTalk(effect.reply.value) then [effect.reply.value] else [])
  }

  lemma RestKeeps(p: Pair, q: Pair, xid: int)
    requires q.ky == p.ky && Tie(p, xid) && Rests(p, q)
    ensures Tie(q, xid)
  {
  }

  lemma StartKeeps(p: Pair, q: Pair, xid: int, z: int)
    requires q.ky == p.ky && Tie(p, xid) && Starts(p, q, z) && z != xid
    ensures Tie(q, xid)
  {
    forall i | 0 <= i < |q.tx| ensures i < |p.tx| ==> q.tx[i] == p.tx[i] {
      if i < |p.tx| { assert q.tx[..|p.tx|][i] == p.tx[i]; }
    }
  }

  lemma HandleKeeps(p: Pair, q: Pair, xid: int, b: nat, grp: Group)
    requires grp.Valid() && KeysOk(p.kx) && q.ky == p.ky && Tie(p, xid) && Handling(p, q, b, grp)
    ensures Tie(q, xid) && (BothWait(p, xid) || OneWaits(p, xid) ==> q.kx.xid.None?)
    ensures p.ty[0].AcceptKey? ==> p.ty[0].xid != xid
  {
    var a := p.ty[0];
    if BothWait(p, xid) || OneWaits(p, xid) {
      assert Handle(p.kx, a, b, grp) == Ok(Effect(Clear(p.kx), None, true));
      assert q.tx == p.tx;
    } else {
      assert !About(a, xid);
      HandleOther(p.kx, a, b, grp, xid);
      forall i | 0 <= i < |q.ty| ensures !About(q.ty[i], xid) { assert q.ty[i] == p.ty[i + 1]; }
    }
  }

  /** Handling an action that is about another exchange does not bring this one up. */
  lemma HandleOther(k: Keys, a: Action, b: nat, grp: Group, xid: int)
    requires grp.Valid() && IsTalk(a) && a.xid != xid && k.xid != Some(xid) && Handle(k, a, b, grp).Ok?
    ensures var effect := Handle(k, a, b, grp).value;
      effect.keys.xid != Some(xid) && (effect.reply.Some? ==> !About(effect.reply.value, xid))
  {
  }

  lemma RestCoincides(p: Pair, q: Pair)
    requires q.ky == p.ky && Coincide(p) && Rests(p, q)
    ensures Coincide(q)
  {
  }

  lemma HandleCoincides(p: Pair, q: Pair, b: nat, grp: Group)
    requires grp.Valid() && KeysOk(p.kx) && q.ky == p.ky && Coincide(p) && Handling(p, q, b, grp)
    ensures Coincide(q)
  {
    if q.kx.role == Some(Requester) && q.kx.xid.Some? {
      StillAsking(p.kx, p.ty[0], b, grp);
      if Waits(p.ky, q.kx.xid.value) { HandleKeeps(p, q, q.kx.xid.value, b, grp); }
    }
  }

  /** Handling never makes an end the one that asks. */
  lemma StillAsking(k: Keys, a: Action, b: nat, grp: Group)
    requires grp.Valid() && IsTalk(a) && Handle(k, a, b, grp).Ok?
    ensures var k' := Handle(k, a, b, grp).value.keys;
      k'.role == Some(Requester) && k'.xid.Some? ==> k.role == Some(Requester) && k.xid == k'.xid
  {
  }

  // ---- One step of the run ----

  /** A step of x, as the pair sees it. */
  ghost predicate Moves(x: Side, y: Side, past: Past, step: KeyStep, grp: Group, p: Pair, q: Pair, past': Past)
    requires grp.Valid() && y.seen <= |x.e.sent| && x.seen <= |y.e.sent|
  {
    && q.ky == p.ky && past.ids <= past'.ids
    && (|| (Rests(p, q) && past'.done == past.done)
        || (step.Begin? && Starts(p, q, step.xid) && FreshId(x, y, past, step.xid, grp) && past'.done == past.done)
        || (step.Dispatch? && Handling(p, q, step.b, grp)
            && past'.done <= past.done + if p.ty[0].AcceptKey? then {p.ty[0].xid} else {}))
  }

  lemma WriteRests(x: Side, y: Side, action: Action)
    requires y.seen <= |x.e.sent| && x.seen <= |y.e.sent| && !IsTalk(action)
    ensures Rests(PairOf(x, y), PairOf(Wrote(x, action), y)) && PairOf(Wrote(x, action), y).ky == y.k
  {
    SaidOne(x.e.sent, y.seen, NextWrapper(x.e.s, action));
  }

  lemma AskRests(x: Side, y: Side)
    requires y.seen <= |x.e.sent| && x.seen <= |y.e.sent|
    ensures y.seen <= |AskedDue(x).e.sent| && Rests(PairOf(x, y), PairOf(AskedDue(x), y))
  {
    if x.e.s.resendDue.Some? { WriteRests(x, y, Resend(DueSpan(x.e.s).first, DueSpan(x.e.s).last)); }
  }

  lemma BeginStarts(x: Side, y: Side, xid: int, secret: nat, grp: Group)
    requires grp.Valid() && y.seen <= |x.e.sent| && x.seen <= |y.e.sent| && MayStart(x.k)
    requires BeginExchange(x.k, xid, secret).Ok?
    ensures var x' := Wrote(x, RequestKey(xid, Publish(grp, secret))).(k := BeginExchange(x.k, xid, secret).value);
      Starts(PairOf(x, y), PairOf(x', y), xid)
  {
    var action := RequestKey(xid, Publish(grp, secret));
    SaidOne(x.e.sent, y.seen, NextWrapper(x.e.s, action));
  }

  lemma FrameRests(x: Side, y: Side, w: Wrapper, key: Key)
    requires y.seen <= |x.e.sent| && x.seen <= |y.e.sent| && KeysOk(x.k) && ArrivedAs(x, w, key).Ok?
    ensures Rests(PairOf(x, y), PairOf(ArrivedAs(x, w, key).value, y))
  {
  }

  /** Handling an exchange action of the peer. */
  lemma TalkHandled(x: Side, y: Side, past: Past, b: nat, grp: Group)
    requires grp.Valid() && Inv(x.e, y.e) && SideOk(x, past) && y.seen <= |x.e.sent| && x.seen <= |y.e.sent|
    requires x.e.s.mailbox != [] && IsTalk(x.e.s.mailbox[0].action)
    requires Handle(x.k, x.e.s.mailbox[0].action, b, grp).Ok?
    ensures var action := x.e.s.mailbox[0].action;
      var x' := Took(x, action, Handle(x.k, action, b, grp).value);
      && y.seen <= |x'.e.sent| && x'.seen <= |y.e.sent| && |PairOf(x, y).ty| > 0 && PairOf(x, y).ty[0] == action
      && Handling(PairOf(x, y), PairOf(x', y), b, grp)
  {
    HeadSlot(x, y, past);
    SaidHead(y.e.sent, x.seen);
    TookSays(x, y, x.e.s.mailbox[0].action, Handle(x.k, x.e.s.mailbox[0].action, b, grp).value);
  }

  /** Anything else in the mailbox leaves the exchange alone, or ends one that was accepted. */
  lemma OtherRests(x: Side, y: Side, past: Past, b: nat, grp: Group)
    requires grp.Valid() && Inv(x.e, y.e) && SideOk(x, past) && y.seen <= |x.e.sent| && x.seen <= |y.e.sent|
    requires KeysOk(x.k) && x.e.s.mailbox != [] && !IsTalk(x.e.s.mailbox[0].action)
    requires Handle(x.k, x.e.s.mailbox[0].action, b, grp).Ok?
    ensures var action := x.e.s.mailbox[0].action;
      var x' := Took(x, action, Handle(x.k, action, b, grp).value);
      y.seen <= |x'.e.sent| && x'.seen <= |y.e.sent| && Rests(PairOf(x, y), PairOf(x', y))
  {
    HeadSlot(x, y, past);
    SaidHead(y.e.sent, x.seen);
    TookSays(x, y, x.e.s.mailbox[0].action, Handle(x.k, x.e.s.mailbox[0].action, b, grp).value);
  }

  lemma DispatchMoves(x: Side, y: Side, past: Past, b: nat, grp: Group)
    requires grp.Valid() && Shaped(x, y, past) && Inv(x.e, y.e) && SideOk(x, past) && KeysOk(x.k)
    requires StepSide(x, y, past, KeyStep.Dispatch(b), grp).Ok?
    ensures var turn := StepSide(x, y, past, KeyStep.Dispatch(b), grp).value;
      && y.seen <= |turn.x.e.sent| && turn.x.seen <= |y.e.sent|
      && Moves(x, y, past, KeyStep.Dispatch(b), grp, PairOf(x, y), PairOf(turn.x, y), turn.past)
  {
    if x.e.s.mailbox != [] && FreshJoin(x.k, x.e.s.mailbox[0].action, b, grp, past.keys) {
      if IsTalk(x.e.s.mailbox[0].action) { TalkHandled(x, y, past, b, grp); } else { OtherRests(x, y, past, b, grp); }
    }
  }

  /** A slot of the end's own. */
  lemma OwnMoves(x: Side, y: Side, past: Past, step: KeyStep, grp: Group)
    requires grp.Valid() && Shaped(x, y, past) && StepSide(x, y, past, step, grp).Ok?
    requires step.Say? || step.Ask? || step.Begin?
    ensures var turn := StepSide(x, y, past, step, grp).value;
      && y.seen <= |turn.x.e.sent| && turn.x.seen <= |y.e.sent|
      && Moves(x, y, past, step, grp, PairOf(x, y), PairOf(turn.x, y), turn.past)
  {
    match step
    case Say(action) => if !IsTalk(action) && !action.CommitKey? && !action.Resend? { WriteRests(x, y, action); }
    case Ask => AskRests(x, y);
    case Begin(xid, secret) =>
      if MayStart(x.k) && FreshId(x, y, past, xid, grp) { BeginStarts(x, y, xid, secret, grp); }
  }

  lemma StepMoves(x: Side, y: Side, past: Past, step: KeyStep, grp: Group)
    requires grp.Valid() && Shaped(x, y, past) && Inv(x.e, y.e) && SideOk(x, past) && KeysOk(x.k)
    requires StepSide(x, y, past, step, grp).Ok?
    ensures var turn := StepSide(x, y, past, step, grp).value;
      && y.seen <= |turn.x.e.sent| && turn.x.seen <= |y.e.sent|
      && Moves(x, y, past, step, grp, PairOf(x, y), PairOf(turn.x, y), turn.past)
  {
    match step
    case Arrival(slot) =>
      if slot < |y.e.sent| { FrameRests(x, y, y.e.sent[slot], past.keys[y.epochs[slot]]); }
    case Dispatch(b) => DispatchMoves(x, y, past, b, grp);
    case _ => OwnMoves(x, y, past, step, grp);
  }

  // ---- Over every run ----

  /** A step keeps that coinciding ids are unhandled. */
  lemma MovesCoincide(x: Side, y: Side, past: Past, step: KeyStep, grp: Group, q: Pair, past': Past)
    requires grp.Valid() && y.seen <= |x.e.sent| && x.seen <= |y.e.sent| && KeysOk(x.k)
    requires Moves(x, y, past, step, grp, PairOf(x, y), q, past') && Coincide(PairOf(x, y))
    requires y.k.xid.Some? ==> y.k.xid.value in past.ids
    ensures Coincide(q)
  {
    var p := PairOf(x, y);
    if Rests(p, q) { RestCoincides(p, q); }
    else if step.Dispatch? && Handling(p, q, step.b, grp) { HandleCoincides(p, q, step.b, grp); }
    else if Waits(y.k, step.xid) { assert Offered(PairOf(y, x), grp); }
  }

  /** What a tie is in a state of the run: the id was drawn, and no switch came of it. */
  ghost predicate TieAt(w: World, xid: int)
    requires w.b.seen <= |w.a.e.sent| && w.a.seen <= |w.b.e.sent|
  {
    Tie(PairOf(w.a, w.b), xid) && xid in w.past.ids && xid !in w.past.done
  }

  lemma MovesTie(x: Side, y: Side, past: Past, step: KeyStep, grp: Group, q: Pair, past': Past, xid: int)
    requires grp.Valid() && y.seen <= |x.e.sent| && x.seen <= |y.e.sent| && KeysOk(x.k)
    requires Moves(x, y, past, step, grp, PairOf(x, y), q, past') && Tie(PairOf(x, y), xid)
    requires xid in past.ids && xid !in past.done
    ensures Tie(q, xid) && xid in past'.ids && xid !in past'.done
  {
    var p := PairOf(x, y);
    if Rests(p, q) { RestKeeps(p, q, xid); }
    else if step.Dispatch? && Handling(p, q, step.b, grp) { HandleKeeps(p, q, xid, step.b, grp); }
    else {
      TieDrawsAnother(x, y, past, step.xid, xid, grp);
      StartKeeps(p, q, xid, step.xid);
    }
  }

  /** An end without an exchange that draws an id cannot draw that of a tie again. */
  lemma TieDrawsAnother(x: Side, y: Side, past: Past, z: int, xid: int, grp: Group)
    requires grp.Valid() && y.seen <= |x.e.sent| && x.seen <= |y.e.sent| && FreshId(x, y, past, z, grp)
    requires x.k.xid.None? && Tie(PairOf(x, y), xid) && xid in past.ids
    ensures z != xid
  {
    assert PairOf(y, x) == Flip(PairOf(x, y));
  }

  lemma JointFacts(x: Side, y: Side, past: Past, grp: Group)
    requires grp.Valid() && Joint(x, y, past, grp)
    ensures Shaped(x, y, past) && Inv(x.e, y.e) && SideOk(x, past) && KeysOk(x.k)
    ensures y.k.xid.Some? ==> y.k.xid.value in past.ids
  {
  }

  /** What a move of the run does to the pair, whichever end moves. */
  lemma AdvancedMoves(w: World, move: KeyMove, grp: Group)
    requires grp.Valid() && WorldInv(w, grp) && Advanced(w, move, grp).Ok?
    ensures var w' := Advanced(w, move, grp).value;
      var (x, y, x') := if move.byA then (w.a, w.b, w'.a) else (w.b, w.a, w'.b);
      && y.seen <= |x.e.sent| && x.seen <= |y.e.sent| && y.seen <= |x'.e.sent| && x'.seen <= |y.e.sent|
      && KeysOk(x.k) && (y.k.xid.Some? ==> y.k.xid.value in w.past.ids)
      && Moves(x, y, w.past, move.step, grp, PairOf(x, y), PairOf(x', y), w'.past)
  {
    if move.byA {
      JointFacts(w.a, w.b, w.past, grp);
      StepMoves(w.a, w.b, w.past, move.step, grp);
    } else {
      JointFlips(w.a, w.b, w.past, grp);
      JointFacts(w.b, w.a, w.past, grp);
      StepMoves(w.b, w.a, w.past, move.step, grp);
    }
  }

  lemma AdvancedCoincides(w: World, move: KeyMove, grp: Group)
    requires grp.Valid() && WorldInv(w, grp) && Advanced(w, move, grp).Ok? && Coincide(PairOf(w.a, w.b))
    ensures var w' := Advanced(w, move, grp).value;
      w'.b.seen <= |w'.a.e.sent| && w'.a.seen <= |w'.b.e.sent| && Coincide(PairOf(w'.a, w'.b))
  {
    AdvancedMoves(w, move, grp);
    var w' := Advanced(w, move, grp).value;
    if move.byA {
      MovesCoincide(w.a, w.b, w.past, move.step, grp, PairOf(w'.a, w.b), w'.past);
    } else {
      MovesCoincide(w.b, w.a, w.past, move.step, grp, PairOf(w'.b, w.a), w'.past);
    }
  }

  lemma {:induction false} RunCoincides(w: World, moves: seq<KeyMove>, grp: Group)
    requires grp.Valid() && WorldInv(w, grp) && Coincide(PairOf(w.a, w.b)) && RunKeys(w, moves, grp).Ok?
    ensures var w' := RunKeys(w, moves, grp).value; WorldInv(w', grp) && Coincide(PairOf(w'.a, w'.b))
    decreases |moves|
  {
    if moves == [] {
    } else {
      AdvancedInv(w, moves[0], grp);
      AdvancedCoincides(w, moves[0], grp);
      RunCoincides(Advanced(w, moves[0], grp).value, moves[1..], grp);
    }
  }

  lemma AdvancedTie(w: World, move: KeyMove, grp: Group, xid: int)
    requires grp.Valid() && WorldInv(w, grp) && Advanced(w, move, grp).Ok? && TieAt(w, xid)
    ensures var w' := Advanced(w, move, grp).value;
      w'.b.seen <= |w'.a.e.sent| && w'.a.seen <= |w'.b.e.sent| && TieAt(w', xid)
  {
    AdvancedMoves(w, move, grp);
    var w' := Advanced(w, move, grp).value;
    if move.byA {
      MovesTie(w.a, w.b, w.past, move.step, grp, PairOf(w'.a, w.b), w'.past, xid);
    } else {
      MovesTie(w.b, w.a, w.past, move.step, grp, PairOf(w'.b, w.a), w'.past, xid);
    }
  }

  lemma {:induction false} RunTie(w: World, moves: seq<KeyMove>, grp: Group, xid: int)
    requires grp.Valid() && WorldInv(w, grp) && TieAt(w, xid) && RunKeys(w, moves, grp).Ok?
    ensures var w' := RunKeys(w, moves, grp).value; WorldInv(w', grp) && TieAt(w', xid)
    decreases |moves|
  {
    if moves == [] {
    } else {
      AdvancedInv(w, moves[0], grp);
      AdvancedTie(w, moves[0], grp, xid);
      RunTie(Advanced(w, moves[0], grp).value, moves[1..], grp, xid);
    }
  }

  /** Both ends ask under one id in some state of a run: that is a tie. */
  lemma TieBegins(w: World, grp: Group, xid: int)
    requires grp.Valid() && WorldInv(w, grp) && Coincide(PairOf(w.a, w.b)) && Waits(w.a.k, xid) && Waits(w.b.k, xid)
    ensures TieAt(w, xid)
  {
    JointFacts(w.a, w.b, w.past, grp);
    assert xid in w.past.done ==> Switching(w.b, w.a);
  }

  // ---- What it means for the slots ----

  /** The peer's request under this id is committed and not yet handled. */
  ghost predicate Unhandled(x: Side, y: Side, xid: int) {
    exists n :: x.seen <= n < |y.e.sent| && IsOffer(y.e.sent[n].action, xid)
  }

  /** Nothing but requests is under way about this id. */
  ghost predicate OnlyRequests(x: Side, y: Side, xid: int) {
    forall n :: x.seen <= n < |y.e.sent| && About(y.e.sent[n].action, xid) ==> y.e.sent[n].action.RequestKey?
  }

  lemma {:induction false} SaidHas(ws: seq<Wrapper>, n: nat)
    requires n < |ws| && IsTalk(ws[n].action)
    ensures ws[n].action in Said(ws)
    decreases n
  {
    if n == 0 {
    } else {
      SaidHas(ws[1..], n - 1);
    }
  }

  lemma TieEnds(x: Side, y: Side, xid: int)
    requires y.seen <= |x.e.sent| && x.seen <= |y.e.sent| && Tie(PairOf(x, y), xid)
    ensures x.k.xid == Some(xid) <==> Unhandled(x, y, xid)
    ensures x.k.xid == Some(xid) ==> x.k.role == Some(Requester)
    ensures OnlyRequests(x, y, xid)
  {
    var said := Said(y.e.sent[x.seen..]);
    if x.k.xid == Some(xid) {
      var i := RekeyLive.SaidMember(y.e.sent[x.seen..], said[0]);
      assert IsOffer(y.e.sent[x.seen + i].action, xid);
    }
    forall n | x.seen <= n < |y.e.sent| && About(y.e.sent[n].action, xid)
      ensures x.k.xid == Some(xid) && y.e.sent[n].action.RequestKey?
    {
      var ws := y.e.sent[x.seen..];
      assert ws[n - x.seen] == y.e.sent[n];
      SaidHas(ws, n - x.seen);
      var k :| 0 <= k < |said| && said[k] == y.e.sent[n].action;
    }
  }

  /** An end that handles the other's request under its own id drops the exchange, and says nothing. */
  lemma DropsOwn(x: Side, y: Side, past: Past, grp: Group, b: nat)
    requires grp.Valid() && Shaped(x, y, past) && KeysOk(x.k) && x.k.xid.Some? && Waits(x.k, x.k.xid.value)
    requires x.e.s.mailbox != [] && IsOffer(x.e.s.mailbox[0].action, x.k.xid.value)
    requires FreshJoin(x.k, x.e.s.mailbox[0].action, b, grp, past.keys)
    ensures StepSide(x, y, past, KeyStep.Dispatch(b), grp) == Ok(Turn(Shifted(x).(k := Clear(x.k)), past))
    ensures Clear(x.k).xid.None? && Clear(x.k).state.Ready?
  {
    assert OnRequest(x.k, x.k.xid.value, x.e.s.mailbox[0].action.gA, b, grp) == Ok(Effect(Clear(x.k), None, true));
  }

  /** Over every run: once two ends ask under one id, neither ever accepts that exchange and no switch comes of it. Each
      end holds it just as long as the other's request is not handled, however far apart the two handlings are, and
      neither says anything more about it. */
  lemma EqualIds(key: Key, moves: seq<KeyMove>, since: seq<KeyMove>, xid: int, grp: Group)
    requires grp.Valid() && RunKeys(Opened(key), moves, grp).Ok?
    requires var w := RunKeys(Opened(key), moves, grp).value;
      Waits(w.a.k, xid) && Waits(w.b.k, xid) && RunKeys(w, since, grp).Ok?
    ensures var w := RunKeys(RunKeys(Opened(key), moves, grp).value, since, grp).value;
      && (w.a.k.xid == Some(xid) <==> Unhandled(w.a, w.b, xid))
        && (w.b.k.xid == Some(xid) <==> Unhandled(w.b, w.a, xid))
      && (w.a.k.xid == Some(xid) ==> w.a.k.role == Some(Requester))
      && (w.b.k.xid == Some(xid) ==> w.b.k.role == Some(Requester))
      && OnlyRequests(w.a, w.b, xid) && OnlyRequests(w.b, w.a, xid) && xid !in w.past.done
  {
    OpenedInv(key, grp);
    RunCoincides(Opened(key), moves, grp);
    var w := RunKeys(Opened(key), moves, grp).value;
    TieBegins(w, grp, xid);
    RunTie(w, since, grp, xid);
    var w' := RunKeys(w, since, grp).value;
    TieEnds(w'.a, w'.b, xid);
    TieEnds(w'.b, w'.a, xid);
  }
}
