/** Runs that end badly, each from the opening: two in which withdrawn content strands a slot, at an end that already
    switched and at one that switches on the rewritten frame itself, and one in which a request handled twice closes
    the chat. */
module RekeyWitness {
  import opened Prelude
  import opened Framing
  import opened Sequence
  import opened Delivery
  import opened Dh
  import opened Rekey
  import opened RekeyPhases
  import opened RekeyRun
  import opened RekeyRewrite
  import opened RekeyRecords
  import opened RekeySpent

  /** A small group in which the runs are played out. */
  function Small(): Group { Group(23, 5, 1) }

  lemma Numbers()
    ensures Small().Valid()
    ensures PowMod(5, 2, 23) == 2 && PowMod(5, 3, 23) == 10 && PowMod(2, 3, 23) == 8 && PowMod(10, 2, 23) == 8
  {
    assert Pow(5, 2) == 25 && Pow(5, 3) == 125 && Pow(2, 3) == 8 && Pow(10, 2) == 100 by {
      assert Pow(5, 1) == 5 && Pow(2, 1) == 2 && Pow(2, 2) == 4 && Pow(10, 1) == 10;
    }
  }

  /** What an end shows: its keys, what it committed under which epochs, and how far it got, with nothing queued. */
  datatype View = View(k: Keys, acts: seq<Action>, epochs: seq<nat>, epoch: nat, seen: nat, inSeq: nat)

  ghost predicate Shows(x: Side, v: View) {
    && x.k == v.k && x.epochs == v.epochs && x.epoch == v.epoch && x.seen == v.seen
    && |x.e.sent| == |v.acts| && (forall i :: 0 <= i < |v.acts| ==> x.e.sent[i].action == v.acts[i])
    && x.e.s.inSeq == v.inSeq && x.e.s.queue == map[]
  }

  function SayView(v: View, action: Action): View {
    v.(acts := v.acts + [action], epochs := v.epochs + [v.epoch])
  }

  function AskView(v: View, xid: int, secret: nat): View
    requires Small().Valid() && BeginExchange(v.k, xid, secret).Ok?
  {
    SayView(v, RequestKey(xid, Publish(Small(), secret))).(k := BeginExchange(v.k, xid, secret).value)
  }

  function CountView(v: View, named: Named): View
    requires OnFrame(v.k, named, false).Ok?
  {
    v.(k := OnFrame(v.k, named, false).value, inSeq := v.inSeq + 1,
       epoch := if named.InPending? then v.epoch + 1 else v.epoch)
  }

  function AnswerView(v: View, action: Action, effect: Effect): View
    requires effect.reply.Some?
  {
    var epoch := if Switches(action, effect) then v.epoch + 1 else v.epoch;
    View(effect.keys, v.acts + [effect.reply.value],
         v.epochs + [if action.CommitKey? && Switches(action, effect) then epoch else v.epoch],
         epoch, v.seen + 1, v.inSeq)
  }

  /** Nothing was withdrawn yet: every retained record is the slot as committed. */
  ghost predicate Unchanged(x: Side) {
    forall n :: n in x.e.s.outbox ==> 0 <= n / 2 < |x.e.sent| && x.e.s.outbox[n].wrapper == x.e.sent[n / 2]
  }

  lemma SayShows(x: Side, v: View, action: Action, key: Key, epoch: nat)
    requires Shows(x, v)
    ensures Shows(x.(e := Sent(x.e, action, key), epochs := x.epochs + [epoch]),
                  SayView(v, action).(epochs := v.epochs + [epoch]))
  {
  }

  /** The next slot arrives: it is counted, and the keys follow the frame's key. */
  lemma ArriveShows(x: Side, y: Side, past: Past, v: View, u: View, w: Wrapper, t: nat)
    requires Small().Valid() && Joint(x, y, past, Small()) && Shows(x, v) && Shows(y, u) && v.inSeq < |u.acts|
    requires Frames(y, v.inSeq, w, t)
    ensures SelectKey(v.k, past.keys[t]).Some? && OnFrame(v.k, SelectKey(v.k, past.keys[t]).value, false).Ok?
    ensures ArrivedAs(x, w, past.keys[t]).Ok?
    ensures Shows(ArrivedAs(x, w, past.keys[t]).value, CountView(v, SelectKey(v.k, past.keys[t]).value))
  {
    FrameArrives(x, y, past, Small(), v.inSeq, w, t);
    var x' := ArrivedAs(x, w, past.keys[t]).value;
    CountedOne(x, x', y, v.inSeq);
  }

  lemma CountedOne(x: Side, x': Side, y: Side, n: nat)
    requires TookSlot(x, x', y, n) && x.e.s.queue == map[] && n == x.e.s.inSeq
    ensures x'.e.s.inSeq == n + 1 && x'.e.s.queue == map[] && !x'.e.s.gapRequested
  {
    assert n + 1 < x'.e.s.inSeq ==> n + 1 in x.e.s.queue;
    assert forall k :: k !in x'.e.s.queue;
    assert x'.e.s.queue == map[];
  }

  // ---- Ordinary steps withdraw nothing ----

  lemma SentUnchanged(x: Side, e: End, action: Action, key: Key)
    requires Unchanged(x) && x.e.s.outSeq == |x.e.sent| && e.s.outbox == x.e.s.outbox && e.sent == x.e.sent
    requires e.s.outSeq == x.e.s.outSeq
    ensures Unchanged(x.(e := Sent(e, action, key)))
  {
    var e' := Sent(e, action, key);
    forall n | n in e'.s.outbox ensures 0 <= n / 2 < |e'.sent| && e'.s.outbox[n].wrapper == e'.sent[n / 2] {
      if n == TransformOut(e.s.outSeq, e.s.outbound) {
        assert n / 2 == |x.e.sent|;
      } else {
        assert n in x.e.s.outbox;
      }
    }
  }

  lemma StepUnchanged(x: Side, y: Side, past: Past, step: KeyStep, grp: Group)
    requires grp.Valid() && Shaped(x, y, past) && Unchanged(x) && x.e.s.outSeq == |x.e.sent|
    requires StepSide(x, y, past, step, grp).Ok?
    ensures Unchanged(StepSide(x, y, past, step, grp).value.x)
  {
    match step
    case Say(action) => SentUnchanged(x, x.e, action, x.k.key);
    case Ask =>
      if x.e.s.resendDue.Some? {
        var span := DueSpan(x.e.s);
        SentUnchanged(x, x.e, Resend(span.first, span.last), x.k.key);
      }
    case Begin(xid, secret) => SentUnchanged(x, x.e, RequestKey(xid, Publish(grp, secret)), x.k.key);
    case Arrival(slot) =>
      if slot < |y.e.sent| && SelectKey(x.k, past.keys[y.epochs[slot]]).Some? {
        ReceiveUnchanged(x.e.s, y.e.sent[slot]);
      }
    case Dispatch(b) =>
      if x.e.s.mailbox != [] && Handle(x.k, x.e.s.mailbox[0].action, b, grp).Ok? {
        var effect := Handle(x.k, x.e.s.mailbox[0].action, b, grp).value;
        if effect.reply.Some? {
          SentUnchanged(x, Shifted(x).e, effect.reply.value, ReplyKey(x.k, effect.reply.value));
        }
      }
  }

  // ---- One event at a time ----

  ghost predicate Showing(x: Writer, y: Writer, past: Past, v: View, u: View) {
    Small().Valid() && Both(x, y, past, Small()) && Shows(x.side, v) && Shows(y.side, u)
  }

  lemma Says(x: Writer, y: Writer, past: Past, v: View, u: View, action: Action)
    requires Showing(x, y, past, v, u) && action.Content?
    ensures var next := EventAt(x, y, past, Ordinary(Say(action)), Small());
      next.Ok? && next.value.1 == past && Shows(next.value.0.side, SayView(v, action))
  {
    SayShows(x.side, v, action, x.side.k.key, x.side.epoch);
  }

  lemma Begins(x: Writer, y: Writer, past: Past, v: View, u: View, xid: int, secret: nat)
    requires Showing(x, y, past, v, u) && MayStart(v.k) && xid !in past.ids
    ensures var next := EventAt(x, y, past, Ordinary(Begin(xid, secret)), Small());
      && BeginExchange(v.k, xid, secret).Ok?
      && next.Ok? && next.value.1 == past.(ids := past.ids + {xid}) && Shows(next.value.0.side, AskView(v, xid, secret))
  {
    BeginKeepsSlots(x.side.k, xid, secret);
    SayShows(x.side, v, RequestKey(xid, Publish(Small(), secret)), x.side.k.key, x.side.epoch);
  }

  lemma Arrives(x: Writer, y: Writer, past: Past, v: View, u: View, named: Named)
    requires Showing(x, y, past, v, u) && v.inSeq < |u.acts|
    requires |u.epochs| == |u.acts| && u.epochs[v.inSeq] < |past.keys|
    requires SelectKey(v.k, past.keys[u.epochs[v.inSeq]]) == Some(named)
    ensures var next := EventAt(x, y, past, Ordinary(Arrival(v.inSeq)), Small());
      && OnFrame(v.k, named, false).Ok?
      && next.Ok? && next.value.1 == past && Shows(next.value.0.side, CountView(v, named))
  {
    OwnFrame(y.side, v.inSeq, past);
    ArriveShows(x.side, y.side, past, v, u, y.side.e.sent[v.inSeq], u.epochs[v.inSeq]);
  }

  lemma OwnFrame(y: Side, n: nat, past: Past)
    requires SideOk(y, past) && n < |y.e.sent|
    ensures Frames(y, n, y.e.sent[n], y.epochs[n])
  {
  }

  lemma Dispatches(x: Writer, y: Writer, past: Past, v: View, u: View, b: nat, effect: Effect)
    requires Showing(x, y, past, v, u) && v.seen < v.inSeq && v.seen < |u.acts| && Exchange(u.acts[v.seen])
    requires FreshJoin(v.k, u.acts[v.seen], b, Small(), past.keys)
    requires Handle(v.k, u.acts[v.seen], b, Small()) == Ok(effect) && effect.reply.Some?
    ensures var next := EventAt(x, y, past, Ordinary(KeyStep.Dispatch(b)), Small());
      && next.Ok? && next.value.1 == Recorded(past, u.acts[v.seen], effect)
      && Shows(next.value.0.side, AnswerView(v, u.acts[v.seen], effect))
  {
    HeadShows(x.side, y.side, past, v, u);
    TookShows(x.side, v, u.acts[v.seen], effect);
  }

  lemma HeadShows(x: Side, y: Side, past: Past, v: View, u: View)
    requires Inv(x.e, y.e) && SideOk(x, past) && Shows(x, v) && Shows(y, u)
    requires v.seen < v.inSeq && v.seen < |u.acts| && Exchange(u.acts[v.seen])
    ensures x.e.s.mailbox != [] && x.e.s.mailbox[0].action == u.acts[v.seen]
  {
    HeadSlot(x, y, past);
  }

  lemma TookShows(x: Side, v: View, action: Action, effect: Effect)
    requires Shows(x, v) && x.e.s.mailbox != [] && effect.reply.Some?
    ensures Shows(Took(x, action, effect), AnswerView(v, action, effect))
  {
    SayShows(Shifted(x), v.(seen := v.seen + 1), effect.reply.value, ReplyKey(x.k, effect.reply.value),
      if action.CommitKey? && Switches(action, effect) then x.epoch + 1 else x.epoch);
  }

  // ---- A run told step by step ----

  /** A run from the opening, and what it leaves each end showing. */
  datatype Story = Story(moves: seq<Turned>, va: View, vb: View, past: Past)

  function Mine(t: Story, byA: bool): View { if byA then t.va else t.vb }

  function Theirs(t: Story, byA: bool): View { if byA then t.vb else t.va }

  function Then(t: Story, byA: bool, step: KeyStep, v: View, past: Past): Story {
    Story(t.moves + [Turned(byA, Ordinary(step))], if byA then v else t.va, if byA then t.vb else v, past)
  }

  ghost function Reached(moves: seq<Turned>): Pairing
    requires Small().Valid() && RunAll(Started(0), moves, Small()).Ok?
  {
    RunAll(Started(0), moves, Small()).value
  }

  ghost predicate Told(t: Story) {
    && Small().Valid() && HarmlessRun(Started(0), t.moves, Small()) && RunAll(Started(0), t.moves, Small()).Ok?
    && Shows(Reached(t.moves).a.side, t.va) && Shows(Reached(t.moves).b.side, t.vb)
    && Unchanged(Reached(t.moves).a.side) && Unchanged(Reached(t.moves).b.side)
    && Reached(t.moves).past == t.past
  }

  lemma Playing(t: Story, byA: bool)
    requires Told(t)
    ensures var w := Reached(t.moves);
      Showing(if byA then w.a else w.b, if byA then w.b else w.a, t.past, Mine(t, byA), Theirs(t, byA))
  {
    OpenedInv(0, Small());
    RunAllInv(Started(0), t.moves, Small());
    var w := Reached(t.moves);
    JointFlips(w.a.side, w.b.side, w.past, Small());
  }

  lemma ToldOn(t: Story, byA: bool, step: KeyStep, v: View, past: Past)
    requires Told(t)
    requires var w := Reached(t.moves);
      var (x, y) := if byA then (w.a, w.b) else (w.b, w.a);
      && WellShaped(x, y, w.past)
      && (var next := EventAt(x, y, w.past, Ordinary(step), Small());
          next.Ok? && Shows(next.value.0.side, v) && next.value.1 == past)
    ensures Told(Then(t, byA, step, v, past))
  {
    var w := Reached(t.moves);
    Playing(t, byA);
    if byA {
      StepUnchanged(w.a.side, w.b.side, w.past, step, Small());
    } else {
      StepUnchanged(w.b.side, w.a.side, w.past, step, Small());
    }
    RunExtends(Started(0), t.moves, Turned(byA, Ordinary(step)), Small());
  }

  lemma TellSay(t: Story, byA: bool, action: Action)
    requires Told(t) && action.Content?
    ensures Told(Then(t, byA, Say(action), SayView(Mine(t, byA), action), t.past))
  {
    var w, v := Reached(t.moves), Mine(t, byA);
    Playing(t, byA);
    Says(if byA then w.a else w.b, if byA then w.b else w.a, t.past, v, Theirs(t, byA), action);
    ToldOn(t, byA, Say(action), SayView(v, action), t.past);
  }

  lemma TellBegin(t: Story, byA: bool, xid: int, secret: nat)
    requires Told(t) && MayStart(Mine(t, byA).k) && xid !in t.past.ids
    ensures BeginExchange(Mine(t, byA).k, xid, secret).Ok?
    ensures Told(Then(t, byA, Begin(xid, secret), AskView(Mine(t, byA), xid, secret),
      t.past.(ids := t.past.ids + {xid})))
  {
    var w, v := Reached(t.moves), Mine(t, byA);
    Playing(t, byA);
    Begins(if byA then w.a else w.b, if byA then w.b else w.a, t.past, v, Theirs(t, byA), xid, secret);
    ToldOn(t, byA, Begin(xid, secret), AskView(v, xid, secret), t.past.(ids := t.past.ids + {xid}));
  }

  /** The next slot's key, as the receiving end holds it. */
  predicate Opens(v: View, u: View, past: Past, named: Named) {
    && v.inSeq < |u.acts| == |u.epochs| && u.epochs[v.inSeq] < |past.keys|
    && SelectKey(v.k, past.keys[u.epochs[v.inSeq]]) == Some(named)
  }

  lemma TellArrival(t: Story, byA: bool, named: Named)
    requires Told(t) && Opens(Mine(t, byA), Theirs(t, byA), t.past, named)
    ensures OnFrame(Mine(t, byA).k, named, false).Ok?
    ensures Told(Then(t, byA, Arrival(Mine(t, byA).inSeq), CountView(Mine(t, byA), named), t.past))
  {
    var w, v := Reached(t.moves), Mine(t, byA);
    Playing(t, byA);
    Arrives(if byA then w.a else w.b, if byA then w.b else w.a, t.past, v, Theirs(t, byA), named);
    ToldOn(t, byA, Arrival(v.inSeq), CountView(v, named), t.past);
  }

  /** The head of the mailbox and what handling it leaves. */
  predicate Answering(v: View, u: View, past: Past, b: nat, action: Action, effect: Effect) {
    && v.seen < v.inSeq && v.seen < |u.acts| && u.acts[v.seen] == action && Exchange(action) && Small().Valid()
    && FreshJoin(v.k, action, b, Small(), past.keys)
    && Handle(v.k, action, b, Small()) == Ok(effect) && effect.reply.Some?
  }

  lemma TellDispatch(t: Story, byA: bool, b: nat, action: Action, effect: Effect)
    requires Told(t) && Answering(Mine(t, byA), Theirs(t, byA), t.past, b, action, effect)
    ensures Told(Then(t, byA, KeyStep.Dispatch(b), AnswerView(Mine(t, byA), action, effect),
      Recorded(t.past, action, effect)))
  {
    var w, v := Reached(t.moves), Mine(t, byA);
    Playing(t, byA);
    Dispatches(if byA then w.a else w.b, if byA then w.b else w.a, t.past, v, Theirs(t, byA), b, effect);
    ToldOn(t, byA, KeyStep.Dispatch(b), AnswerView(v, action, effect), Recorded(t.past, action, effect));
  }

  // ---- The loss ----

  /** The receiving end can read everything outstanding, and a withdrawn frame of slot `slot` under epoch `epoch`
      was written; once it arrives, some outstanding slot can no longer be read. */
  ghost predicate Loses(w: Pairing, byA: bool, slot: nat, epoch: nat) {
    var (x, y) := if byA then (w.a, w.b) else (w.b, w.a);
    && Small().Valid() && WellShaped(x, y, w.past) && (slot, epoch) in y.rewrites
    && Openable(x.side, y.side, w.past)
    && EventAt(x, y, w.past, Rewritten(slot, epoch), Small()).Ok?
    && !Openable(EventAt(x, y, w.past, Rewritten(slot, epoch), Small()).value.0.side, y.side, w.past)
  }

  lemma LosesAt(x: Writer, y: Writer, past: Past, v: View, u: View, slot: nat, m: nat)
    requires Showing(x, y, past, v, u) && (slot, y.side.epoch) in y.rewrites
    requires slot == v.inSeq && slot < m < |u.acts| && |u.epochs| == |u.acts| && u.epochs[m] < u.epoch
    ensures WellShaped(x, y, past) && Openable(x.side, y.side, past)
    ensures EventAt(x, y, past, Rewritten(slot, y.side.epoch), Small()).Ok?
    ensures !Openable(EventAt(x, y, past, Rewritten(slot, y.side.epoch), Small()).value.0.side, y.side, past)
  {
    RewrittenFrame(y, slot, y.side.epoch);
    NothingStranded(x.side, y.side, past, Small());
    RewrittenNow(x.side, y.side, past, Small(), slot, FrameOf(y.side.e.sent[slot], true), y.side.epoch);
    assert !HoleStays(x.side, slot);
    assert !NoneOlder(x.side, y.side, slot, y.side.epoch);
  }

  /** Content that the peer has not counted is retained, so withdrawing it rewrites its slot. */
  lemma RewritesSlot(x: Writer, y: Writer, past: Past, v: View, u: View, slot: nat, id: int)
    requires Showing(x, y, past, v, u) && Unchanged(x.side)
    requires slot < |v.acts| && v.acts[slot] == Content(id) && u.inSeq <= slot
    ensures (slot, x.side.epoch) in Rewrites(x, {id}).rewrites
    ensures Shows(Rewrites(x, {id}).side, v)
  {
    var e := x.side.e;
    assert e.s.peerIn <= u.inSeq by {
      if e.s.inSeq > 0 { assert SlotOk(y.side.e, e.s.inSeq - 1); }
    }
    assert TransformOut(slot, e.s.outbound) in e.s.outbox && TransformOut(slot, e.s.outbound) / 2 == slot;
    assert Withdraws(x.side, slot, {id});
  }

  /** The next slot an end expects was withdrawn after the peer switched, and a later slot is under the old key. */
  lemma Stranded(t: Story, byA: bool, slot: nat, id: int, m: nat)
    requires Told(t) && slot == Mine(t, byA).inSeq && slot < m < |Theirs(t, byA).acts| == |Theirs(t, byA).epochs|
    requires Theirs(t, byA).acts[slot] == Content(id) && Theirs(t, byA).epochs[m] < Theirs(t, byA).epoch
    ensures var moves := t.moves + [Turned(!byA, Rewrite({id}))];
      && HarmlessRun(Started(0), moves, Small()) && RunAll(Started(0), moves, Small()).Ok?
      && Loses(RunAll(Started(0), moves, Small()).value, byA, slot, Theirs(t, byA).epoch)
  {
    var w := Reached(t.moves);
    var (x, y) := if byA then (w.a, w.b) else (w.b, w.a);
    Playing(t, byA);
    RunExtends(Started(0), t.moves, Turned(!byA, Rewrite({id})), Small());
    StrandedHere(x, y, t.past, Mine(t, byA), Theirs(t, byA), slot, id, m);
    Withdrawing(w, byA, id);
  }

  /** What the withdrawing move leaves. */
  lemma Withdrawing(w: Pairing, byA: bool, id: int)
    requires Small().Valid() && Shaped(w.b.side, w.a.side, w.past) && Shaped(w.a.side, w.b.side, w.past)
    requires RewritesOk(w.a) && RewritesOk(w.b) && w.a.side.epoch < |w.past.keys| && w.b.side.epoch < |w.past.keys|
    ensures Next(w, Turned(!byA, Rewrite({id})), Small())
         == Ok(if byA then w.(b := Rewrites(w.b, {id})) else w.(a := Rewrites(w.a, {id})))
  {
  }

  lemma StrandedHere(x: Writer, y: Writer, past: Past, v: View, u: View, slot: nat, id: int, m: nat)
    requires Showing(x, y, past, v, u) && Unchanged(y.side)
    requires slot == v.inSeq && slot < m < |u.acts| == |u.epochs| && u.acts[slot] == Content(id)
      && u.epochs[m] < u.epoch
    ensures var y' := Rewrites(y, {id});
      && WellShaped(x, y', past) && (slot, u.epoch) in y'.rewrites && Openable(x.side, y'.side, past)
      && EventAt(x, y', past, Rewritten(slot, u.epoch), Small()).Ok?
      && !Openable(EventAt(x, y', past, Rewritten(slot, u.epoch), Small()).value.0.side, y'.side, past)
  {
    RewriteKeepsBoth(x, y, past, {id});
    ShowingFlips(x, y, past, v, u);
    RewritesSlot(y, x, past, u, v, slot, id);
    LosesAt(x, Rewrites(y, {id}), past, v, u, slot, m);
  }

  lemma ShowingFlips(x: Writer, y: Writer, past: Past, v: View, u: View)
    requires Showing(x, y, past, v, u)
    ensures Showing(y, x, past, u, v)
  {
    JointFlips(x.side, y.side, past, Small());
  }

  lemma RewriteKeepsBoth(x: Writer, y: Writer, past: Past, ids: set<int>)
    requires Small().Valid() && Both(x, y, past, Small())
    ensures Both(x, Rewrites(y, ids), past, Small())
  {
    JointFlips(x.side, y.side, past, Small());
    RewriteKeeps(y, x, past, Small(), ids);
    JointFlips(Rewrites(y, ids).side, x.side, past, Small());
  }

  // ---- The two runs ----

  /** A asks with secret 2, B joins with secret 3: the public values are 2 and 10, the derived key 8. */
  function AskedKeys(): Keys {
    Established(0).(state := Rekeying, xid := Some(1), secret := Some(2), role := Some(Requester))
  }

  function JoinedKeys(): Keys {
    Established(0).(state := Rekeying, xid := Some(1), pending := Some(8), role := Some(Acceptor))
  }

  function SwitchedKeys(): Keys { Established(8).(previous := Some(0)) }

  function JoinEffect(): Effect { Effect(JoinedKeys(), Some(AcceptKey(1, 10, 8)), true) }

  function SwitchEffect(): Effect { Effect(SwitchedKeys(), Some(CommitKey(1, 8)), true) }

  lemma Handles()
    ensures Small().Valid() && PowMod(2, 3, 23) == 8 && Publish(Small(), 2) == 2
    ensures Handle(Established(0), RequestKey(1, 2), 3, Small()) == Ok(JoinEffect())
    ensures Handle(AskedKeys(), AcceptKey(1, 10, 8), 0, Small()) == Ok(SwitchEffect())
  {
    Numbers();
  }

  lemma Opening() returns (t: Story)
    ensures Told(t) && t == Story([], View(Established(0), [], [], 0, 0, 0), View(Established(0), [], [], 0, 0, 0),
                                  Past([0], {}, {}))
  {
    t := Story([], View(Established(0), [], [], 0, 0, 0), View(Established(0), [], [], 0, 0, 0), Past([0], {}, {}));
  }

  /** A asks, and says what it says next. */
  lemma AskingStory(said: seq<Action>) returns (t: Story)
    requires forall a :: a in said ==> a.Content?
    ensures Told(t) && t.past == Past([0], {1}, {})
    ensures t.va == View(AskedKeys(), [RequestKey(1, 2)] + said, seq(|said| + 1, _ => 0), 0, 0, 0)
    ensures t.vb == View(Established(0), [], [], 0, 0, 0)
    decreases |said|
  {
    Handles();
    if said == [] {
      var t0 := Opening();
      TellBegin(t0, true, 1, 2);
      t := Then(t0, true, Begin(1, 2), AskView(t0.va, 1, 2), t0.past.(ids := t0.past.ids + {1}));
    } else {
      var last := said[|said| - 1];
      var t0 := AskingStory(said[..|said| - 1]);
      TellSay(t0, true, last);
      t := Then(t0, true, Say(last), SayView(t0.va, last), t0.past);
      assert t.va.acts == [RequestKey(1, 2)] + said;
    }
  }

  /** B joins. */
  lemma JoinStory(saidA: seq<Action>) returns (t: Story)
    requires forall a :: a in saidA ==> a.Content?
    ensures Told(t) && t.past == Past([0], {1}, {})
    ensures t.va == View(AskedKeys(), [RequestKey(1, 2)] + saidA, seq(|saidA| + 1, _ => 0), 0, 0, 0)
    ensures t.vb == View(JoinedKeys(), [AcceptKey(1, 10, 8)], [0], 0, 1, 1)
  {
    var t0 := AskingStory(saidA);
    TellArrival(t0, false, Current);
    var t1 := Then(t0, false, Arrival(0), CountView(t0.vb, Current), t0.past);
    Handles();
    TellDispatch(t1, false, 3, RequestKey(1, 2), JoinEffect());
    t := Then(t1, false, KeyStep.Dispatch(3), AnswerView(t1.vb, RequestKey(1, 2), JoinEffect()),
              Recorded(t1.past, RequestKey(1, 2), JoinEffect()));
  }

  /** B joins, and says what it says next. */
  lemma JoiningStory(saidA: seq<Action>, saidB: seq<Action>) returns (t: Story)
    requires (forall a :: a in saidA ==> a.Content?) && (forall a :: a in saidB ==> a.Content?)
    ensures Told(t) && t.past == Past([0], {1}, {})
    ensures t.va == View(AskedKeys(), [RequestKey(1, 2)] + saidA, seq(|saidA| + 1, _ => 0), 0, 0, 0)
    ensures t.vb == View(JoinedKeys(), [AcceptKey(1, 10, 8)] + saidB, seq(|saidB| + 1, _ => 0), 0, 1, 1)
    decreases |saidB|
  {
    if saidB == [] {
      t := JoinStory(saidA);
    } else {
      var last := saidB[|saidB| - 1];
      var t0 := JoiningStory(saidA, saidB[..|saidB| - 1]);
      TellSay(t0, false, last);
      t := Then(t0, false, Say(last), SayView(t0.vb, last), t0.past);
      assert t.vb.acts == [AcceptKey(1, 10, 8)] + saidB;
    }
  }

  /** A derives the key, commits and switches. */
  lemma SwitchingStory(saidA: seq<Action>, saidB: seq<Action>) returns (t: Story)
    requires (forall a :: a in saidA ==> a.Content?) && (forall a :: a in saidB ==> a.Content?)
    ensures Told(t) && t.past == Past([0, 8], {1}, {1})
    ensures t.va
      == View(SwitchedKeys(), [RequestKey(1, 2)] + saidA + [CommitKey(1, 8)], seq(|saidA| + 2, _ => 0), 1, 1, 1)
    ensures t.vb == View(JoinedKeys(), [AcceptKey(1, 10, 8)] + saidB, seq(|saidB| + 1, _ => 0), 0, 1, 1)
  {
    var t0 := JoiningStory(saidA, saidB);
    TellArrival(t0, true, Current);
    var t1 := Then(t0, true, Arrival(0), CountView(t0.va, Current), t0.past);
    Handles();
    TellDispatch(t1, true, 0, AcceptKey(1, 10, 8), SwitchEffect());
    t := Then(t1, true, KeyStep.Dispatch(0), AnswerView(t1.va, AcceptKey(1, 10, 8), SwitchEffect()),
              Recorded(t1.past, AcceptKey(1, 10, 8), SwitchEffect()));
  }

  /** The acceptor still has to switch. The requester has, and withdraws a slot it committed before: the rewritten
      frame switches the acceptor with no hole open, and a later slot under the old key is lost. */
  lemma BeforeTheSwitch() returns (moves: seq<Turned>)
    ensures Small().Valid() && HarmlessRun(Started(0), moves, Small()) && RunAll(Started(0), moves, Small()).Ok?
    ensures Loses(RunAll(Started(0), moves, Small()).value, false, 1, 1)
  {
    var t := SwitchingStory([Content(7), Content(8)], []);
    Stranded(t, false, 1, 7, 2);
    moves := t.moves + [Turned(true, Rewrite({7}))];
  }

  /** B takes the commitment, switches and answers under the new key. */
  lemma CommittingStory(saidB: seq<Action>) returns (t: Story)
    requires forall a :: a in saidB ==> a.Content?
    ensures Told(t) && t.va == View(SwitchedKeys(), [RequestKey(1, 2), CommitKey(1, 8)], [0, 0], 1, 1, 1)
    ensures t.vb.acts == [AcceptKey(1, 10, 8)] + saidB + [Noop]
    ensures t.vb.epochs == seq(|saidB| + 1, _ => 0) + [1] && t.vb.epoch == 1
  {
    var t0 := SwitchingStory([], saidB);
    assert t0.va.acts == [RequestKey(1, 2), CommitKey(1, 8)] && t0.va.epochs == [0, 0];
    TellArrival(t0, false, Current);
    var t1 := Then(t0, false, Arrival(1), CountView(t0.vb, Current), t0.past);
    var effect := Adopted(JoinedKeys());
    TellDispatch(t1, false, 0, CommitKey(1, 8), effect);
    t := Then(t1, false, KeyStep.Dispatch(0), AnswerView(t1.vb, CommitKey(1, 8), effect),
              Recorded(t1.past, CommitKey(1, 8), effect));
  }

  /** The requester has switched, holds its old key and awaits a first frame under the new one. The acceptor has
      switched too and withdraws an old slot: the rewritten frame confirms the new key with no hole open, and a
      later slot under the old key is lost. */
  lemma AfterTheSwitch() returns (moves: seq<Turned>)
    ensures Small().Valid() && HarmlessRun(Started(0), moves, Small()) && RunAll(Started(0), moves, Small()).Ok?
    ensures Loses(RunAll(Started(0), moves, Small()).value, true, 1, 1)
  {
    var t := CommittingStory([Content(7), Content(8)]);
    Stranded(t, true, 1, 7, 2);
    moves := t.moves + [Turned(false, Rewrite({7}))];
  }

  // ---- A request handled twice ----

  /** The acceptor has switched on a frame under the new key, and its old key is gone; the commitment waits at the head
      of its mailbox. */
  lemma CommitmentWaiting() returns (t: Story)
    ensures Told(t) && t.past == Past([0, 8], {1}, {1})
    ensures t.va.acts == [RequestKey(1, 2), CommitKey(1, 8), Content(7)] && t.va.epochs == [0, 0, 1]
    ensures t.vb == View(Established(8).(confirmed := true), [AcceptKey(1, 10, 8)], [0], 1, 1, 3)
  {
    var t0 := SwitchingStory([], []);
    TellSay(t0, true, Content(7));
    var t1 := Then(t0, true, Say(Content(7)), SayView(t0.va, Content(7)), t0.past);
    TellArrival(t1, false, Current);
    var t2 := Then(t1, false, Arrival(1), CountView(t1.vb, Current), t1.past);
    TellArrival(t2, false, InPending);
    t := Then(t2, false, Arrival(2), CountView(t2.vb, InPending), t2.past);
  }

  /** The acceptor of a run: slot 0, the request, was handled and its exchange is over; the commitment is next. With a
      copy of the request still there, because its removal was a commit of its own that never came, the request opens
      the exchange again, under another key, and the commitment then fails and closes the chat. Without the copy the
      commitment is harmless. */
  ghost predicate ClosesOnCopy(x: Side, y: Side) {
    && Small().Valid() && x.seen == 1 && |y.e.sent| > 1 && x.e.s.mailbox != []
    && y.e.sent[0].action == RequestKey(1, 2) && x.e.s.mailbox[0].action == CommitKey(1, 8)
    && Handle(x.k, x.e.s.mailbox[0].action, 0, Small()) == Ok(Effect(x.k, None, false))
    && HandledAgain(x, y.e.sent[0].action, 4, Small()).Ok?
    && Handle(HandledAgain(x, y.e.sent[0].action, 4, Small()).value.k, x.e.s.mailbox[0].action, 0, Small()).Err?
  }

  lemma RedeliveryCloses() returns (moves: seq<Turned>)
    ensures Small().Valid() && HarmlessRun(Started(0), moves, Small()) && RunAll(Started(0), moves, Small()).Ok?
    ensures var w := RunAll(Started(0), moves, Small()).value; ClosesOnCopy(w.b.side, w.a.side)
  {
    var t := CommitmentWaiting();
    moves := t.moves;
    var w := Reached(moves);
    Playing(t, false);
    HeadShows(w.b.side, w.a.side, t.past, t.vb, t.va);
    CopyCloses(w.b.side, w.a.side);
  }

  lemma CopyCloses(x: Side, y: Side)
    requires x.k == Established(8).(confirmed := true) && x.seen == 1 && |y.e.sent| > 1 && x.e.s.mailbox != []
    requires y.e.sent[0].action == RequestKey(1, 2) && x.e.s.mailbox[0].action == CommitKey(1, 8)
    ensures ClosesOnCopy(x, y)
  {
    OtherKey();
    assert OnRequest(x.k, 1, 2, 4, Small()) == Join(x.k, 1, 2, 4, Small());
    assert HandledAgain(x, y.e.sent[0].action, 4, Small()).value.k.pending == Some(16);
  }

  lemma OtherKey()
    ensures Small().Valid() && PowMod(2, 4, 23) == 16
  {
    assert Pow(2, 2) == 4 && Pow(2, 4) == 2 * Pow(2, 3) == 16;
  }
}
