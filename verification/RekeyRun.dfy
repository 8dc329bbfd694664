/** Two ends exchanging slots and rekeying as they go: every unaccepted frame stays readable. */
module RekeyRun {
  import opened Prelude
  import opened Framing
  import opened Sequence
  import opened Delivery
  import opened Dh
  import opened Rekey
  import opened RekeyPhases

  /** One end with its keys. `epochs[n]` says how many switches preceded the key that slot `n` is under;
      `seen` counts the accepted slots whose effects are committed. */
  datatype Side = Side(e: End, k: Keys, epochs: seq<nat>, epoch: nat, seen: nat)

  /** What both ends and the random draws share: every key ever current, every exchange id ever drawn, and
      the ids that ended in a switch. */
  datatype Past = Past(keys: seq<Key>, ids: set<int>, done: set<int>)

  function Said(ws: seq<Wrapper>): seq<Action> {
    if ws == [] then []
    else (if IsTalk(ws[0].action) then [ws[0].action] else []) + Said(ws[1..])
  }

  function PairOf(x: Side, y: Side): Pair
    requires y.seen <= |x.e.sent| && x.seen <= |y.e.sent|
  {
    Pair(x.k, y.k, Said(x.e.sent[y.seen..]), Said(y.e.sent[x.seen..]), x.epoch, y.epoch)
  }

  // ---- The invariant ----

  ghost predicate SideOk(x: Side, past: Past) {
    && |x.epochs| == |x.e.sent|
    && (forall m, n :: 0 <= m <= n < |x.epochs| ==> x.epochs[m] <= x.epochs[n])
    && (forall n :: 0 <= n < |x.epochs| ==> x.epochs[n] <= x.epoch)
    && x.epoch < |past.keys| && x.k.key == past.keys[x.epoch]
    && (x.k.previous.Some? ==> x.epoch >= 1 && x.k.previous.value == past.keys[x.epoch - 1])
    && x.seen + |x.e.s.mailbox| == |x.e.got|
    && (x.k.xid.Some? ==> x.k.xid.value in past.ids)
  }

  /** Slot `n` of y is behind x's current key. */
  predicate Behind(x: Side, y: Side, n: int)
    requires |y.epochs| == |y.e.sent|
  {
    x.e.s.inSeq <= n < |y.e.sent| && y.epochs[n] < x.epoch
  }

  /** What x can still be sent by y: nothing older than the previous key, nothing older than the current one
      once the previous key is gone, and once the new key is confirmed, only slots queued or below a queued one. */
  ghost predicate Readable(x: Side, y: Side)
    requires |y.epochs| == |y.e.sent|
  {
    && x.epoch <= y.epoch + 1
    && (y.epoch < x.epoch ==> x.k.previous.Some? && !x.k.confirmed)
    && (forall n :: x.e.s.inSeq <= n < |y.e.sent| ==> x.epoch <= y.epochs[n] + 1)
    && (forall n :: Behind(x, y, n) ==> x.k.previous.Some?)
    && (x.k.previous.Some? && x.k.confirmed ==>
          forall n :: Behind(x, y, n) && n !in x.e.s.queue ==> exists q :: q in x.e.s.queue && n < q)
  }

  ghost predicate Switching(y: Side, x: Side)
    requires y.seen <= |x.e.sent| && x.seen <= |y.e.sent|
  {
    Committed(PairOf(y, x))
  }

  /** y's unhandled commitment in slot `n`: its exchange is over, unless x is the one still to switch. */
  ghost predicate CommitmentOk(x: Side, y: Side, past: Past, n: int)
    requires y.seen <= |x.e.sent| && x.seen <= n < |y.e.sent| && |y.epochs| == |y.e.sent|
  {
    y.e.sent[n].action.CommitKey? ==>
      && y.e.sent[n].action.xid in past.done
      && (x.k.xid == Some(y.e.sent[n].action.xid) ==>
            && Switching(y, x) && y.e.sent[n].action.claimed == y.k.key
            && forall m :: n < m < |y.e.sent| ==> y.epochs[m] == y.epoch)
  }

  ghost predicate Commitments(x: Side, y: Side, past: Past)
    requires y.seen <= |x.e.sent| && x.seen <= |y.e.sent| && |y.epochs| == |y.e.sent|
  {
    && (forall n :: x.seen <= n < |y.e.sent| ==> CommitmentOk(x, y, past, n))
    && (x.k.xid.Some? && x.k.xid.value in past.done ==> Switching(y, x))
  }

  ghost predicate Distinct(keys: seq<Key>) {
    forall i, j :: 0 <= i < j < |keys| ==> keys[i] != keys[j]
  }

  ghost predicate Shared(x: Side, y: Side, past: Past) {
    Distinct(past.keys) && past.done <= past.ids && |past.keys| == Max(x.epoch, y.epoch) + 1
  }

  ghost predicate Joint(x: Side, y: Side, past: Past, grp: Group)
    requires grp.Valid()
  {
    && Inv(x.e, y.e)
    && SideOk(x, past) && SideOk(y, past) && Shared(x, y, past)
    && y.seen <= |x.e.sent| && x.seen <= |y.e.sent|
    && Talk(PairOf(x, y), grp, past.keys)
    && Readable(x, y) && Readable(y, x)
    && Commitments(x, y, past) && Commitments(y, x, past)
  }

  // ---- Steps of one end ----

  datatype Turn = Turn(x: Side, past: Past)

  datatype KeyStep =
    | Say(action: Action)
    | Ask
    | Begin(xid: int, secret: nat)
    | Arrival(slot: nat)
    | Dispatch(b: nat)

  /** A slot committed under the current key. */
  function Wrote(x: Side, action: Action): Side {
    x.(e := Sent(x.e, action, x.k.key), epochs := x.epochs + [x.epoch])
  }

  function AskedDue(x: Side): Side {
    var e := Requested(x.e, x.k.key);
    x.(e := e, epochs := if |e.sent| > |x.e.sent| then x.epochs + [x.epoch] else x.epochs)
  }

  /** Ids are random: never drawn before, except by coincidence in a request not yet seen. */
  predicate FreshId(x: Side, y: Side, past: Past, xid: int, grp: Group)
    requires grp.Valid() && y.seen <= |x.e.sent| && x.seen <= |y.e.sent|
  {
    xid !in past.ids || (Offered(PairOf(y, x), grp) && y.k.xid == Some(xid))
  }

  function Shifted(x: Side): Side
    requires x.e.s.mailbox != []
  {
    x.(e := End(Deliver(x.e.s), x.e.sent, x.e.got), seen := x.seen + 1)
  }

  predicate Switches(action: Action, effect: Effect) {
    effect.applied && (action.AcceptKey? || action.CommitKey?)
  }

  /** The effect, its reply and the mailbox removal, in one commit. */
  function Took(x: Side, action: Action, effect: Effect): Side
    requires x.e.s.mailbox != []
  {
    var popped := Shifted(x);
    var epoch := if Switches(action, effect) then x.epoch + 1 else x.epoch;
    if effect.reply.None? then popped.(k := effect.keys, epoch := epoch)
    else
      popped.(
        e := Sent(popped.e, effect.reply.value, ReplyKey(x.k, effect.reply.value)),
        epochs := x.epochs + [if action.CommitKey? && Switches(action, effect) then epoch else x.epoch],
        k := effect.keys,
        epoch := epoch)
  }

  function Recorded(past: Past, action: Action, effect: Effect): Past {
    if Switches(action, effect) && action.AcceptKey?
    then past.(keys := past.keys + [effect.keys.key], done := past.done + {action.xid})
    else past
  }

  /** Receiving a frame: dropped when no held key opens it, otherwise one receive commit. */
  ghost function ArrivedAs(x: Side, w: Wrapper, key: Key): Result<Side> {
    var named := SelectKey(x.k, key);
    if named.None? then Ok(x)
    else
      var got :- Receive(x.e.s, w);
      if !got.isNew then Ok(x)
      else
        var k :- OnFrame(x.k, named.value, got.state.gapRequested);
        Ok(x.(e := End(got.state, x.e.sent, x.e.got + got.ready), k := k,
              epoch := if named.value.InPending? then x.epoch + 1 else x.epoch))
  }

  ghost function StepSide(x: Side, y: Side, past: Past, step: KeyStep, grp: Group): Result<Turn>
    requires grp.Valid() && y.seen <= |x.e.sent| && x.seen <= |y.e.sent|
    requires |y.epochs| == |y.e.sent| && forall n :: 0 <= n < |y.epochs| ==> y.epochs[n] < |past.keys|
  {
    match step
    case Say(action) =>
      Ok(Turn(if IsTalk(action) || action.CommitKey? || action.Resend? then x else Wrote(x, action), past))
    case Ask => Ok(Turn(AskedDue(x), past))
    case Begin(xid, secret) =>
      if !MayStart(x.k) || !FreshId(x, y, past, xid, grp) then Ok(Turn(x, past))
      else
        var k :- BeginExchange(x.k, xid, secret);
        Ok(Turn(Wrote(x, RequestKey(xid, Publish(grp, secret))).(k := k), past.(ids := past.ids + {xid})))
    case Arrival(slot) =>
      if slot >= |y.e.sent| then Ok(Turn(x, past))
      else
        var x' :- ArrivedAs(x, y.e.sent[slot], past.keys[y.epochs[slot]]);
        Ok(Turn(x', past))
    case Dispatch(b) =>
      if x.e.s.mailbox == [] then Ok(Turn(x, past))
      else
        var action := x.e.s.mailbox[0].action;
        if !FreshJoin(x.k, action, b, grp, past.keys) then Ok(Turn(x, past))
        else
          var effect :- Handle(x.k, action, b, grp);
          Ok(Turn(Took(x, action, effect), Recorded(past, action, effect)))
  }

  // ---- Streams ----

  lemma {:induction false} SaidAppend(s: seq<Wrapper>, t: seq<Wrapper>)
    ensures Said(s + t) == Said(s) + Said(t)
  {
    if s == [] {
      assert s + t == t;
    } else {
      assert (s + t)[0] == s[0] && (s + t)[1..] == s[1..] + t;
      SaidAppend(s[1..], t);
      Regroup(if IsTalk(s[0].action) then [s[0].action] else [], Said(s[1..]), Said(t));
    }
  }

  lemma Regroup(a: seq<Action>, b: seq<Action>, c: seq<Action>)
    ensures a + (b + c) == (a + b) + c
  {
  }

  lemma SaidOne(sent: seq<Wrapper>, seen: nat, w: Wrapper)
    requires seen <= |sent|
    ensures Said((sent + [w])[seen..]) == Said(sent[seen..]) + (if IsTalk(w.action) then [w.action] else [])
  {
    assert (sent + [w])[seen..] == sent[seen..] + [w];
    SaidAppend(sent[seen..], [w]);
  }

  lemma SaidHead(sent: seq<Wrapper>, seen: nat)
    requires seen < |sent|
    ensures Said(sent[seen..])
      == (if IsTalk(sent[seen].action) then [sent[seen].action] else []) + Said(sent[seen + 1..])
  {
    assert sent[seen..][1..] == sent[seen + 1..];
  }

  // ---- Writing a slot ----

  /** A slot of x tagged with epoch `t` leaves y able to read everything x may still deliver. */
  lemma ReadableExtended(y: Side, x: Side, x': Side, t: nat)
    requires |x.epochs| == |x.e.sent| && |x'.epochs| == |x'.e.sent| && |x'.e.sent| == |x.e.sent| + 1
    requires x'.epochs == x.epochs + [t] && x.epoch <= x'.epoch
    requires Readable(y, x) && y.epoch <= t + 1
    requires t < y.epoch ==> y.k.previous.Some? && !y.k.confirmed
    ensures Readable(y, x')
  {
    forall n | Behind(y, x', n) && n !in y.e.s.queue && y.k.previous.Some? && y.k.confirmed
      ensures exists q :: q in y.e.s.queue && n < q
    {
      assert n < |x.e.sent|;
      assert Behind(y, x, n);
    }
    forall n | Behind(y, x', n) ensures y.k.previous.Some? {
      if n < |x.e.sent| { assert Behind(y, x, n); }
    }
  }

  /** x's own view does not depend on what x sends. */
  lemma ReadableKept(x: Side, x': Side, y: Side)
    requires |y.epochs| == |y.e.sent|
    requires x'.e.s.inSeq == x.e.s.inSeq && x'.e.s.queue == x.e.s.queue && x'.epoch == x.epoch
    requires x'.k.previous == x.k.previous && x'.k.confirmed == x.k.confirmed
    requires Readable(x, y)
    ensures Readable(x', y)
  {
    forall n | Behind(x', y, n) ensures Behind(x, y, n) {}
    assert forall n :: Behind(x', y, n) ==> Behind(x, y, n);
  }

  lemma CommitmentsExtended(y: Side, x: Side, x': Side, past: Past, past': Past)
    requires y.seen <= |x.e.sent| && x.seen <= |y.e.sent| && |x.epochs| == |x.e.sent|
    requires |x'.e.sent| == |x.e.sent| + 1 && x.e.sent == x'.e.sent[..|x.e.sent|] && x'.seen == x.seen
    requires x'.epochs == x.epochs + [x'.epoch] && x'.epoch == x.epoch && !x'.e.sent[|x.e.sent|].action.CommitKey?
    requires Commitments(y, x, past) && past'.done == past.done && x'.k.key == x.k.key
    requires Switching(x, y) ==> Switching(x', y)
    ensures Commitments(y, x', past')
  {
    forall n | y.seen <= n < |x'.e.sent| ensures CommitmentOk(y, x', past', n) {
      if n < |x.e.sent| { assert CommitmentOk(y, x, past, n); }
    }
  }

  lemma SideExtended(x: Side, x': Side, past: Past, past': Past)
    requires SideOk(x, past) && |x'.e.sent| == |x.e.sent| + 1
    requires x'.epochs == x.epochs + [x.epoch] && x'.epoch == x.epoch && x'.seen == x.seen
    requires x'.e.s.mailbox == x.e.s.mailbox && x'.e.got == x.e.got
    requires past'.keys == past.keys && past.ids <= past'.ids
    requires x'.k.key == x.k.key && x'.k.previous == x.k.previous
    requires x'.k.xid == x.k.xid || (x'.k.xid.Some? && x'.k.xid.value in past'.ids)
    ensures SideOk(x', past')
  {
  }

  /** A peer keeps its own facts when only the drawn ids grow. */
  lemma SideKept(y: Side, past: Past, past': Past)
    requires SideOk(y, past) && past.keys <= past'.keys && past.ids <= past'.ids
    ensures SideOk(y, past')
  {
  }

  lemma SayJoint(x: Side, y: Side, past: Past, grp: Group, action: Action)
    requires grp.Valid() && Joint(x, y, past, grp)
    requires !IsTalk(action) && !action.CommitKey? && !action.Resend?
    ensures Joint(Wrote(x, action), y, past, grp)
  {
    var x' := Wrote(x, action);
    SendHonest(x.e, y.e, action, x.k.key);
    WroteJoint(x, x', y, past, grp);
  }

  /** Any ordinary slot: nothing about the exchange moves. */
  lemma WroteJoint(x: Side, x': Side, y: Side, past: Past, grp: Group)
    requires grp.Valid() && Joint(x, y, past, grp) && Inv(x'.e, y.e)
    requires |x'.e.sent| == |x.e.sent| + 1 && x'.e.sent == x.e.sent + [x'.e.sent[|x.e.sent|]]
    requires var action := x'.e.sent[|x.e.sent|].action; !IsTalk(action) && !action.CommitKey?
    requires x' == x.(e := x'.e, epochs := x.epochs + [x.epoch])
    requires x'.e.s.mailbox == x.e.s.mailbox && x'.e.got == x.e.got
    requires x'.e.s.inSeq == x.e.s.inSeq && x'.e.s.queue == x.e.s.queue
    ensures Joint(x', y, past, grp)
  {
    SaidOne(x.e.sent, y.seen, x'.e.sent[|x.e.sent|]);
    assert PairOf(x', y) == PairOf(x, y) && PairOf(y, x') == PairOf(y, x);
    SideExtended(x, x', past, past);
    ReadableKept(x, x', y);
    ReadableExtended(y, x, x', x.epoch);
    CommitmentsExtended(y, x, x', past, past);
    CommitmentsKept(x, x', y, past, past);
  }

  lemma CommitmentsKept(x: Side, x': Side, y: Side, past: Past, past': Past)
    requires y.seen <= |x.e.sent| && x.seen <= |y.e.sent| && |y.epochs| == |y.e.sent|
    requires y.seen <= |x'.e.sent| && x'.seen == x.seen
    requires Commitments(x, y, past) && past'.done == past.done
    requires Switching(y, x) ==> x'.k.xid.None? || (x'.k.xid == x.k.xid && Switching(y, x'))
    requires x'.k.xid == x.k.xid || (x'.k.xid.Some? ==> x'.k.xid.value !in past.done)
    ensures Commitments(x', y, past')
  {
    forall n | x'.seen <= n < |y.e.sent| ensures CommitmentOk(x', y, past', n) {
      assert CommitmentOk(x, y, past, n);
    }
  }

  lemma AskJoint(x: Side, y: Side, past: Past, grp: Group)
    requires grp.Valid() && Joint(x, y, past, grp)
    ensures Joint(AskedDue(x), y, past, grp)
  {
    if x.e.s.resendDue.Some? { AskWrites(x, y, past, grp); } else { assert AskedDue(x) == x; }
  }

  lemma AskWrites(x: Side, y: Side, past: Past, grp: Group)
    requires grp.Valid() && Joint(x, y, past, grp) && x.e.s.resendDue.Some?
    ensures Joint(AskedDue(x), y, past, grp)
  {
    AskedParts(x, y);
    WroteJoint(x, AskedDue(x), y, past, grp);
  }

  /** A due request that is written is one more slot, and nothing else of the end moves. */
  lemma AskedParts(x: Side, y: Side)
    requires Inv(x.e, y.e) && x.e.s.resendDue.Some?
    ensures var x' := AskedDue(x);
      && Inv(x'.e, y.e)
      && |x'.e.sent| == |x.e.sent| + 1 && x'.e.sent == x.e.sent + [x'.e.sent[|x.e.sent|]]
      && x'.e.sent[|x.e.sent|].action.Resend? && x' == x.(e := x'.e, epochs := x.epochs + [x.epoch])
      && x'.e.s.mailbox == x.e.s.mailbox && x'.e.got == x.e.got
      && x'.e.s.inSeq == x.e.s.inSeq && x'.e.s.queue == x.e.s.queue
  {
    RequestHonest(x.e, y.e, x.k.key);
    DueSpanCoversTheHole(x.e, y.e);
  }

  lemma BeginJoint(x: Side, y: Side, past: Past, grp: Group, xid: int, secret: nat)
    requires grp.Valid() && Joint(x, y, past, grp) && MayStart(x.k) && FreshId(x, y, past, xid, grp)
    ensures BeginExchange(x.k, xid, secret).Ok?
    ensures Joint(
      Wrote(x, RequestKey(xid, Publish(grp, secret))).(k := BeginExchange(x.k, xid, secret).value), y,
      past.(ids := past.ids + {xid}), grp)
  {
    var action := RequestKey(xid, Publish(grp, secret));
    var p := PairOf(x, y);
    BeginTalk(p, grp, past.keys, xid, secret);
    var k := BeginExchange(x.k, xid, secret).value;
    var x' := Wrote(x, action).(k := k);
    var past' := past.(ids := past.ids + {xid});
    SendHonest(x.e, y.e, action, x.k.key);
    SaidOne(x.e.sent, y.seen, NextWrapper(x.e.s, action));
    assert PairOf(x', y) == p.(kx := k, tx := p.tx + [action]);
    SideExtended(x, x', past, past');
    SideKept(y, past, past');
    ReadableKept(x, x', y);
    ReadableExtended(y, x, x', x.epoch);
    CommitmentsExtended(y, x, x', past, past');
    assert xid !in past.done;
    CommitmentsKept(x, x', y, past, past');
  }

  // ---- Receiving a slot ----

  /** A frame of slot `n`, original or withdrawn, under the key of epoch `t`. */
  predicate Frames(y: Side, n: int, w: Wrapper, t: int) {
    && 0 <= n < |y.e.sent| == |y.epochs| && Carries(w, y.e.sent[n]) && y.epochs[n] <= t <= y.epoch
  }

  /** Every slot still missing under an older key is below the arriving slot or a queued one, so it arrives before
      the hole closes. For a slot under its own key this always holds. */
  ghost predicate Harmless(x: Side, y: Side, n: int, t: int)
    requires |y.epochs| == |y.e.sent|
  {
    forall m :: x.e.s.inSeq <= m < |y.e.sent| && m !in x.e.s.queue && m != n && y.epochs[m] < t ==>
      m < n || exists q :: q in x.e.s.queue && m < q
  }

  lemma OriginalIsHarmless(x: Side, y: Side, past: Past, n: int)
    requires SideOk(y, past) && 0 <= n < |y.e.sent|
    ensures Harmless(x, y, n, y.epochs[n])
  {
  }

  /** The held key that opens an unaccepted slot's frame, and the only joint state in which it is the pending one. */
  lemma NamedKey(x: Side, y: Side, past: Past, grp: Group, n: nat, t: nat)
    requires grp.Valid() && Joint(x, y, past, grp) && x.e.s.inSeq <= n < |y.e.sent| && y.epochs[n] <= t <= y.epoch
    ensures SelectKey(x.k, past.keys[t]).Some?
    ensures match SelectKey(x.k, past.keys[t]).value
      case Current => t == x.epoch
      case InPending => t == x.epoch + 1 && Switching(y, x)
      case InPrevious => t == x.epoch - 1
  {
    if t < x.epoch {
      assert Behind(x, y, n);
    }
  }

  /** A missing slot below something queued or arriving is below something that is queued afterwards. */
  lemma StillAhead(x: Side, x': Side, y: Side, n: int, t: int, m: int)
    requires |y.epochs| == |y.e.sent| && Harmless(x, y, n, t) && Moved(x.e.s, n, x'.e.s)
    requires x.e.s.inSeq <= x'.e.s.inSeq <= m < |y.e.sent| && m !in x'.e.s.queue && y.epochs[m] < t
    requires x.e.s.inSeq <= n
    ensures exists q :: q in x'.e.s.queue && m < q
  {
    if m < n {
      assert n in x'.e.s.queue;
    } else {
      var q :| q in x.e.s.queue && m < q;
      assert q in x'.e.s.queue;
    }
  }

  /** The keys an arrival without a switch leaves: confirmed and retired at most. */
  function Stayed(k: Keys, named: Named, gap: bool): Keys {
    RetireIfSettled(if named.Current? && k.previous.Some? then k.(confirmed := true) else k, gap)
  }

  /** x's readability after accepting slot `n` with no switch. */
  lemma ReadableStays(x: Side, x': Side, y: Side, n: int, t: int, named: Named)
    requires |y.epochs| == |y.e.sent| && Readable(x, y)
    requires x.e.s.inSeq <= n < |y.e.sent| && Moved(x.e.s, n, x'.e.s) && x.e.s.inSeq <= x'.e.s.inSeq
    requires x'.epoch == x.epoch && GapOk(x'.e.s)
    requires named.Current? ==> t == x.epoch <= y.epoch && Harmless(x, y, n, t)
    requires x'.k == Stayed(x.k, named, x'.e.s.gapRequested)
    ensures Readable(x', y)
  {
    forall m | Behind(x', y, m)
      ensures x'.k.previous.Some?
      ensures x'.k.confirmed && m !in x'.e.s.queue ==> exists q :: q in x'.e.s.queue && m < q
    {
      assert Behind(x, y, m);
      if m !in x'.e.s.queue {
        if named.Current? {
          StillAhead(x, x', y, n, t, m);
        } else if x.k.confirmed {
          var q :| q in x.e.s.queue && m < q;
          assert q in x'.e.s.queue;
        }
      }
    }
  }

  /** x switched on slot `n` under the pending key: the old key stays while a hole is open. */
  lemma ReadableSwitched(x: Side, x': Side, y: Side, n: int)
    requires |y.epochs| == |y.e.sent| && Readable(x, y)
    requires x.e.s.inSeq <= n < |y.e.sent| && Moved(x.e.s, n, x'.e.s) && x.e.s.inSeq <= x'.e.s.inSeq
    requires x'.epoch == x.epoch + 1 == y.epoch && x.k.previous.None? && GapOk(x'.e.s)
    requires Harmless(x, y, n, x'.epoch) && x'.k.previous.Some? == x'.e.s.gapRequested
    ensures Readable(x', y)
  {
    forall m | x'.e.s.inSeq <= m < |y.e.sent| ensures x'.epoch <= y.epochs[m] + 1 {
      if y.epochs[m] < x.epoch { assert Behind(x, y, m); }
    }
    forall m | Behind(x', y, m)
      ensures x'.k.previous.Some? && (m !in x'.e.s.queue ==> exists q :: q in x'.e.s.queue && m < q)
    {
      if m !in x'.e.s.queue { StillAhead(x, x', y, n, x'.epoch, m); }
    }
  }

  /** What a fresh arrival leaves of the receiving end. */
  ghost predicate TookSlot(x: Side, x': Side, y: Side, n: int) {
    && Inv(x'.e, y.e) && x'.e.sent == x.e.sent && Moved(x.e.s, n, x'.e.s) && x.e.s.inSeq <= x'.e.s.inSeq
    && x'.seen == x.seen && x'.epochs == x.epochs && |x'.e.got| - |x'.e.s.mailbox| == |x.e.got| - |x.e.s.mailbox|
  }

  lemma ArrivedFresh(x: Side, y: Side, n: nat, w: Wrapper)
    requires Inv(x.e, y.e) && n < |y.e.sent| && Carries(w, y.e.sent[n]) && Preflight(x.e.s, w) == Fresh
    requires x.e.s.inSeq <= n
    ensures Receive(x.e.s, w).Ok? && Receive(x.e.s, w).value.isNew
    ensures var got := Receive(x.e.s, w).value;
      TookSlot(x, x.(e := End(got.state, x.e.sent, x.e.got + got.ready)), y, n)
  {
    ReceiveHonest(y.e, x.e, n, w);
    ReceiveUnfolded(x.e.s, w);
    var acc := Accept(x.e.s, Consumed(w)).value;
    var got := Receive(x.e.s, w).value;
    var x' := x.(e := End(got.state, x.e.sent, x.e.got + got.ready));
    assert x'.e == After(x.e, w, acc);
    TookAfter(x, x', y, n, w, acc);
  }

  lemma TookAfter(x: Side, x': Side, y: Side, n: int, w: Wrapper, acc: Accepted)
    requires x' == x.(e := After(x.e, w, acc)) && Inv(y.e, x'.e) && AcceptedOk(y.e, x.e, n, acc)
    ensures TookSlot(x, x', y, n)
  {
  }

  lemma ReceiveUnfolded(c: State, w: Wrapper)
    requires Receive(c, w).Ok? && Preflight(c, w) == Fresh
    ensures Receive(c, w).value.isNew
  {
  }

  /** Slot `n` of y is fresh to x and inside the recovery window. */
  predicate Expected(x: Side, n: int) {
    x.e.s.inSeq <= n <= x.e.s.inSeq + MAX_RESEND_COUNT && n !in x.e.s.queue
  }

  /** A fresh slot beyond the recovery window, which closes the chat. */
  predicate TooFar(x: Side, n: int) {
    n > x.e.s.inSeq + MAX_RESEND_COUNT && n !in x.e.s.queue
  }

  lemma ArrivedEnd(x: Side, y: Side, n: nat, w: Wrapper)
    requires Inv(x.e, y.e) && n < |y.e.sent| && Carries(w, y.e.sent[n])
    ensures Receive(x.e.s, w).Err? <==> TooFar(x, n)
    ensures Receive(x.e.s, w).Ok? ==>
      var got := Receive(x.e.s, w).value;
      && (got.isNew <==> Expected(x, n))
      && (got.isNew ==> TookSlot(x, x.(e := End(got.state, x.e.sent, x.e.got + got.ready)), y, n))
  {
    ArriveVerdict(x.e, y.e, n, w);
    if Preflight(x.e.s, w) == Fresh {
      ArrivedFresh(x, y, n, w);
    } else {
      NotFresh(x.e.s, w);
    }
  }

  lemma ArrivedStays(x: Side, x': Side, y: Side, past: Past, grp: Group, n: nat, t: nat, named: Named)
    requires grp.Valid() && Joint(x, y, past, grp) && x.e.s.inSeq <= n < |y.e.sent| && TookSlot(x, x', y, n)
    requires x'.epoch == x.epoch && (named.Current? ==> t == x.epoch <= y.epoch && Harmless(x, y, n, t))
    requires x'.k == Stayed(x.k, named, x'.e.s.gapRequested)
    ensures Joint(x', y, past, grp)
  {
    ReadableStays(x, x', y, n, t, named);
    ReadableByAhead(y, x, x');
    StaysTalk(x, x', y, past, grp, named);
    StaysSide(x, x', y, past, named);
    StaysCommitments(x, x', y, past, named);
  }

  lemma StaysSide(x: Side, x': Side, y: Side, past: Past, named: Named)
    requires SideOk(x, past) && Shared(x, y, past)
    requires x'.e.sent == x.e.sent && x'.epochs == x.epochs && x'.seen == x.seen && x'.epoch == x.epoch
    requires |x'.e.got| - |x'.e.s.mailbox| == |x.e.got| - |x.e.s.mailbox|
    requires x'.k == Stayed(x.k, named, x'.e.s.gapRequested)
    ensures SideOk(x', past) && Shared(x', y, past)
  {
  }

  lemma StaysCommitments(x: Side, x': Side, y: Side, past: Past, named: Named)
    requires y.seen <= |x.e.sent| && x.seen <= |y.e.sent| && |y.epochs| == |y.e.sent| && |x.epochs| == |x.e.sent|
    requires Commitments(x, y, past) && Commitments(y, x, past)
    requires x'.e.sent == x.e.sent && x'.epochs == x.epochs && x'.seen == x.seen && x'.epoch == x.epoch
    requires x'.k.xid == x.k.xid && x'.k.key == x.k.key
    requires (Switching(x, y) ==> Switching(x', y)) && (Switching(y, x) ==> Switching(y, x'))
    ensures Commitments(x', y, past) && Commitments(y, x', past)
  {
    CommitmentsKept(x, x', y, past, past);
    CommitmentsSeen(x, x', y, past);
  }

  lemma StaysTalk(x: Side, x': Side, y: Side, past: Past, grp: Group, named: Named)
    requires grp.Valid() && y.seen <= |x.e.sent| && x.seen <= |y.e.sent| && |y.epochs| == |y.e.sent|
    requires Talk(PairOf(x, y), grp, past.keys) && Readable(x, y)
    requires x'.e.sent == x.e.sent && x'.seen == x.seen && x'.epoch == x.epoch
    requires x'.k == Stayed(x.k, named, x'.e.s.gapRequested)
    requires named.Current? ==> x.epoch <= y.epoch
    ensures PairOf(x', y) == PairOf(x, y).(kx := x'.k) && Talk(PairOf(x', y), grp, past.keys)
    ensures Switching(x, y) ==> Switching(x', y) && x'.k == x.k
    ensures Switching(y, x) ==> Switching(y, x')
  {
    KeepTalk(PairOf(x, y), grp, past.keys, x'.k);
  }

  /** y's view of x's commitments depends on x's slots, which an arrival leaves alone. */
  lemma CommitmentsSeen(x: Side, x': Side, y: Side, past: Past)
    requires y.seen <= |x.e.sent| && x.seen <= |y.e.sent| && |x.epochs| == |x.e.sent|
    requires x'.e.sent == x.e.sent && x'.epochs == x.epochs && x'.seen == x.seen
    requires Commitments(y, x, past)
    requires Switching(x, y) ==> Switching(x', y) && x'.k.key == x.k.key && x'.epoch == x.epoch
    ensures Commitments(y, x', past)
  {
    forall n | y.seen <= n < |x'.e.sent| ensures CommitmentOk(y, x', past, n) {
      assert CommitmentOk(y, x, past, n);
    }
  }

  lemma ArrivedSwitches(x: Side, x': Side, y: Side, past: Past, grp: Group, n: nat)
    requires grp.Valid() && Joint(x, y, past, grp) && x.e.s.inSeq <= n < |y.e.sent| && TookSlot(x, x', y, n)
    requires x.k.pending.Some? && Switching(y, x) && x'.epoch == x.epoch + 1 && Harmless(x, y, n, x'.epoch)
    requires OnFrame(x.k, InPending, x'.e.s.gapRequested) == Ok(x'.k)
    ensures Joint(x', y, past, grp)
  {
    SwitchesTalk(x, x', y, past, grp);
    SwitchesSide(x, x', y, past);
    ReadableSwitched(x, x', y, n);
    ReadableByAhead(y, x, x');
    CommitmentsKept(x, x', y, past, past);
    CommitmentsSeen(x, x', y, past);
  }

  lemma SwitchesSide(x: Side, x': Side, y: Side, past: Past)
    requires SideOk(x, past) && SideOk(y, past) && Shared(x, y, past)
    requires x'.e.sent == x.e.sent && x'.epochs == x.epochs && x'.seen == x.seen
    requires |x'.e.got| - |x'.e.s.mailbox| == |x.e.got| - |x.e.s.mailbox|
    requires x'.epoch == x.epoch + 1 == y.epoch && x'.k.key == y.k.key && x'.k.xid.None?
    requires x'.k.previous.Some? ==> x'.k.previous.value == x.k.key
    ensures SideOk(x', past) && Shared(x', y, past)
  {
  }

  lemma SwitchesTalk(x: Side, x': Side, y: Side, past: Past, grp: Group)
    requires grp.Valid() && y.seen <= |x.e.sent| && x.seen <= |y.e.sent|
    requires Talk(PairOf(x, y), grp, past.keys) && x.k.pending.Some? && Switching(y, x)
    requires x'.e.sent == x.e.sent && x'.seen == x.seen && x'.epoch == x.epoch + 1
    requires OnFrame(x.k, InPending, x'.e.s.gapRequested) == Ok(x'.k)
    ensures Talk(PairOf(x', y), grp, past.keys) && !Switching(x, y) && x'.k.xid.None?
    ensures x'.k.key == y.k.key && x.k.previous.None? && x'.k.previous.Some? == x'.e.s.gapRequested
    ensures x'.k.previous.Some? ==> x'.k.previous.value == x.k.key
  {
    var p := PairOf(x, y);
    assert Committed(Flip(p));
    SwitchTalk(p, grp, past.keys, true);
    var adopted := AdoptNewKey(x.k, x.k.pending.value).(state := Ready, confirmed := true);
    var q := p.(kx := adopted, ex := p.ex + 1);
    KeepTalk(q, grp, past.keys, x'.k);
    assert PairOf(x', y) == q.(kx := x'.k);
  }

  /** A peer that catches up makes nothing harder to read. */
  lemma ReadableByAhead(y: Side, x: Side, x': Side)
    requires |x.epochs| == |x.e.sent| && x'.e.sent == x.e.sent && x'.epochs == x.epochs && x.epoch <= x'.epoch
    requires Readable(y, x)
    ensures Readable(y, x')
  {
    forall n | Behind(y, x', n) ensures Behind(y, x, n) {}
    assert forall n :: Behind(y, x', n) ==> Behind(y, x, n);
  }

  /** What an arrival leaves of the keys and the epoch. */
  predicate KeysAfter(x: Side, x': Side, named: Named) {
    && OnFrame(x.k, named, x'.e.s.gapRequested) == Ok(x'.k)
    && x'.epoch == if named.InPending? then x.epoch + 1 else x.epoch
  }

  /** A frame's arrival: fatal beyond the window, nothing when the slot is known, and otherwise one receive under
      the slot's key. */
  lemma FrameArrives(x: Side, y: Side, past: Past, grp: Group, n: nat, w: Wrapper, t: nat)
    requires grp.Valid() && Joint(x, y, past, grp) && Frames(y, n, w, t)
    ensures ArrivedAs(x, w, past.keys[t]).Err? <==> TooFar(x, n)
    ensures ArrivedAs(x, w, past.keys[t]).Ok? && !Expected(x, n) ==> ArrivedAs(x, w, past.keys[t]).value == x
    ensures Expected(x, n) ==>
      && SelectKey(x.k, past.keys[t]).Some? && ArrivedAs(x, w, past.keys[t]).Ok?
      && (var x' := ArrivedAs(x, w, past.keys[t]).value;
          TookSlot(x, x', y, n) && KeysAfter(x, x', SelectKey(x.k, past.keys[t]).value))
  {
    var key := past.keys[t];
    ArrivedEnd(x, y, n, w);
    if n >= x.e.s.inSeq { NamedKey(x, y, past, grp, n, t); }
    if Expected(x, n) { FrameKeepsSlots(x.k, key, Receive(x.e.s, w).value.state.gapRequested); }
  }

  /** A harmless arrival keeps the joint invariant. */
  lemma ArrivalKeeps(x: Side, y: Side, past: Past, grp: Group, n: nat, w: Wrapper, t: nat)
    requires grp.Valid() && Joint(x, y, past, grp) && Frames(y, n, w, t)
    requires Expected(x, n) ==> Harmless(x, y, n, t)
    requires ArrivedAs(x, w, past.keys[t]).Ok?
    ensures Joint(ArrivedAs(x, w, past.keys[t]).value, y, past, grp)
  {
    FrameArrives(x, y, past, grp, n, w, t);
    if Expected(x, n) {
      NamedKey(x, y, past, grp, n, t);
      var named := SelectKey(x.k, past.keys[t]).value;
      var x' := ArrivedAs(x, w, past.keys[t]).value;
      if named.InPending? {
        ArrivedSwitches(x, x', y, past, grp, n);
      } else {
        ArrivedStays(x, x', y, past, grp, n, t, named);
      }
    }
  }

  lemma ArrivalJoint(x: Side, y: Side, past: Past, grp: Group, n: nat)
    requires grp.Valid() && Joint(x, y, past, grp) && n < |y.e.sent|
    ensures ArrivedAs(x, y.e.sent[n], past.keys[y.epochs[n]]).Err? <==> TooFar(x, n)
    ensures ArrivedAs(x, y.e.sent[n], past.keys[y.epochs[n]]).Ok? ==>
      Joint(ArrivedAs(x, y.e.sent[n], past.keys[y.epochs[n]]).value, y, past, grp)
  {
    var w, t := y.e.sent[n], y.epochs[n];
    FrameArrives(x, y, past, grp, n, w, t);
    OriginalIsHarmless(x, y, past, n);
    if ArrivedAs(x, w, past.keys[t]).Ok? { ArrivalKeeps(x, y, past, grp, n, w, t); }
  }

  // ---- Dispatching the head of the mailbox ----

  predicate Exchange(action: Action) { IsTalk(action) || action.CommitKey? }

  /** The mailbox head is the slot its end has yet to see; exchange actions arrive unchanged. */
  lemma HeadSlot(x: Side, y: Side, past: Past)
    requires Inv(x.e, y.e) && SideOk(x, past) && x.e.s.mailbox != []
    ensures x.seen < x.e.s.inSeq <= |y.e.sent|
    ensures x.e.s.mailbox[0] == x.e.got[x.seen] && Stored(x.e.got[x.seen], y.e.sent[x.seen])
    ensures Exchange(x.e.s.mailbox[0].action) || Exchange(y.e.sent[x.seen].action) ==>
      x.e.s.mailbox[0].action == y.e.sent[x.seen].action
  {
  }

  /** What a dispatch leaves of the end itself, before its reply. */
  lemma ShiftedEnd(x: Side, y: Side, past: Past)
    requires Inv(x.e, y.e) && SideOk(x, past) && x.e.s.mailbox != []
    ensures Inv(Shifted(x).e, y.e) && SideOk(Shifted(x), past)
  {
    DeliverHonest(x.e, y.e);
  }

  lemma CommitmentsShifted(x: Side, x': Side, y: Side, past: Past, past': Past)
    requires y.seen <= |x.e.sent| && x.seen <= |y.e.sent| && |y.epochs| == |y.e.sent|
    requires y.seen <= |x'.e.sent| && x'.seen == x.seen + 1 <= |y.e.sent|
    requires Commitments(x, y, past) && past.done <= past'.done
    requires x'.k.xid.None? || (x'.k.xid == x.k.xid && Switching(y, x) && Switching(y, x'))
      || (!Switching(y, x) && x'.k.xid.value !in past'.done)
    ensures Commitments(x', y, past')
  {
    forall n | x'.seen <= n < |y.e.sent| ensures CommitmentOk(x', y, past', n) {
      assert CommitmentOk(x, y, past, n);
    }
  }

  /** An action outside the exchange, or a commitment whose exchange is over, only leaves the mailbox. */
  lemma DispatchInert(x: Side, y: Side, past: Past, grp: Group)
    requires grp.Valid() && Joint(x, y, past, grp) && x.e.s.mailbox != []
    requires !IsTalk(x.e.s.mailbox[0].action)
    ensures Joint(Shifted(x), y, past, grp)
  {
    HeadSlot(x, y, past);
    ShiftedEnd(x, y, past);
    var x' := Shifted(x);
    SaidHead(y.e.sent, x.seen);
    assert PairOf(x', y) == PairOf(x, y) && PairOf(y, x') == PairOf(y, x);
    ReadableKept(x, x', y);
    ReadableByAhead(y, x, x');
    CommitmentsShifted(x, x', y, past, past);
    CommitmentsShiftedPeer(x, x', y, past);
  }

  lemma CommitmentsShiftedPeer(x: Side, x': Side, y: Side, past: Past)
    requires y.seen <= |x.e.sent| && x.seen <= |y.e.sent| && |x.epochs| == |x.e.sent|
    requires x'.e.sent == x.e.sent && x'.epochs == x.epochs && x.seen <= x'.seen <= |y.e.sent|
    requires Commitments(y, x, past)
    requires Switching(x, y) ==> Switching(x', y) && x'.k.key == x.k.key && x'.epoch == x.epoch
    ensures Commitments(y, x', past)
  {
    forall n | y.seen <= n < |x'.e.sent| ensures CommitmentOk(y, x', past, n) {
      assert CommitmentOk(y, x, past, n);
    }
  }

  /** The pair after a handled exchange action is the one the phases describe. */
  lemma PairAfter(x: Side, y: Side, past: Past, effect: Effect)
    requires Inv(x.e, y.e) && SideOk(x, past) && y.seen <= |x.e.sent| && x.seen <= |y.e.sent|
    requires x.e.s.mailbox != [] && IsTalk(x.e.s.mailbox[0].action)
    requires var action := x.e.s.mailbox[0].action;
      Switches(action, effect) <==> effect.keys.key != x.k.key
    ensures x.seen < |y.e.sent|
    ensures var p := PairOf(x, y);
      && |p.ty| > 0 && p.ty[0] == x.e.s.mailbox[0].action
      && y.seen <= |Took(x, x.e.s.mailbox[0].action, effect).e.sent|
      && Took(x, x.e.s.mailbox[0].action, effect).seen <= |y.e.sent|
      && PairOf(Took(x, x.e.s.mailbox[0].action, effect), y) == Handled(p, effect)
  {
    HeadSlot(x, y, past);
    SaidHead(y.e.sent, x.seen);
    TookSays(x, y, x.e.s.mailbox[0].action, effect);
  }

  /** What a dispatch adds to what x has said. */
  lemma TookSays(x: Side, y: Side, action: Action, effect: Effect)
    requires x.e.s.mailbox != [] && y.seen <= |x.e.sent|
    ensures var x' := Took(x, action, effect);
      && y.seen <= |x'.e.sent| && x'.seen == x.seen + 1
      && Said(x'.e.sent[y.seen..]) == Said(x.e.sent[y.seen..])
           + (if effect.reply.Some? && IsTalk(effect.reply.value) then [effect.reply.value] else [])
  {
    if effect.reply.Some? { SaidOne(x.e.sent, y.seen, NextWrapper(Shifted(x).e.s, effect.reply.value)); }
  }

  lemma TookEnd(x: Side, y: Side, past: Past, grp: Group, action: Action, effect: Effect)
    requires grp.Valid() && Inv(x.e, y.e) && SideOk(x, past) && x.e.s.mailbox != []
    requires effect.reply.Some? ==> !effect.reply.value.Resend?
    ensures Inv(Took(x, action, effect).e, y.e)
  {
    ShiftedEnd(x, y, past);
    if effect.reply.Some? {
      SendHonest(Shifted(x).e, y.e, effect.reply.value, ReplyKey(x.k, effect.reply.value));
    }
  }

  lemma DispatchQuiet(x: Side, y: Side, past: Past, grp: Group, effect: Effect)
    requires grp.Valid() && Joint(x, y, past, grp) && x.e.s.mailbox != [] && IsTalk(x.e.s.mailbox[0].action)
    requires Quiet(PairOf(x, y), x.e.s.mailbox[0].action, effect)
    requires var x' := Took(x, x.e.s.mailbox[0].action, effect);
      y.seen <= |x'.e.sent| && x'.seen <= |y.e.sent| && Talk(PairOf(x', y), grp, past.keys)
    ensures Joint(Took(x, x.e.s.mailbox[0].action, effect), y, past, grp)
  {
    var action := x.e.s.mailbox[0].action;
    var x' := Took(x, action, effect);
    TookEnd(x, y, past, grp, action, effect);
    QuietSide(x, x', y, past, grp, effect);
    QuietViews(x, x', y, past, grp, effect);
  }

  /** The pair after a handling that switched no key. */
  lemma QuietPair(x: Side, y: Side, past: Past, grp: Group, effect: Effect)
    requires grp.Valid() && Inv(x.e, y.e) && SideOk(x, past) && y.seen <= |x.e.sent| && x.seen <= |y.e.sent|
    requires x.e.s.mailbox != [] && IsTalk(x.e.s.mailbox[0].action)
    requires Quiet(PairOf(x, y), x.e.s.mailbox[0].action, effect)
    requires |PairOf(x, y).ty| > 0 && Talk(Handled(PairOf(x, y), effect), grp, past.keys)
    ensures var x' := Took(x, x.e.s.mailbox[0].action, effect);
      y.seen <= |x'.e.sent| && x'.seen <= |y.e.sent| && Talk(PairOf(x', y), grp, past.keys)
  {
    PairAfter(x, y, past, effect);
  }

  lemma QuietViews(x: Side, x': Side, y: Side, past: Past, grp: Group, effect: Effect)
    requires grp.Valid() && Joint(x, y, past, grp) && x.e.s.mailbox != []
    requires Quiet(PairOf(x, y), x.e.s.mailbox[0].action, effect)
    requires IsTalk(x.e.s.mailbox[0].action) && x' == Took(x, x.e.s.mailbox[0].action, effect)
    requires x'.epoch == x.epoch && (x'.k.xid.None? || x'.k.xid.value !in past.done)
    requires x'.e.s.inSeq == x.e.s.inSeq && x'.e.s.queue == x.e.s.queue
    ensures y.seen <= |x'.e.sent| && x'.seen <= |y.e.sent|
    ensures Readable(x', y) && Readable(y, x') && Commitments(x', y, past) && Commitments(y, x', past)
  {
    HeadSlot(x, y, past);
    ReadableKept(x, x', y);
    if effect.reply.Some? { ReadableExtended(y, x, x', x.epoch); } else { ReadableByAhead(y, x, x'); }
    CommitmentsShifted(x, x', y, past, past);
    CommitmentsOver(y, x, x', past);
  }

  lemma QuietSide(x: Side, x': Side, y: Side, past: Past, grp: Group, effect: Effect)
    requires grp.Valid() && Joint(x, y, past, grp) && x.e.s.mailbox != []
    requires Quiet(PairOf(x, y), x.e.s.mailbox[0].action, effect)
    requires IsTalk(x.e.s.mailbox[0].action) && x' == Took(x, x.e.s.mailbox[0].action, effect)
    ensures SideOk(x', past) && x'.epoch == x.epoch
    ensures x'.k.xid.None? || x'.k.xid.value !in past.done
    ensures x'.e.s.inSeq == x.e.s.inSeq && x'.e.s.queue == x.e.s.queue
    ensures x'.k.previous == x.k.previous && x'.k.confirmed == x.k.confirmed
  {
    QuietOpen(x, y, past, effect);
    QuietTook(x, x', past, x.e.s.mailbox[0].action, effect);
  }

  /** The exchange a quiet handling leaves has not ended in a switch. */
  lemma QuietOpen(x: Side, y: Side, past: Past, effect: Effect)
    requires y.seen <= |x.e.sent| && x.seen <= |y.e.sent| && |x.epochs| == |x.e.sent| && |y.epochs| == |y.e.sent|
    requires Commitments(x, y, past) && Commitments(y, x, past) && !Switching(x, y) && !Switching(y, x)
    requires effect.keys.xid == x.k.xid || effect.keys.xid.None? || effect.keys.xid == y.k.xid
    requires SideOk(x, past) && SideOk(y, past)
    ensures effect.keys.xid.None? || (effect.keys.xid.value !in past.done && effect.keys.xid.value in past.ids)
  {
  }

  lemma QuietTook(x: Side, x': Side, past: Past, action: Action, effect: Effect)
    requires SideOk(x, past) && x.e.s.mailbox != [] && x' == Took(x, action, effect)
    requires !Switches(action, effect) && effect.keys.key == x.k.key
    requires effect.keys.previous == x.k.previous && effect.keys.confirmed == x.k.confirmed
    requires effect.keys.xid.Some? ==> effect.keys.xid.value in past.ids
    ensures SideOk(x', past) && x'.epoch == x.epoch && x'.k == effect.keys
    ensures x'.e.s.inSeq == x.e.s.inSeq && x'.e.s.queue == x.e.s.queue
  {
  }

  /** Outside a switch, every unhandled commitment is over, and stays so. */
  lemma CommitmentsOver(y: Side, x: Side, x': Side, past: Past)
    requires y.seen <= |x.e.sent| && x.seen <= |y.e.sent| && |x.epochs| == |x.e.sent|
    requires x.e.sent <= x'.e.sent && |x'.e.sent| <= |x.e.sent| + 1 && x'.seen <= |y.e.sent|
      && |x'.epochs| == |x'.e.sent|
    requires |x'.e.sent| > |x.e.sent| ==> !x'.e.sent[|x.e.sent|].action.CommitKey?
    requires Commitments(y, x, past) && !Switching(x, y)
    ensures Commitments(y, x', past)
  {
    forall n | y.seen <= n < |x'.e.sent| ensures CommitmentOk(y, x', past, n) {
      if n < |x.e.sent| { assert CommitmentOk(y, x, past, n); }
    }
  }

  /** The acceptance is at hand and its handling switches x. */
  ghost predicate Deriving(x: Side, y: Side, past: Past, grp: Group, effect: Effect)
    requires grp.Valid()
  {
    && Joint(x, y, past, grp) && x.e.s.mailbox != [] && x.e.s.mailbox[0].action.AcceptKey?
    && |PairOf(x, y).ty| > 0 && Switched(PairOf(x, y), effect, past.keys) && effect.applied
    && x.e.s.mailbox[0].action.xid == y.k.xid.value && effect.keys.key != x.k.key
  }

  lemma SwitchedPair(x: Side, y: Side, past: Past, grp: Group, effect: Effect)
    requires grp.Valid() && Deriving(x, y, past, grp, effect)
    requires Talk(Handled(PairOf(x, y), effect), grp, past.keys)
    ensures var x' := Took(x, x.e.s.mailbox[0].action, effect);
      var past' := Recorded(past, x.e.s.mailbox[0].action, effect);
      && y.seen <= |x'.e.sent| && x'.seen <= |y.e.sent|
      && Talk(PairOf(x', y), grp, past'.keys) && Switching(x', y)
  {
    var action := x.e.s.mailbox[0].action;
    var past' := Recorded(past, action, effect);
    PairAfter(x, y, past, effect);
    SwitchedTalk(Handled(PairOf(x, y), effect), grp, past.keys, past'.keys);
  }

  lemma SwitchedEnds(x: Side, y: Side, past: Past, grp: Group, effect: Effect)
    requires grp.Valid() && Deriving(x, y, past, grp, effect)
    ensures var x' := Took(x, x.e.s.mailbox[0].action, effect);
      var past' := Recorded(past, x.e.s.mailbox[0].action, effect);
      && SideOk(x', past') && SideOk(y, past') && Shared(x', y, past')
  {
    var action := x.e.s.mailbox[0].action;
    SwitchedSides(x, Took(x, action, effect), y, past, Recorded(past, action, effect));
  }

  lemma SwitchedViews(x: Side, y: Side, past: Past, grp: Group, effect: Effect)
    requires grp.Valid() && Deriving(x, y, past, grp, effect)
    requires Switching(Took(x, x.e.s.mailbox[0].action, effect), y)
    ensures var x' := Took(x, x.e.s.mailbox[0].action, effect);
      var past' := Recorded(past, x.e.s.mailbox[0].action, effect);
      && Readable(x', y) && Readable(y, x') && Commitments(x', y, past') && Commitments(y, x', past')
  {
    var action := x.e.s.mailbox[0].action;
    var x' := Took(x, action, effect);
    var past' := Recorded(past, action, effect);
    SwitchedReadable(x, x', y);
    ReadableExtended(y, x, x', x.epoch);
    CommitmentsShifted(x, x', y, past, past');
    SwitchedCommitments(x, y, past, grp, effect);
  }

  /** x derives the accepted key, commits under the old one and switches, all in one commit. */
  lemma DispatchSwitched(x: Side, y: Side, past: Past, grp: Group, effect: Effect)
    requires grp.Valid() && Deriving(x, y, past, grp, effect)
    requires Talk(Handled(PairOf(x, y), effect), grp, past.keys)
    ensures Joint(Took(x, x.e.s.mailbox[0].action, effect), y, Recorded(past, x.e.s.mailbox[0].action, effect), grp)
  {
    SwitchedPair(x, y, past, grp, effect);
    SwitchedEnds(x, y, past, grp, effect);
    TookEnd(x, y, past, grp, x.e.s.mailbox[0].action, effect);
    SwitchedViews(x, y, past, grp, effect);
  }

  lemma SwitchedTalk(p: Pair, grp: Group, hist: seq<Key>, hist': seq<Key>)
    requires grp.Valid() && Talk(p, grp, hist) && Committed(p)
    ensures Talk(p, grp, hist')
  {
  }

  lemma SwitchedSides(x: Side, x': Side, y: Side, past: Past, past': Past)
    requires SideOk(x, past) && SideOk(y, past) && Shared(x, y, past) && x.epoch == y.epoch
    requires x.e.s.mailbox != [] && x'.seen == x.seen + 1
    requires |x'.e.sent| == |x.e.sent| + 1 && x'.epochs == x.epochs + [x.epoch] && x'.epoch == x.epoch + 1
    requires x'.e.s.mailbox == x.e.s.mailbox[1..] && x'.e.got == x.e.got
    requires x'.k.previous == Some(x.k.key) && x'.k.xid.None? && x'.k.key !in past.keys
    requires past' == past.(keys := past.keys + [x'.k.key], done := past'.done) && past'.done <= past.ids
    ensures SideOk(x', past') && SideOk(y, past') && Shared(x', y, past')
  {
  }

  lemma SwitchedReadable(x: Side, x': Side, y: Side)
    requires |y.epochs| == |y.e.sent| && Readable(x, y) && x.k.previous.None? && x.epoch == y.epoch
    requires x'.e.s.inSeq == x.e.s.inSeq && x'.epoch == x.epoch + 1
    requires x'.k.previous.Some? && !x'.k.confirmed
    ensures Readable(x', y)
  {
    forall n | x'.e.s.inSeq <= n < |y.e.sent| ensures x'.epoch <= y.epochs[n] + 1 {
      if y.epochs[n] < x.epoch { assert Behind(x, y, n); }
    }
  }

  /** An unhandled commitment of x outside a switch stays over when x commits to another exchange. */
  lemma OldCommitment(y: Side, x: Side, x': Side, past: Past, past': Past, n: int)
    requires y.seen <= n < |x.e.sent| == |x.epochs| && x.seen <= |y.e.sent| && CommitmentOk(y, x, past, n)
    requires x.e.sent <= x'.e.sent && |x'.epochs| == |x'.e.sent| && x'.seen <= |y.e.sent|
    requires !Switching(x, y) && past.done <= past'.done
    ensures CommitmentOk(y, x', past', n)
  {
  }

  lemma SwitchedCommitments(x: Side, y: Side, past: Past, grp: Group, effect: Effect)
    requires grp.Valid() && Deriving(x, y, past, grp, effect)
    requires Switching(Took(x, x.e.s.mailbox[0].action, effect), y)
    ensures Commitments(y, Took(x, x.e.s.mailbox[0].action, effect), Recorded(past, x.e.s.mailbox[0].action, effect))
  {
    var action := x.e.s.mailbox[0].action;
    var x', past' := Took(x, action, effect), Recorded(past, action, effect);
    forall n | y.seen <= n < |x'.e.sent| ensures CommitmentOk(y, x', past', n) {
      if n < |x.e.sent| {
        assert CommitmentOk(y, x, past, n);
        OldCommitment(y, x, x', past, past', n);
      }
    }
  }

  /** x holds the exchange that the commitment at hand ends. */
  ghost predicate Ending(x: Side, y: Side, past: Past, grp: Group)
    requires grp.Valid()
  {
    && Joint(x, y, past, grp) && x.e.s.mailbox != [] && x.e.s.mailbox[0].action.CommitKey?
    && x.k.xid == Some(x.e.s.mailbox[0].action.xid)
  }

  function Adopted(k: Keys): Effect {
    Effect(AdoptNewKey(k, k.pending.GetOr(0)).(state := Ready, confirmed := true), Some(Noop), true)
  }

  lemma EndingSwitch(x: Side, y: Side, past: Past, grp: Group)
    requires grp.Valid() && Ending(x, y, past, grp)
    ensures x.seen < x.e.s.inSeq <= |y.e.sent| && Switching(y, x) && Accepting(x.k) && x.k.pending.value == y.k.key
    ensures forall m :: x.seen < m < |y.e.sent| ==> y.epochs[m] == y.epoch
    ensures OnCommit(x.k, x.e.s.mailbox[0].action.xid, x.e.s.mailbox[0].action.claimed) == Ok(Adopted(x.k))
  {
    HeadSlot(x, y, past);
    assert CommitmentOk(x, y, past, x.seen);
    assert Committed(PairOf(y, x));
  }

  lemma EndingPair(x: Side, y: Side, past: Past, grp: Group)
    requires grp.Valid() && Ending(x, y, past, grp)
    ensures var x' := Took(x, x.e.s.mailbox[0].action, Adopted(x.k));
      && y.seen <= |x'.e.sent| && x'.seen <= |y.e.sent|
      && Talk(PairOf(x', y), grp, past.keys)
  {
    EndingSwitch(x, y, past, grp);
    var p := PairOf(x, y);
    assert Committed(Flip(p));
    SwitchTalk(p, grp, past.keys, true);
    var x' := Took(x, x.e.s.mailbox[0].action, Adopted(x.k));
    SaidHead(y.e.sent, x.seen);
    SaidOne(x.e.sent, y.seen, NextWrapper(Shifted(x).e.s, Noop));
    HeadSlot(x, y, past);
    assert PairOf(x', y) == p.(kx := Adopted(x.k).keys, ex := p.ex + 1);
  }

  lemma EndingEnds(x: Side, y: Side, past: Past, grp: Group)
    requires grp.Valid() && Ending(x, y, past, grp)
    ensures var x' := Took(x, x.e.s.mailbox[0].action, Adopted(x.k));
      SideOk(x', past) && Shared(x', y, past)
  {
    EndingSwitch(x, y, past, grp);
  }

  lemma EndingViews(x: Side, y: Side, past: Past, grp: Group)
    requires grp.Valid() && Ending(x, y, past, grp)
    ensures var x' := Took(x, x.e.s.mailbox[0].action, Adopted(x.k));
      && y.seen <= |x'.e.sent| && x'.seen <= |y.e.sent|
      && Readable(x', y) && Readable(y, x') && Commitments(x', y, past) && Commitments(y, x', past)
  {
    EndingSwitch(x, y, past, grp);
    var x' := Took(x, x.e.s.mailbox[0].action, Adopted(x.k));
    assert forall n :: !Behind(x', y, n);
    ReadableExtended(y, x, x', x'.epoch);
    CommitmentsShifted(x, x', y, past, past);
    CommitmentsOver(y, x, x', past);
  }

  /** x sees the commitment while it still holds the exchange: it switches and answers under the new key. */
  lemma DispatchCommitment(x: Side, y: Side, past: Past, grp: Group)
    requires grp.Valid() && Ending(x, y, past, grp)
    ensures var action := x.e.s.mailbox[0].action;
      && OnCommit(x.k, action.xid, action.claimed) == Ok(Adopted(x.k))
      && Joint(Took(x, action, Adopted(x.k)), y, past, grp)
  {
    EndingSwitch(x, y, past, grp);
    EndingPair(x, y, past, grp);
    EndingEnds(x, y, past, grp);
    TookEnd(x, y, past, grp, x.e.s.mailbox[0].action, Adopted(x.k));
    EndingViews(x, y, past, grp);
  }

  lemma DispatchTalk(x: Side, y: Side, past: Past, grp: Group, b: nat)
    requires grp.Valid() && Joint(x, y, past, grp) && x.e.s.mailbox != [] && IsTalk(x.e.s.mailbox[0].action)
    requires FreshJoin(x.k, x.e.s.mailbox[0].action, b, grp, past.keys)
    ensures var action := x.e.s.mailbox[0].action;
      && (Handle(x.k, action, b, grp).Err? <==> RefusesValue(x.k, action, grp))
      && (Handle(x.k, action, b, grp).Ok? ==>
            var effect := Handle(x.k, action, b, grp).value;
            Joint(Took(x, action, effect), y, Recorded(past, action, effect), grp))
  {
    var action := x.e.s.mailbox[0].action;
    HeadSlot(x, y, past);
    SaidHead(y.e.sent, x.seen);
    var p := PairOf(x, y);
    HandleTalk(p, grp, past.keys, b);
    if Handle(x.k, action, b, grp).Ok? {
      var effect := Handle(x.k, action, b, grp).value;
      if effect.keys.key != x.k.key { DispatchSwitched(x, y, past, grp, effect); }
      else {
        QuietPair(x, y, past, grp, effect);
        DispatchQuiet(x, y, past, grp, effect);
      }
    }
  }

  /** The steps after which no promise is made: a frame from beyond the recovery window, or a random public
      value outside the checked range; both close the chat. */
  predicate Closes(x: Side, y: Side, past: Past, step: KeyStep, grp: Group)
    requires grp.Valid()
  {
    match step
    case Arrival(slot) => slot < |y.e.sent| && TooFar(x, slot)
    case Dispatch(b) =>
      && x.e.s.mailbox != [] && RefusesValue(x.k, x.e.s.mailbox[0].action, grp)
      && FreshJoin(x.k, x.e.s.mailbox[0].action, b, grp, past.keys)
    case _ => false
  }

  ghost predicate StepKeeps(x: Side, y: Side, past: Past, step: KeyStep, grp: Group)
    requires grp.Valid() && Joint(x, y, past, grp)
  {
    && (StepSide(x, y, past, step, grp).Err? <==> Closes(x, y, past, step, grp))
    && (StepSide(x, y, past, step, grp).Ok? ==>
          var turn := StepSide(x, y, past, step, grp).value;
          Joint(turn.x, y, turn.past, grp))
  }

  /** An action outside the exchange is handled without an effect. */
  lemma HandleInert(x: Side, past: Past, action: Action, b: nat, grp: Group)
    requires grp.Valid() && x.e.s.mailbox != []
    requires !IsTalk(action) && (action.CommitKey? ==> x.k.xid != Some(action.xid))
    ensures Handle(x.k, action, b, grp) == Ok(Effect(x.k, None, false))
    ensures Took(x, action, Effect(x.k, None, false)) == Shifted(x)
    ensures Recorded(past, action, Effect(x.k, None, false)) == past
  {
  }

  lemma DispatchOther(x: Side, y: Side, past: Past, grp: Group, b: nat)
    requires grp.Valid() && Joint(x, y, past, grp) && x.e.s.mailbox != []
    requires var action := x.e.s.mailbox[0].action;
      !IsTalk(action) && (action.CommitKey? ==> x.k.xid != Some(action.xid))
    ensures DispatchOk(x, y, past, grp, b)
  {
    HandleInert(x, past, x.e.s.mailbox[0].action, b, grp);
    DispatchInert(x, y, past, grp);
  }

  lemma DispatchEnding(x: Side, y: Side, past: Past, grp: Group, b: nat)
    requires grp.Valid() && Ending(x, y, past, grp)
    ensures DispatchOk(x, y, past, grp, b)
  {
    DispatchCommitment(x, y, past, grp);
    CommitmentRecords(x.k, x.e.s.mailbox[0].action, past, grp, b);
  }

  lemma CommitmentRecords(k: Keys, action: Action, past: Past, grp: Group, b: nat)
    requires grp.Valid() && action.CommitKey? && OnCommit(k, action.xid, action.claimed) == Ok(Adopted(k))
    ensures Handle(k, action, b, grp) == Ok(Adopted(k)) && !RefusesValue(k, action, grp)
    ensures Recorded(past, action, Adopted(k)) == past
  {
  }

  /** Handling the head keeps the joint invariant, or is refused for its public value. */
  ghost predicate DispatchOk(x: Side, y: Side, past: Past, grp: Group, b: nat)
    requires grp.Valid() && x.e.s.mailbox != []
  {
    var action := x.e.s.mailbox[0].action;
    && (Handle(x.k, action, b, grp).Err? <==> RefusesValue(x.k, action, grp))
    && (Handle(x.k, action, b, grp).Ok? ==>
          var effect := Handle(x.k, action, b, grp).value;
          Joint(Took(x, action, effect), y, Recorded(past, action, effect), grp))
  }

  lemma DispatchJoint(x: Side, y: Side, past: Past, grp: Group, b: nat)
    requires grp.Valid() && Joint(x, y, past, grp) && x.e.s.mailbox != []
    requires FreshJoin(x.k, x.e.s.mailbox[0].action, b, grp, past.keys)
    ensures DispatchOk(x, y, past, grp, b)
  {
    var action := x.e.s.mailbox[0].action;
    if IsTalk(action) {
      DispatchTalk(x, y, past, grp, b);
    } else if action.CommitKey? && x.k.xid == Some(action.xid) {
      DispatchEnding(x, y, past, grp, b);
    } else {
      DispatchOther(x, y, past, grp, b);
    }
  }

  lemma SayKeeps(x: Side, y: Side, past: Past, grp: Group, action: Action)
    requires grp.Valid() && Joint(x, y, past, grp)
    ensures StepKeeps(x, y, past, Say(action), grp)
  {
    if !IsTalk(action) && !action.CommitKey? && !action.Resend? { SayJoint(x, y, past, grp, action); }
  }

  lemma BeginKeeps(x: Side, y: Side, past: Past, grp: Group, xid: int, secret: nat)
    requires grp.Valid() && Joint(x, y, past, grp)
    ensures StepKeeps(x, y, past, Begin(xid, secret), grp)
  {
    if MayStart(x.k) && FreshId(x, y, past, xid, grp) { BeginJoint(x, y, past, grp, xid, secret); }
  }

  lemma ArriveKeeps(x: Side, y: Side, past: Past, grp: Group, slot: nat)
    requires grp.Valid() && Joint(x, y, past, grp)
    ensures StepKeeps(x, y, past, Arrival(slot), grp)
  {
    if slot < |y.e.sent| { ArrivalJoint(x, y, past, grp, slot); }
  }

  lemma DispatchKeeps(x: Side, y: Side, past: Past, grp: Group, b: nat)
    requires grp.Valid() && Joint(x, y, past, grp)
    ensures StepKeeps(x, y, past, KeyStep.Dispatch(b), grp)
  {
    if x.e.s.mailbox != [] && FreshJoin(x.k, x.e.s.mailbox[0].action, b, grp, past.keys) {
      DispatchJoint(x, y, past, grp, b);
    }
  }

  lemma StepJoint(x: Side, y: Side, past: Past, step: KeyStep, grp: Group)
    requires grp.Valid() && Joint(x, y, past, grp)
    ensures StepKeeps(x, y, past, step, grp)
  {
    match step
    case Say(action) => SayKeeps(x, y, past, grp, action);
    case Ask => AskJoint(x, y, past, grp);
    case Begin(xid, secret) => BeginKeeps(x, y, past, grp, xid, secret);
    case Arrival(slot) => ArriveKeeps(x, y, past, grp, slot);
    case Dispatch(b) => DispatchKeeps(x, y, past, grp, b);
  }

  // ---- Runs ----

  datatype World = World(a: Side, b: Side, past: Past)

  datatype KeyMove = KeyMove(byA: bool, step: KeyStep)

  function Opened(key: Key): World {
    World(
      Side(Delivery.Start().a, Established(key), [], 0, 0),
      Side(Delivery.Start().b, Established(key), [], 0, 0),
      Past([key], {}, {}))
  }

  ghost predicate WorldInv(w: World, grp: Group)
    requires grp.Valid()
  {
    Joint(w.a, w.b, w.past, grp)
  }

  lemma JointFlips(x: Side, y: Side, past: Past, grp: Group)
    requires grp.Valid() && Joint(x, y, past, grp)
    ensures Joint(y, x, past, grp)
  {
    assert PairOf(y, x) == Flip(PairOf(x, y));
  }

  lemma OpenedInv(key: Key, grp: Group)
    requires grp.Valid()
    ensures WorldInv(Opened(key), grp)
  {
    InitialInv();
    var w := Opened(key);
    assert Idle(PairOf(w.a, w.b));
  }

  /** The indices a step reads exist. */
  predicate Shaped(x: Side, y: Side, past: Past) {
    && y.seen <= |x.e.sent| && x.seen <= |y.e.sent|
    && |y.epochs| == |y.e.sent| && forall n :: 0 <= n < |y.epochs| ==> y.epochs[n] < |past.keys|
  }

  ghost function Advanced(w: World, move: KeyMove, grp: Group): Result<World>
    requires grp.Valid()
  {
    if move.byA then
      if !Shaped(w.a, w.b, w.past) then Err("malformed")
      else
        var turn :- StepSide(w.a, w.b, w.past, move.step, grp);
        Ok(World(turn.x, w.b, turn.past))
    else
      if !Shaped(w.b, w.a, w.past) then Err("malformed")
      else
        var turn :- StepSide(w.b, w.a, w.past, move.step, grp);
        Ok(World(w.a, turn.x, turn.past))
  }

  predicate ClosesWorld(w: World, move: KeyMove, grp: Group)
    requires grp.Valid()
  {
    if move.byA then Closes(w.a, w.b, w.past, move.step, grp) else Closes(w.b, w.a, w.past, move.step, grp)
  }

  lemma AdvancedInv(w: World, move: KeyMove, grp: Group)
    requires grp.Valid() && WorldInv(w, grp)
    ensures Advanced(w, move, grp).Err? <==> ClosesWorld(w, move, grp)
    ensures Advanced(w, move, grp).Ok? ==> WorldInv(Advanced(w, move, grp).value, grp)
  {
    if move.byA {
      StepJoint(w.a, w.b, w.past, move.step, grp);
    } else {
      JointFlips(w.a, w.b, w.past, grp);
      StepJoint(w.b, w.a, w.past, move.step, grp);
      if StepSide(w.b, w.a, w.past, move.step, grp).Ok? {
        var turn := StepSide(w.b, w.a, w.past, move.step, grp).value;
        JointFlips(turn.x, w.a, turn.past, grp);
      }
    }
  }

  ghost function RunKeys(w: World, moves: seq<KeyMove>, grp: Group): Result<World>
    requires grp.Valid()
    decreases |moves|
  {
    if moves == [] then Ok(w)
    else
      var next :- Advanced(w, moves[0], grp);
      RunKeys(next, moves[1..], grp)
  }

  /** No step of the run closes the chat. */
  ghost predicate StaysOpen(w: World, moves: seq<KeyMove>, grp: Group)
    requires grp.Valid()
    decreases |moves|
  {
    moves != [] ==>
      && !ClosesWorld(w, moves[0], grp)
      && (Advanced(w, moves[0], grp).Ok? ==> StaysOpen(Advanced(w, moves[0], grp).value, moves[1..], grp))
  }

  lemma {:induction false} RunKeysInv(w: World, moves: seq<KeyMove>, grp: Group)
    requires grp.Valid() && WorldInv(w, grp)
    ensures RunKeys(w, moves, grp).Ok? <==> StaysOpen(w, moves, grp)
    ensures RunKeys(w, moves, grp).Ok? ==> WorldInv(RunKeys(w, moves, grp).value, grp)
    decreases |moves|
  {
    if moves == [] {
    } else {
      AdvancedInv(w, moves[0], grp);
      if Advanced(w, moves[0], grp).Ok? { RunKeysInv(Advanced(w, moves[0], grp).value, moves[1..], grp); }
    }
  }

  /** Every slot `y` committed and `x` has not accepted is under a key `x` still holds. */
  ghost predicate Openable(x: Side, y: Side, past: Past)
    requires |y.epochs| == |y.e.sent| && forall n :: 0 <= n < |y.epochs| ==> y.epochs[n] < |past.keys|
  {
    forall n :: x.e.s.inSeq <= n < |y.e.sent| ==> SelectKey(x.k, past.keys[y.epochs[n]]).Some?
  }

  lemma NothingStranded(x: Side, y: Side, past: Past, grp: Group)
    requires grp.Valid() && Joint(x, y, past, grp)
    ensures Openable(x, y, past)
  {
    forall n | x.e.s.inSeq <= n < |y.e.sent| ensures SelectKey(x.k, past.keys[y.epochs[n]]).Some? {
      NamedKey(x, y, past, grp, n, y.epochs[n]);
    }
  }

  /** The two-key window, over any number of rekeys and any interleaving: the run closes only on a frame from
      beyond the recovery window or a refused public value; in every state it reaches, no unaccepted frame is
      under a key its receiver has dropped, the ends are at most one switch apart, equally switched ends hold
      the same key, and each holds at most two keys. */
  lemma TwoKeyWindow(key: Key, moves: seq<KeyMove>, grp: Group)
    requires grp.Valid()
    ensures RunKeys(Opened(key), moves, grp).Ok? <==> StaysOpen(Opened(key), moves, grp)
    ensures RunKeys(Opened(key), moves, grp).Ok? ==>
      var w := RunKeys(Opened(key), moves, grp).value;
      && Shaped(w.a, w.b, w.past) && Shaped(w.b, w.a, w.past)
      && Openable(w.a, w.b, w.past) && Openable(w.b, w.a, w.past)
      && KeysOk(w.a.k) && KeysOk(w.b.k)
      && w.a.epoch <= w.b.epoch + 1 && w.b.epoch <= w.a.epoch + 1
      && (w.a.epoch == w.b.epoch ==> w.a.k.key == w.b.k.key)
      && !(w.a.k.pending.Some? && w.a.k.previous.Some?) && !(w.b.k.pending.Some? && w.b.k.previous.Some?)
  {
    OpenedInv(key, grp);
    RunKeysInv(Opened(key), moves, grp);
    if RunKeys(Opened(key), moves, grp).Ok? {
      var w := RunKeys(Opened(key), moves, grp).value;
      NothingStranded(w.a, w.b, w.past, grp);
      JointFlips(w.a, w.b, w.past, grp);
      NothingStranded(w.b, w.a, w.past, grp);
    }
  }

  /** In every reachable state at most one end has accepted an exchange, and the other end still asks under the
      same id and will derive the accepted key, or has switched to it, or has an abort of it under way. */
  lemma OneExchangeSurvives(key: Key, moves: seq<KeyMove>, grp: Group)
    requires grp.Valid() && RunKeys(Opened(key), moves, grp).Ok?
    ensures var w := RunKeys(Opened(key), moves, grp).value;
      && Shaped(w.a, w.b, w.past) && Shaped(w.b, w.a, w.past)
      && (Accepting(w.a.k) ==> SettledOn(PairOf(w.a, w.b), grp))
      && (Accepting(w.b.k) ==> SettledOn(PairOf(w.b, w.a), grp))
  {
    OpenedInv(key, grp);
    RunKeysInv(Opened(key), moves, grp);
    var w := RunKeys(Opened(key), moves, grp).value;
    JointFlips(w.a, w.b, w.past, grp);
    if Accepting(w.a.k) { OneExchange(PairOf(w.a, w.b), grp, w.past.keys); }
    if Accepting(w.b.k) { OneExchange(PairOf(w.b, w.a), grp, w.past.keys); }
  }
}
