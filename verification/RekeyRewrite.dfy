/** Withdrawn content on top of rekeying: a slot rewritten under a newer key, and exactly when that is harmless. */
module RekeyRewrite {
  import opened Prelude
  import opened Framing
  import opened Sequence
  import opened Delivery
  import opened Dh
  import opened Rekey
  import opened RekeyPhases
  import opened RekeyRun

  /** One end, and every withdrawn frame it ever wrote: the slot, and the epoch of the key that encrypts it. */
  datatype Writer = Writer(side: Side, rewrites: set<(nat, nat)>)

  datatype Event = Ordinary(step: KeyStep) | Rewrite(ids: set<int>) | Rewritten(slot: nat, epoch: nat)

  ghost predicate RewritesOk(y: Writer) {
    && |y.side.epochs| == |y.side.e.sent|
    && forall r :: r in y.rewrites ==>
         && r.0 < |y.side.e.sent| && y.side.e.sent[r.0].action.Content?
         && y.side.epochs[r.0] <= r.1 <= y.side.epoch
  }

  /** Slot n is retained as content that is now withdrawn. */
  predicate Withdraws(x: Side, n: int, ids: set<int>) {
    && 0 <= n < |x.e.sent| && x.e.sent[n].action.Content? && x.e.sent[n].action.id in ids
    && TransformOut(n, x.e.s.outbound) in x.e.s.outbox
    && x.e.s.outbox[TransformOut(n, x.e.s.outbound)].wrapper.action.Content?
  }

  /** Withdrawing rewrites each retained slot under the current key. */
  function Rewrites(x: Writer, ids: set<int>): Writer {
    var e := x.side.e;
    Writer(
      x.side.(e := End(Withdraw(e.s, ids, x.side.k.key), e.sent, e.got)),
      x.rewrites + set n: nat | n < |e.sent| && Withdraws(x.side, n, ids) :: (n, x.side.epoch))
  }

  ghost function EventAt(x: Writer, y: Writer, past: Past, event: Event, grp: Group): Result<(Writer, Past)>
    requires grp.Valid() && Shaped(x.side, y.side, past) && RewritesOk(y) && y.side.epoch < |past.keys|
  {
    match event
    case Ordinary(step) =>
      var turn :- StepSide(x.side, y.side, past, step, grp);
      Ok((x.(side := turn.x), turn.past))
    case Rewrite(ids) => Ok((Rewrites(x, ids), past))
    case Rewritten(slot, epoch) =>
      if (slot, epoch) !in y.rewrites then Ok((x, past))
      else
        var side :- ArrivedAs(x.side, FrameOf(y.side.e.sent[slot], true), past.keys[epoch]);
        Ok((x.(side := side), past))
  }

  ghost predicate Both(x: Writer, y: Writer, past: Past, grp: Group)
    requires grp.Valid()
  {
    Joint(x.side, y.side, past, grp) && RewritesOk(x) && RewritesOk(y)
  }

  /** The event is no withdrawn frame that could strand a slot. */
  ghost predicate HarmlessEvent(x: Writer, y: Writer, event: Event)
    requires RewritesOk(y)
  {
    event.Rewritten? && (event.slot, event.epoch) in y.rewrites && Expected(x.side, event.slot) ==>
      Harmless(x.side, y.side, event.slot, event.epoch)
  }

  ghost predicate ClosesAt(x: Writer, y: Writer, past: Past, event: Event, grp: Group)
    requires grp.Valid()
  {
    match event
    case Ordinary(step) => Closes(x.side, y.side, past, step, grp)
    case Rewrite(_) => false
    case Rewritten(slot, epoch) => (slot, epoch) in y.rewrites && TooFar(x.side, slot)
  }

  /** An ordinary step only adds slots, and switches only forward. */
  lemma StepExtends(x: Side, y: Side, past: Past, step: KeyStep, grp: Group)
    requires grp.Valid() && Shaped(x, y, past) && |x.epochs| == |x.e.sent|
    requires StepSide(x, y, past, step, grp).Ok?
    ensures var x' := StepSide(x, y, past, step, grp).value.x;
      && x.e.sent <= x'.e.sent && x.epochs <= x'.epochs && |x'.epochs| == |x'.e.sent| && x.epoch <= x'.epoch
  {
  }

  /** Every frame a withdrawal writes is of a content slot, under the key the end has reached. */
  lemma RewritesRecorded(x: Writer, ids: set<int>, past: Past)
    requires RewritesOk(x) && SideOk(x.side, past)
    ensures RewritesOk(Rewrites(x, ids))
  {
  }

  lemma RewriteJoint(x: Writer, y: Writer, past: Past, grp: Group, ids: set<int>)
    requires grp.Valid() && Joint(x.side, y.side, past, grp)
    ensures Joint(Rewrites(x, ids).side, y.side, past, grp)
  {
    var s := x.side;
    var s' := Rewrites(x, ids).side;
    WithdrawHonest(s.e, y.side.e, ids, s.k.key);
    assert PairOf(s', y.side) == PairOf(s, y.side) && PairOf(y.side, s') == PairOf(y.side, s);
    ReadableKept(s, s', y.side);
    ReadableByAhead(y.side, s, s');
    CommitmentsKept(s, s', y.side, past, past);
    CommitmentsSeen(s, s', y.side, past);
  }

  lemma RewriteKeeps(x: Writer, y: Writer, past: Past, grp: Group, ids: set<int>)
    requires grp.Valid() && Both(x, y, past, grp)
    ensures Both(Rewrites(x, ids), y, past, grp)
  {
    RewritesRecorded(x, ids, past);
    RewriteJoint(x, y, past, grp, ids);
  }

  lemma RewrittenFrame(y: Writer, slot: nat, epoch: nat)
    requires RewritesOk(y) && (slot, epoch) in y.rewrites
    ensures Frames(y.side, slot, FrameOf(y.side.e.sent[slot], true), epoch)
  {
  }

  /** Harmless events keep the joint invariant; a chat still closes only on a jump or a refused value. */
  lemma EventKeeps(x: Writer, y: Writer, past: Past, event: Event, grp: Group)
    requires grp.Valid() && Both(x, y, past, grp) && HarmlessEvent(x, y, event)
    ensures EventAt(x, y, past, event, grp).Err? <==> ClosesAt(x, y, past, event, grp)
    ensures EventAt(x, y, past, event, grp).Ok? ==>
      var (x', past') := EventAt(x, y, past, event, grp).value;
      Both(x', y, past', grp)
  {
    match event
    case Ordinary(step) =>
      StepJoint(x.side, y.side, past, step, grp);
      if StepSide(x.side, y.side, past, step, grp).Ok? { StepExtends(x.side, y.side, past, step, grp); }
    case Rewrite(ids) => RewriteKeeps(x, y, past, grp, ids);
    case Rewritten(slot, epoch) =>
      if (slot, epoch) in y.rewrites {
        var w := FrameOf(y.side.e.sent[slot], true);
        RewrittenFrame(y, slot, epoch);
        FrameArrives(x.side, y.side, past, grp, slot, w, epoch);
        if ArrivedAs(x.side, w, past.keys[epoch]).Ok? { ArrivalKeeps(x.side, y.side, past, grp, slot, w, epoch); }
      }
  }

  // ---- When a withdrawn frame strands a slot ----

  /** x has confirmed its key, or dropped the old one already; slot m is under the old one, and above everything
      queued. */
  ghost predicate Doomed(x: Side, y: Side, past: Past, m: int) {
    && Inv(x.e, y.e) && Shaped(x, y, past)
    && (forall i, j :: 0 <= i <= j < |y.epochs| ==> y.epochs[i] <= y.epochs[j])
    && Distinct(past.keys) && 1 <= x.epoch < |past.keys| && x.k.key == past.keys[x.epoch] && x.k.pending.None?
    && (x.k.previous.Some? ==> x.k.previous.value == past.keys[x.epoch - 1] && x.k.confirmed)
    && (x.k.previous.Some? <==> x.e.s.gapRequested)
    && x.e.s.inSeq <= m < |y.e.sent| && m !in x.e.s.queue && y.epochs[m] == x.epoch - 1
    && (forall k :: x.e.s.inSeq <= k < |y.e.sent| ==> y.epochs[k] <= x.epoch <= y.epochs[k] + 1)
    && (forall q :: q in x.e.s.queue ==> q < m)
  }

  function Arrivals(slots: seq<nat>): seq<KeyMove> {
    if slots == [] then [] else [KeyMove(true, Arrival(slots[0]))] + Arrivals(slots[1..])
  }

  lemma DoomedNow(x: Side, y: Side, past: Past, m: int)
    requires Doomed(x, y, past, m) && x.k.previous.None?
    ensures !Openable(x, y, past)
  {
    assert past.keys[y.epochs[m]] != past.keys[x.epoch];
    assert SelectKey(x.k, past.keys[y.epochs[m]]).None?;
  }

  lemma DoomedHolds(x: Side, y: Side, past: Past, m: int)
    requires Doomed(x, y, past, m) && x.k.previous.Some?
    ensures Openable(x, y, past)
  {
  }

  /** While the hole is open, its first missing slot arrives under the old key and brings the end nearer. */
  lemma DoomedStep(x: Side, y: Side, past: Past, m: int, grp: Group)
    requires grp.Valid() && Doomed(x, y, past, m) && x.k.previous.Some?
    ensures x.e.s.inSeq < m
    ensures var n := x.e.s.inSeq as nat;
      && StepSide(x, y, past, Arrival(n), grp).Ok?
      && StepSide(x, y, past, Arrival(n), grp).value.past == past
      && Doomed(StepSide(x, y, past, Arrival(n), grp).value.x, y, past, m)
      && x.e.s.inSeq < StepSide(x, y, past, Arrival(n), grp).value.x.e.s.inSeq
  {
    DoomedHead(x, y, past, m);
    var n: nat := x.e.s.inSeq;
    ArrivedEnd(x, y, n, y.e.sent[n]);
    DoomedAfter(x, ArrivedAs(x, y.e.sent[n], past.keys[y.epochs[n]]).value, y, past, m);
  }

  lemma DoomedHead(x: Side, y: Side, past: Past, m: int)
    requires Doomed(x, y, past, m) && x.k.previous.Some?
    ensures x.e.s.inSeq < m && y.epochs[x.e.s.inSeq] == x.epoch - 1
    ensures SelectKey(x.k, past.keys[y.epochs[x.e.s.inSeq]]) == Some(InPrevious)
  {
    assert x.e.s.gapEnd.value in x.e.s.queue;
    assert past.keys[x.epoch - 1] != past.keys[x.epoch];
  }

  lemma DoomedAfter(x: Side, x': Side, y: Side, past: Past, m: int)
    requires Doomed(x, y, past, m) && x.e.s.inSeq != m && TookSlot(x, x', y, x.e.s.inSeq)
    requires x'.k == RetireIfSettled(x.k, x'.e.s.gapRequested) && x'.epoch == x.epoch && x.k.previous.Some?
    ensures Doomed(x', y, past, m)
  {
  }

  /** From there ordinary arrivals alone reach a state in which slot m cannot be opened. */
  lemma {:induction false} Strands(x: Side, y: Side, past: Past, m: int, grp: Group) returns (slots: seq<nat>)
    requires grp.Valid() && Doomed(x, y, past, m)
    ensures RunKeys(World(x, y, past), Arrivals(slots), grp).Ok?
    ensures var w := RunKeys(World(x, y, past), Arrivals(slots), grp).value;
      w.b == y && w.past == past && Shaped(w.a, y, past) && !Openable(w.a, y, past)
    decreases m - x.e.s.inSeq
  {
    if x.k.previous.None? {
      slots := [];
      DoomedNow(x, y, past, m);
    } else {
      DoomedStep(x, y, past, m, grp);
      var n: nat := x.e.s.inSeq;
      var x' := StepSide(x, y, past, Arrival(n), grp).value.x;
      var later := Strands(x', y, past, m, grp);
      slots := [n] + later;
      assert slots[1..] == later;
      assert Arrivals(slots)[1..] == Arrivals(later);
      assert Advanced(World(x, y, past), Arrivals(slots)[0], grp) == Ok(World(x', y, past));
    }
  }

  /** A missing slot under an older key, above slot n and everything queued. */
  ghost predicate Harmful(x: Side, y: Side, n: int, t: int, m: int) {
    && x.e.s.inSeq <= m < |y.e.sent| == |y.epochs| && m !in x.e.s.queue && n < m && y.epochs[m] < t
    && forall q :: q in x.e.s.queue ==> q <= m
  }

  lemma HarmfulSlot(x: Side, y: Side, n: int, t: int) returns (m: int)
    requires |y.epochs| == |y.e.sent| && !Harmless(x, y, n, t)
    ensures Harmful(x, y, n, t, m)
  {
    m :| x.e.s.inSeq <= m < |y.e.sent| && m !in x.e.s.queue && m != n && y.epochs[m] < t
      && m >= n && forall q :: q in x.e.s.queue ==> m >= q;
  }

  /** What a withdrawn frame that is not harmless leaves. */
  lemma NotHarmless(x: Side, y: Side, past: Past, grp: Group, n: nat, w: Wrapper, t: nat) returns (m: int)
    requires grp.Valid() && Joint(x, y, past, grp) && Frames(y, n, w, t) && Expected(x, n) && !Harmless(x, y, n, t)
    ensures ArrivedAs(x, w, past.keys[t]).Ok? && Doomed(ArrivedAs(x, w, past.keys[t]).value, y, past, m)
  {
    m := HarmfulSlot(x, y, n, t);
    FrameArrives(x, y, past, grp, n, w, t);
    NotHarmlessKeys(x, ArrivedAs(x, w, past.keys[t]).value, y, past, grp, n, t, m);
  }

  /** What the receiver's keys are once a confirming frame arrived: the old key is held just while a hole is open. */
  predicate Confirmed(x': Side, past: Past) {
    && 1 <= x'.epoch < |past.keys| && x'.k.key == past.keys[x'.epoch] && x'.k.pending.None?
    && (x'.k.previous.Some? ==> x'.k.previous.value == past.keys[x'.epoch - 1] && x'.k.confirmed)
    && (x'.k.previous.Some? <==> x'.e.s.gapRequested)
  }

  lemma NotHarmlessKeys(x: Side, x': Side, y: Side, past: Past, grp: Group, n: nat, t: nat, m: int)
    requires grp.Valid() && Joint(x, y, past, grp) && Expected(x, n) && n < |y.e.sent| && y.epochs[n] <= t <= y.epoch
    requires Harmful(x, y, n, t, m) && SelectKey(x.k, past.keys[t]).Some? && TookSlot(x, x', y, n)
    requires KeysAfter(x, x', SelectKey(x.k, past.keys[t]).value)
    ensures Doomed(x', y, past, m)
  {
    NamedKey(x, y, past, grp, n, t);
    if SelectKey(x.k, past.keys[t]).value.InPending? {
      SwitchConfirms(x, x', y, past, grp);
      OldSlots(x, y, m);
    } else {
      CurrentConfirms(x, x', y, past, grp, t, m);
    }
    DoomedSlots(x, x', y, past, n, m);
  }

  /** A frame under the current key confirms it: the old key is held just while a hole is open. */
  lemma CurrentConfirms(x: Side, x': Side, y: Side, past: Past, grp: Group, t: nat, m: int)
    requires grp.Valid() && SideOk(x, past) && SideOk(y, past) && Readable(x, y) && y.seen <= |x.e.sent|
      && x.seen <= |y.e.sent|
    requires Talk(PairOf(x, y), grp, past.keys)
    requires 0 <= t < |past.keys| && x.e.s.inSeq <= m < |y.e.sent| && y.epochs[m] < t
    requires match SelectKey(x.k, past.keys[t])
      case Some(Current) => t == x.epoch
      case Some(InPrevious) => t == x.epoch - 1
      case _ => false
    requires KeysAfter(x, x', SelectKey(x.k, past.keys[t]).value)
    ensures Confirmed(x', past) && y.epoch <= x'.epoch == x.epoch && y.epochs[m] == x.epoch - 1
  {
    assert Behind(x, y, m);
    NotAhead(x, y, past, grp);
  }

  /** While x holds its previous key, y has not switched again. */
  lemma NotAhead(x: Side, y: Side, past: Past, grp: Group)
    requires grp.Valid() && y.seen <= |x.e.sent| && x.seen <= |y.e.sent| && x.k.previous.Some?
    requires Talk(PairOf(x, y), grp, past.keys)
    ensures y.epoch <= x.epoch
  {
  }

  lemma SwitchConfirms(x: Side, x': Side, y: Side, past: Past, grp: Group)
    requires grp.Valid() && y.seen <= |x.e.sent| && x.seen <= |y.e.sent|
    requires Talk(PairOf(x, y), grp, past.keys) && x.k.pending.Some? && Switching(y, x)
    requires SideOk(x, past) && SideOk(y, past)
    requires x'.e.sent == x.e.sent && x'.seen == x.seen && x'.epoch == x.epoch + 1
    requires OnFrame(x.k, InPending, x'.e.s.gapRequested) == Ok(x'.k)
    ensures Confirmed(x', past) && y.epoch == x'.epoch && x.k.previous.None?
  {
    SwitchesTalk(x, x', y, past, grp);
  }

  /** Without a previous key nothing outstanding is older than the current one. */
  lemma OldSlots(x: Side, y: Side, m: int)
    requires |y.epochs| == |y.e.sent| && Readable(x, y) && x.k.previous.None? && x.e.s.inSeq <= m < |y.e.sent|
    ensures forall k :: x.e.s.inSeq <= k < |y.e.sent| ==> x.epoch <= y.epochs[k]
  {
    forall k | x.e.s.inSeq <= k < |y.e.sent| ensures x.epoch <= y.epochs[k] {
      if y.epochs[k] < x.epoch { assert Behind(x, y, k); }
    }
  }

  lemma DoomedSlots(x: Side, x': Side, y: Side, past: Past, n: int, m: int)
    requires SideOk(y, past) && Distinct(past.keys) && y.seen <= |x.e.sent| && x.seen <= |y.e.sent|
    requires TookSlot(x, x', y, n) && Confirmed(x', past) && x.e.s.inSeq <= n
    requires x.e.s.inSeq <= m < |y.e.sent| && m !in x.e.s.queue && m != n && n < m && y.epochs[m] == x'.epoch - 1
    requires forall q :: q in x.e.s.queue ==> m >= q
    requires y.epoch <= x'.epoch && forall k :: x.e.s.inSeq <= k < |y.e.sent| ==> x'.epoch <= y.epochs[k] + 1
    ensures Doomed(x', y, past, m)
  {
  }

  /** From the state a harmless frame leaves, every further run of ordinary steps keeps every outstanding slot
      readable at both ends. */
  lemma HarmlessStaysReadable(x: Side, y: Side, past: Past, grp: Group, n: nat, w: Wrapper, t: nat, moves: seq<KeyMove>)
    requires grp.Valid() && Joint(x, y, past, grp) && Frames(y, n, w, t) && Expected(x, n) && Harmless(x, y, n, t)
    ensures ArrivedAs(x, w, past.keys[t]).Ok? && ReadableAfter(ArrivedAs(x, w, past.keys[t]).value, y, past, moves, grp)
  {
    FrameArrives(x, y, past, grp, n, w, t);
    ArrivalKeeps(x, y, past, grp, n, w, t);
    JointReadable(ArrivedAs(x, w, past.keys[t]).value, y, past, moves, grp);
  }

  /** From the state any other frame leaves, ordinary arrivals alone reach a state with a slot that cannot be read. */
  lemma OtherwiseStrands(x: Side, y: Side, past: Past, grp: Group, n: nat, w: Wrapper, t: nat) returns (slots: seq<nat>)
    requires grp.Valid() && Joint(x, y, past, grp) && Frames(y, n, w, t) && Expected(x, n) && !Harmless(x, y, n, t)
    ensures ArrivedAs(x, w, past.keys[t]).Ok?
    ensures !ReadableAfter(ArrivedAs(x, w, past.keys[t]).value, y, past, Arrivals(slots), grp)
  {
    var m := NotHarmless(x, y, past, grp, n, w, t);
    slots := Strands(ArrivedAs(x, w, past.keys[t]).value, y, past, m, grp);
  }

  /** Exactly when a withdrawn frame may arrive: it is harmless if and only if, from the state it leaves, every
      further run of ordinary steps keeps every outstanding slot readable at both ends. */
  lemma RewrittenSlot(x: Side, y: Side, past: Past, grp: Group, n: nat, w: Wrapper, t: nat)
    requires grp.Valid() && Joint(x, y, past, grp) && Frames(y, n, w, t) && Expected(x, n)
    ensures ArrivedAs(x, w, past.keys[t]).Ok?
    ensures Harmless(x, y, n, t)
      <==> forall moves :: ReadableAfter(ArrivedAs(x, w, past.keys[t]).value, y, past, moves, grp)
  {
    if Harmless(x, y, n, t) {
      HarmlessStaysReadable(x, y, past, grp, n, w, t, []);
      forall moves ensures ReadableAfter(ArrivedAs(x, w, past.keys[t]).value, y, past, moves, grp) {
        HarmlessStaysReadable(x, y, past, grp, n, w, t, moves);
      }
    } else {
      var slots := OtherwiseStrands(x, y, past, grp, n, w, t);
    }
  }

  /** The final state of a run is readable: every slot either end committed and the other has not accepted is under
      a key the other still holds. */
  ghost predicate ReadableAfter(x: Side, y: Side, past: Past, moves: seq<KeyMove>, grp: Group)
    requires grp.Valid()
  {
    RunKeys(World(x, y, past), moves, grp).Ok? ==> ReadableWorld(RunKeys(World(x, y, past), moves, grp).value)
  }

  ghost predicate ReadableWorld(w: World) {
    && Shaped(w.a, w.b, w.past) && Shaped(w.b, w.a, w.past)
    && Openable(w.a, w.b, w.past) && Openable(w.b, w.a, w.past)
  }

  lemma JointReadable(x: Side, y: Side, past: Past, moves: seq<KeyMove>, grp: Group)
    requires grp.Valid() && Joint(x, y, past, grp)
    ensures ReadableAfter(x, y, past, moves, grp)
  {
    RunKeysInv(World(x, y, past), moves, grp);
    if RunKeys(World(x, y, past), moves, grp).Ok? { InvReadable(RunKeys(World(x, y, past), moves, grp).value, grp); }
  }

  lemma InvReadable(w: World, grp: Group)
    requires grp.Valid() && WorldInv(w, grp)
    ensures ReadableWorld(w)
  {
    NothingStranded(w.a, w.b, w.past, grp);
    JointFlips(w.a, w.b, w.past, grp);
    NothingStranded(w.b, w.a, w.past, grp);
  }

  // ---- The frame itself: whether the state it leaves is readable ----

  /** Some slot stays missing below a queued or arriving one. */
  ghost predicate HoleStays(x: Side, n: int) {
    exists k, q :: Hole(x, n, k, q)
  }

  predicate Hole(x: Side, n: int, k: int, q: int) {
    x.e.s.inSeq <= k < q && k !in x.e.s.queue && k != n && (q == n || q in x.e.s.queue)
  }

  /** No other missing slot is under an older key. */
  ghost predicate NoneOlder(x: Side, y: Side, n: int, t: int)
    requires |y.epochs| == |y.e.sent|
  {
    forall m :: x.e.s.inSeq <= m < |y.e.sent| && m !in x.e.s.queue && m != n ==> y.epochs[m] >= t
  }

  lemma GapAfter(x: Side, x': Side, y: Side, n: int)
    requires TookSlot(x, x', y, n) && x.e.s.inSeq <= n
    ensures x'.e.s.gapRequested <==> HoleStays(x, n)
  {
    if x'.e.s.gapRequested {
      var q := x'.e.s.gapEnd.value;
      assert Hole(x, n, x'.e.s.inSeq, q);
    }
    if k, q :| Hole(x, n, k, q) {
      assert q in x'.e.s.queue;
    }
  }

  /** The state a withdrawn frame leaves is readable if and only if a hole stays open or no other missing slot is
      under an older key. */
  lemma RewrittenNow(x: Side, y: Side, past: Past, grp: Group, n: nat, w: Wrapper, t: nat)
    requires grp.Valid() && Joint(x, y, past, grp) && Frames(y, n, w, t) && Expected(x, n)
    ensures ArrivedAs(x, w, past.keys[t]).Ok?
    ensures Openable(ArrivedAs(x, w, past.keys[t]).value, y, past) <==> HoleStays(x, n) || NoneOlder(x, y, n, t)
  {
    FrameArrives(x, y, past, grp, n, w, t);
    var x' := ArrivedAs(x, w, past.keys[t]).value;
    GapAfter(x, x', y, n);
    if Harmless(x, y, n, t) {
      ArrivalKeeps(x, y, past, grp, n, w, t);
      NothingStranded(x', y, past, grp);
      HarmlessHole(x, y, n, t);
    } else {
      var m := NotHarmless(x, y, past, grp, n, w, t);
      if x'.k.previous.None? { DoomedNow(x', y, past, m); } else { DoomedHolds(x', y, past, m); }
      NotHarmlessOlder(x, y, n, t);
    }
  }

  lemma HarmlessHole(x: Side, y: Side, n: int, t: int)
    requires |y.epochs| == |y.e.sent| && Harmless(x, y, n, t)
    ensures HoleStays(x, n) || NoneOlder(x, y, n, t)
  {
    if !NoneOlder(x, y, n, t) {
      var m :| x.e.s.inSeq <= m < |y.e.sent| && m !in x.e.s.queue && m != n && y.epochs[m] < t;
      if m < n {
        assert Hole(x, n, m, n);
      } else {
        var q :| q in x.e.s.queue && m < q;
        assert Hole(x, n, m, q);
      }
    }
  }

  lemma NotHarmlessOlder(x: Side, y: Side, n: int, t: int)
    requires |y.epochs| == |y.e.sent| && !Harmless(x, y, n, t)
    ensures !NoneOlder(x, y, n, t)
  {
  }

  // ---- Whole runs ----

  datatype Pairing = Pairing(a: Writer, b: Writer, past: Past)

  datatype Turned = Turned(byA: bool, event: Event)

  function Started(key: Key): Pairing {
    Pairing(Writer(Opened(key).a, {}), Writer(Opened(key).b, {}), Opened(key).past)
  }

  /** The indices an event reads exist. */
  ghost predicate WellShaped(x: Writer, y: Writer, past: Past) {
    Shaped(x.side, y.side, past) && RewritesOk(y) && y.side.epoch < |past.keys|
  }

  ghost function Next(w: Pairing, move: Turned, grp: Group): Result<Pairing>
    requires grp.Valid()
  {
    if move.byA then
      if !WellShaped(w.a, w.b, w.past) then Err("malformed")
      else
        var (x, past) :- EventAt(w.a, w.b, w.past, move.event, grp);
        Ok(Pairing(x, w.b, past))
    else
      if !WellShaped(w.b, w.a, w.past) then Err("malformed")
      else
        var (x, past) :- EventAt(w.b, w.a, w.past, move.event, grp);
        Ok(Pairing(w.a, x, past))
  }

  ghost predicate HarmlessMove(w: Pairing, move: Turned) {
    if move.byA then RewritesOk(w.b) ==> HarmlessEvent(w.a, w.b, move.event)
    else RewritesOk(w.a) ==> HarmlessEvent(w.b, w.a, move.event)
  }

  ghost predicate ClosesPairing(w: Pairing, move: Turned, grp: Group)
    requires grp.Valid()
  {
    if move.byA then ClosesAt(w.a, w.b, w.past, move.event, grp) else ClosesAt(w.b, w.a, w.past, move.event, grp)
  }

  ghost predicate PairingInv(w: Pairing, grp: Group)
    requires grp.Valid()
  {
    Both(w.a, w.b, w.past, grp)
  }

  lemma NextKeeps(w: Pairing, move: Turned, grp: Group)
    requires grp.Valid() && PairingInv(w, grp) && HarmlessMove(w, move)
    ensures Next(w, move, grp).Err? <==> ClosesPairing(w, move, grp)
    ensures Next(w, move, grp).Ok? ==> PairingInv(Next(w, move, grp).value, grp)
  {
    if move.byA {
      EventKeeps(w.a, w.b, w.past, move.event, grp);
    } else {
      JointFlips(w.a.side, w.b.side, w.past, grp);
      EventKeeps(w.b, w.a, w.past, move.event, grp);
      var next := EventAt(w.b, w.a, w.past, move.event, grp);
      if next.Ok? { JointFlips(next.value.0.side, w.a.side, next.value.1, grp); }
    }
  }

  ghost function RunAll(w: Pairing, moves: seq<Turned>, grp: Group): Result<Pairing>
    requires grp.Valid()
    decreases |moves|
  {
    if moves == [] then Ok(w)
    else
      var next :- Next(w, moves[0], grp);
      RunAll(next, moves[1..], grp)
  }

  /** Every withdrawn frame of the run is harmless when it arrives. */
  ghost predicate HarmlessRun(w: Pairing, moves: seq<Turned>, grp: Group)
    requires grp.Valid()
    decreases |moves|
  {
    moves != [] ==>
      && HarmlessMove(w, moves[0])
      && (Next(w, moves[0], grp).Ok? ==> HarmlessRun(Next(w, moves[0], grp).value, moves[1..], grp))
  }

  lemma {:induction false} RunAllInv(w: Pairing, moves: seq<Turned>, grp: Group)
    requires grp.Valid() && PairingInv(w, grp) && HarmlessRun(w, moves, grp)
    ensures RunAll(w, moves, grp).Ok? ==> PairingInv(RunAll(w, moves, grp).value, grp)
    decreases |moves|
  {
    if moves == [] {
    } else {
      NextKeeps(w, moves[0], grp);
      if Next(w, moves[0], grp).Ok? { RunAllInv(Next(w, moves[0], grp).value, moves[1..], grp); }
    }
  }

  /** Over any number of rekeys and withdrawals, in any order, with frames of every slot in every form it was ever
      written: while each withdrawn frame is harmless when it arrives, every outstanding slot stays readable. */
  lemma WithdrawnRunStaysReadable(key: Key, moves: seq<Turned>, grp: Group)
    requires grp.Valid() && HarmlessRun(Started(key), moves, grp) && RunAll(Started(key), moves, grp).Ok?
    ensures var w := RunAll(Started(key), moves, grp).value;
      ReadableWorld(World(w.a.side, w.b.side, w.past))
  {
    OpenedInv(key, grp);
    RunAllInv(Started(key), moves, grp);
    var w := RunAll(Started(key), moves, grp).value;
    InvReadable(World(w.a.side, w.b.side, w.past), grp);
  }

  /** And the first withdrawn frame that is not harmless ends that: ordinary arrivals alone then reach a state with
      a slot that can no longer be read. */
  lemma FirstHarmfulFrameStrands(key: Key, moves: seq<Turned>, byA: bool, slot: nat, epoch: nat, grp: Group)
    returns (slots: seq<nat>)
    requires grp.Valid() && HarmlessRun(Started(key), moves, grp) && RunAll(Started(key), moves, grp).Ok?
    requires var w := RunAll(Started(key), moves, grp).value;
      var (x, y) := if byA then (w.a, w.b) else (w.b, w.a);
      && RewritesOk(y) && (slot, epoch) in y.rewrites && Expected(x.side, slot)
      && !Harmless(x.side, y.side, slot, epoch)
    ensures var w := RunAll(Started(key), moves, grp).value;
      var (x, y) := if byA then (w.a, w.b) else (w.b, w.a);
      && WellShaped(x, y, w.past) && EventAt(x, y, w.past, Rewritten(slot, epoch), grp).Ok?
      && !ReadableAfter(EventAt(x, y, w.past, Rewritten(slot, epoch), grp).value.0.side, y.side, w.past,
        Arrivals(slots), grp)
  {
    OpenedInv(key, grp);
    RunAllInv(Started(key), moves, grp);
    var w := RunAll(Started(key), moves, grp).value;
    if byA {
      slots := HarmfulStrands(w.a, w.b, w.past, slot, epoch, grp);
    } else {
      JointFlips(w.a.side, w.b.side, w.past, grp);
      slots := HarmfulStrands(w.b, w.a, w.past, slot, epoch, grp);
    }
  }

  lemma HarmfulStrands(x: Writer, y: Writer, past: Past, slot: nat, epoch: nat, grp: Group) returns (slots: seq<nat>)
    requires grp.Valid() && Both(x, y, past, grp)
    requires (slot, epoch) in y.rewrites && Expected(x.side, slot) && !Harmless(x.side, y.side, slot, epoch)
    ensures WellShaped(x, y, past) && EventAt(x, y, past, Rewritten(slot, epoch), grp).Ok?
    ensures var after := EventAt(x, y, past, Rewritten(slot, epoch), grp).value.0.side;
      !ReadableAfter(after, y.side, past, Arrivals(slots), grp)
  {
    RewrittenFrame(y, slot, epoch);
    slots := OtherwiseStrands(x.side, y.side, past, grp, slot, FrameOf(y.side.e.sent[slot], true), epoch);
  }

  // ---- What the withdrawing end can see for itself ----

  /** Nothing sent after slot n is under an older key than number t. */
  predicate NothingOlder(y: Side, n: int, t: int) {
    forall m: nat :: n < m < |y.epochs| ==> y.epochs[m] >= t
  }

  lemma NothingOlderBehind(x: Side, y: Side, n: int, t: int)
    requires |y.epochs| == |y.e.sent| && 0 <= n && NothingOlder(y, n, t)
    ensures Harmless(x, y, n, t)
  {
  }

  /** For a receiver that lacks the slot and has nothing queued, the check is exact. */
  lemma OlderBehindDecides(x: Side, y: Side, n: int, t: int)
    requires |y.epochs| == |y.e.sent| && 0 <= x.e.s.inSeq <= n && x.e.s.queue == map[]
    ensures Harmless(x, y, n, t) <==> NothingOlder(y, n, t)
  {
    if m: nat :| n < m < |y.epochs| && y.epochs[m] < t {
      assert x.e.s.inSeq <= m < |y.e.sent| && m !in x.e.s.queue && m != n;
    }
  }

  /** What an end sends later is under the key it has now, or a newer one. */
  ghost predicate Later(y: Side, y': Side) {
    && y.epochs <= y'.epochs && y.epoch <= y'.epoch
    && (forall m :: |y.epochs| <= m < |y'.epochs| ==> y'.epochs[m] >= y.epoch)
  }

  lemma LaterAgain(x: Side, y: Side, z: Side)
    requires Later(x, y) && Later(y, z)
    ensures Later(x, z)
  {
  }

  lemma StepLater(x: Side, y: Side, past: Past, step: KeyStep, grp: Group)
    requires grp.Valid() && Shaped(x, y, past) && StepSide(x, y, past, step, grp).Ok?
    ensures Later(x, StepSide(x, y, past, step, grp).value.x)
  {
  }

  lemma NextLater(w: Pairing, move: Turned, grp: Group)
    requires grp.Valid() && Next(w, move, grp).Ok?
    ensures Later(w.a.side, Next(w, move, grp).value.a.side) && Later(w.b.side, Next(w, move, grp).value.b.side)
  {
    var (x, y) := if move.byA then (w.a, w.b) else (w.b, w.a);
    if move.event.Ordinary? { StepLater(x.side, y.side, w.past, move.event.step, grp); }
  }

  lemma {:induction false} RunLater(w: Pairing, moves: seq<Turned>, grp: Group)
    requires grp.Valid() && RunAll(w, moves, grp).Ok?
    ensures Later(w.a.side, RunAll(w, moves, grp).value.a.side) && Later(w.b.side, RunAll(w, moves, grp).value.b.side)
    decreases |moves|
  {
    if moves == [] {
    } else {
      var next := Next(w, moves[0], grp).value;
      var end := RunAll(w, moves, grp).value;
      NextLater(w, moves[0], grp);
      RunLater(next, moves[1..], grp);
      LaterAgain(w.a.side, next.a.side, end.a.side);
      LaterAgain(w.b.side, next.b.side, end.b.side);
    }
  }

  lemma LaterNothingOlder(y: Side, y': Side, n: int)
    requires Later(y, y') && NothingOlder(y, n, y.epoch)
    ensures NothingOlder(y', n, y.epoch)
  {
    forall m: nat | n < m < |y'.epochs| ensures y'.epochs[m] >= y.epoch {
      if m < |y.epochs| { assert y'.epochs[m] == y.epochs[m]; }
    }
  }

  /** So an end that has just withdrawn slot n, with nothing that it sent after that slot under an older key, has done
      no harm: in every state of every run from there, the rewritten frame is harmless if it arrives then. */
  lemma WithdrawnWithNothingOlder(w: Pairing, byA: bool, n: nat, moves: seq<Turned>, grp: Group)
    requires grp.Valid() && PairingInv(w, grp) && HarmlessRun(w, moves, grp) && RunAll(w, moves, grp).Ok?
    requires var y := if byA then w.a else w.b;
      (n, y.side.epoch) in y.rewrites && NothingOlder(y.side, n, y.side.epoch)
    ensures var t, end := (if byA then w.a else w.b).side.epoch, RunAll(w, moves, grp).value;
      var (x, y) := if byA then (end.b, end.a) else (end.a, end.b);
      RewritesOk(y) && Harmless(x.side, y.side, n, t)
  {
    RunAllInv(w, moves, grp);
    RunLater(w, moves, grp);
    var end := RunAll(w, moves, grp).value;
    if byA { HarmlessLater(w.a.side, end.a, end.b.side, n); } else { HarmlessLater(w.b.side, end.b, end.a.side, n); }
  }

  lemma HarmlessLater(y: Side, y': Writer, x': Side, n: nat)
    requires Later(y, y'.side) && RewritesOk(y') && NothingOlder(y, n, y.epoch)
    ensures Harmless(x', y'.side, n, y.epoch)
  {
    LaterNothingOlder(y, y'.side, n);
    NothingOlderBehind(x', y'.side, n, y.epoch);
  }

  /** A run and one more event. */
  lemma {:induction false} RunExtends(w0: Pairing, moves: seq<Turned>, move: Turned, grp: Group)
    requires grp.Valid() && RunAll(w0, moves, grp).Ok? && HarmlessRun(w0, moves, grp)
    requires HarmlessMove(RunAll(w0, moves, grp).value, move)
    ensures HarmlessRun(w0, moves + [move], grp)
    ensures RunAll(w0, moves + [move], grp) == Next(RunAll(w0, moves, grp).value, move, grp)
    decreases |moves|
  {
    if moves == [] {
      assert moves + [move] == [move] && [move][1..] == [];
    } else {
      var more := moves + [move];
      assert more[0] == moves[0] && more[1..] == moves[1..] + [move];
      RunExtends(Next(w0, moves[0], grp).value, moves[1..], move, grp);
    }
  }
}
