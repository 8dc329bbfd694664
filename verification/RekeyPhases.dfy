/** What two ends can be doing together about a rekey: every joint phase, and the step out of each. */
module RekeyPhases {
  import opened Prelude
  import opened Framing
  import opened Dh
  import opened Rekey

  /** The exchange as both ends see it: key slots, the exchange actions committed by each end and not yet
      handled by the other (commitments apart), and how often each end has switched keys. */
  datatype Pair = Pair(kx: Keys, ky: Keys, tx: seq<Action>, ty: seq<Action>, ex: nat, ey: nat)

  function Flip(p: Pair): Pair { Pair(p.ky, p.kx, p.ty, p.tx, p.ey, p.ex) }

  predicate IsTalk(a: Action) { a.RequestKey? || a.AcceptKey? || a.AbortKey? }

  predicate Asking(k: Keys) { k.role == Some(Requester) && k.xid.Some? && k.secret.Some? }

  predicate Accepting(k: Keys) { k.role == Some(Acceptor) && k.xid.Some? && k.pending.Some? }

  function Offer(k: Keys, grp: Group): Action
    requires grp.Valid() && Asking(k)
  {
    RequestKey(k.xid.value, Publish(grp, k.secret.value))
  }

  /** The newest request of an end that asks again behind an older unhandled action. */
  function Tail(k: Keys, grp: Group): seq<Action>
    requires grp.Valid()
  {
    if Asking(k) then [Offer(k, grp)] else []
  }

  predicate FreeOrAsking(k: Keys) { k.xid.None? || Asking(k) }

  predicate Idle(p: Pair) {
    p.kx.xid.None? && p.ky.xid.None? && p.tx == [] && p.ty == [] && p.ex == p.ey
  }

  /** x's request is on its way to an end without an exchange. */
  predicate Offered(p: Pair, grp: Group)
    requires grp.Valid()
  {
    Asking(p.kx) && p.ky.xid.None? && p.tx == [Offer(p.kx, grp)] && p.ty == [] && p.ex == p.ey
  }

  /** Both asked, neither has seen the other's request. */
  predicate Crossed(p: Pair, grp: Group)
    requires grp.Valid()
  {
    && Asking(p.kx) && Asking(p.ky) && p.ex == p.ey
    && p.tx == [Offer(p.kx, grp)] && p.ty == [Offer(p.ky, grp)]
  }

  /** y abandoned x's request because its own id is greater; x has yet to see y's. */
  predicate Lost(p: Pair, grp: Group)
    requires grp.Valid()
  {
    && Asking(p.kx) && Asking(p.ky) && p.ex == p.ey && p.kx.xid.value < p.ky.xid.value
    && p.tx == [] && p.ty == [Offer(p.ky, grp)]
  }

  /** Equal ids: y dropped both instances, and x will when it sees y's request. */
  predicate Tied(p: Pair, grp: Group)
    requires grp.Valid()
  {
    && Asking(p.kx) && FreeOrAsking(p.ky) && p.ex == p.ey
    && p.tx == [] && |p.ty| > 0 && p.ty[0].RequestKey? && p.ty[0].xid == p.kx.xid.value
    && p.ty[1..] == Tail(p.ky, grp)
  }

  /** y still held its previous key and declined x's request. */
  predicate Declined(p: Pair, grp: Group)
    requires grp.Valid()
  {
    && Asking(p.kx) && FreeOrAsking(p.ky) && p.ex == p.ey
    && p.tx == [] && |p.ty| > 0 && p.ty[0] == AbortKey(p.kx.xid.value)
    && p.ty[1..] == Tail(p.ky, grp)
  }

  /** y accepted x's request; the key it derived is the one x will derive. */
  predicate Joined(p: Pair, grp: Group, hist: seq<Key>)
    requires grp.Valid()
  {
    && Asking(p.kx) && Accepting(p.ky) && p.kx.xid == p.ky.xid && p.ex == p.ey
    && p.tx == [] && |p.ty| > 0
    && (var last := p.ty[|p.ty| - 1];
        && last.AcceptKey? && last.xid == p.kx.xid.value
        && last.claimed == p.ky.pending.value
        && PowMod(last.gB, p.kx.secret.value, grp.p) == last.claimed
        && last.claimed !in hist)
    && (|p.ty| == 2 ==> p.ty[0].RequestKey? && p.ty[0].xid < p.kx.xid.value)
    && |p.ty| <= 2
  }

  /** x switched; y still encrypts under the key x keeps as its previous one. */
  predicate Committed(p: Pair) {
    && p.kx.xid.None? && Accepting(p.ky) && p.tx == [] && p.ty == []
    && p.ex == p.ey + 1 && p.ky.pending.value == p.kx.key && p.kx.previous == Some(p.ky.key)
  }

  /** x refused y's public value before committing. */
  predicate Aborted(p: Pair, grp: Group, hist: seq<Key>)
    requires grp.Valid()
  {
    && FreeOrAsking(p.kx) && Accepting(p.ky) && p.ex == p.ey && p.ty == []
    && |p.tx| > 0 && p.tx[0] == AbortKey(p.ky.xid.value) && p.tx[1..] == Tail(p.kx, grp)
    && p.ky.pending.value !in hist
  }

  ghost predicate Phase(p: Pair, grp: Group, hist: seq<Key>)
    requires grp.Valid()
  {
    || Idle(p) || Offered(p, grp) || Crossed(p, grp) || Lost(p, grp) || Tied(p, grp) || Declined(p, grp)
    || Joined(p, grp, hist) || Committed(p) || Aborted(p, grp, hist)
  }

  /** The joint invariant of an exchange, whichever end is named first. */
  ghost predicate Talk(p: Pair, grp: Group, hist: seq<Key>)
    requires grp.Valid()
  {
    && KeysOk(p.kx) && KeysOk(p.ky)
    && (Phase(p, grp, hist) || Phase(Flip(p), grp, hist))
  }

  /** x asks while it holds no exchange and no previous key. */
  lemma BeginTalk(p: Pair, grp: Group, hist: seq<Key>, xid: int, secret: nat)
    requires grp.Valid() && Talk(p, grp, hist) && MayStart(p.kx)
    ensures BeginExchange(p.kx, xid, secret).Ok?
    ensures var k := BeginExchange(p.kx, xid, secret).value;
      Talk(p.(kx := k, tx := p.tx + [RequestKey(xid, Publish(grp, secret))]), grp, hist)
  {
    var k := BeginExchange(p.kx, xid, secret).value;
    var q := p.(kx := k, tx := p.tx + [Offer(k, grp)]);
    if Idle(p) || Idle(Flip(p)) { assert Offered(q, grp); }
    else if Offered(Flip(p), grp) { assert Crossed(q, grp); }
    else if Tied(Flip(p), grp) { assert Tied(Flip(q), grp); }
    else if Declined(Flip(p), grp) { assert Declined(Flip(q), grp); }
    else { assert Aborted(q, grp, hist); }
  }

  // ---- Handling the head of what the peer said ----

  /** The pair after x handles the head of `ty`; a switch counts in `ex`. */
  function Handled(p: Pair, effect: Effect): Pair
    requires |p.ty| > 0
  {
    var said := if effect.reply.Some? && IsTalk(effect.reply.value) then [effect.reply.value] else [];
    p.(kx := effect.keys, tx := p.tx + said, ty := p.ty[1..],
       ex := if effect.keys.key != p.kx.key then p.ex + 1 else p.ex)
  }

  /** The handling x can refuse for good: joining on a public value out of range. */
  predicate RefusesValue(k: Keys, action: Action, grp: Group) {
    && action.RequestKey? && !PeerValueOk(action.gA, grp) && k.previous.None?
    && (k.xid.None? || (Asking(k) && k.xid.value < action.xid))
  }

  /** The key x would join with; random secrets make it one never used before in this chat. */
  predicate FreshJoin(k: Keys, action: Action, b: nat, grp: Group, hist: seq<Key>)
    requires grp.Valid()
  {
    action.RequestKey? ==> PowMod(action.gA, b, grp.p) !in hist
  }

  lemma JoinTalk(p: Pair, grp: Group, hist: seq<Key>, b: nat)
    requires grp.Valid() && KeysOk(p.kx) && KeysOk(p.ky) && |p.ty| == 1 && Asking(p.ky) && p.ex == p.ey
    requires p.kx.previous.None? && p.ty[0] == Offer(p.ky, grp) && PeerValueOk(p.ty[0].gA, grp)
    requires FreshJoin(p.kx, p.ty[0], b, grp, hist) && p.kx.key in hist
    requires (p.kx.xid.None? && p.tx == []) || (Asking(p.kx) && p.kx.xid.value < p.ky.xid.value)
    requires p.tx == [] || (Asking(p.kx) && p.tx == [Offer(p.kx, grp)])
    ensures Join(p.kx, p.ty[0].xid, p.ty[0].gA, b, grp).Ok?
    ensures Talk(Handled(p, Join(p.kx, p.ty[0].xid, p.ty[0].gA, b, grp).value), grp, hist)
  {
    Agreement(grp.g, p.ky.secret.value, b, grp.p);
    var effect := Join(p.kx, p.ty[0].xid, p.ty[0].gA, b, grp).value;
    var q := Handled(p, effect);
    assert Joined(Flip(q), grp, hist);
  }

  lemma HandleOffered(p: Pair, grp: Group, hist: seq<Key>, b: nat)
    requires grp.Valid() && Talk(p, grp, hist) && Offered(Flip(p), grp) && p.kx.key in hist
    requires !RefusesValue(p.kx, p.ty[0], grp) && FreshJoin(p.kx, p.ty[0], b, grp, hist)
    ensures Handle(p.kx, p.ty[0], b, grp).Ok?
    ensures Talk(Handled(p, Handle(p.kx, p.ty[0], b, grp).value), grp, hist)
  {
    if p.kx.previous.Some? {
      var q := Handled(p, Handle(p.kx, p.ty[0], b, grp).value);
      assert Declined(Flip(q), grp);
    } else {
      JoinTalk(p, grp, hist, b);
    }
  }

  lemma HandleCrossed(p: Pair, grp: Group, hist: seq<Key>, b: nat)
    requires grp.Valid() && Talk(p, grp, hist) && Crossed(p, grp) && p.kx.key in hist
    requires !RefusesValue(p.kx, p.ty[0], grp) && FreshJoin(p.kx, p.ty[0], b, grp, hist)
    ensures Handle(p.kx, p.ty[0], b, grp).Ok?
    ensures Talk(Handled(p, Handle(p.kx, p.ty[0], b, grp).value), grp, hist)
  {
    var q := Handled(p, Handle(p.kx, p.ty[0], b, grp).value);
    if p.kx.xid.value < p.ky.xid.value { JoinTalk(p, grp, hist, b); }
    else if p.kx.xid.value > p.ky.xid.value { assert Lost(Flip(q), grp); }
    else { assert Tied(Flip(q), grp); }
  }

  lemma HandleLost(p: Pair, grp: Group, hist: seq<Key>, b: nat)
    requires grp.Valid() && Talk(p, grp, hist) && Lost(p, grp) && p.kx.key in hist
    requires !RefusesValue(p.kx, p.ty[0], grp) && FreshJoin(p.kx, p.ty[0], b, grp, hist)
    ensures Handle(p.kx, p.ty[0], b, grp).Ok?
    ensures Talk(Handled(p, Handle(p.kx, p.ty[0], b, grp).value), grp, hist)
  {
    JoinTalk(p, grp, hist, b);
  }

  lemma ClearedTalk(p: Pair, q: Pair, grp: Group, hist: seq<Key>)
    requires grp.Valid() && KeysOk(p.kx) && KeysOk(p.ky) && FreeOrAsking(p.ky) && p.ex == p.ey && p.tx == []
    requires |p.ty| > 0 && p.ty[1..] == Tail(p.ky, grp) && p.kx.xid.Some?
    requires q == p.(kx := Clear(p.kx), ty := p.ty[1..])
    ensures Talk(q, grp, hist)
  {
    if Asking(p.ky) { assert Offered(Flip(q), grp); } else { assert Idle(q); }
  }

  lemma HandleTiedOrDeclined(p: Pair, grp: Group, hist: seq<Key>, b: nat)
    requires grp.Valid() && Talk(p, grp, hist) && (Tied(p, grp) || Declined(p, grp))
    ensures Handle(p.kx, p.ty[0], b, grp) == Ok(Effect(Clear(p.kx), None, true))
    ensures Talk(Handled(p, Effect(Clear(p.kx), None, true)), grp, hist)
  {
    ClearedTalk(p, Handled(p, Effect(Clear(p.kx), None, true)), grp, hist);
  }

  lemma HandleAborted(p: Pair, grp: Group, hist: seq<Key>, b: nat)
    requires grp.Valid() && Talk(p, grp, hist) && Aborted(Flip(p), grp, hist)
    ensures Handle(p.kx, p.ty[0], b, grp) == Ok(Effect(Clear(p.kx), None, true))
    ensures Talk(Handled(p, Effect(Clear(p.kx), None, true)), grp, hist)
  {
    ClearedTalk(p, Handled(p, Effect(Clear(p.kx), None, true)), grp, hist);
  }

  /** x switched to a key never used before, and said so under the old one. */
  predicate Switched(p: Pair, effect: Effect, hist: seq<Key>)
    requires |p.ty| > 0
  {
    && p.kx.previous.None? && p.ky.xid.Some? && Committed(Handled(p, effect)) && effect.keys.key !in hist
    && effect.reply == Some(CommitKey(p.ky.xid.value, effect.keys.key)) && !effect.keys.confirmed
    && effect.applied && p.ty[0].AcceptKey? && p.ty[0].xid == p.ky.xid.value
  }

  lemma HandleJoined(p: Pair, grp: Group, hist: seq<Key>, b: nat)
    requires grp.Valid() && Talk(p, grp, hist) && Joined(p, grp, hist)
    requires p.kx.key in hist && p.kx.key == p.ky.key
    ensures Handle(p.kx, p.ty[0], b, grp).Ok?
    ensures var effect := Handle(p.kx, p.ty[0], b, grp).value;
      && (effect.keys.key != p.kx.key ==> Switched(p, effect, hist))
      && (effect.keys.key == p.kx.key ==> Quiet(p, p.ty[0], effect))
      && Talk(Handled(p, effect), grp, hist)
  {
    var effect := Handle(p.kx, p.ty[0], b, grp).value;
    var q := Handled(p, effect);
    if |p.ty| == 2 {
      assert effect == Effect(p.kx, None, false);
      assert q.ty == [p.ty[1]];
      assert Joined(q, grp, hist);
    } else if PeerValueOk(p.ty[0].gB, grp) {
      assert effect.keys.key == p.ty[0].claimed;
      assert Committed(q);
    } else {
      assert Aborted(q, grp, hist);
    }
  }

  /** The handling switched no key: at most an exchange action was said, under the current key, and the
      exchange x is left with is the one it had, none, or the peer's. */
  predicate Quiet(p: Pair, action: Action, effect: Effect) {
    && (effect.reply.Some? ==> IsTalk(effect.reply.value))
    && !(effect.applied && action.AcceptKey?)
    && effect.keys.key == p.kx.key && effect.keys.previous == p.kx.previous && effect.keys.confirmed == p.kx.confirmed
    && (effect.keys.xid == p.kx.xid || effect.keys.xid.None? || effect.keys.xid == p.ky.xid)
    && !Committed(p) && !Committed(Flip(p))
  }

  /** One end handles what the other said, in whatever phase the two are: the joint invariant survives, a
      refusal is a public value out of range, and a switch happens exactly on an acceptance. */
  lemma HandleTalk(p: Pair, grp: Group, hist: seq<Key>, b: nat)
    requires grp.Valid() && Talk(p, grp, hist) && |p.ty| > 0
    requires p.kx.key in hist && (p.ex == p.ey ==> p.kx.key == p.ky.key)
    requires FreshJoin(p.kx, p.ty[0], b, grp, hist)
    ensures Handle(p.kx, p.ty[0], b, grp).Err? <==> RefusesValue(p.kx, p.ty[0], grp)
    ensures Handle(p.kx, p.ty[0], b, grp).Ok? ==>
      var effect := Handle(p.kx, p.ty[0], b, grp).value;
      && (effect.keys.key != p.kx.key ==> Switched(p, effect, hist))
      && (effect.keys.key == p.kx.key ==> Quiet(p, p.ty[0], effect))
      && Talk(Handled(p, effect), grp, hist)
  {
    if Joined(p, grp, hist) {
      HandleJoined(p, grp, hist, b);
    } else if Aborted(Flip(p), grp, hist) {
      HandleAborted(p, grp, hist, b);
    } else if Tied(p, grp) || Declined(p, grp) {
      HandleTiedOrDeclined(p, grp, hist, b);
    } else if !RefusesValue(p.kx, p.ty[0], grp) {
      if Offered(Flip(p), grp) { HandleOffered(p, grp, hist, b); }
      else if Crossed(p, grp) || Crossed(Flip(p), grp) { HandleCrossed(p, grp, hist, b); }
      else { HandleLost(p, grp, hist, b); }
    }
  }

  // ---- Steps that say nothing ----

  /** x accepted and y committed: x takes the pending key, on a frame under it or on the commitment. */
  lemma SwitchTalk(p: Pair, grp: Group, hist: seq<Key>, confirmed: bool)
    requires grp.Valid() && Talk(p, grp, hist) && Accepting(p.kx) && Committed(Flip(p))
    ensures CanMove(p.kx.state, Ready)
    ensures var k := AdoptNewKey(p.kx, p.kx.pending.value).(state := Ready, confirmed := confirmed);
      var q := p.(kx := k, ex := p.ex + 1);
      Talk(q, grp, hist) && Idle(q)
  {
  }

  lemma KeepTalk(p: Pair, grp: Group, hist: seq<Key>, k: Keys)
    requires grp.Valid() && Talk(p, grp, hist)
    requires k == p.kx.(confirmed := k.confirmed, previous := k.previous)
    requires k.previous == p.kx.previous || (k.previous == None && !Committed(p))
    ensures Talk(p.(kx := k), grp, hist)
  {
    var q := p.(kx := k);
    if Phase(p, grp, hist) {
      assert Phase(q, grp, hist);
    } else {
      assert Phase(Flip(q), grp, hist);
    }
  }

  /** x accepted; y still asks under the same id and will derive the accepted key, or has switched to that key,
      or its abort is on the way. */
  ghost predicate SettledOn(p: Pair, grp: Group)
    requires grp.Valid() && Accepting(p.kx)
  {
    && !Accepting(p.ky)
    && (|| (Asking(p.ky) && p.ky.xid == p.kx.xid
            && exists i :: 0 <= i < |p.tx| && p.tx[i].AcceptKey? && p.tx[i].claimed == p.kx.pending.value
                 && PowMod(p.tx[i].gB, p.ky.secret.value, grp.p) == p.kx.pending.value)
        || (p.ky.key == p.kx.pending.value && p.ky.previous == Some(p.kx.key) && p.ey == p.ex + 1)
        || AbortKey(p.kx.xid.value) in p.ty)
  }

  lemma OneExchange(p: Pair, grp: Group, hist: seq<Key>)
    requires grp.Valid() && Talk(p, grp, hist) && Accepting(p.kx)
    ensures SettledOn(p, grp)
  {
    if Joined(Flip(p), grp, hist) {
      assert p.tx[|p.tx| - 1].AcceptKey?;
    } else if Aborted(Flip(p), grp, hist) {
      assert p.ty[0] in p.ty;
    }
  }
}
