/** Perfect forward secrecy: the four-action exchange and the two-key window, as functions on values. */
module Rekey {
  import opened Prelude
  import opened Framing
  import opened Dh

  datatype ChatState = Inviting | Invited | Ready | Rekeying | Closed

  predicate CanMove(source: ChatState, target: ChatState) {
    match source
    case Inviting => target.Ready? || target.Closed?
    case Invited => target.Ready? || target.Closed?
    case Ready => target.Rekeying? || target.Closed?
    case Rekeying => target.Ready? || target.Closed?
    case Closed => false
  }

  datatype Role = Requester | Acceptor

  /** The key slots and the exchange of one chat. */
  datatype Keys = Keys(
    state: ChatState,
    key: Key,
    pending: Option<Key>,
    previous: Option<Key>,
    xid: Option<int>,
    secret: Option<nat>,
    role: Option<Role>,
    confirmed: bool)

  function Established(key: Key): Keys { Keys(Ready, key, None, None, None, None, None, false) }

  datatype Named = Current | InPending | InPrevious

  /** The held key a frame names, in the order the slots are tried. */
  function SelectKey(k: Keys, named: Key): Option<Named> {
    if named == k.key then Some(Current)
    else if k.pending == Some(named) then Some(InPending)
    else if k.previous == Some(named) then Some(InPrevious)
    else None
  }

  function Move(k: Keys, target: ChatState): Result<Keys> {
    if CanMove(k.state, target) then Ok(k.(state := target)) else Err("illegal transition")
  }

  function AdoptNewKey(k: Keys, key: Key): Keys {
    k.(previous := Some(k.key), key := key, pending := None, xid := None, secret := None, role := None,
       confirmed := false, state := if k.state.Inviting? || k.state.Invited? then Ready else k.state)
  }

  /** The old key goes once the new one is confirmed and no hole is open. */
  function RetireIfSettled(k: Keys, gapRequested: bool): Keys {
    if k.previous.Some? && k.confirmed && !gapRequested then k.(previous := None) else k
  }

  /** The key side of a receive commit: switch on a frame under the pending key, confirm, retire. */
  function OnFrame(k: Keys, named: Named, gapRequested: bool): Result<Keys> {
    var switched :-
      if k.pending.Some? && named.InPending? then
        var adopted :- Move(AdoptNewKey(k, k.pending.value), Ready);
        Ok(adopted.(confirmed := true))
      else if named.Current? && k.previous.Some? then Ok(k.(confirmed := true))
      else Ok(k);
    Ok(RetireIfSettled(switched, gapRequested))
  }

  function Clear(k: Keys): Keys {
    k.(xid := None, pending := None, secret := None, role := None,
       state := if k.state.Rekeying? then Ready else k.state)
  }

  function Publish(grp: Group, secret: nat): nat
    requires grp.Valid()
  {
    PowMod(grp.g, secret, grp.p)
  }

  predicate MayStart(k: Keys) { k.xid.None? && k.previous.None? }

  function BeginExchange(k: Keys, xid: int, secret: nat): Result<Keys> {
    Move(k.(xid := Some(xid), secret := Some(secret), role := Some(Requester)), Rekeying)
  }

  /** What a handled action leaves: the keys after the effect's commit, and the reply it retained. */
  datatype Effect = Effect(keys: Keys, reply: Option<Action>, applied: bool)

  datatype Tie = AbandonTheirs | JoinTheirs | AbortBoth

  function ResolveCollision(mine: int, theirs: int): Tie {
    if mine > theirs then AbandonTheirs else if mine < theirs then JoinTheirs else AbortBoth
  }

  predicate MayAbort(k: Keys) { k.xid.Some? && k.role != Some(Acceptor) }

  /** Join the peer's exchange: derive the key, publish `g^b`, become the acceptor. */
  function Join(k: Keys, xid: int, gA: nat, b: nat, grp: Group): Result<Effect>
    requires grp.Valid()
  {
    var key :- SharedKey(gA, b, grp);
    var k1 := k.(xid := Some(xid), secret := None, pending := Some(key), role := Some(Acceptor));
    var k2 :- if k.state.Rekeying? then Ok(k1) else Move(k1, Rekeying);
    Ok(Effect(k2, Some(AcceptKey(xid, Publish(grp, b), key)), true))
  }

  function OnRequest(k: Keys, xid: int, gA: nat, b: nat, grp: Group): Result<Effect>
    requires grp.Valid()
  {
    if k.previous.Some? then Ok(Effect(k, Some(AbortKey(xid)), false))
    else if k.xid.None? then Join(k, xid, gA, b, grp)
    else if k.role != Some(Requester) then Ok(Effect(k, None, false))
    else match ResolveCollision(k.xid.value, xid)
      case AbandonTheirs => Ok(Effect(k, None, false))
      case AbortBoth => Ok(Effect(Clear(k), None, true))
      case JoinTheirs => Join(k, xid, gA, b, grp)
  }

  function OnAccept(k: Keys, xid: int, gB: nat, claimed: Key, grp: Group): Result<Effect>
    requires grp.Valid()
  {
    if k.xid != Some(xid) || k.secret.None? then Ok(Effect(k, None, false))
    else
      var shared := SharedKey(gB, k.secret.value, grp);
      if shared.Err? || shared.value != claimed then
        if MayAbort(k) then Ok(Effect(Clear(k), Some(AbortKey(xid)), false)) else Err("commitment failed")
      else
        var adopted :- Move(AdoptNewKey(k, shared.value), Ready);
        Ok(Effect(adopted, Some(CommitKey(xid, shared.value)), true))
  }

  function OnCommit(k: Keys, xid: int, claimed: Key): Result<Effect> {
    if k.xid != Some(xid) || k.pending.None? then Ok(Effect(k, None, false))
    else if k.pending.value != claimed then
      if MayAbort(k) then Ok(Effect(Clear(k), Some(AbortKey(xid)), false)) else Err("commitment failed")
    else
      var adopted :- Move(AdoptNewKey(k, k.pending.value), Ready);
      Ok(Effect(adopted.(confirmed := true), Some(Noop), true))
  }

  function OnAbort(k: Keys, xid: int): Effect {
    if k.xid != Some(xid) then Effect(k, None, false) else Effect(Clear(k), None, true)
  }

  /** The inbound half of the exchange; `Err` closes the chat. */
  function Handle(k: Keys, action: Action, b: nat, grp: Group): Result<Effect>
    requires grp.Valid()
  {
    match action
    case RequestKey(xid, gA) => OnRequest(k, xid, gA, b, grp)
    case AcceptKey(xid, gB, claimed) => OnAccept(k, xid, gB, claimed, grp)
    case CommitKey(xid, claimed) => OnCommit(k, xid, claimed)
    case AbortKey(xid) => Ok(OnAbort(k, xid))
    case _ => Ok(Effect(k, None, false))
  }

  /** The key a reply's frame is encrypted under: the key held before the effect, but the answer to a
      commitment already goes out under the new one. */
  function ReplyKey(k: Keys, reply: Action): Key {
    if reply.Noop? && k.pending.Some? then k.pending.value else k.key
  }

  /** The slot invariant: which fields of the exchange are held together. */
  predicate KeysOk(k: Keys) {
    && (k.state.Ready? || k.state.Rekeying?)
    && (k.state.Rekeying? <==> k.xid.Some?)
    && (k.xid.Some? <==> k.role.Some?)
    && (k.pending.Some? <==> k.role == Some(Acceptor))
    && (k.secret.Some? <==> k.role == Some(Requester))
    && (k.previous.Some? ==> k.xid.None?)
  }

  /** Every handled action keeps the slot invariant, makes only legal state moves, never holds three keys and
      never overwrites a held previous key; an error is a refused public value or a failed commitment. */
  lemma HandleKeepsSlots(k: Keys, action: Action, b: nat, grp: Group)
    requires grp.Valid() && KeysOk(k)
    ensures match Handle(k, action, b, grp)
      case Err(reason) => reason == "public value out of range" || reason == "commitment failed"
      case Ok(effect) =>
        && KeysOk(effect.keys)
        && (k.previous.Some? ==> effect.keys.previous == k.previous)
        && !(effect.keys.pending.Some? && effect.keys.previous.Some?)
  {
  }

  lemma FrameKeepsSlots(k: Keys, named: Key, gap: bool)
    requires KeysOk(k) && SelectKey(k, named).Some?
    ensures OnFrame(k, SelectKey(k, named).value, gap).Ok?
    ensures KeysOk(OnFrame(k, SelectKey(k, named).value, gap).value)
    ensures var k' := OnFrame(k, SelectKey(k, named).value, gap).value;
      k'.previous.Some? && k.previous.Some? ==> k'.previous == k.previous
  {
  }

  lemma BeginKeepsSlots(k: Keys, xid: int, secret: nat)
    requires KeysOk(k) && MayStart(k)
    ensures BeginExchange(k, xid, secret).Ok? && KeysOk(BeginExchange(k, xid, secret).value)
    ensures BeginExchange(k, xid, secret).value ==
      Keys(Rekeying, k.key, k.pending, k.previous, Some(xid), Some(secret), Some(Requester), k.confirmed)
  {
  }

  // ---- What each action does, whoever sent it ----

  /** A public value is taken if and only if it keeps the margin from both ends of the range. */
  predicate InRange(value: int, grp: Group) {
    2 <= value <= grp.p - 2 && grp.floor <= value && value + grp.floor <= grp.p
  }

  /** The chat goes on with another key, keeps the one before it and has no exchange. */
  predicate SwitchedTo(k: Keys, k': Keys, key: Key) {
    && k'.key == key && k'.previous == Some(k.key) && k'.pending.None? && k'.state.Ready?
    && k'.xid.None? && k'.secret.None? && k'.role.None?
  }

  /** The exchange is gone and no key has changed. */
  predicate ExchangeGone(k: Keys, k': Keys) {
    && k'.key == k.key && k'.previous == k.previous && k'.confirmed == k.confirmed && k'.pending.None?
    && k'.xid.None? && k'.secret.None? && k'.role.None?
    && k'.state == (if k.state.Rekeying? then Ready else k.state)
  }

  /** An end that asked, is open to a switch and is offered a key takes it if and only if the public value is in range
      and the claim is the key it derives itself; it commits to that key. Otherwise it keeps its keys, drops the
      exchange and aborts it. Either is said under the key held so far. */
  lemma AcceptanceDecides(k: Keys, xid: int, gB: nat, claimed: Key, b: nat, grp: Group)
    requires grp.Valid() && k.xid == Some(xid) && k.secret.Some? && k.role == Some(Requester) && k.state.Rekeying?
    ensures var r := Handle(k, AcceptKey(xid, gB, claimed), b, grp);
      && r.Ok? && r.value.reply.Some? && ReplyKey(k, r.value.reply.value) == k.key
      && (r.value.reply.value.CommitKey? <==> InRange(gB, grp) && claimed == PowMod(gB, k.secret.value, grp.p))
      && (r.value.reply.value.CommitKey? ==>
          && SwitchedTo(k, r.value.keys, claimed) && !r.value.keys.confirmed
          && r.value.reply.value == CommitKey(xid, claimed) && r.value.applied)
      && (!r.value.reply.value.CommitKey? ==>
          && ExchangeGone(k, r.value.keys)
          && r.value.reply.value == AbortKey(xid) && !r.value.applied)
  {
  }

  /** An end that offered a key switches to it if and only if the commitment names that key, and answers under it; a
      commitment to any other key ends the chat. */
  lemma CommitmentDecides(k: Keys, xid: int, claimed: Key, b: nat, grp: Group)
    requires grp.Valid() && k.xid == Some(xid) && k.pending.Some? && k.role == Some(Acceptor) && k.state.Rekeying?
    ensures var r := Handle(k, CommitKey(xid, claimed), b, grp);
      && (r.Ok? <==> claimed == k.pending.value)
      && (r.Ok? ==> SwitchedTo(k, r.value.keys, claimed) && r.value.keys.confirmed && r.value.applied)
      && (r.Ok? ==> r.value.reply == Some(Noop) && ReplyKey(k, Noop) == claimed)
  {
  }

  /** A request is declined while the previous key is held, ignored beside an accepted exchange or one with a greater
      id, drops an exchange with the same id, and is joined otherwise, on the key that its value and the drawn secret
      give; a value out of range ends the chat. */
  lemma RequestDecides(k: Keys, xid: int, gA: nat, b: nat, grp: Group)
    requires grp.Valid() && KeysOk(k)
    ensures var r := Handle(k, RequestKey(xid, gA), b, grp);
      var derived := PowMod(gA, b, grp.p);
      if k.previous.Some? then r == Ok(Effect(k, Some(AbortKey(xid)), false)) && ReplyKey(k, AbortKey(xid)) == k.key
      else if k.role == Some(Acceptor) || (k.xid.Some? && k.xid.value > xid) then r == Ok(Effect(k, None, false))
      else if k.xid == Some(xid) then r.Ok? && ExchangeGone(k, r.value.keys) && r.value.reply.None? && r.value.applied
      else (r.Ok? <==> InRange(gA, grp)) && (r.Ok? ==>
        && r.value.keys == k.(state := Rekeying, xid := Some(xid), secret := None, pending := Some(derived),
                              role := Some(Acceptor))
        && r.value.reply == Some(AcceptKey(xid, PowMod(grp.g, b, grp.p), derived)) && r.value.applied
        && ReplyKey(k, r.value.reply.value) == k.key)
  {
    if k.role.Some? && k.role != Some(Acceptor) { assert k.role.value.Requester?; }
  }

  /** The first frame under the offered key switches to it, a frame under the current key confirms it while another is
      held, and the other goes once the current one is confirmed and no hole is open. Nothing else changes. */
  lemma FrameDecides(k: Keys, named: Key, gap: bool)
    requires KeysOk(k) && SelectKey(k, named).Some?
    ensures var r := OnFrame(k, SelectKey(k, named).value, gap);
      && r.Ok?
      && (named == k.key ==> r.value == k.(
          confirmed := k.confirmed || k.previous.Some?, previous := if gap then k.previous else None))
      && (named != k.key && k.pending == Some(named) ==>
          && SwitchedTo(k, r.value.(previous := Some(k.key)), named)
          && r.value.confirmed && r.value.previous == (if gap then Some(k.key) else None))
      && (named != k.key && k.pending != Some(named) ==>
          && k.previous == Some(named)
          && r.value == k.(previous := if k.confirmed && !gap then None else k.previous))
  {
  }

  /** An abort ends exactly the exchange it names, and nothing is said. */
  lemma AbortDecides(k: Keys, xid: int, b: nat, grp: Group)
    requires grp.Valid()
    ensures var r := Handle(k, AbortKey(xid), b, grp);
      && r.Ok? && r.value.reply.None?
      && (if k.xid == Some(xid) then ExchangeGone(k, r.value.keys) else r.value.keys == k)
  {
  }

  /** An acceptance or a commitment of another exchange, or one that this end is not waiting for, does nothing. */
  lemma StrayDecides(k: Keys, action: Action, b: nat, grp: Group)
    requires grp.Valid() && (action.AcceptKey? || action.CommitKey?)
    requires k.xid != Some(action.xid) || (if action.AcceptKey? then k.secret.None? else k.pending.None?)
    ensures Handle(k, action, b, grp) == Ok(Effect(k, None, false))
  {
  }

  // ---- Redelivery: a mailbox item whose effect committed but whose removal did not ----

  predicate SameExchange(k: Keys, k': Keys) {
    && k'.key == k.key && k'.pending == k.pending && k'.previous == k.previous
    && k'.xid == k.xid && k'.role == k.role && k'.secret == k.secret
  }

  /** Handling a request changes no key or exchange field exactly when the old key is still held, or an
      exchange is open that the request cannot displace. A request whose exchange has since completed and
      whose old key is gone therefore starts that exchange again. */
  lemma RequestIsInert(k: Keys, xid: int, gA: nat, b: nat, grp: Group)
    requires grp.Valid() && KeysOk(k) && PeerValueOk(gA, grp)
    ensures OnRequest(k, xid, gA, b, grp).Ok?
    ensures SameExchange(k, OnRequest(k, xid, gA, b, grp).value.keys)
       <==> k.previous.Some? || (k.xid.Some? && (k.role == Some(Acceptor) || k.xid.value > xid))
  {
    var after := OnRequest(k, xid, gA, b, grp);
    if k.previous.None? && k.role != Some(Acceptor) {
      assert k.role.Some? ==> k.role.value.Requester?;
      if k.xid == Some(xid) {
        assert after.value.keys == Clear(k);
      } else if k.xid.None? || k.xid.value < xid {
        assert after == Join(k, xid, gA, b, grp);
        assert after.value.keys.xid == Some(xid);
      }
    }
  }

  /** When the removal of a handled request is not part of its effect's commit, the request can be handled
      again after a new-key frame switched this end and the commitment closed the hole. It then opens the
      finished exchange with another key, and the queued commitment fails its check, which closes the chat.
      Removed together with its effect, the request leaves the commitment harmless. */
  lemma RedeliveredRequestCloses(key: Key, xid: int, gA: nat, b: nat, again: nat, grp: Group)
    requires grp.Valid() && PeerValueOk(gA, grp)
    requires PowMod(gA, b, grp.p) != PowMod(gA, again, grp.p)
    ensures var derived := PowMod(gA, b, grp.p);
      var accepted := OnRequest(Established(key), xid, gA, b, grp);
      && accepted.Ok? && accepted.value.keys.pending == Some(derived)
      && (var ahead := OnFrame(accepted.value.keys, InPending, true);
          && ahead.Ok? && ahead.value.key == derived && ahead.value.previous == Some(key)
          && (var filled := OnFrame(ahead.value, InPrevious, false);
              && filled.Ok? && filled.value.previous.None? && filled.value.xid.None?
              && OnCommit(filled.value, xid, derived) == Ok(Effect(filled.value, None, false))
              && (var redelivered := OnRequest(filled.value, xid, gA, again, grp);
                  && redelivered.Ok?
                  && OnCommit(redelivered.value.keys, xid, derived).Err?)))
  {
  }
}
