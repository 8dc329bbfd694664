/** The rekey exchange as the program runs it: key slots of the chat and the retained reply, set in one commit. */
module Exchange {
  import opened Prelude
  import opened Framing
  import opened Dh
  import opened Sequence
  import opened Rekey
  import opened Chat
  import opened Storage
  import opened Sequencing

  /** Build the next wrapper and retain it, inside an open scope. */
  method Retain(chat: SecretChat, storage: MemoryStorage, action: Action, key: Key)
    requires storage.Valid() && storage.depth > 0 && storage.Filed()
    modifies chat`outSeqNo, storage`state
    ensures storage.Valid() && storage.Filed() && Beside(storage) == old(Beside(storage))
    ensures View(chat, storage) == Send(old(View(chat, storage)), action, key)
  {
    var w := Wrapper(TransformIn(chat.inSeqNo, chat.outbound), TransformOut(chat.outSeqNo, chat.outbound),
      OutgoingLayer(chat.layer), action);
    chat.outSeqNo := chat.outSeqNo + 1;
    storage.QueueOut(w.outSeq, Record(w, key, true, 0));
  }

  /** Switch to the new key and keep the old one. */
  method AdoptNewKey(chat: SecretChat, key: Key) returns (ok: bool)
    requires chat.key.Some?
    modifies chat`state, chat`key, chat`pendingKey, chat`previousKey, chat`exchangeId, chat`exchangeSecret,
      chat`rekeyRole, chat`newKeyConfirmed
    ensures chat.key.Some?
    ensures ok <==> Move(Rekey.AdoptNewKey(old(chat.Slots()), key), Ready).Ok?
    ensures ok ==> chat.Slots() == Rekey.AdoptNewKey(old(chat.Slots()), key).(state := Ready)
  {
    var previous := chat.key;
    ok := chat.AdoptKey(key);
    if !ok { return; }
    chat.previousKey := previous;
    chat.pendingKey := None;
    chat.exchangeId := None;
    chat.exchangeSecret := None;
    chat.rekeyRole := None;
    chat.newKeyConfirmed := false;
    ok := chat.TransitionTo(Ready);
  }

  /** Back to a chat with one key and no exchange. */
  method ClearExchange(chat: SecretChat)
    requires chat.key.Some?
    modifies chat`state, chat`pendingKey, chat`exchangeId, chat`exchangeSecret, chat`rekeyRole
    ensures chat.Slots() == Clear(old(chat.Slots()))
  {
    chat.exchangeId := None;
    chat.pendingKey := None;
    chat.exchangeSecret := None;
    chat.rekeyRole := None;
    if chat.state.Rekeying? { var moved := chat.TransitionTo(Ready); }
  }

  /** The key side of a receive commit. */
  method SettleKeys(chat: SecretChat, named: Named) returns (ok: bool)
    requires chat.key.Some?
    modifies chat`state, chat`key, chat`pendingKey, chat`previousKey, chat`exchangeId, chat`exchangeSecret,
      chat`rekeyRole, chat`newKeyConfirmed
    ensures chat.key.Some?
    ensures ok <==> OnFrame(old(chat.Slots()), named, chat.gapRequested).Ok?
    ensures ok ==> chat.Slots() == OnFrame(old(chat.Slots()), named, chat.gapRequested).value
  {
    ok := true;
    if chat.pendingKey.Some? && named.InPending? {
      ok := AdoptNewKey(chat, chat.pendingKey.value);
      if !ok { return; }
      chat.newKeyConfirmed := true;
    } else if named.Current? && chat.previousKey.Some? {
      chat.newKeyConfirmed := true;
    }
    if chat.previousKey.Some? && chat.newKeyConfirmed && !chat.gapRequested { chat.previousKey := None; }
  }

  /** What a handled action asks to retain before its effect is prepared. */
  datatype Reply = Reply(action: Action, key: Key)

  /** Become the acceptor of the peer's exchange. */
  method JoinExchange(chat: SecretChat, xid: int, gA: nat, b: nat, grp: Group) returns (r: Result<Reply>)
    requires grp.Valid() && chat.key.Some?
    modifies chat`state, chat`pendingKey, chat`exchangeId, chat`exchangeSecret, chat`rekeyRole
    ensures var joined := Join(old(chat.Slots()), xid, gA, b, grp);
      && (r.Ok? <==> joined.Ok?)
      && (r.Ok? ==> chat.Slots() == joined.value.keys)
      && (r.Ok? ==> joined.value.reply == Some(r.value.action) && r.value.key == chat.key.value)
  {
    var shared := SharedKey(gA, b, grp);
    if shared.Err? { return Err(shared.reason); }
    chat.exchangeId := Some(xid);
    chat.exchangeSecret := None;
    chat.pendingKey := Some(shared.value);
    chat.rekeyRole := Some(Acceptor);
    if !chat.state.Rekeying? {
      var moved := chat.TransitionTo(Rekeying);
      if !moved { return Err("illegal transition"); }
    }
    return Ok(Reply(AcceptKey(xid, Publish(grp, b), shared.value), chat.key.value));
  }

  /** A request: decline while the previous key is held, join, or settle the tie with this side's own. */
  method HandleRequest(chat: SecretChat, xid: int, gA: nat, b: nat, grp: Group) returns (r: Result<Option<Reply>>)
    requires grp.Valid() && chat.key.Some?
    modifies chat`state, chat`pendingKey, chat`exchangeId, chat`exchangeSecret, chat`rekeyRole
    ensures Handled(old(chat.Slots()), OnRequest(old(chat.Slots()), xid, gA, b, grp), r, chat.Slots())
  {
    if chat.previousKey.Some? { return Ok(Some(Reply(AbortKey(xid), chat.key.value))); }
    if chat.exchangeId.Some? {
      if chat.rekeyRole != Some(Requester) { return Ok(None); }
      match ResolveCollision(chat.exchangeId.value, xid) {
        case AbandonTheirs => return Ok(None);
        case AbortBoth =>
          ClearExchange(chat);
          return Ok(None);
        case JoinTheirs =>
      }
    }
    var joined := JoinExchange(chat, xid, gA, b, grp);
    if joined.Err? { return Err(joined.reason); }
    return Ok(Some(joined.value));
  }

  /** How a handler's outcome relates to the specification's: same refusal, same keys, same reply. */
  predicate Handled(before: Keys, spec: Result<Effect>, r: Result<Option<Reply>>, now: Keys) {
    && (r.Ok? <==> spec.Ok?)
    && (r.Ok? ==> now == spec.value.keys)
    && (r.Ok? ==> (r.value.Some? <==> spec.value.reply.Some?))
    && (r.Ok? && r.value.Some? ==> spec.value.reply.value == r.value.value.action)
    && (r.Ok? && r.value.Some? ==> r.value.value.key == ReplyKey(before, r.value.value.action))
  }

  /** An acceptance: derive the key, check it, and switch; a bad value aborts the exchange. */
  method HandleAccept(chat: SecretChat, xid: int, gB: nat, claimed: Key, grp: Group) returns (r: Result<Option<Reply>>)
    requires grp.Valid() && chat.key.Some?
    modifies chat`state, chat`key, chat`pendingKey, chat`previousKey, chat`exchangeId, chat`exchangeSecret,
      chat`rekeyRole, chat`newKeyConfirmed
    ensures chat.key.Some?
    ensures Handled(old(chat.Slots()), OnAccept(old(chat.Slots()), xid, gB, claimed, grp), r, chat.Slots())
    ensures (
        && old(chat.exchangeId) == Some(xid) && old(chat.exchangeSecret).Some?
        && old(chat.rekeyRole) == Some(Requester) && old(chat.state).Rekeying?) ==>
      && r.Ok? && r.value.Some? && r.value.value.key == old(chat.key).value && chat.exchangeId.None?
      && (if InRange(gB, grp) && claimed == PowMod(gB, old(chat.exchangeSecret).value, grp.p)
          then (
            && chat.key == Some(claimed) && chat.previousKey == old(chat.key)
            && r.value.value.action == CommitKey(xid, claimed))
          else (
            && chat.key == old(chat.key) && chat.previousKey == old(chat.previousKey)
            && r.value.value.action == AbortKey(xid)))
  {
    if chat.exchangeId != Some(xid) || chat.exchangeSecret.None? { return Ok(None); }
    var current := chat.key.value;
    var shared := SharedKey(gB, chat.exchangeSecret.value, grp);
    if shared.Err? || shared.value != claimed {
      if !MayAbort(chat.Slots()) { return Err("commitment failed"); }
      ClearExchange(chat);
      return Ok(Some(Reply(AbortKey(xid), current)));
    }
    var ok := AdoptNewKey(chat, shared.value);
    if !ok { return Err("illegal transition"); }
    return Ok(Some(Reply(CommitKey(xid, shared.value), current)));
  }

  /** A commitment: switch and answer under the new key; a mismatch cannot be recovered. */
  method HandleCommit(chat: SecretChat, xid: int, claimed: Key) returns (r: Result<Option<Reply>>)
    requires chat.key.Some?
    modifies chat`state, chat`key, chat`pendingKey, chat`previousKey, chat`exchangeId, chat`exchangeSecret,
      chat`rekeyRole, chat`newKeyConfirmed
    ensures chat.key.Some?
    ensures Handled(old(chat.Slots()), OnCommit(old(chat.Slots()), xid, claimed), r, chat.Slots())
  {
    if chat.exchangeId != Some(xid) || chat.pendingKey.None? { return Ok(None); }
    if chat.pendingKey.value != claimed {
      if !MayAbort(chat.Slots()) { return Err("commitment failed"); }
      var current := chat.key.value;
      ClearExchange(chat);
      return Ok(Some(Reply(AbortKey(xid), current)));
    }
    var key := chat.pendingKey.value;
    var ok := AdoptNewKey(chat, key);
    if !ok { return Err("illegal transition"); }
    chat.newKeyConfirmed := true;
    return Ok(Some(Reply(Noop, key)));
  }

  /** An abort: clear the exchange it names. */
  method HandleAbort(chat: SecretChat, xid: int)
    requires chat.key.Some?
    modifies chat`state, chat`pendingKey, chat`exchangeId, chat`exchangeSecret, chat`rekeyRole
    ensures chat.Slots() == OnAbort(old(chat.Slots()), xid).keys
  {
    if chat.exchangeId == Some(xid) { ClearExchange(chat); }
  }

  /** The inbound half of the exchange: the handled keys and the reply are the specification's. */
  method HandleAction(chat: SecretChat, action: Action, b: nat, grp: Group) returns (r: Result<Option<Reply>>)
    requires grp.Valid() && chat.key.Some?
    modifies chat`state, chat`key, chat`pendingKey, chat`previousKey, chat`exchangeId, chat`exchangeSecret,
      chat`rekeyRole, chat`newKeyConfirmed
    ensures chat.key.Some?
    ensures Handled(old(chat.Slots()), Handle(old(chat.Slots()), action, b, grp), r, chat.Slots())
  {
    r := Ok(None);
    match action {
      case RequestKey(xid, gA) => r := HandleRequest(chat, xid, gA, b, grp);
      case AcceptKey(xid, gB, claimed) => r := HandleAccept(chat, xid, gB, claimed, grp);
      case CommitKey(xid, claimed) => r := HandleCommit(chat, xid, claimed);
      case AbortKey(xid) => HandleAbort(chat, xid);
      case _ =>
    }
  }

  /** Publish a request: the exchange fields and the retained record are one effect. */
  method StartExchange(chat: SecretChat, xid: int, secret: nat) returns (ok: bool)
    requires chat.key.Some?
    modifies chat`state, chat`exchangeId, chat`exchangeSecret, chat`rekeyRole
    ensures ok <==> BeginExchange(old(chat.Slots()), xid, secret).Ok?
    ensures ok ==> Ok(chat.Slots()) == BeginExchange(old(chat.Slots()), xid, secret)
  {
    chat.exchangeId := Some(xid);
    chat.exchangeSecret := Some(secret);
    chat.rekeyRole := Some(Requester);
    ok := chat.TransitionTo(Rekeying);
  }
}
