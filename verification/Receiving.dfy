/** Receiving a frame: one transaction over the chat's fields and the store, and a failure anywhere restores both. */
module Receiving {
  import opened Prelude
  import opened Framing
  import opened Sequence
  import opened Rekey
  import opened Chat
  import opened Storage
  import opened Sequencing
  import opened Exchange

  /** Between commits: no open scope, and the stored record is the chat. */
  ghost predicate Settled(chat: SecretChat, storage: MemoryStorage)
    reads chat, storage
  {
    storage.Valid() && storage.Filed() && storage.depth == 0 && storage.state.record == Some(chat.Snapshot())
  }

  /** Write the record and leave the scope; when the durable write fails, everything is as it was. */
  method Commit(chat: SecretChat, storage: MemoryStorage, before: ChatRecord, written: bool) returns (ok: bool)
    requires storage.Valid() && storage.depth == 1 && storage.Filed() && before.outbound == chat.outbound
    requires storage.durable.record == Some(before)
    requires Unique(storage.durable.out) && Unique(storage.durable.waiting)
    modifies chat, storage
    ensures Settled(chat, storage)
    ensures ok ==> View(chat, storage) == old(View(chat, storage)) && chat.Snapshot() == old(chat.Snapshot())
    ensures ok ==> storage.state == old(storage.state).(record := Some(chat.Snapshot()))
    ensures !ok ==> storage.state == old(storage.durable) && chat.Snapshot() == before && !written
    ensures ok == (written || old(storage.state).(record := Some(old(chat.Snapshot()))) == old(storage.durable))
  {
    storage.Save(chat.Snapshot());
    ok := storage.Leave(written);
    if !ok { chat.Restore(before); }
  }

  /** Leave the scope by an exception and put the chat's fields back. */
  method RollBack(chat: SecretChat, storage: MemoryStorage, before: ChatRecord)
    requires storage.Valid() && storage.depth == 1 && before.outbound == chat.outbound
    requires storage.durable.record == Some(before)
    requires Unique(storage.durable.out) && Unique(storage.durable.waiting)
    modifies chat, storage
    ensures Settled(chat, storage) && storage.state == old(storage.durable) && chat.Snapshot() == before
  {
    storage.Unwind();
    chat.Restore(before);
  }

  /** The records that a frame's request names; none for any other frame. */
  ghost function AnswerTo(c: State, w: Wrapper): Result<map<int, Record>> {
    if w.action.Resend? then AnswerResend(c, w.action.first, w.action.last) else Ok(map[])
  }

  /** What acceptance leaves once the echo's records are forgotten, the answer is due and the mailbox has grown. */
  function AcceptedState(accepted: Accepted, answer: map<int, Record>): State {
    var c := Requeue(Forget(accepted.state, accepted.state.peerIn), answer);
    c.(mailbox := c.mailbox + accepted.ready)
  }

  /** A request is consumed: what is accepted in its place is a no-op. */
  function StoredAs(w: Wrapper): Wrapper { if w.action.Resend? then w.(action := Noop) else w }

  lemma ReceiveParts(c: State, w: Wrapper)
    requires Preflight(c, w) == Fresh
    ensures Receive(c, w).Ok? <==> AnswerTo(c, w).Ok? && Accept(c, StoredAs(w)).Ok?
    ensures Receive(c, w).Ok? ==>
      Receive(c, w).value.state == AcceptedState(Accept(c, StoredAs(w)).value, AnswerTo(c, w).value)
  {
  }

  method FindAnswer(chat: SecretChat, storage: MemoryStorage, w: Wrapper) returns (r: Result<seq<Entry<Record>>>)
    requires storage.Filed()
    ensures r.Ok? <==> AnswerTo(View(chat, storage), w).Ok?
    ensures r.Ok? ==> Unique(r.value) && ToMap(r.value) == AnswerTo(View(chat, storage), w).value
  {
    if !w.action.Resend? { return Ok([]); }
    r := AnswerSpan(chat, storage, w.action.first, w.action.last);
  }

  /** Acceptance and everything that follows from it. */
  method AcceptInScope(chat: SecretChat, storage: MemoryStorage, stored: Wrapper, answer: seq<Entry<Record>>)
    returns (ok: bool)
    requires storage.Valid() && storage.depth > 0 && storage.Filed() && Check(chat, stored, storage) == Fresh
    requires Unique(answer)
    modifies chat`inSeqNo, chat`peerInSeqNo, chat`wrapperLayer, chat`layer, chat`gapRequested, chat`gapEnd,
      chat`resendDue, chat`pendingDeliveries, storage`state
    ensures storage.Valid() && storage.Filed() && Beside(storage) == old(Beside(storage))
    ensures ok <==> Accept(old(View(chat, storage)), stored).Ok?
    ensures ok ==> View(chat, storage) == AcceptedState(Accept(old(View(chat, storage)), stored).value, ToMap(answer))
  {
    var accepted := AcceptWrapper(chat, stored, storage);
    if accepted.Err? { return false; }
    ForgetAcknowledged(chat, storage, chat.peerInSeqNo);
    RequeueAnswer(storage, answer);
    chat.pendingDeliveries := chat.pendingDeliveries + accepted.value.ready;
    ok := true;
  }

  /** The accepting half of a receive: answer, accept, forget, requeue, mailbox. */
  method ReceiveInScope(chat: SecretChat, storage: MemoryStorage, w: Wrapper) returns (ok: bool)
    requires storage.Valid() && storage.depth > 0 && storage.Filed() && Check(chat, w, storage) == Fresh
    modifies chat`inSeqNo, chat`peerInSeqNo, chat`wrapperLayer, chat`layer, chat`gapRequested, chat`gapEnd,
      chat`resendDue, chat`pendingDeliveries, storage`state
    ensures storage.Valid() && storage.Filed() && Beside(storage) == old(Beside(storage))
    ensures ok <==> Receive(old(View(chat, storage)), w).Ok?
    ensures ok ==> View(chat, storage) == Receive(old(View(chat, storage)), w).value.state
  {
    ReceiveParts(View(chat, storage), w);
    var answer := FindAnswer(chat, storage, w);
    if answer.Err? { return false; }
    ok := AcceptInScope(chat, storage, StoredAs(w), answer.value);
  }

  /** The specification of a taken frame: the sequence state and the key slots after it. */
  ghost predicate Takes(c: State, k: Keys, named: Named, w: Wrapper) {
    Preflight(c, w) == Fresh && Receive(c, w).Ok? && OnFrame(k, named, Receive(c, w).value.state.gapRequested).Ok?
  }

  /** The body of the receive transaction. */
  method TakeFrame(chat: SecretChat, storage: MemoryStorage, named: Named, w: Wrapper) returns (ok: bool)
    requires storage.Valid() && storage.depth > 0 && storage.Filed() && Check(chat, w, storage) == Fresh
    requires chat.key.Some?
    modifies chat, storage`state
    ensures storage.Valid() && storage.Filed() && chat.key.Some? && Beside(storage) == old(Beside(storage))
    ensures ok <==> Takes(old(View(chat, storage)), old(chat.Slots()), named, w)
    ensures ok ==> View(chat, storage) == Receive(old(View(chat, storage)), w).value.state
    ensures ok ==> Ok(chat.Slots()) == OnFrame(old(chat.Slots()), named, chat.gapRequested)
  {
    ok := ReceiveInScope(chat, storage, w);
    if ok { ok := SettleInScope(chat, storage, named); }
  }

  /** The key side leaves the sequence state alone. */
  method SettleInScope(chat: SecretChat, storage: MemoryStorage, named: Named) returns (ok: bool)
    requires chat.key.Some?
    modifies chat`state, chat`key, chat`pendingKey, chat`previousKey, chat`exchangeId, chat`exchangeSecret,
      chat`rekeyRole, chat`newKeyConfirmed
    ensures chat.key.Some? && View(chat, storage) == old(View(chat, storage))
    ensures ok <==> OnFrame(old(chat.Slots()), named, chat.gapRequested).Ok?
    ensures ok ==> Ok(chat.Slots()) == OnFrame(old(chat.Slots()), named, chat.gapRequested)
  {
    ok := SettleKeys(chat, named);
  }

  /** What one frame's receive commit did: no held key opens it, it is fatal, its commit was not written, its slot was
      there before, or it was taken. */
  datatype Receipt = Unopened | Fatal | Unwritten | Replayed | Taken {
    predicate Committed() { Replayed? || Taken? }
  }

  /** A mark that the receive transaction commits together with its effect, if the caller has one. */
  function Marking(custody: Custody, mark: Option<Custody>): Custody { mark.GetOr(custody) }

  /** The receive transaction. A taken frame leaves exactly the specified sequence state and key slots; a replay
      leaves them alone. Either commits the caller's mark as one unit with what it did; a refusal, or a failed durable
      write, restores chat and store. */
  method ReceiveCommit(chat: SecretChat, storage: MemoryStorage, named: Named, w: Wrapper, mark: Option<Custody>,
      written: bool)
    returns (r: Receipt)
    requires Settled(chat, storage) && chat.key.Some?
    modifies chat, storage
    ensures Settled(chat, storage) && chat.key.Some? && !r.Unopened?
    ensures !r.Committed() ==> storage.state == old(storage.state) && chat.Snapshot() == old(chat.Snapshot())
    ensures r.Committed() ==> storage.state.custody == Marking(old(storage.state.custody), mark)
    ensures r.Replayed? ==> Preflight(old(View(chat, storage)), w) == Replay && chat.Snapshot() == old(chat.Snapshot())
    ensures r.Replayed? ==> storage.state == old(storage.state).(custody := storage.state.custody)
    ensures r.Taken? ==> Takes(old(View(chat, storage)), old(chat.Slots()), named, w)
    ensures r.Taken? ==> View(chat, storage) == Receive(old(View(chat, storage)), w).value.state
    ensures r.Taken? ==> Ok(chat.Slots()) == OnFrame(old(chat.Slots()), named, chat.gapRequested)
    ensures r.Fatal? <==>
      Preflight(old(View(chat, storage)), w) != Replay && !Takes(old(View(chat, storage)), old(chat.Slots()), named, w)
    ensures written ==> !r.Unwritten?
    ensures !written && mark.Some? && mark.value != old(storage.state.custody) ==> !r.Committed()
  {
    var before := chat.Snapshot();
    storage.Enter();
    var verdict := Check(chat, w, storage);
    var ok := verdict != Verdict.Fatal;
    if verdict == Fresh { ok := TakeFrame(chat, storage, named, w); }
    if !ok {
      RollBack(chat, storage, before);
      return Receipt.Fatal;
    }
    if mark.Some? { storage.SaveCustody(mark.value); }
    label taken:
    ok := Commit(chat, storage, before, written);
    r := if !ok then Unwritten else if verdict == Fresh then Taken else Replayed;
    assert ok ==> chat.Slots() == old@taken(chat.Slots());
  }

  /** The held key that opens a frame, on a chat that still has keys. */
  function Opening(chat: SecretChat, key: Key): Option<Named>
    reads chat
  {
    if chat.key.None? || chat.state.Closed? then None else SelectKey(chat.Slots(), key)
  }

  /** An incoming frame under some key: refused unless the chat holds that key, and otherwise the receive
      transaction under the slot that names it. */
  method OnEncryptedMessage(chat: SecretChat, storage: MemoryStorage, key: Key, w: Wrapper, mark: Option<Custody>,
      written: bool)
    returns (r: Receipt)
    requires Settled(chat, storage)
    modifies chat, storage
    ensures Settled(chat, storage) && (r.Unopened? <==> old(Opening(chat, key)).None?)
    ensures r.Unopened? <==> old(
      || chat.state.Closed? || chat.key.None?
      || (chat.key != Some(key) && chat.pendingKey != Some(key) && chat.previousKey != Some(key)))
    ensures !r.Committed() ==> storage.state == old(storage.state) && chat.Snapshot() == old(chat.Snapshot())
    ensures r.Committed() ==> storage.state.custody == Marking(old(storage.state.custody), mark)
    ensures r.Replayed? ==> Preflight(old(View(chat, storage)), w) == Replay && chat.Snapshot() == old(chat.Snapshot())
    ensures r.Replayed? ==> storage.state == old(storage.state).(custody := storage.state.custody)
    ensures r.Taken? ==>
      && chat.key.Some? && Takes(old(View(chat, storage)), old(chat.Slots()), old(Opening(chat, key)).value, w)
      && View(chat, storage) == Receive(old(View(chat, storage)), w).value.state
      && Ok(chat.Slots()) == OnFrame(old(chat.Slots()), old(Opening(chat, key)).value, chat.gapRequested)
    ensures r.Fatal? <==> (
      && old(Opening(chat, key)).Some? && Preflight(old(View(chat, storage)), w) != Replay
      && !Takes(old(View(chat, storage)), old(chat.Slots()), old(Opening(chat, key)).value, w))
    ensures written ==> !r.Unwritten?
    ensures !written && mark.Some? && mark.value != old(storage.state.custody) ==> !r.Committed()
  {
    var named := Opening(chat, key);
    if named.None? { return Unopened; }
    r := ReceiveCommit(chat, storage, named.value, w, mark, written);
  }
}
