/** Draining the mailbox: each item's effect, its reply and its removal are one commit. */
module Dispatching {
  import opened Prelude
  import opened Framing
  import opened Dh
  import opened Sequence
  import opened Rekey
  import opened Chat
  import opened Storage
  import opened Sequencing
  import opened Exchange
  import opened Receiving
  import opened Outbox

  /** What one dispatched item did. */
  datatype Outcome = Done | Unwritten | Closing(reason: string)

  /** The sequence state after the head was handled: the reply is retained, the head is gone. */
  function Dispatched(c: State, effect: Effect, k: Keys): State
    requires c.mailbox != []
  {
    if effect.reply.None? then Deliver(c) else Send(Deliver(c), effect.reply.value, ReplyKey(k, effect.reply.value))
  }

  /** The effect of the head on the chat, inside the open scope. */
  method TakeEffect(chat: SecretChat, storage: MemoryStorage, b: nat, grp: Group) returns (r: Result<Option<Reply>>)
    requires storage.Valid() && storage.depth > 0 && storage.Filed()
    requires grp.Valid() && chat.key.Some? && chat.pendingDeliveries != []
    modifies chat, storage`state
    ensures storage.Valid() && storage.Filed() && chat.key.Some? && Beside(storage) == old(Beside(storage))
    ensures var effect := Handle(old(chat.Slots()), old(chat.pendingDeliveries)[0].action, b, grp);
      && Handled(old(chat.Slots()), effect, r, chat.Slots())
      && (r.Ok? ==> View(chat, storage) == Dispatched(old(View(chat, storage)), effect.value, old(chat.Slots())))
  {
    ghost var c := View(chat, storage);
    var action := chat.pendingDeliveries[0].action;
    r := HandleAction(chat, action, b, grp);
    assert View(chat, storage) == c;
    if r.Err? { return; }
    chat.pendingDeliveries := chat.pendingDeliveries[1..];
    if action.NotifyLayer? { chat.layer := RaiseRemoteLayer(chat.layer, action.layer); }
    assert View(chat, storage) == Deliver(c);
    if r.value.Some? {
      label handled:
      Retain(chat, storage, r.value.value.action, r.value.value.key);
      assert chat.Slots() == old@handled(chat.Slots());
    }
  }

  /** One item. A fatal effect ends the chat; a failed durable write leaves the item to be handled again, with
      nothing of its effect, or of the closing, kept. */
  method DispatchHead(chat: SecretChat, storage: MemoryStorage, b: nat, grp: Group, written: bool)
    returns (outcome: Outcome)
    requires Settled(chat, storage) && grp.Valid() && chat.key.Some? && chat.pendingDeliveries != []
    modifies chat, storage
    ensures var effect := Handle(old(chat.Slots()), old(chat.pendingDeliveries)[0].action, b, grp);
      && (outcome.Closing? ==> effect.Err?) && (written && effect.Err? ==> outcome.Closing?)
      && (outcome.Done? ==> effect.Ok? && chat.key.Some? && chat.Slots() == effect.value.keys)
      && (outcome.Done? ==>
        View(chat, storage) == Dispatched(old(View(chat, storage)), effect.value, old(chat.Slots())))
    ensures outcome.Unwritten? ==> storage.state == old(storage.state) && chat.Snapshot() == old(chat.Snapshot())
    ensures outcome.Closing? ==> Ended(chat, storage)
    ensures Settled(chat, storage) && storage.state.custody == old(storage.state.custody)
    ensures written ==> !outcome.Unwritten?
    ensures !written && !old(chat.state).Closed? ==> outcome.Unwritten?
  {
    var before := chat.Snapshot();
    storage.Enter();
    var r := TakeEffect(chat, storage, b, grp);
    if r.Err? {
      RollBack(chat, storage, before);
      var closed := CloseLocal(chat, storage, r.reason, written);
      return if closed then Closing(r.reason) else Outcome.Unwritten;
    }
    label taken:
    var ok := Commit(chat, storage, before, written);
    assert ok ==> chat.Slots() == old@taken(chat.Slots());
    outcome := if ok then Done else Outcome.Unwritten;
  }

  /** Where a drain gets to: it stops at an empty mailbox, at a failed durable write, or where an effect ends the
      chat. */
  datatype DrainRun = DrainRun(state: State, keys: Keys, closing: bool)

  function Drains(c: State, k: Keys, secrets: int -> nat, grp: Group, writes: int -> bool, i: nat): DrainRun
    requires grp.Valid()
    decreases |c.mailbox|
  {
    if c.mailbox == [] || k.state.Closed? then DrainRun(c, k, false)
    else
      var effect := Handle(k, c.mailbox[0].action, secrets(i), grp);
      if !writes(i) then DrainRun(c, k, false)
      else if effect.Err? then DrainRun(c, k, true)
      else Drains(Dispatched(c, effect.value, k), effect.value.keys, secrets, grp, writes, i + 1)
  }

  /** One item of a drain: the run goes on from what it leaves, or ends here. */
  method DispatchNext(chat: SecretChat, storage: MemoryStorage, secrets: int -> nat, grp: Group, writes: int -> bool,
    i: nat)
    returns (outcome: Outcome)
    requires Settled(chat, storage) && grp.Valid() && chat.key.Some? && chat.pendingDeliveries != []
    requires !chat.state.Closed?
    modifies chat, storage
    ensures var run := Drains(old(View(chat, storage)), old(chat.Slots()), secrets, grp, writes, i);
      if outcome.Done?
      then chat.key.Some? && run == Drains(View(chat, storage), chat.Slots(), secrets, grp, writes, i + 1)
      else run == DrainRun(old(View(chat, storage)), old(chat.Slots()), outcome.Closing?)
    ensures Settled(chat, storage)
    ensures outcome.Done? ==> chat.pendingDeliveries == old(chat.pendingDeliveries)[1..]
    ensures outcome.Closing? ==> Ended(chat, storage)
    ensures outcome.Unwritten? ==> chat.key.Some? && chat.Slots() == old(chat.Slots())
    ensures outcome.Unwritten? ==> View(chat, storage) == old(View(chat, storage))
  {
    assert chat.pendingDeliveries == View(chat, storage).mailbox && chat.state == chat.Slots().state;
    outcome := DispatchHead(chat, storage, secrets(i), grp, writes(i));
    assert chat.pendingDeliveries == View(chat, storage).mailbox;
  }

  /** The mailbox is emptied in order, one commit an item: the chat ends up exactly where the run above gets to, and
      what was dispatched, followed by what is left, is what was there. */
  method DrainDeliveries(chat: SecretChat, storage: MemoryStorage, secrets: int -> nat, grp: Group, writes: int -> bool)
    returns (delivered: seq<Wrapper>)
    requires Settled(chat, storage) && grp.Valid() && chat.key.Some?
    modifies chat, storage
    ensures var run := Drains(old(View(chat, storage)), old(chat.Slots()), secrets, grp, writes, 0);
      && (run.closing ==> Ended(chat, storage))
      && (!run.closing ==> Settled(chat, storage) && chat.key.Some?)
      && (!run.closing ==> View(chat, storage) == run.state && chat.Slots() == run.keys)
      && (!run.closing ==> delivered + run.state.mailbox == old(chat.pendingDeliveries))
    ensures delivered <= old(chat.pendingDeliveries)
  {
    delivered := [];
    ghost var all := chat.pendingDeliveries;
    while chat.pendingDeliveries != [] && !chat.state.Closed?
      invariant Settled(chat, storage) && chat.key.Some?
      invariant delivered + chat.pendingDeliveries == all && delivered <= all
      invariant Drains(old(View(chat, storage)), old(chat.Slots()), secrets, grp, writes, 0) ==
        Drains(View(chat, storage), chat.Slots(), secrets, grp, writes, |delivered|)
      decreases |chat.pendingDeliveries|
    {
      var head := chat.pendingDeliveries[0];
      ghost var rest := chat.pendingDeliveries[1..];
      assert delivered + chat.pendingDeliveries == (delivered + [head]) + rest;
      var outcome := DispatchNext(chat, storage, secrets, grp, writes, |delivered|);
      if !outcome.Done? { return; }
      delivered := delivered + [head];
    }
    assert chat.pendingDeliveries == View(chat, storage).mailbox && chat.state == chat.Slots().state;
  }
}
