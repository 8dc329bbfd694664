/** An end with a consumer: what it receives, hands over and acknowledges, as commits of its chat and store. */
module Consumer {
  import opened Prelude
  import opened Framing
  import opened Dh
  import opened Sequence
  import opened Rekey
  import opened Chat
  import opened Storage
  import opened Sequencing
  import opened Receiving
  import opened Relay
  import D = Delivery
  import Dispatching
  import Outbox

  /** The end that the events of a run leave. */
  ghost predicate Leaves(events: seq<Event>, ofA: bool, c: State, relay: seq<Wrapper>) {
    && D.Run(D.Start(), MovesOf(events)).Ok? && D.One(D.Run(D.Start(), MovesOf(events)).value, ofA).s == c
    && HeldAfter(events, ofA).relay == relay
  }

  lemma EventAppends(events: seq<Event>, event: Event, ofA: bool)
    ensures MovesOf(events + [event]) == MovesOf(events) + if event.Chat? then [event.move] else []
    ensures HeldAfter(events + [event], ofA) == HeldStep(HeldAfter(events, ofA), MovesOf(events), event, ofA)
  {
    assert (events + [event])[..|events + [event]| - 1] == events;
  }

  /** A move of the run, by this end or by the other. */
  lemma MoveLeaves(events: seq<Event>, move: D.Move, ofA: bool, c: State, relay: seq<Wrapper>, sys: D.System)
    requires Leaves(events, ofA, c, relay) && D.Exec(D.Run(D.Start(), MovesOf(events)).value, move) == Ok(sys)
    requires move.byA == ofA ==> !move.step.Dispatch?
    ensures Leaves(events + [Event.Chat(move)], ofA, D.One(sys, ofA).s, relay)
  {
    EventAppends(events, Event.Chat(move), ofA);
    D.RunAppend(D.Start(), MovesOf(events), move);
  }

  /** An item leaves the mailbox. */
  lemma HandingLeaves(events: seq<Event>, ofA: bool, c: State, relay: seq<Wrapper>)
    requires Leaves(events, ofA, c, relay) && c.mailbox != []
    ensures Leaves(events + [Event.Chat(D.Move(ofA, D.Dispatch))], ofA, Deliver(c), Joined(relay, c.mailbox[0]))
  {
    var move := D.Move(ofA, D.Dispatch);
    EventAppends(events, Event.Chat(move), ofA);
    D.RunAppend(D.Start(), MovesOf(events), move);
  }

  lemma ReleaseLeaves(events: seq<Event>, ofA: bool, c: State, relay: seq<Wrapper>, seqNo: int)
    requires Leaves(events, ofA, c, relay) && InList(relay, seqNo)
    ensures Leaves(events + [Release(seqNo)], ofA, c, Without(relay, seqNo))
    ensures HeldAfter(events + [Release(seqNo)], ofA).acknowledged == HeldAfter(events, ofA).acknowledged + {seqNo}
  {
    EventAppends(events, Release(seqNo), ofA);
    assert MovesOf(events) + [] == MovesOf(events);
  }

  class Desk {
    const chat: SecretChat
    const storage: MemoryStorage
    const ofA: bool
    ghost var events: seq<Event>

    /** The committed chat, and the relay in the same document, are what the events made of them. */
    ghost predicate Valid()
      reads this, chat, storage
    {
      Settled(chat, storage) && Leaves(events, ofA, View(chat, storage), storage.state.custody.relay)
    }

    constructor (chat: SecretChat, storage: MemoryStorage)
      requires Settled(chat, storage) && View(chat, storage) == Initial(chat.outbound)
      requires storage.state.custody.relay == []
      ensures Valid() && this.chat == chat && this.storage == storage && events == []
    {
      this.chat, this.storage, ofA := chat, storage, chat.outbound;
      events := [];
    }

    ghost function System(): D.System
      reads this, chat, storage
      requires Valid()
    {
      D.Run(D.Start(), MovesOf(events)).value
    }

    /** The other end moves. */
    ghost method Meanwhile(move: D.Move)
      requires Valid() && move.byA != ofA && D.Exec(System(), move).Ok?
      modifies this`events
      ensures Valid() && events == old(events) + [Event.Chat(move)]
    {
      MoveLeaves(events, move, ofA, View(chat, storage), storage.state.custody.relay, D.Exec(System(), move).value);
      events := events + [Event.Chat(move)];
    }

    /** A slot of the other end arrives: taken or known, it is a move of the run; anything else changes nothing. */
    method Receive(key: Key, w: Wrapper, ghost slot: nat, written: bool) returns (r: Receipt)
      requires Valid() && slot < |D.One(System(), !ofA).sent| && w == D.One(System(), !ofA).sent[slot]
      modifies this`events, chat, storage
      ensures Valid()
      ensures events == old(events) + if r.Committed() then [Event.Chat(D.Move(ofA, D.Arrive(slot, false)))] else []
      ensures r.Unopened? <==> old(Opening(chat, key)).None?
      ensures written ==> !r.Unwritten?
    {
      ghost var c, sys, move := View(chat, storage), System(), D.Move(ofA, D.Arrive(slot, false));
      r := OnEncryptedMessage(chat, storage, key, w, None, written);
      if r.Committed() {
        ReceiveMoves(sys, ofA, c, slot, w);
        MoveLeaves(events, move, ofA, c, storage.state.custody.relay, D.Exec(sys, move).value);
        events := events + [Event.Chat(move)];
      }
    }

    /** The end says something itself. */
    method Say(action: Action, written: bool) returns (ok: bool)
      requires Valid() && chat.key.Some? && !action.Resend?
      modifies this`events, chat, storage
      ensures Valid()
      ensures events ==
        old(events) + if ok then [Event.Chat(D.Move(ofA, D.Commit(action, old(chat.key).value)))] else []
      ensures storage.state.custody == old(storage.state.custody)
    {
      ghost var c, key := View(chat, storage), chat.key.value;
      OwnSlotLeaves(events, ofA, c, storage.state.custody.relay, action, key);
      ok := Outbox.SendAction(chat, storage, action, None, written);
      if ok { events := events + [Event.Chat(D.Move(ofA, D.Commit(action, key)))]; }
    }

    /** A message leaves the mailbox and joins the relay in one commit; a failed write leaves both as they were. */
    method Transfer(written: bool) returns (ok: bool)
      requires Valid() && chat.pendingDeliveries != [] && Ordinary(chat.pendingDeliveries[0])
      modifies this`events, chat, storage
      ensures Valid() && ok == written
      ensures events == old(events) + if ok then [Event.Chat(D.Move(ofA, D.Dispatch))] else []
      ensures ok ==> chat.pendingDeliveries == old(chat.pendingDeliveries)[1..]
      ensures ok ==>
        storage.durable.custody.relay == old(storage.state.custody.relay) + [old(chat.pendingDeliveries)[0]]
      ensures !ok ==> storage.state == old(storage.state) && chat.Snapshot() == old(chat.Snapshot())
    {
      ghost var c, relay := View(chat, storage), storage.state.custody.relay;
      NotYetListed(events, ofA, c, relay);
      HandingLeaves(events, ofA, c, relay);
      ok := HandOver(chat, storage, written);
      if ok { events := events + [Event.Chat(D.Move(ofA, D.Dispatch))]; }
    }

    /** Any other item: its effect, its answer and its removal are one commit. */
    method Handle(draw: nat, grp: Group, written: bool) returns (outcome: Dispatching.Outcome)
      requires Valid() && grp.Valid() && chat.key.Some? && chat.pendingDeliveries != []
      requires !Ordinary(chat.pendingDeliveries[0])
      modifies this`events, chat, storage
      ensures !outcome.Closing? ==> Valid()
      ensures outcome.Done? ==>
        var effect := Rekey.Handle(old(chat.Slots()), old(chat.pendingDeliveries)[0].action, draw, grp);
        effect.Ok? && events == old(events) + Steps(ofA, old(chat.Slots()), effect.value)
      ensures !outcome.Done? ==> events == old(events)
      ensures storage.state.custody == old(storage.state.custody)
    {
      ghost var c, k, relay := View(chat, storage), chat.Slots(), storage.state.custody.relay;
      assert chat.pendingDeliveries == c.mailbox;
      outcome := Dispatching.DispatchHead(chat, storage, draw, grp, written);
      if outcome.Done? {
        ghost var effect := Rekey.Handle(k, c.mailbox[0].action, draw, grp).value;
        HandledLeaves(events, ofA, c, relay, k, draw, grp);
        events := events + Steps(ofA, k, effect);
      }
    }

    /** The consumer releases one obligation; an unknown number is refused. */
    method Acknowledge(seqNo: int, written: bool) returns (ok: bool)
      requires Valid()
      modifies this`events, storage
      ensures Valid() && (ok <==> InList(old(storage.state.custody.relay), seqNo) && written)
      ensures events == old(events) + if ok then [Release(seqNo)] else []
      ensures storage.durable.custody.relay ==
        if ok then Without(old(storage.state.custody.relay), seqNo) else old(storage.state.custody.relay)
    {
      ghost var c, relay := View(chat, storage), storage.state.custody.relay;
      var kept := Without(storage.state.custody.relay, seqNo);
      WithoutNothing(storage.state.custody.relay, seqNo);
      if |kept| == |storage.state.custody.relay| { return false; }
      ReleaseLeaves(events, ofA, c, relay, seqNo);
      storage.Enter();
      storage.SaveCustody(storage.state.custody.(relay := kept));
      ok := storage.Leave(written);
      if ok { events := events + [Release(seqNo)]; }
    }

    /** So each message that the chat accepted is, on disk, in exactly one of mailbox and relay, or acknowledged. */
    lemma OnDisk(w: Wrapper)
      requires Valid() && w in D.One(System(), ofA).got && Ordinary(w)
      ensures storage.durable == storage.state && chat.pendingDeliveries == View(chat, storage).mailbox
      ensures var mailbox, relay := chat.pendingDeliveries, storage.durable.custody.relay;
        var acknowledged := HeldAfter(events, ofA).acknowledged;
        && (w in mailbox || w in relay || w.outSeq in acknowledged)
        && !(w in mailbox && (w in relay || w.outSeq in acknowledged)) && !(w in relay && w.outSeq in acknowledged)
    {
      ExactlyOnePlace(events, ofA, w);
    }
  }

  lemma ReceiveMoves(sys: D.System, ofA: bool, c: State, slot: nat, w: Wrapper)
    requires D.One(sys, ofA).s == c && slot < |D.One(sys, !ofA).sent| && w == D.One(sys, !ofA).sent[slot]
    requires Preflight(c, w) == Replay || Sequence.Receive(c, w).Ok?
    ensures var next := D.Exec(sys, D.Move(ofA, D.Arrive(slot, false)));
      next.Ok? && D.One(next.value, ofA).s == Sequence.Receive(c, w).value.state
    ensures Preflight(c, w) == Replay ==> Sequence.Receive(c, w).Ok? && Sequence.Receive(c, w).value.state == c
  {
  }

  /** The head of the mailbox is never in the relay already. */
  lemma NotYetListed(events: seq<Event>, ofA: bool, c: State, relay: seq<Wrapper>)
    requires Leaves(events, ofA, c, relay) && c.mailbox != [] && Ordinary(c.mailbox[0])
    ensures !InList(relay, c.mailbox[0].outSeq)
  {
    var more := MovesOf(events) + [D.Move(ofA, D.Dispatch)];
    D.RunAppend(D.Start(), MovesOf(events), D.Move(ofA, D.Dispatch));
    RunExact(events, ofA);
    DeliveredDistinct(more, ofA);
    assert more[..|more| - 1] == MovesOf(events);
    ItemJoins(HeldAfter(events, ofA), D.Delivered(MovesOf(events), ofA), c.mailbox[0]);
  }

  /** The moves that handling an item makes. */
  function Steps(ofA: bool, k: Keys, effect: Effect): seq<Event> {
    [Event.Chat(D.Move(ofA, D.Dispatch))]
    + if effect.reply.None? then []
      else [Event.Chat(D.Move(ofA, D.Commit(effect.reply.value, ReplyKey(k, effect.reply.value))))]
  }

  lemma HandledLeaves(events: seq<Event>, ofA: bool, c: State, relay: seq<Wrapper>, k: Keys, draw: nat, grp: Group)
    requires Leaves(events, ofA, c, relay) && c.mailbox != [] && !Ordinary(c.mailbox[0]) && grp.Valid()
    requires Rekey.Handle(k, c.mailbox[0].action, draw, grp).Ok?
    ensures var effect := Rekey.Handle(k, c.mailbox[0].action, draw, grp).value;
      Leaves(events + Steps(ofA, k, effect), ofA, Dispatching.Dispatched(c, effect, k), relay)
  {
    var effect := Rekey.Handle(k, c.mailbox[0].action, draw, grp).value;
    var handed := events + [Event.Chat(D.Move(ofA, D.Dispatch))];
    HandingLeaves(events, ofA, c, relay);
    if effect.reply.Some? {
      var commit := D.Move(ofA, D.Commit(effect.reply.value, ReplyKey(k, effect.reply.value)));
      OwnSlotLeaves(handed, ofA, Deliver(c), relay, effect.reply.value, ReplyKey(k, effect.reply.value));
      assert events + Steps(ofA, k, effect) == handed + [Event.Chat(commit)];
    } else {
      assert events + Steps(ofA, k, effect) == handed;
    }
  }

  /** A slot of the end's own. */
  lemma OwnSlotLeaves(events: seq<Event>, ofA: bool, c: State, relay: seq<Wrapper>, action: Action, key: Key)
    requires Leaves(events, ofA, c, relay) && !action.Resend?
    ensures Leaves(events + [Event.Chat(D.Move(ofA, D.Commit(action, key)))], ofA, Send(c, action, key), relay)
  {
    var sys, move := D.Run(D.Start(), MovesOf(events)).value, D.Move(ofA, D.Commit(action, key));
    MoveLeaves(events, move, ofA, c, relay, D.Exec(sys, move).value);
  }

  /** The transaction of a transfer: one document with the shorter mailbox and the longer relay, or none. */
  method HandOver(chat: SecretChat, storage: MemoryStorage, written: bool) returns (ok: bool)
    requires Settled(chat, storage) && chat.pendingDeliveries != [] && Ordinary(chat.pendingDeliveries[0])
    modifies chat, storage
    ensures Settled(chat, storage) && ok == written
    ensures ok ==> View(chat, storage) == Deliver(old(View(chat, storage)))
    ensures ok ==> chat.pendingDeliveries == old(chat.pendingDeliveries)[1..]
    ensures ok ==> storage.state.custody == old(storage.state.custody).(relay := storage.state.custody.relay)
    ensures ok ==>
      storage.state.custody.relay == Joined(old(storage.state.custody.relay), old(chat.pendingDeliveries)[0])
    ensures !ok ==> storage.state == old(storage.state) && chat.Snapshot() == old(chat.Snapshot())
  {
    var before := chat.Snapshot();
    var item := chat.pendingDeliveries[0];
    storage.Enter();
    storage.SaveCustody(storage.state.custody.(relay := Joined(storage.state.custody.relay, item)));
    chat.pendingDeliveries := chat.pendingDeliveries[1..];
    ok := Commit(chat, storage, before, written);
  }
}
