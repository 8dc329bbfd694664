/** The chat entity: the fields that survive a restart, and its state machine. */
module Chat {
  import opened Prelude
  import opened Framing
  import opened Sequence
  import opened Rekey

  /** Everything one stored record holds. */
  datatype ChatRecord = ChatRecord(
    outbound: bool,
    state: ChatState,
    key: Option<Key>,
    pendingKey: Option<Key>,
    previousKey: Option<Key>,
    exchangeId: Option<int>,
    exchangeSecret: Option<nat>,
    rekeyRole: Option<Role>,
    newKeyConfirmed: bool,
    inSeqNo: nat,
    outSeqNo: nat,
    peerInSeqNo: int,
    gapRequested: bool,
    gapEnd: Option<int>,
    resendDue: Option<Span>,
    layer: int,
    wrapperLayer: int,
    pendingDeliveries: seq<Wrapper>,
    closedReason: Option<string>)

  /** The sequence state of a record together with the two stored queues. */
  function StateOf(r: ChatRecord, queue: map<int, Wrapper>, outbox: map<int, Record>): State {
    State(r.outbound, r.inSeqNo, r.outSeqNo, r.peerInSeqNo, r.layer, r.wrapperLayer, r.gapRequested, r.gapEnd,
      r.resendDue, queue, outbox, r.pendingDeliveries)
  }

  /** What a closed chat must not keep. */
  predicate Scrubbed(r: ChatRecord) {
    && r.key.None? && r.pendingKey.None? && r.previousKey.None?
    && r.exchangeId.None? && r.exchangeSecret.None? && r.rekeyRole.None? && r.pendingDeliveries == []
  }

  function WithoutMaterial(r: ChatRecord): ChatRecord {
    ChatRecord(r.outbound, r.state, None, None, None, None, None, None, r.newKeyConfirmed, r.inSeqNo, r.outSeqNo,
      r.peerInSeqNo, r.gapRequested, r.gapEnd, r.resendDue, r.layer, r.wrapperLayer, [], r.closedReason)
  }

  class SecretChat {
    const outbound: bool
    var state: ChatState
    var key: Option<Key>
    var pendingKey: Option<Key>
    var previousKey: Option<Key>
    var exchangeId: Option<int>
    var exchangeSecret: Option<nat>
    var rekeyRole: Option<Role>
    var newKeyConfirmed: bool
    var inSeqNo: nat
    var outSeqNo: nat
    var peerInSeqNo: int
    var gapRequested: bool
    var gapEnd: Option<int>
    var resendDue: Option<Span>
    var layer: int
    var wrapperLayer: int
    var pendingDeliveries: seq<Wrapper>
    var closedReason: Option<string>

    /** A new chat has no key; the side that asked waits for the answer. */
    constructor (outbound: bool)
      ensures this.outbound == outbound
      ensures Snapshot() == ChatRecord(
        outbound, if outbound then Inviting else Invited, None, None, None, None, None, None, false,
        0, 0, 0, false, None, None, INITIAL_REMOTE_LAYER, 0, [], None)
    {
      this.outbound := outbound;
      state := if outbound then Inviting else Invited;
      key, pendingKey, previousKey := None, None, None;
      exchangeId, exchangeSecret, rekeyRole, newKeyConfirmed := None, None, None, false;
      inSeqNo, outSeqNo, peerInSeqNo := 0, 0, 0;
      gapRequested, gapEnd, resendDue := false, None, None;
      layer, wrapperLayer := INITIAL_REMOTE_LAYER, 0;
      pendingDeliveries, closedReason := [], None;
    }

    function Snapshot(): ChatRecord
      reads this
    {
      ChatRecord(outbound, state, key, pendingKey, previousKey, exchangeId, exchangeSecret, rekeyRole,
        newKeyConfirmed, inSeqNo, outSeqNo, peerInSeqNo, gapRequested, gapEnd, resendDue, layer, wrapperLayer,
        pendingDeliveries, closedReason)
    }

    /** The sequence state, with the two stored queues. */
    function Counters(queue: map<int, Wrapper>, outbox: map<int, Record>): State
      reads this`inSeqNo, this`outSeqNo, this`peerInSeqNo, this`layer, this`wrapperLayer, this`gapRequested,
        this`gapEnd, this`resendDue, this`pendingDeliveries
    {
      State(outbound, inSeqNo, outSeqNo, peerInSeqNo, layer, wrapperLayer, gapRequested, gapEnd, resendDue,
        queue, outbox, pendingDeliveries)
    }

    /** The key slots of a chat that has a key. */
    function Slots(): Keys
      requires key.Some?
      reads this`state, this`key, this`pendingKey, this`previousKey, this`exchangeId, this`exchangeSecret,
        this`rekeyRole, this`newKeyConfirmed
    {
      Keys(state, key.value, pendingKey, previousKey, exchangeId, exchangeSecret, rekeyRole, newKeyConfirmed)
    }

    /** Put every field back as it was; the direction of a chat never changes. */
    method Restore(r: ChatRecord)
      requires r.outbound == outbound
      modifies this
      ensures Snapshot() == r
    {
      RestoreKeys(r);
      RestoreSequence(r);
    }

    method RestoreKeys(r: ChatRecord)
      modifies this`state, this`key, this`pendingKey, this`previousKey, this`exchangeId, this`exchangeSecret,
        this`rekeyRole, this`newKeyConfirmed, this`closedReason
      ensures state == r.state && key == r.key && pendingKey == r.pendingKey && previousKey == r.previousKey
      ensures exchangeId == r.exchangeId && exchangeSecret == r.exchangeSecret && rekeyRole == r.rekeyRole
      ensures newKeyConfirmed == r.newKeyConfirmed && closedReason == r.closedReason
    {
      state, key, pendingKey, previousKey := r.state, r.key, r.pendingKey, r.previousKey;
      exchangeId, exchangeSecret, rekeyRole := r.exchangeId, r.exchangeSecret, r.rekeyRole;
      newKeyConfirmed, closedReason := r.newKeyConfirmed, r.closedReason;
    }

    method RestoreSequence(r: ChatRecord)
      modifies this`inSeqNo, this`outSeqNo, this`peerInSeqNo, this`gapRequested, this`gapEnd, this`resendDue,
        this`layer, this`wrapperLayer, this`pendingDeliveries
      ensures inSeqNo == r.inSeqNo && outSeqNo == r.outSeqNo && peerInSeqNo == r.peerInSeqNo
      ensures gapRequested == r.gapRequested && gapEnd == r.gapEnd && resendDue == r.resendDue
      ensures layer == r.layer && wrapperLayer == r.wrapperLayer && pendingDeliveries == r.pendingDeliveries
    {
      inSeqNo, outSeqNo, peerInSeqNo := r.inSeqNo, r.outSeqNo, r.peerInSeqNo;
      gapRequested, gapEnd, resendDue := r.gapRequested, r.gapEnd, r.resendDue;
      layer, wrapperLayer, pendingDeliveries := r.layer, r.wrapperLayer, r.pendingDeliveries;
    }

    /** Move along the transition table; any other move is refused and changes nothing. */
    method TransitionTo(target: ChatState) returns (ok: bool)
      modifies this`state
      ensures ok == CanMove(old(state), target)
      ensures ok <==> (old(state), target) in {
        (Inviting, Ready), (Inviting, Closed), (Invited, Ready), (Invited, Closed),
        (Ready, Rekeying), (Ready, Closed), (Rekeying, Ready), (Rekeying, Closed)}
      ensures state == if ok then target else old(state)
    {
      ok := CanMove(state, target);
      if ok { state := target; }
    }

    /** The only way a current key is set; an unanswered chat becomes ready. */
    method AdoptKey(key: Key) returns (ok: bool)
      modifies this`key, this`state
      ensures ok == !old(state).Closed?
      ensures !ok ==> unchanged(this)
      ensures ok ==> this.key == Some(key)
      ensures ok ==> state == if old(state).Inviting? || old(state).Invited? then Ready else old(state)
    {
      ok := !state.Closed?;
      if ok {
        this.key := Some(key);
        if state.Inviting? || state.Invited? { state := Ready; }
      }
    }

    /** Drop key material and pending content; everything else stays. */
    method Scrub()
      modifies this`key, this`pendingKey, this`previousKey, this`exchangeId, this`exchangeSecret, this`rekeyRole,
        this`pendingDeliveries
      ensures Scrubbed(Snapshot())
      ensures Snapshot() == WithoutMaterial(old(Snapshot()))
    {
      DropKeys();
      pendingDeliveries := [];
    }

    method DropKeys()
      modifies this`key, this`pendingKey, this`previousKey, this`exchangeId, this`exchangeSecret, this`rekeyRole
      ensures key == pendingKey == previousKey == None
      ensures exchangeId == None && exchangeSecret == None && rekeyRole == None
    {
      key, pendingKey, previousKey := None, None, None;
      exchangeId, exchangeSecret, rekeyRole := None, None, None;
    }

    /** Terminal and idempotent: the first reason is kept, and material never survives. */
    method Close(reason: string)
      modifies this
      ensures state.Closed? && Scrubbed(Snapshot())
      ensures key == pendingKey == previousKey == None && pendingDeliveries == []
      ensures exchangeId == None && exchangeSecret == None && rekeyRole == None
      ensures closedReason == if old(state).Closed? then old(closedReason) else Some(reason)
      ensures StateOf(Snapshot(), map[], map[]) == StateOf(old(Snapshot()), map[], map[]).(mailbox := [])
    {
      if !state.Closed? {
        state := Closed;
        closedReason := Some(reason);
      }
      Scrub();
    }
  }
}
