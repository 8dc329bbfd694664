/** The sending commits: a send, the one request for a hole, withdrawn content, transmission marks and retries. */
module Outbox {
  import opened Prelude
  import opened Framing
  import opened Dh
  import opened Sequence
  import opened Rekey
  import opened Chat
  import opened Storage
  import opened Sequencing
  import opened Exchange
  import opened Receiving

  predicate Sendable(state: ChatState) { state.Ready? || state.Rekeying? }

  /** Number, wrap and retain one message in one commit; nothing is transmitted before it is retained. */
  method SendAction(chat: SecretChat, storage: MemoryStorage, action: Action, encryptionKey: Option<Key>, written: bool)
    returns (ok: bool)
    requires Settled(chat, storage) && chat.key.Some?
    modifies chat, storage
    ensures Settled(chat, storage) && storage.state.custody == old(storage.state.custody)
    ensures ok ==>
      View(chat, storage) == Send(old(View(chat, storage)), action, encryptionKey.GetOr(old(chat.key).value))
    ensures ok ==> chat.key.Some? && chat.Slots() == old(chat.Slots())
    ensures !ok ==> storage.state == old(storage.state) && chat.Snapshot() == old(chat.Snapshot())
    ensures written && Sendable(old(chat.state)) ==> ok
  {
    if !Sendable(chat.state) { return false; }
    var before := chat.Snapshot();
    storage.Enter();
    Retain(chat, storage, action, encryptionKey.GetOr(chat.key.value));
    label retained:
    ok := Commit(chat, storage, before, written);
    assert ok ==> chat.Slots() == old@retained(chat.Slots());
  }

  /** Ask for a hole, clearing the mark in the commit that retains the request. A hole that closed since it was
      marked only clears the mark. */
  method RequestDueResend(chat: SecretChat, storage: MemoryStorage, written: bool) returns (ok: bool)
    requires Settled(chat, storage) && chat.key.Some? && Sendable(chat.state)
    modifies chat, storage
    ensures ok ==> View(chat, storage) == RequestDue(old(View(chat, storage)), old(chat.key).value)
    ensures ok ==> chat.key.Some? && chat.Slots() == old(chat.Slots())
    ensures !ok ==> storage.state == old(storage.state) && chat.Snapshot() == old(chat.Snapshot())
    ensures old(chat.resendDue).None? || DueSpan(old(View(chat, storage))).first <= old(chat.resendDue).value.last
      ==> Settled(chat, storage) && (written ==> ok)
  {
    ok := true;
    if chat.resendDue.None? { return; }
    var due := chat.resendDue.value;
    var first := Max(due.first, 2 * chat.inSeqNo + due.first % 2);
    if first > due.last {
      chat.resendDue := None;
      return;
    }
    var before := chat.Snapshot();
    storage.Enter();
    AskInScope(chat, storage, first, due.last);
    label retained:
    ok := Commit(chat, storage, before, written);
    assert ok ==> chat.Slots() == old@retained(chat.Slots());
  }

  /** The request is retained, and the mark cleared. */
  method AskInScope(chat: SecretChat, storage: MemoryStorage, first: int, last: int)
    requires storage.Valid() && storage.depth > 0 && storage.Filed() && chat.key.Some?
    modifies chat`outSeqNo, chat`resendDue, storage`state
    ensures storage.Valid() && storage.Filed() && Beside(storage) == old(Beside(storage)) && chat.resendDue == None
    ensures View(chat, storage)
      == Send(old(View(chat, storage)), Resend(first, last), chat.key.value).(resendDue := None)
  {
    Retain(chat, storage, Resend(first, last), chat.key.value);
    chat.resendDue := None;
  }

  /** The request is retained, then the exchange fields are set. */
  method StartInScope(chat: SecretChat, storage: MemoryStorage, xid: int, secret: nat, grp: Group) returns (ok: bool)
    requires storage.Valid() && storage.depth > 0 && storage.Filed() && chat.key.Some? && grp.Valid()
    modifies chat`outSeqNo, chat`state, chat`exchangeId, chat`exchangeSecret, chat`rekeyRole, storage`state
    ensures storage.Valid() && storage.Filed() && Beside(storage) == old(Beside(storage))
    ensures ok <==> BeginExchange(old(chat.Slots()), xid, secret).Ok?
    ensures ok ==> Ok(chat.Slots()) == BeginExchange(old(chat.Slots()), xid, secret)
    ensures View(chat, storage) == Send(old(View(chat, storage)), RequestKey(xid, Publish(grp, secret)), chat.key.value)
  {
    Retain(chat, storage, RequestKey(xid, Publish(grp, secret)), chat.key.value);
    assert chat.Slots() == old(chat.Slots());
    label retained:
    ok := StartExchange(chat, xid, secret);
    assert View(chat, storage) == old@retained(View(chat, storage));
  }

  /** Publish a rekey request: nothing while an exchange is open or the previous key is held, and otherwise the
      retained request and the exchange fields in one commit. */
  method StartRekey(chat: SecretChat, storage: MemoryStorage, xid: int, secret: nat, grp: Group, written: bool)
    returns (started: bool)
    requires Settled(chat, storage) && chat.key.Some? && grp.Valid()
    modifies chat, storage
    ensures Settled(chat, storage) && storage.state.custody == old(storage.state.custody)
    ensures started ==> MayStart(old(chat.Slots()))
    ensures started ==> chat.key.Some? && Ok(chat.Slots()) == BeginExchange(old(chat.Slots()), xid, secret)
    ensures started ==>
      View(chat, storage)
      == Send(old(View(chat, storage)), RequestKey(xid, PowMod(grp.g, secret, grp.p)), old(chat.key).value)
    ensures !started ==> storage.state == old(storage.state) && chat.Snapshot() == old(chat.Snapshot())
    ensures written && MayStart(old(chat.Slots())) && old(chat.state).Ready? ==> started
  {
    if chat.exchangeId.Some? || chat.previousKey.Some? || !Sendable(chat.state) { return false; }
    var before := chat.Snapshot();
    storage.Enter();
    started := StartInScope(chat, storage, xid, secret, grp);
    if !started {
      RollBack(chat, storage, before);
      return;
    }
    label begun:
    started := Commit(chat, storage, before, written);
    assert started ==> chat.Slots() == old@begun(chat.Slots());
  }

  // ---- Withdrawal ----

  function Replaced(r: Record, ids: set<int>, key: Key): Record {
    if r.wrapper.action.Content? && r.wrapper.action.id in ids
    then r.(wrapper := r.wrapper.(action := Withdrawn(r.wrapper.action.id)), key := key)
    else r
  }

  /** How far a rewriting pass has got: the first `i` records are done, the others as they were. */
  ghost predicate Rewritten(
      items: seq<Entry<Record>>, i: int, before: map<int, Record>, now: map<int, Record>, ids: set<int>, key: Key)
  {
    && Ascending(items) && Files(items, before) && now.Keys == before.Keys
    && (forall j :: 0 <= j < |items| ==>
          now[items[j].seqNo] == if j < i then Replaced(items[j].item, ids, key) else items[j].item)
  }

  lemma RewriteStarts(items: seq<Entry<Record>>, before: map<int, Record>, ids: set<int>, key: Key)
    requires Ascending(items) && before == ToMap(items)
    ensures Rewritten(items, 0, before, before, ids, key)
  {
    ToMapFiles(items);
  }

  lemma RewriteStep(
      items: seq<Entry<Record>>, i: nat, before: map<int, Record>, now: map<int, Record>, ids: set<int>, key: Key)
    requires i < |items| && Rewritten(items, i, before, now, ids, key)
    ensures Rewritten(items, i + 1, before, now[items[i].seqNo := Replaced(items[i].item, ids, key)], ids, key)
    ensures Replaced(items[i].item, ids, key) == items[i].item ==>
      now[items[i].seqNo := Replaced(items[i].item, ids, key)] == now
  {
  }

  lemma RewriteEnds(
      items: seq<Entry<Record>>, before: map<int, Record>, now: map<int, Record>, ids: set<int>, key: Key)
    requires Rewritten(items, |items|, before, now, ids, key)
    ensures now == map n | n in before :: Replaced(before[n], ids, key)
  {
    var m := map n | n in before :: Replaced(before[n], ids, key);
    forall n | n in before.Keys ensures now[n] == m[n] {
      var j :| 0 <= j < |items| && items[j].seqNo == n;
    }
  }

  /** Rewrite every retained message whose id is withdrawn as a self-delete in its own slot; service actions, and
      everything else about every record, stay. */
  method RewriteRetainedAsDeletes(chat: SecretChat, storage: MemoryStorage, ids: set<int>)
    requires storage.Valid() && storage.depth > 0 && storage.Filed() && chat.key.Some?
    modifies storage`state
    ensures storage.Valid() && storage.Filed() && storage.state == old(storage.state).(out := storage.state.out)
    ensures TakenBack(ToMap(old(storage.state.out)), ToMap(storage.state.out), ids, chat.key.value)
    ensures ToMap(storage.state.out) ==
      map n | n in ToMap(old(storage.state.out)) :: Replaced(ToMap(old(storage.state.out))[n], ids, chat.key.value)
    ensures View(chat, storage) == Withdraw(old(View(chat, storage)), ids, chat.key.value)
  {
    InOrderSorts(storage.state.out);
    var items := storage.RetainedOut();
    ghost var before := ToMap(storage.state.out);
    RewriteStarts(items, before, ids, chat.key.value);
    var i := 0;
    while i < |items|
      invariant 0 <= i <= |items| && storage.Valid() && storage.Filed()
      invariant storage.state == old(storage.state).(out := storage.state.out)
      invariant Rewritten(items, i, before, ToMap(storage.state.out), ids, chat.key.value)
    {
      var record := items[i].item;
      RewriteStep(items, i, before, ToMap(storage.state.out), ids, chat.key.value);
      if record.wrapper.action.Content? && record.wrapper.action.id in ids {
        storage.QueueOut(items[i].seqNo, Replaced(record, ids, chat.key.value));
      }
      i := i + 1;
    }
    RewriteEnds(items, before, ToMap(storage.state.out), ids, chat.key.value);
    WithdrawDecides(old(View(chat, storage)), ids, chat.key.value);
  }

  // ---- Transmission and retry ----

  /** How the server answered one request. */
  datatype Answer = Sent | Uncertain | Rejected | ChatGone

  /** A confirmed transmission clears the mark, unless the slot was acknowledged or rewritten meanwhile. */
  method MarkTransmitted(storage: MemoryStorage, item: Entry<Record>)
    requires storage.Valid() && storage.depth > 0 && storage.Filed()
    modifies storage`state
    ensures storage.Valid() && storage.Filed() && storage.state == old(storage.state).(out := storage.state.out)
    ensures ToMap(storage.state.out) == Transmitted(ToMap(old(storage.state.out)), item)
    ensures var held, now := ToMap(old(storage.state.out)), ToMap(storage.state.out);
      && now.Keys == held.Keys
      && forall n :: n in held ==>
        if n == item.seqNo && held[n].wrapper == item.item.wrapper
        then now[n] == Record(held[n].wrapper, item.item.key, false, item.item.failures)
        else now[n] == held[n]
  {
    var held := ToMap(storage.state.out);
    if item.seqNo in held && held[item.seqNo].wrapper == item.item.wrapper {
      storage.QueueOut(item.seqNo, item.item.(pending := false));
    }
  }

  function Transmitted(out: map<int, Record>, item: Entry<Record>): map<int, Record> {
    if item.seqNo in out && out[item.seqNo].wrapper == item.item.wrapper
    then out[item.seqNo := item.item.(pending := false)]
    else out
  }

  /** What one answer makes of the outbox; `None` ends the chat. */
  function Answered(out: map<int, Record>, item: Entry<Record>, reply: Answer, key: Key): Option<map<int, Record>> {
    match reply
    case Sent => Some(Transmitted(out, item))
    case Uncertain => Some(out)
    case ChatGone => None
    case Rejected =>
      var action := item.item.wrapper.action;
      if action.Content? then Some(map n | n in out :: Replaced(out[n], {action.id}, key))
      else if item.item.failures + 1 >= 2 then None
      else Some(out[item.seqNo := item.item.(failures := item.item.failures + 1)])
  }

  predicate Tried(r: Record, n: int, inflight: set<int>) { r.pending && n !in inflight }

  predicate Failing(e: Entry<Record>, inflight: set<int>, replies: int -> Answer) {
    Tried(e.item, e.seqNo, inflight) && replies(e.seqNo) != Sent
  }

  /** The whole pass over a snapshot of the outbox, in sequence order. */
  function Retried(out: map<int, Record>, items: seq<Entry<Record>>, inflight: set<int>, replies: int -> Answer,
    key: Key)
    : Option<map<int, Record>>
    decreases |items|
  {
    if items == [] then Some(out)
    else if !Tried(items[0].item, items[0].seqNo, inflight) then Retried(out, items[1..], inflight, replies, key)
    else match Answered(out, items[0], replies(items[0].seqNo), key)
      case None => None
      case Some(next) => Retried(next, items[1..], inflight, replies, key)
  }

  /** Settle one answer, in its own commit: the mark, the withdrawal or the failure count. */
  method Settle(chat: SecretChat, storage: MemoryStorage, item: Entry<Record>, reply: Answer) returns (open: bool)
    requires storage.Valid() && storage.depth == 0 && storage.Filed() && chat.key.Some?
    modifies storage
    ensures storage.Valid() && storage.depth == 0 && storage.Filed()
    ensures storage.state == old(storage.state).(out := storage.state.out)
    ensures var next := Answered(ToMap(old(storage.state.out)), item, reply, chat.key.value);
      open == next.Some? && (open ==> ToMap(storage.state.out) == next.value)
  {
    open := true;
    storage.Enter();
    match reply {
      case Sent => MarkTransmitted(storage, item);
      case Uncertain =>
      case ChatGone => open := false;
      case Rejected =>
        var action := item.item.wrapper.action;
        if action.Content? {
          RewriteRetainedAsDeletes(chat, storage, {action.id});
        } else if item.item.failures + 1 >= 2 {
          open := false;
        } else {
          storage.QueueOut(item.seqNo, item.item.(failures := item.item.failures + 1));
        }
    }
    var ok := storage.Leave(true);
  }

  /** A closed chat leaves a tombstone: its scrubbed record and empty queues. */
  ghost predicate Ended(chat: SecretChat, storage: MemoryStorage)
    reads chat, storage
  {
    && Settled(chat, storage) && storage.state.out == [] && storage.state.waiting == []
    && chat.state.Closed? && Scrubbed(chat.Snapshot())
  }

  /** End the chat: the record and both queues go and the scrubbed record is saved again, in one commit. A failed
      write leaves the chat open, with everything it had. */
  method CloseLocal(chat: SecretChat, storage: MemoryStorage, reason: string, written: bool) returns (ok: bool)
    requires Settled(chat, storage)
    modifies chat, storage
    ensures Settled(chat, storage) && storage.state.custody == old(storage.state.custody)
    ensures ok ==> Ended(chat, storage)
    ensures ok ==> chat.closedReason == if old(chat.state).Closed? then old(chat.closedReason) else Some(reason)
    ensures !ok ==> storage.state == old(storage.state) && chat.Snapshot() == old(chat.Snapshot())
    ensures written ==> ok
    ensures !written && !old(chat.state).Closed? ==> !ok
  {
    var before := chat.Snapshot();
    storage.Enter();
    chat.Close(reason);
    storage.Delete();
    ok := Commit(chat, storage, before, written);
  }

  /** The pass itself: one attempt for every pending record, in sequence order. */
  method RetryItems(chat: SecretChat, storage: MemoryStorage, items: seq<Entry<Record>>, inflight: set<int>,
      replies: int -> Answer)
    returns (open: bool, failed: bool)
    requires storage.Valid() && storage.depth == 0 && storage.Filed() && chat.key.Some?
    modifies storage
    ensures storage.Valid() && storage.depth == 0 && storage.Filed()
    ensures storage.state == old(storage.state).(out := storage.state.out)
    ensures var run := Retried(ToMap(old(storage.state.out)), items, inflight, replies, chat.key.value);
      open == run.Some? && (open ==> ToMap(storage.state.out) == run.value)
    ensures open ==> (failed <==> exists j :: 0 <= j < |items| && Failing(items[j], inflight, replies))
  {
    open, failed := true, false;
    var i := 0;
    while i < |items|
      invariant 0 <= i <= |items| && open
      invariant storage.Valid() && storage.depth == 0 && storage.Filed()
      invariant storage.state == old(storage.state).(out := storage.state.out)
      invariant Retried(ToMap(old(storage.state.out)), items, inflight, replies, chat.key.value) ==
        Retried(ToMap(storage.state.out), items[i..], inflight, replies, chat.key.value)
      invariant failed <==> exists j :: 0 <= j < i && Failing(items[j], inflight, replies)
    {
      assert items[i..][1..] == items[i + 1..];
      if Tried(items[i].item, items[i].seqNo, inflight) {
        open := Settle(chat, storage, items[i], replies(items[i].seqNo));
        if !open { return; }
        failed := failed || replies(items[i].seqNo) != Sent;
      }
      i := i + 1;
    }
  }

  /** How a pass ended: over every record, with the chat closed, or with the closing not written. */
  datatype Pass = Completed(failed: bool) | ChatEnded | Unclosed

  /** Retry what is pending. A failed record leaves the pass going; only the end of the chat stops it. `failed` is
      what the caller is told about. */
  method RetryPending(chat: SecretChat, storage: MemoryStorage, inflight: set<int>, replies: int -> Answer,
    written: bool)
    returns (pass: Pass)
    requires Settled(chat, storage) && chat.key.Some?
    modifies chat, storage
    ensures var run := Retried(
        ToMap(old(storage.state.out)), InOrder(old(storage.state.out)), inflight, replies, old(chat.key).value);
      && (pass.Completed? <==> run.Some?)
      && (run.Some? ==> View(chat, storage) == old(View(chat, storage)).(outbox := run.value))
    ensures Settled(chat, storage) && storage.state.custody == old(storage.state.custody)
    ensures pass.ChatEnded? ==> Ended(chat, storage)
    ensures !pass.ChatEnded? ==> chat.Snapshot() == old(chat.Snapshot())
    ensures pass.Unclosed? ==> !written
    ensures pass.Completed? ==> (pass.failed <==> exists j ::
      0 <= j < |InOrder(old(storage.state.out))| && Failing(InOrder(old(storage.state.out))[j], inflight, replies))
  {
    var items := storage.RetainedOut();
    var open, failed := RetryItems(chat, storage, items, inflight, replies);
    if open { return Completed(failed); }
    var closed := CloseLocal(chat, storage, "the chat cannot continue", written);
    pass := if closed then ChatEnded else Unclosed;
  }

  // ---- What a whole pass means ----

  /** Message ids are random: two retained messages never share one. */
  ghost predicate DistinctIds(out: map<int, Record>) {
    forall m, n :: m in out && n in out && m != n && out[m].wrapper.action.Content? && out[n].wrapper.action.Content?
      ==> out[m].wrapper.action.id != out[n].wrapper.action.id
  }

  function Settled1(r: Record, n: int, inflight: set<int>, replies: int -> Answer, key: Key): Record {
    if !Tried(r, n, inflight) then r
    else match replies(n)
      case Sent => r.(pending := false)
      case Rejected =>
        if r.wrapper.action.Content? then Replaced(r, {r.wrapper.action.id}, key) else r.(failures := r.failures + 1)
      case _ => r
  }

  /** An attempt that ends the chat: the server has lost it, or a protocol step was refused twice. */
  predicate Ending(r: Record, n: int, inflight: set<int>, replies: int -> Answer) {
    && Tried(r, n, inflight)
    && (replies(n).ChatGone? || (replies(n).Rejected? && !r.wrapper.action.Content? && r.failures + 1 >= 2))
  }

  /** What its own answer makes of a record: a confirmed one is no longer pending; a refused message gives its slot to
      its self-delete, under the current key; a refused protocol step has failed once more; and one that was not tried,
      or whose answer did not come, is as it was. */
  predicate MadeOf(r: Record, now: Record, n: int, inflight: set<int>, replies: int -> Answer, key: Key) {
    var w := r.wrapper;
    if !r.pending || n in inflight || replies(n).Uncertain? then now == r
    else if replies(n).Sent? then now == Record(w, r.key, false, r.failures)
    else if w.action.Content?
    then now == Record(Wrapper(w.inSeq, w.outSeq, w.layer, Withdrawn(w.action.id)), key, true, r.failures)
    else now == Record(w, r.key, true, r.failures + 1)
  }

  /** No record holds back another: after a pass that leaves the chat open, each record is what its own answer
      makes of it, and no slot was added or lost. The pass ends the chat exactly when some attempt must. */
  lemma NothingHeldBack(list: seq<Entry<Record>>, inflight: set<int>, replies: int -> Answer, key: Key)
    requires Unique(list) && DistinctIds(ToMap(list))
    ensures var out := ToMap(list);
      var run := Retried(out, list, inflight, replies, key);
      && (run.None? <==> exists n :: n in out && Ending(out[n], n, inflight, replies))
      && (run.Some? ==> run.value.Keys == out.Keys)
      && (run.Some? ==> forall n :: n in out ==> MadeOf(out[n], run.value[n], n, inflight, replies, key))
  {
    ToMapFiles(list);
    RetriedFrom(ToMap(list), list, inflight, replies, key);
    EndingListed(list, inflight, replies);
    var out := ToMap(list);
    if n :| n in out && Ending(out[n], n, inflight, replies) {
      var j :| 0 <= j < |list| && list[j].seqNo == n;
      assert Ending(list[j].item, list[j].seqNo, inflight, replies);
    }
  }

  lemma AnswerIsLocal(out: map<int, Record>, e: Entry<Record>, inflight: set<int>, replies: int -> Answer, key: Key)
    requires DistinctIds(out) && e.seqNo in out && out[e.seqNo] == e.item && Tried(e.item, e.seqNo, inflight)
    ensures var next := Answered(out, e, replies(e.seqNo), key);
      && (next.None? <==> Ending(e.item, e.seqNo, inflight, replies))
      && (next.Some? ==> next.value == out[e.seqNo := Settled1(e.item, e.seqNo, inflight, replies, key)])
  {
    var next := Answered(out, e, replies(e.seqNo), key);
    if next.Some? {
      var settled := out[e.seqNo := Settled1(e.item, e.seqNo, inflight, replies, key)];
      assert next.value.Keys == settled.Keys;
      forall n | n in out.Keys ensures next.value[n] == settled[n] {}
      assert next.value == settled;
    }
  }

  predicate AnyEnding(list: seq<Entry<Record>>, inflight: set<int>, replies: int -> Answer)
    decreases |list|
  {
    list != [] && (Ending(list[0].item, list[0].seqNo, inflight, replies) || AnyEnding(list[1..], inflight, replies))
  }

  lemma {:induction false} EndingListed(list: seq<Entry<Record>>, inflight: set<int>, replies: int -> Answer)
    ensures AnyEnding(list, inflight, replies)
      <==> exists j :: 0 <= j < |list| && Ending(list[j].item, list[j].seqNo, inflight, replies)
    decreases |list|
  {
    if list == [] {
    } else {
      var tail := list[1..];
      EndingListed(tail, inflight, replies);
      if j :| 0 <= j < |tail| && Ending(tail[j].item, tail[j].seqNo, inflight, replies) {
        assert tail[j] == list[j + 1];
      }
      if j :| 0 <= j < |list| && Ending(list[j].item, list[j].seqNo, inflight, replies) {
        assert j == 0 || tail[j - 1] == list[j];
      }
    }
  }

  lemma HeadApart(list: seq<Entry<Record>>)
    requires list != [] && Unique(list)
    ensures list[0].seqNo !in ToMap(list[1..])
  {
    var tail := list[1..];
    ToMapFiles(tail);
    forall i | 0 <= i < |tail| ensures tail[i].seqNo != list[0].seqNo { assert tail[i] == list[i + 1]; }
  }

  /** The pass from a point where the rest of the list is still filed as listed. */
  lemma {:induction false} RetriedFrom(
      out: map<int, Record>, list: seq<Entry<Record>>, inflight: set<int>, replies: int -> Answer, key: Key)
    requires Unique(list) && DistinctIds(out)
    requires forall i :: 0 <= i < |list| ==> list[i].seqNo in out && out[list[i].seqNo] == list[i].item
    ensures Retried(out, list, inflight, replies, key).None? <==> AnyEnding(list, inflight, replies)
    ensures var run := Retried(out, list, inflight, replies, key);
      run.Some? ==> run.value.Keys == out.Keys && forall n :: n in out ==>
        run.value[n] == if n in ToMap(list) then Settled1(out[n], n, inflight, replies, key) else out[n]
    decreases |list|
  {
    if list == [] {
    } else {
      var head, tail := list[0], list[1..];
      if Tried(head.item, head.seqNo, inflight) { AnswerIsLocal(out, head, inflight, replies, key); }
      if !Ending(head.item, head.seqNo, inflight, replies) {
        var next := out[head.seqNo := Settled1(head.item, head.seqNo, inflight, replies, key)];
        assert Tried(head.item, head.seqNo, inflight) || next == out;
        forall i | 0 <= i < |tail| ensures tail[i].seqNo in next && next[tail[i].seqNo] == tail[i].item {
          assert tail[i] == list[i + 1];
        }
        HeadApart(list);
        RetriedFrom(next, tail, inflight, replies, key);
      }
    }
  }
}
