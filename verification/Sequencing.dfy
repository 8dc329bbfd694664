/** The sequence checks as the program runs them: one pass over the sorted queue, fields updated in place. */
module Sequencing {
  import opened Prelude
  import opened Framing
  import opened Sequence
  import opened Chat
  import opened Storage

  /** The sequence state that the chat's fields and the two stored queues hold together. */
  function View(chat: SecretChat, storage: MemoryStorage): State
    reads chat, storage
  {
    chat.Counters(ToMap(storage.state.waiting), ToMap(storage.state.out))
  }

  /** What the queues leave alone: the record and everything besides the chat. */
  function Beside(storage: MemoryStorage): Document
    reads storage
  {
    storage.state.(out := [], waiting := [])
  }

  /** A drain that already took `ready` before it got to `rest`. */
  function After(ready: seq<Wrapper>, rest: Result<Drained>): Result<Drained> {
    if rest.Err? then rest else Ok(Drained(rest.value.state, ready + rest.value.ready))
  }

  lemma AfterNothing(rest: Result<Drained>)
    ensures After([], rest) == rest
  {
    if rest.Ok? { assert [] + rest.value.ready == rest.value.ready; }
  }

  lemma DrainStep(c: State, ready: seq<Wrapper>)
    requires c.inSeq in c.queue
    ensures !OrderOk(c, c.queue[c.inSeq]) ==> After(ready, Drain(c)).Err?
    ensures OrderOk(c, c.queue[c.inSeq]) ==>
      After(ready, Drain(c)) ==
      After(ready + [c.queue[c.inSeq]], Drain(Advance(c.(queue := c.queue - {c.inSeq}), c.queue[c.inSeq])))
  {
    if OrderOk(c, c.queue[c.inSeq]) {
      var item := c.queue[c.inSeq];
      var rest := Drain(Advance(c.(queue := c.queue - {c.inSeq}), item));
      if rest.Ok? {
        assert ready + ([item] + rest.value.ready) == (ready + [item]) + rest.value.ready;
      }
    }
  }

  /** What the single pass has settled after `i` entries: `q` is what the drain would still hold. */
  ghost predicate Passed(taken: seq<Entry<Wrapper>>, i: int, inSeq: int, q: map<int, Wrapper>,
    waiting: seq<Entry<Wrapper>>) {
    && 0 <= i <= |taken|
    && (forall j :: i <= j < |taken| ==> taken[j].seqNo in q && q[taken[j].seqNo] == taken[j].item)
    && (forall j :: 0 <= j < |waiting| ==>
          inSeq < waiting[j].seqNo && waiting[j].seqNo in q && q[waiting[j].seqNo] == waiting[j].item)
    && (forall k :: k in q ==> k < inSeq || Listed(taken, i, k) || Listed(waiting, 0, k))
    && Ascending(waiting)
    && (forall m, j :: 0 <= m < |waiting| && i <= j < |taken| ==> waiting[m].seqNo < taken[j].seqNo)
  }

  ghost predicate Listed(list: seq<Entry<Wrapper>>, from: int, k: int) {
    exists j :: 0 <= from <= j < |list| && list[j].seqNo == k
  }

  lemma PassStarts(taken: seq<Entry<Wrapper>>, inSeq: int)
    requires Ascending(taken)
    ensures Passed(taken, 0, inSeq, ToMap(taken), [])
  {
    ToMapFiles(taken);
    forall k | k in ToMap(taken) ensures Listed(taken, 0, k) {
      var j :| 0 <= j < |taken| && taken[j].seqNo == k;
      assert 0 <= 0 <= j < |taken| && taken[j].seqNo == k;
    }
  }

  lemma PassWaits(taken: seq<Entry<Wrapper>>, i: int, inSeq: int, q: map<int, Wrapper>, waiting: seq<Entry<Wrapper>>)
    requires Ascending(taken) && i < |taken| && Passed(taken, i, inSeq, q, waiting) && taken[i].seqNo > inSeq
    ensures Passed(taken, i + 1, inSeq, q, waiting + [taken[i]])
  {
    var waiting' := waiting + [taken[i]];
    forall k | k in q && k >= inSeq ensures Listed(taken, i + 1, k) || Listed(waiting', 0, k) {
      if Listed(waiting, 0, k) {
        var j :| 0 <= 0 <= j < |waiting| && waiting[j].seqNo == k;
        assert waiting'[j].seqNo == k;
      } else {
        var j :| 0 <= i <= j < |taken| && taken[j].seqNo == k;
        if j == i { assert waiting'[|waiting|].seqNo == k; } else { assert 0 <= i + 1 <= j; }
      }
    }
  }

  lemma PassSkips(taken: seq<Entry<Wrapper>>, i: int, inSeq: int, q: map<int, Wrapper>, waiting: seq<Entry<Wrapper>>)
    requires Ascending(taken) && i < |taken| && Passed(taken, i, inSeq, q, waiting) && taken[i].seqNo < inSeq
    ensures Passed(taken, i + 1, inSeq, q, waiting)
  {
    forall k | k in q && k >= inSeq ensures Listed(taken, i + 1, k) || Listed(waiting, 0, k) {
      if !Listed(waiting, 0, k) {
        var j :| 0 <= i <= j < |taken| && taken[j].seqNo == k;
        assert 0 <= i + 1 <= j;
      }
    }
  }

  lemma PassAhead(taken: seq<Entry<Wrapper>>, i: int, inSeq: int, q: map<int, Wrapper>, waiting: seq<Entry<Wrapper>>)
    requires i < |taken| && Passed(taken, i, inSeq, q, waiting)
    ensures waiting == [] || inSeq < taken[i].seqNo
  {
    if waiting != [] { assert waiting[0].seqNo < taken[i].seqNo; }
  }

  lemma PassTakes(taken: seq<Entry<Wrapper>>, i: int, inSeq: int, q: map<int, Wrapper>, waiting: seq<Entry<Wrapper>>)
    requires Ascending(taken) && i < |taken| && Passed(taken, i, inSeq, q, waiting) && taken[i].seqNo == inSeq
    ensures waiting == [] && Passed(taken, i + 1, inSeq + 1, q - {inSeq}, waiting)
  {
    PassAhead(taken, i, inSeq, q, waiting);
    forall k | k in q - {inSeq} && k >= inSeq + 1 ensures Listed(taken, i + 1, k) {
      var j :| 0 <= i <= j < |taken| && taken[j].seqNo == k;
      assert 0 <= i + 1 <= j;
    }
  }

  lemma PassEnds(taken: seq<Entry<Wrapper>>, inSeq: int, q: map<int, Wrapper>, waiting: seq<Entry<Wrapper>>)
    requires Passed(taken, |taken|, inSeq, q, waiting)
    ensures inSeq !in q
    ensures ToMap(waiting) == map k | k in q && k > inSeq :: q[k]
  {
    var m := map k | k in q && k > inSeq :: q[k];
    forall k | k in m ensures exists j :: 0 <= j < |waiting| && waiting[j].seqNo == k {
      assert Listed(waiting, 0, k);
      var j :| 0 <= 0 <= j < |waiting| && waiting[j].seqNo == k;
      assert waiting[j].seqNo == k;
    }
    FilesUnique(waiting, m);
    assert inSeq in q ==> Listed(waiting, 0, inSeq);
  }

  /** The chronological checks and the three updates of one accepted item. */
  method AdvanceChat(chat: SecretChat, item: Wrapper, ghost before: State) returns (ok: bool)
    requires before == chat.Counters(before.queue, before.outbox)
    modifies chat`inSeqNo, chat`peerInSeqNo, chat`wrapperLayer
    ensures ok <==> OrderOk(before, item)
    ensures chat.Counters(before.queue, before.outbox) == if ok then Advance(before, item) else before
  {
    ok := chat.peerInSeqNo <= item.inSeq / 2 <= chat.outSeqNo && chat.wrapperLayer <= item.layer;
    if ok {
      chat.peerInSeqNo := item.inSeq / 2;
      chat.wrapperLayer := item.layer;
      chat.inSeqNo := chat.inSeqNo + 1;
    }
  }

  /** The pass has taken `ready` so far and its state `now` still has the rest of the drain ahead. */
  ghost predicate Tracks(start: State, now: State, ready: seq<Wrapper>) {
    && now == start.(inSeq := now.inSeq, peerIn := now.peerIn, wrapperLayer := now.wrapperLayer, queue := now.queue)
    && Drain(start) == After(ready, Drain(now))
  }

  lemma TracksStart(start: State)
    ensures Tracks(start, start, [])
  {
    AfterNothing(Drain(start));
  }

  lemma TracksStep(start: State, now: State, ready: seq<Wrapper>)
    requires Tracks(start, now, ready) && now.inSeq in now.queue
    ensures !OrderOk(now, now.queue[now.inSeq]) ==> Drain(start).Err?
    ensures OrderOk(now, now.queue[now.inSeq]) ==>
      Tracks(start, Advance(now.(queue := now.queue - {now.inSeq}), now.queue[now.inSeq]),
        ready + [now.queue[now.inSeq]])
  {
    DrainStep(now, ready);
  }

  lemma TracksEnd(start: State, now: State, ready: seq<Wrapper>)
    requires Tracks(start, now, ready) && now.inSeq !in now.queue
    ensures Drain(start) == Ok(Drained(now, ready))
  {
    assert ready + [] == ready;
  }

  /** What the pass knows at entry `i`: what it settled, where the chat stands, and what it has taken. */
  ghost predicate AtEntry(
      chat: SecretChat, taken: seq<Entry<Wrapper>>, i: int, waiting: seq<Entry<Wrapper>>, start: State, now: State,
      ready: seq<Wrapper>)
    reads chat
  {
    && Passed(taken, i, chat.inSeqNo, now.queue, waiting) && chat.Counters(now.queue, start.outbox) == now
    && Tracks(start, now, ready)
  }

  lemma EntryWaits(
      chat: SecretChat, taken: seq<Entry<Wrapper>>, i: int, waiting: seq<Entry<Wrapper>>, start: State, now: State,
      ready: seq<Wrapper>)
    requires Ascending(taken) && 0 <= i < |taken| && AtEntry(chat, taken, i, waiting, start, now, ready)
    ensures taken[i].seqNo > chat.inSeqNo ==> AtEntry(chat, taken, i + 1, waiting + [taken[i]], start, now, ready)
    ensures taken[i].seqNo < chat.inSeqNo ==> AtEntry(chat, taken, i + 1, waiting, start, now, ready)
  {
    if taken[i].seqNo > chat.inSeqNo { PassWaits(taken, i, chat.inSeqNo, now.queue, waiting); }
    if taken[i].seqNo < chat.inSeqNo { PassSkips(taken, i, chat.inSeqNo, now.queue, waiting); }
  }

  lemma EntriesDone(
      chat: SecretChat, taken: seq<Entry<Wrapper>>, waiting: seq<Entry<Wrapper>>, start: State, now: State,
      ready: seq<Wrapper>)
    requires AtEntry(chat, taken, |taken|, waiting, start, now, ready)
    ensures Drain(start) == Ok(Drained(now, ready)) && Ascending(waiting)
      && chat.Counters(now.queue, start.outbox) == now
    ensures ToMap(waiting) == map k | k in now.queue && k > now.inSeq :: now.queue[k]
  {
    PassEnds(taken, chat.inSeqNo, now.queue, waiting);
    TracksEnd(start, now, ready);
  }

  /** The entry is the next expected slot: it is accepted, unless it fails the chronological checks. */
  method TakeEntry(chat: SecretChat, taken: seq<Entry<Wrapper>>, i: int, waiting: seq<Entry<Wrapper>>,
      ghost start: State, ghost now: State, ghost ready: seq<Wrapper>)
    returns (ok: bool, ghost now': State)
    requires Ascending(taken) && 0 <= i < |taken| && taken[i].seqNo == chat.inSeqNo
    requires AtEntry(chat, taken, i, waiting, start, now, ready)
    modifies chat`inSeqNo, chat`peerInSeqNo, chat`wrapperLayer
    ensures ok ==> AtEntry(chat, taken, i + 1, waiting, start, now', ready + [taken[i].item])
    ensures !ok ==> Drain(start).Err?
  {
    PassTakes(taken, i, chat.inSeqNo, now.queue, waiting);
    TracksStep(start, now, ready);
    now' := now.(queue := now.queue - {now.inSeq as int});
    ok := AdvanceChat(chat, taken[i].item, now');
    if ok { now' := Advance(now', taken[i].item); }
  }

  /** One pass over the sorted queue accepts exactly what taking the next expected slot again and again would,
      fails exactly when that would, and leaves in `waiting` exactly the later slots. */
  method DrainQueue(chat: SecretChat, taken: seq<Entry<Wrapper>>, ghost start: State)
    returns (ok: bool, ready: seq<Wrapper>, waiting: seq<Entry<Wrapper>>)
    requires Ascending(taken) && start == chat.Counters(ToMap(taken), start.outbox)
    modifies chat`inSeqNo, chat`peerInSeqNo, chat`wrapperLayer
    ensures ok <==> Drain(start).Ok?
    ensures ok ==> ready == Drain(start).value.ready && Ascending(waiting)
    ensures ok ==> var run := Drain(start).value.state;
      && chat.Counters(run.queue, start.outbox) == run
      && ToMap(waiting) == map k | k in run.queue && k > run.inSeq :: run.queue[k]
  {
    ready, waiting := [], [];
    ghost var now := start;
    PassStarts(taken, chat.inSeqNo);
    TracksStart(start);
    var i := 0;
    while i < |taken|
      invariant 0 <= i <= |taken| && AtEntry(chat, taken, i, waiting, start, now, ready)
    {
      var record := taken[i];
      EntryWaits(chat, taken, i, waiting, start, now, ready);
      if record.seqNo == chat.inSeqNo {
        ok, now := TakeEntry(chat, taken, i, waiting, start, now, ready);
        if !ok { return; }
        ready := ready + [record.item];
      } else if record.seqNo > chat.inSeqNo {
        waiting := waiting + [record];
      }
      i := i + 1;
    }
    EntriesDone(chat, taken, waiting, start, now, ready);
    ok := true;
  }

  /** What `accept` hands back: the items accepted now, and a span just decided. */
  datatype Intake = Intake(ready: seq<Wrapper>, resend: Option<Span>)

  function Check(chat: SecretChat, w: Wrapper, storage: MemoryStorage): Verdict
    reads chat, storage
  {
    Preflight(View(chat, storage), w)
  }

  /** A slot beyond the next expected one is queued; only the first of a hole marks it. */
  method QueueAheadOf(chat: SecretChat, w: Wrapper, storage: MemoryStorage) returns (resend: Option<Span>)
    requires storage.Valid() && storage.depth > 0 && storage.Filed()
    requires w.outSeq / 2 !in View(chat, storage).queue
    modifies chat`gapRequested, chat`gapEnd, chat`resendDue, storage`state
    ensures storage.Valid() && storage.Filed() && Beside(storage) == old(Beside(storage))
    ensures var acc := QueueAhead(old(View(chat, storage)), w);
      View(chat, storage) == acc.state && resend == acc.resend
  {
    storage.QueueIn(w.outSeq / 2, w);
    resend := None;
    if !chat.gapRequested {
      chat.gapRequested := true;
      chat.gapEnd := Some(w.outSeq / 2);
      resend := Some(Span(2 * chat.inSeqNo + w.outSeq % 2, w.outSeq - 2));
      chat.resendDue := resend;
    }
  }

  /** Close the gap, move to the next hole, or keep it, from the list of what still waits. */
  method SettleGapOf(chat: SecretChat, waiting: seq<Entry<Wrapper>>, parity: int, ghost run: State)
    returns (resend: Option<Span>)
    requires Ascending(waiting) && run == chat.Counters(run.queue, run.outbox)
    requires ToMap(waiting) == map k | k in run.queue && k > run.inSeq :: run.queue[k]
    modifies chat`gapRequested, chat`gapEnd, chat`resendDue
    ensures var (settled, decided) := SettleGap(run, parity);
      chat.Counters(ToMap(waiting), run.outbox) == settled && resend == decided
  {
    resend := None;
    ToMapFiles(waiting);
    if waiting == [] {
      chat.gapRequested := false;
      chat.gapEnd := None;
      chat.resendDue := None;
    } else {
      assert waiting[0].seqNo in ToMap(waiting);
      if chat.gapEnd == None || chat.inSeqNo >= chat.gapEnd.value {
        FirstIsLeast(waiting);
        chat.gapEnd := Some(waiting[0].seqNo);
        resend := Some(Span(2 * chat.inSeqNo + parity, 2 * (waiting[0].seqNo - 1) + parity));
        chat.resendDue := resend;
        chat.gapRequested := true;
      }
    }
  }

  lemma FirstIsLeast(waiting: seq<Entry<Wrapper>>)
    requires Ascending(waiting) && waiting != [] && ToMap(waiting) != map[]
    ensures FirstWaiting(ToMap(waiting)) == waiting[0].seqNo
  {
    ToMapFiles(waiting);
    var least := FirstWaiting(ToMap(waiting));
    var j :| 0 <= j < |waiting| && waiting[j].seqNo == least;
    assert waiting[0].seqNo in ToMap(waiting);
  }

  /** `accept`, for a wrapper that passed the checks: the result and the new state are the specification's, and
      it raises exactly when a queued item fails the chronological checks. */
  method AcceptWrapper(chat: SecretChat, w: Wrapper, storage: MemoryStorage) returns (r: Result<Intake>)
    requires storage.Valid() && storage.depth > 0 && storage.Filed()
    requires Check(chat, w, storage) == Fresh
    modifies chat`inSeqNo, chat`peerInSeqNo, chat`wrapperLayer, chat`layer, chat`gapRequested, chat`gapEnd,
      chat`resendDue, storage`state
    ensures storage.Valid() && storage.Filed() && Beside(storage) == old(Beside(storage))
    ensures r.Ok? <==> Accept(old(View(chat, storage)), w).Ok?
    ensures r.Ok? ==> var acc := Accept(old(View(chat, storage)), w).value;
      r.value == Intake(acc.ready, acc.resend) && View(chat, storage) == acc.state
  {
    ghost var c := View(chat, storage);
    chat.layer := RaiseRemoteLayer(chat.layer, w.layer);
    ghost var c0 := c.(layer := RaiseRemoteLayer(c.layer, w.layer));
    assert View(chat, storage) == c0;
    if w.outSeq / 2 > chat.inSeqNo {
      var resend := QueueAheadOf(chat, w, storage);
      return Ok(Intake([], resend));
    }
    InOrderSorts(storage.state.waiting);
    var ok := AdvanceChat(chat, w, c0);
    var taken := storage.TakeIn();
    ghost var start := Advance(c0, w);
    var ready, waiting;
    ok, ready, waiting := DrainQueue(chat, taken, start);
    if !ok { return Err("order"); }
    ghost var run := Drain(start).value.state;
    storage.RequeueIn(waiting);
    var resend := SettleGapOf(chat, waiting, w.outSeq % 2, run);
    return Ok(Intake([w] + ready, resend));
  }

  /** The records a resend names, in order; refused unless every slot of a well-formed span is retained. */
  method AnswerSpan(chat: SecretChat, storage: MemoryStorage, first: int, last: int)
    returns (r: Result<seq<Entry<Record>>>)
    requires storage.Filed()
    ensures r.Ok? <==> AnswerResend(View(chat, storage), first, last).Ok?
    ensures r.Ok? ==> ToMap(r.value) == AnswerResend(View(chat, storage), first, last).value
    ensures r.Ok? ==> |r.value| == (last - first) / 2 + 1
    ensures r.Ok? ==> forall i :: 0 <= i < |r.value| ==> r.value[i].seqNo == first + 2 * i
  {
    if !AskOk(View(chat, storage), first, last) { return Err("unsatisfiable"); }
    InOrderSorts(storage.state.out);
    var held := ToMap(storage.RetainedOut());
    assert held == View(chat, storage).outbox;
    r := Collect(held, first, last);
    if r.Ok? { AnswerIsSpan(r.value, held, first, last); }
  }

  /** Every record of a well-formed span, in order, unless one is missing. */
  method Collect(held: map<int, Record>, first: int, last: int) returns (r: Result<seq<Entry<Record>>>)
    requires first <= last && first % 2 == last % 2
    ensures r.Ok? <==> forall n :: InSpan(n, first, last) ==> n in held
    ensures r.Ok? ==> Collected(r.value, (last - first) / 2 + 1, held, first)
  {
    var answer: seq<Entry<Record>> := [];
    var count := (last - first) / 2 + 1;
    var i := 0;
    while i < count
      invariant 0 <= i <= count && Collected(answer, i, held, first)
    {
      if first + 2 * i !in held {
        assert InSpan(first + 2 * i, first, last);
        return Err("unsatisfiable");
      }
      answer := answer + [Entry(first + 2 * i, held[first + 2 * i])];
      i := i + 1;
    }
    forall n | InSpan(n, first, last) ensures n in held {
      assert answer[(n - first) / 2].seqNo == n;
    }
    return Ok(answer);
  }

  ghost predicate Collected(answer: seq<Entry<Record>>, count: int, held: map<int, Record>, first: int) {
    && |answer| == count
    && forall j :: 0 <= j < count ==>
         answer[j].seqNo == first + 2 * j && first + 2 * j in held && answer[j].item == held[first + 2 * j]
  }

  lemma AnswerIsSpan(answer: seq<Entry<Record>>, held: map<int, Record>, first: int, last: int)
    requires first <= last && first % 2 == last % 2 && Collected(answer, (last - first) / 2 + 1, held, first)
    ensures forall n :: InSpan(n, first, last) ==> n in held
    ensures ToMap(answer) == map n | n in held && InSpan(n, first, last) :: held[n]
  {
    forall n | InSpan(n, first, last) ensures n in held && exists j :: 0 <= j < |answer| && answer[j].seqNo == n {
      var j := (n - first) / 2;
      assert answer[j].seqNo == n;
    }
    var m := map n | n in held && InSpan(n, first, last) :: held[n];
    forall j | 0 <= j < |answer| ensures answer[j].seqNo in m && m[answer[j].seqNo] == answer[j].item {
      assert InSpan(first + 2 * j, first, last);
    }
    FilesUnique(answer, m);
  }

  /** Forget what the peer's echo acknowledges. */
  method ForgetAcknowledged(chat: SecretChat, storage: MemoryStorage, peerIn: int)
    requires storage.Valid() && storage.depth > 0 && storage.Filed()
    modifies storage`state
    ensures storage.Valid() && storage.Filed() && Beside(storage) == old(Beside(storage))
    ensures View(chat, storage) == Forget(old(View(chat, storage)), peerIn)
  {
    if peerIn > 0 { storage.DropOut(TransformOut(peerIn - 1, chat.outbound)); }
  }

  /** Answered records are due again, whether or not the acknowledgement dropped them. */
  method RequeueAnswer(storage: MemoryStorage, answer: seq<Entry<Record>>)
    requires storage.Valid() && storage.depth > 0 && storage.Filed() && Unique(answer)
    modifies storage`state
    ensures storage.Valid() && storage.Filed() && storage.state == old(storage.state).(out := storage.state.out)
    ensures ToMap(storage.state.out) ==
      ToMap(old(storage.state.out)) + map n | n in ToMap(answer) :: ToMap(answer)[n].(pending := true)
  {
    ghost var before := ToMap(storage.state.out);
    var i := 0;
    while i < |answer|
      invariant 0 <= i <= |answer| && storage.Valid() && storage.Filed()
      invariant storage.state == old(storage.state).(out := storage.state.out)
      invariant ToMap(storage.state.out) == before + PendingMap(answer[..i])
    {
      storage.QueueOut(answer[i].seqNo, answer[i].item.(pending := true));
      PendingMapNext(answer, i, before);
      i := i + 1;
    }
    assert answer[..i] == answer;
    PendingMapIs(answer);
  }

  lemma PendingMapNext(answer: seq<Entry<Record>>, i: int, before: map<int, Record>)
    requires 0 <= i < |answer|
    ensures before + PendingMap(answer[..i + 1]) ==
      (before + PendingMap(answer[..i]))[answer[i].seqNo := answer[i].item.(pending := true)]
  {
    assert answer[..i + 1][..i] == answer[..i];
  }

  /** The records of a list, each marked pending; a later entry wins. */
  function PendingMap(list: seq<Entry<Record>>): map<int, Record> {
    if list == [] then map[]
    else PendingMap(list[..|list| - 1])[list[|list| - 1].seqNo := list[|list| - 1].item.(pending := true)]
  }

  lemma {:induction false} PendingMapIs(list: seq<Entry<Record>>)
    requires Unique(list)
    ensures PendingMap(list) == map n | n in ToMap(list) :: ToMap(list)[n].(pending := true)
  {
    if list == [] {
    } else {
      var init, last := list[..|list| - 1], list[|list| - 1];
      PendingMapIs(init);
      assert list == init + [last];
      ToMapAppend(init, last);
    }
  }
}
