/** The durable store of one chat: its record, the retained outbox and the gap queue, under transactions. */
module Storage {
  import opened Prelude
  import opened Framing
  import opened Sequence
  import opened Chat
  import Ledger

  /** One stored item, filed under its sequence number. */
  datatype Entry<T> = Entry(seqNo: int, item: T)

  ghost predicate Unique<T>(list: seq<Entry<T>>) {
    forall i, j :: 0 <= i < j < |list| ==> list[i].seqNo != list[j].seqNo
  }

  ghost predicate Ascending<T>(list: seq<Entry<T>>) {
    forall i, j :: 0 <= i < j < |list| ==> list[i].seqNo < list[j].seqNo
  }

  ghost predicate Files<T>(list: seq<Entry<T>>, m: map<int, T>) {
    && (forall i :: 0 <= i < |list| ==> list[i].seqNo in m && m[list[i].seqNo] == list[i].item)
    && (forall k :: k in m ==> exists i :: 0 <= i < |list| && list[i].seqNo == k)
  }

  /** The list as a dictionary by sequence number. */
  function ToMap<T>(list: seq<Entry<T>>): map<int, T> {
    if list == [] then map[] else ToMap(list[1..])[list[0].seqNo := list[0].item]
  }

  lemma {:induction false} ToMapFiles<T>(list: seq<Entry<T>>)
    requires Unique(list)
    ensures Files(list, ToMap(list))
  {
    if list == [] {
    } else {
      var tail := list[1..];
      ToMapFiles(tail);
      forall i | 0 <= i < |list| ensures list[i].seqNo in ToMap(list) && ToMap(list)[list[i].seqNo] == list[i].item {
        if i > 0 { assert tail[i - 1] == list[i]; }
      }
      forall k | k in ToMap(list) ensures exists i :: 0 <= i < |list| && list[i].seqNo == k {
        if k == list[0].seqNo { assert list[0].seqNo == k; }
        else {
          var i :| 0 <= i < |tail| && tail[i].seqNo == k;
          assert list[i + 1].seqNo == k;
        }
      }
    }
  }

  lemma {:induction false} ToMapAppend<T>(list: seq<Entry<T>>, e: Entry<T>)
    requires Unique(list + [e])
    ensures ToMap(list + [e]) == ToMap(list)[e.seqNo := e.item]
  {
    if list == [] {
      assert list + [e] == [e];
    } else {
      assert (list + [e])[1..] == list[1..] + [e];
      assert (list + [e])[|list|] == e && (list + [e])[0] == list[0];
      ToMapAppend(list[1..], e);
    }
  }

  /** A dictionary that files a list with unique numbers is its dictionary. */
  lemma FilesUnique<T>(list: seq<Entry<T>>, m: map<int, T>)
    requires Unique(list) && Files(list, m)
    ensures ToMap(list) == m
  {
    ToMapFiles(list);
    var t := ToMap(list);
    forall k | k in t.Keys ensures k in m.Keys {
      var i :| 0 <= i < |list| && list[i].seqNo == k;
    }
    forall k | k in m.Keys ensures k in t.Keys && t[k] == m[k] {
      var i :| 0 <= i < |list| && list[i].seqNo == k;
    }
    assert t.Keys == m.Keys;
  }

  // ---- Reading in sequence order ----

  function Insert<T>(e: Entry<T>, list: seq<Entry<T>>): seq<Entry<T>> {
    if list == [] then [e]
    else if e.seqNo <= list[0].seqNo then [e] + list
    else [list[0]] + Insert(e, list[1..])
  }

  /** The list in sequence order. */
  function InOrder<T>(list: seq<Entry<T>>): seq<Entry<T>> {
    if list == [] then [] else Insert(list[0], InOrder(list[1..]))
  }

  lemma {:induction false} InsertFiles<T>(e: Entry<T>, list: seq<Entry<T>>)
    requires e.seqNo !in ToMap(list)
    ensures ToMap(Insert(e, list)) == ToMap(list)[e.seqNo := e.item]
  {
    if list == [] {
    } else if e.seqNo <= list[0].seqNo {
      assert Insert(e, list)[1..] == list;
    } else {
      InsertFiles(e, list[1..]);
      assert Insert(e, list)[1..] == Insert(e, list[1..]);
    }
  }

  lemma {:induction false} InsertBounds<T>(e: Entry<T>, list: seq<Entry<T>>, low: int)
    requires low < e.seqNo && forall i :: 0 <= i < |list| ==> low < list[i].seqNo
    ensures forall i :: 0 <= i < |Insert(e, list)| ==> low < Insert(e, list)[i].seqNo
  {
    if list != [] && e.seqNo > list[0].seqNo { InsertBounds(e, list[1..], low); }
  }

  lemma {:induction false} InsertAscends<T>(e: Entry<T>, list: seq<Entry<T>>)
    requires Ascending(list) && forall i :: 0 <= i < |list| ==> list[i].seqNo != e.seqNo
    ensures Ascending(Insert(e, list))
  {
    if list != [] && e.seqNo > list[0].seqNo {
      InsertAscends(e, list[1..]);
      InsertBounds(e, list[1..], list[0].seqNo);
    } else if list != [] {
      var s := Insert(e, list);
      forall i, j | 0 <= i < j < |s| ensures s[i].seqNo < s[j].seqNo {
        assert list[0].seqNo <= list[j - 1].seqNo;
      }
    }
  }

  /** Sorting a list of unique numbers gives an ascending list with the same dictionary. */
  lemma {:induction false} InOrderSorts<T>(list: seq<Entry<T>>)
    requires Unique(list)
    ensures Ascending(InOrder(list)) && ToMap(InOrder(list)) == ToMap(list)
  {
    if list == [] {
    } else {
      var tail := list[1..];
      InOrderSorts(tail);
      ToMapFiles(tail);
      forall i | 0 <= i < |tail| ensures tail[i].seqNo != list[0].seqNo { assert tail[i] == list[i + 1]; }
      var sorted := InOrder(tail);
      ToMapFiles(sorted);
      forall i | 0 <= i < |sorted| ensures sorted[i].seqNo != list[0].seqNo {
        assert sorted[i].seqNo in ToMap(tail);
      }
      InsertFiles(list[0], sorted);
      InsertAscends(list[0], sorted);
    }
  }

  function Above<T>(list: seq<Entry<T>>, upTo: int): seq<Entry<T>> {
    if list == [] then []
    else (if list[0].seqNo > upTo then [list[0]] else []) + Above(list[1..], upTo)
  }

  lemma {:induction false} AboveMembers<T>(list: seq<Entry<T>>, upTo: int, i: int) returns (j: int)
    requires 0 <= i < |Above(list, upTo)|
    ensures 0 <= j < |list| && list[j] == Above(list, upTo)[i] && list[j].seqNo > upTo
  {
    var kept := list[0].seqNo > upTo;
    if kept && i == 0 { j := 0; }
    else {
      j := AboveMembers(list[1..], upTo, if kept then i - 1 else i);
      j := j + 1;
    }
  }

  lemma {:induction false} AboveFiles<T>(list: seq<Entry<T>>, upTo: int)
    requires Unique(list)
    ensures Unique(Above(list, upTo))
    ensures ToMap(Above(list, upTo)) == map k | k in ToMap(list) && k > upTo :: ToMap(list)[k]
  {
    if list != [] {
      var head, tail := list[0], list[1..];
      AboveFiles(tail, upTo);
      var rest := Above(tail, upTo);
      forall i | 0 <= i < |rest| ensures rest[i].seqNo != head.seqNo {
        var j := AboveMembers(tail, upTo, i);
        assert list[j + 1] == rest[i];
      }
      if head.seqNo > upTo {
        assert Above(list, upTo)[1..] == rest;
      } else {
        assert Above(list, upTo) == rest;
      }
    }
  }

  lemma ReplacedFiles<T>(list: seq<Entry<T>>, index: int, item: T)
    requires Unique(list) && 0 <= index < |list|
    ensures Unique(list[index := Entry(list[index].seqNo, item)])
    ensures ToMap(list[index := Entry(list[index].seqNo, item)]) == ToMap(list)[list[index].seqNo := item]
  {
    var seqNo := list[index].seqNo;
    var list' := list[index := Entry(seqNo, item)];
    ToMapFiles(list);
    var m := ToMap(list)[seqNo := item];
    forall k | k in m ensures exists i :: 0 <= i < |list'| && list'[i].seqNo == k {
      if k == seqNo { assert list'[index].seqNo == k; }
      else {
        var i :| 0 <= i < |list| && list[i].seqNo == k;
        assert list'[i].seqNo == k;
      }
    }
    FilesUnique(list', m);
  }

  // ---- The store ----

  /** What the store holds besides the chat: the ingress ledger, all other conversations as one value, and the messages
      that the consumer has yet to acknowledge. */
  datatype Custody = Custody(ledger: Ledger.State, others: int, relay: seq<Wrapper>)

  /** What a commit writes as one unit. */
  datatype Document = Document(
    record: Option<ChatRecord>, out: seq<Entry<Record>>, waiting: seq<Entry<Wrapper>>, custody: Custody)

  const NOTHING := Document(None, [], [], Custody(Ledger.State(None, []), 0, []))

  /** One nesting of storage calls: a change, a nested scope, a scope whose failure the caller swallows, a raise. */
  datatype Call =
    | Put(change: Document -> Document)
    | Scope(body: seq<Call>)
    | Attempt(body: seq<Call>)
    | Raise

  datatype Outcome = Outcome(document: Document, ok: bool)

  /** What a nesting of calls does to the document inside one outermost scope: changes apply as they are met,
      and no inner failure takes any of them back. */
  function Eval(calls: seq<Call>, d: Document): Outcome {
    if calls == [] then Outcome(d, true)
    else match calls[0]
      case Put(change) => Eval(calls[1..], change(d))
      case Raise => Outcome(d, false)
      case Scope(body) =>
        var inner := Eval(body, d);
        if inner.ok then Eval(calls[1..], inner.document) else inner
      case Attempt(body) => Eval(calls[1..], Eval(body, d).document)
  }

  /** A call that fails whatever the document: a raise, or a scope with one inside that no attempt in between
      swallows. */
  predicate Raises(c: Call) {
    match c
    case Put(_) => false
    case Scope(body) => exists k :: 0 <= k < |body| && Raises(body[k])
    case Attempt(_) => false
    case Raise => true
  }

  predicate AnyRaises(calls: seq<Call>) { exists k :: 0 <= k < |calls| && Raises(calls[k]) }

  /** The changes that are met, in order, up to the first call that fails. */
  function Met(calls: seq<Call>): seq<Document -> Document>
    decreases calls
  {
    if calls == [] then []
    else
      (match calls[0]
       case Put(change) => [change]
       case Scope(body) => Met(body)
       case Attempt(body) => Met(body)
       case Raise => []) + if Raises(calls[0]) then [] else Met(calls[1..])
  }

  function AllChanges(changes: seq<Document -> Document>, d: Document): Document {
    if changes == [] then d else AllChanges(changes[1..], changes[0](d))
  }

  lemma {:induction false} ChangesTwice(a: seq<Document -> Document>, b: seq<Document -> Document>, d: Document)
    ensures AllChanges(a + b, d) == AllChanges(b, AllChanges(a, d))
    decreases |a|
  {
    if a == [] {
      assert a + b == b;
    } else {
      assert (a + b)[1..] == a[1..] + b;
      ChangesTwice(a[1..], b, a[0](d));
    }
  }

  lemma RaisesFirst(calls: seq<Call>)
    requires calls != []
    ensures AnyRaises(calls) <==> Raises(calls[0]) || AnyRaises(calls[1..])
  {
    if AnyRaises(calls) && !Raises(calls[0]) {
      var k :| 0 <= k < |calls| && Raises(calls[k]);
      assert Raises(calls[1..][k - 1]);
    }
    if AnyRaises(calls[1..]) {
      var k :| 0 <= k < |calls[1..]| && Raises(calls[1..][k]);
      assert Raises(calls[k + 1]);
    }
  }

  /** A nesting of calls fails exactly if a raise is somewhere in it below scopes alone, and it makes of the document
      what the changes met up to there make of it, those of swallowed failures included. */
  lemma {:induction false} EvalDecides(calls: seq<Call>, d: Document)
    ensures Eval(calls, d) == Outcome(AllChanges(Met(calls), d), !AnyRaises(calls))
    decreases calls
  {
    if calls != [] {
      var tail := calls[1..];
      RaisesFirst(calls);
      match calls[0]
      case Put(change) =>
        EvalDecides(tail, change(d));
        ChangesTwice([change], Met(tail), d);
      case Raise =>
      case Scope(body) =>
        EvalDecides(body, d);
        assert Raises(calls[0]) <==> AnyRaises(body);
        if !AnyRaises(body) {
          EvalDecides(tail, AllChanges(Met(body), d));
          ChangesTwice(Met(body), Met(tail), d);
        } else {
          assert Met(calls) == Met(body);
        }
      case Attempt(body) =>
        EvalDecides(body, d);
        EvalDecides(tail, AllChanges(Met(body), d));
        ChangesTwice(Met(body), Met(tail), d);
    }
  }

  class MemoryStorage {
    var state: Document
    var depth: nat
    var snapshot: Option<Document>
    var durable: Document

    /** Outside any scope memory is the durable document; inside one, the snapshot is. */
    ghost predicate Valid()
      reads this
    {
      if depth == 0 then snapshot.None? && state == durable else snapshot == Some(durable)
    }

    constructor ()
      ensures Valid() && depth == 0 && state == NOTHING
    {
      state, durable := NOTHING, NOTHING;
      depth, snapshot := 0, None;
    }

    /** Open a scope; only the outermost one takes a snapshot. */
    method Enter()
      requires Valid()
      modifies this
      ensures Valid() && depth == old(depth) + 1 && state == old(state) && durable == old(durable)
      ensures snapshot == if old(depth) == 0 then Some(old(state)) else old(snapshot)
    {
      if depth == 0 { snapshot := Some(state); }
      depth := depth + 1;
    }

    /** Leave a scope normally. The outermost one writes what changed; `written` says whether that succeeds. */
    method Leave(written: bool) returns (ok: bool)
      requires Valid() && depth > 0
      modifies this
      ensures Valid() && depth == old(depth) - 1
      ensures depth > 0 ==> ok && state == old(state) && durable == old(durable) && snapshot == old(snapshot)
      ensures depth == 0 ==> ok == (written || old(state) == old(snapshot).value)
      ensures depth == 0 ==> state == durable == if ok then old(state) else old(snapshot).value
    {
      ok := true;
      if depth == 1 {
        if state != snapshot.value {
          if written {
            durable := state;
          } else {
            ok := false;
            state := snapshot.value;
          }
        }
        snapshot := None;
      }
      depth := depth - 1;
    }

    /** Leave a scope by an exception: the outermost one puts the snapshot back, an inner one nothing. */
    method Unwind()
      requires Valid() && depth > 0
      modifies this
      ensures Valid() && depth == old(depth) - 1 && durable == old(durable)
      ensures depth > 0 ==> state == old(state) && snapshot == old(snapshot)
      ensures depth == 0 ==> state == old(snapshot).value
    {
      if depth == 1 {
        state := snapshot.value;
        snapshot := None;
      }
      depth := depth - 1;
    }

    /** Run a nesting of calls inside an open scope. */
    method Execute(calls: seq<Call>) returns (ok: bool)
      requires Valid() && depth > 0
      modifies this
      ensures Valid() && depth == old(depth) && snapshot == old(snapshot) && durable == old(durable)
      ensures Outcome(state, ok) == Eval(calls, old(state))
      decreases calls
    {
      if calls == [] { return true; }
      match calls[0] {
        case Put(change) =>
          state := change(state);
        case Raise =>
          return false;
        case Scope(body) =>
          Enter();
          ok := Execute(body);
          if ok { ok := Leave(true); } else { Unwind(); }
          if !ok { return; }
        case Attempt(body) =>
          Enter();
          ok := Execute(body);
          if ok { ok := Leave(true); } else { Unwind(); }
      }
      ok := Execute(calls[1..]);
    }

    /** A transaction, at any depth. Outermost, it is all or nothing in memory and on disk together, a failed
        durable write included; nested, its changes stay with the enclosing scope either way. */
    method Transaction(calls: seq<Call>, written: bool) returns (ok: bool)
      requires Valid()
      modifies this
      ensures Valid() && depth == old(depth)
      ensures var run := Eval(calls, old(state));
        && (old(depth) == 0 ==> ok == (run.ok && (written || run.document == old(state))))
        && (old(depth) == 0 ==> state == durable == if ok then run.document else old(state))
        && (old(depth) > 0 ==> Outcome(state, ok) == run && durable == old(durable))
      ensures AnyRaises(calls) ==> !ok && (old(depth) == 0 ==> state == durable == old(state))
      ensures !AnyRaises(calls) && old(depth) == 0 && written ==>
        ok && state == durable == AllChanges(Met(calls), old(state))
    {
      EvalDecides(calls, state);
      Enter();
      ok := Execute(calls);
      if ok { ok := Leave(written); } else { Unwind(); }
    }

    // ---- The queues, inside an open scope ----

    /** Each queue holds a sequence number at most once. */
    ghost predicate Filed()
      reads this
    {
      Unique(state.out) && Unique(state.waiting)
    }

    method Save(record: ChatRecord)
      requires Valid() && depth > 0
      modifies this`state
      ensures Valid() && state == old(state).(record := Some(record))
    {
      state := state.(record := Some(record));
    }

    /** Remove the chat: its record and both queues. */
    method Delete()
      requires Valid() && depth > 0
      modifies this`state
      ensures Valid() && state == Document(None, [], [], old(state).custody)
    {
      state := Document(None, [], [], state.custody);
    }

    /** Replace what is kept besides the chat. */
    method SaveCustody(custody: Custody)
      requires Valid() && depth > 0
      modifies this`state
      ensures Valid() && state == old(state).(custody := custody)
    {
      state := state.(custody := custody);
    }

    /** Open the store again after a crash at any instant: memory is what reached the disk. */
    method Reload()
      modifies this
      ensures Valid() && depth == 0 && durable == old(durable)
    {
      state := durable;
      depth, snapshot := 0, None;
    }

    /** Insert or replace the retained record of a slot. */
    method QueueOut(seqNo: int, record: Record)
      requires Valid() && depth > 0 && Filed()
      modifies this`state
      ensures Valid() && Filed() && state == old(state).(out := state.out)
      ensures ToMap(state.out) == ToMap(old(state.out))[seqNo := record]
    {
      var held := state.out;
      var index := 0;
      while index < |held| && held[index].seqNo != seqNo
        invariant 0 <= index <= |held|
        invariant forall i :: 0 <= i < index ==> held[i].seqNo != seqNo
      {
        index := index + 1;
      }
      if index < |held| {
        state := state.(out := held[index := Entry(seqNo, record)]);
        ReplacedFiles(held, index, record);
      } else {
        state := state.(out := held + [Entry(seqNo, record)]);
        ToMapAppend(held, Entry(seqNo, record));
      }
    }

    /** Forget the records up to a number, inclusive. */
    method DropOut(upTo: int)
      requires Valid() && depth > 0 && Filed()
      modifies this`state
      ensures Valid() && Filed() && state == old(state).(out := state.out)
      ensures ToMap(state.out) == map k | k in ToMap(old(state.out)) && k > upTo :: ToMap(old(state.out))[k]
    {
      var kept := Above(state.out, upTo);
      AboveFiles(state.out, upTo);
      state := state.(out := kept);
    }

    function RetainedOut(): seq<Entry<Record>>
      reads this
    {
      InOrder(state.out)
    }

    /** Keep the first copy of a slot that arrived ahead. */
    method QueueIn(seqNo: int, w: Wrapper)
      requires Valid() && depth > 0 && Filed()
      modifies this`state
      ensures Valid() && Filed() && state == old(state).(waiting := state.waiting)
      ensures ToMap(state.waiting) ==
        if seqNo in ToMap(old(state.waiting)) then ToMap(old(state.waiting)) else ToMap(old(state.waiting))[seqNo := w]
    {
      ToMapFiles(state.waiting);
      if forall i | 0 <= i < |state.waiting| :: state.waiting[i].seqNo != seqNo {
        ToMapAppend(state.waiting, Entry(seqNo, w));
        state := state.(waiting := state.waiting + [Entry(seqNo, w)]);
      }
    }

    /** Drain the gap queue in sequence order. */
    method TakeIn() returns (taken: seq<Entry<Wrapper>>)
      requires Valid() && depth > 0 && Filed()
      modifies this`state
      ensures Valid() && Filed() && state == old(state).(waiting := [])
      ensures taken == InOrder(old(state.waiting))
    {
      taken := InOrder(state.waiting);
      state := state.(waiting := []);
    }

    /** Put back what still waits, into the queue that was just drained. */
    method RequeueIn(waiting: seq<Entry<Wrapper>>)
      requires Valid() && depth > 0 && state.waiting == [] && Unique(waiting) && Unique(state.out)
      modifies this`state
      ensures Valid() && Filed() && state == old(state).(waiting := waiting)
    {
      state := state.(waiting := state.waiting + waiting);
    }
  }

  /** A failure caught inside an open scope takes none of its changes back: there are no savepoints. */
  lemma SwallowedFailureKeepsChanges(before: seq<Call>, d: Document, rest: seq<Call>)
    ensures Eval([Attempt(before + [Raise])] + rest, d) == Eval(rest, Eval(before + [Raise], d).document)
    ensures Eval(before, d).ok ==> Eval(before + [Raise], d) == Outcome(Eval(before, d).document, false)
  {
    assert ([Attempt(before + [Raise])] + rest)[1..] == rest;
    if Eval(before, d).ok { EvalThenRaise(before, d); }
  }

  lemma {:induction false} EvalThenRaise(before: seq<Call>, d: Document)
    requires Eval(before, d).ok
    ensures Eval(before + [Raise], d) == Outcome(Eval(before, d).document, false)
  {
    if before == [] {
      assert before + [Raise] == [Raise];
    } else {
      assert (before + [Raise])[1..] == before[1..] + [Raise];
      match before[0]
      case Put(change) => EvalThenRaise(before[1..], change(d));
      case Raise =>
      case Scope(body) => EvalThenRaise(before[1..], Eval(body, d).document);
      case Attempt(body) => EvalThenRaise(before[1..], Eval(body, d).document);
    }
  }
}
