/** Bounded custody: a message moves from the mailbox to the relay list in one commit, and stays there until the
    consumer acknowledges it. */
module Relay {
  import opened Framing
  import opened Delivery

  predicate Ordinary(w: Wrapper) { w.action.Content? }

  predicate InList(ws: seq<Wrapper>, seqNo: int) { exists i :: 0 <= i < |ws| && ws[i].outSeq == seqNo }

  /** The messages of these that are still owed to the consumer, in order. */
  function Owed(ws: seq<Wrapper>, acknowledged: set<int>): seq<Wrapper> {
    if ws == [] then []
    else
      (if Ordinary(ws[0]) && ws[0].outSeq !in acknowledged then [ws[0]] else []) + Owed(ws[1..], acknowledged)
  }

  function Without(ws: seq<Wrapper>, seqNo: int): seq<Wrapper> {
    if ws == [] then [] else (if ws[0].outSeq != seqNo then [ws[0]] else []) + Without(ws[1..], seqNo)
  }

  /** What the relay is once an item has left the mailbox. */
  function Joined(relay: seq<Wrapper>, item: Wrapper): seq<Wrapper> {
    if Ordinary(item) && !InList(relay, item.outSeq) then relay + [item] else relay
  }

  ghost predicate DistinctSlots(ws: seq<Wrapper>) {
    forall i, j :: 0 <= i < j < |ws| ==> ws[i].outSeq != ws[j].outSeq
  }

  lemma {:induction false} OwedAppends(ws: seq<Wrapper>, w: Wrapper, acknowledged: set<int>)
    ensures Owed(ws + [w], acknowledged) == Owed(ws, acknowledged) + Owed([w], acknowledged)
  {
    if ws == [] {
      assert ws + [w] == [w];
    } else {
      assert (ws + [w])[1..] == ws[1..] + [w];
      OwedAppends(ws[1..], w, acknowledged);
    }
  }

  lemma {:induction false} OwedMember(ws: seq<Wrapper>, acknowledged: set<int>, w: Wrapper)
    ensures w in Owed(ws, acknowledged) <==> w in ws && Ordinary(w) && w.outSeq !in acknowledged
  {
    if ws == [] {
    } else {
      OwedMember(ws[1..], acknowledged, w);
      assert w in ws <==> w == ws[0] || w in ws[1..];
    }
  }

  lemma {:induction false} WithoutOwed(ws: seq<Wrapper>, acknowledged: set<int>, seqNo: int)
    ensures Without(Owed(ws, acknowledged), seqNo) == Owed(ws, acknowledged + {seqNo})
  {
    if ws == [] {
    } else {
      WithoutOwed(ws[1..], acknowledged, seqNo);
      var rest := Owed(ws[1..], acknowledged);
      assert ([ws[0]] + rest)[1..] == rest && [] + rest == rest;
    }
  }

  lemma {:induction false} WithoutNothing(ws: seq<Wrapper>, seqNo: int)
    ensures |Without(ws, seqNo)| <= |ws| && (|Without(ws, seqNo)| == |ws| <==> !InList(ws, seqNo))
  {
    if ws == [] {
    } else {
      WithoutNothing(ws[1..], seqNo);
      if i :| 0 <= i < |ws| && ws[i].outSeq == seqNo { assert i == 0 || ws[1..][i - 1].outSeq == seqNo; }
      if i :| 0 <= i < |ws| - 1 && ws[1..][i].outSeq == seqNo { assert ws[i + 1].outSeq == seqNo; }
    }
  }

  // ---- The run of two ends, and the consumer of one of them ----

  datatype Event = Chat(move: Move) | Release(seqNo: int)

  function MovesOf(events: seq<Event>): seq<Move>
    decreases |events|
  {
    if events == [] then []
    else
      var last := events[|events| - 1];
      MovesOf(events[..|events| - 1]) + if last.Chat? then [last.move] else []
  }

  datatype Held = Held(relay: seq<Wrapper>, acknowledged: set<int>)

  /** What an event does to the relay: an item that leaves the mailbox joins it, a known obligation is released. */
  ghost function HeldStep(h: Held, moves: seq<Move>, event: Event, ofA: bool): Held {
    match event
    case Chat(move) =>
      var sys := Run(Start(), moves);
      var out := if sys.Ok? && move.byA == ofA then Taken(One(sys.value, ofA), move.step) else [];
      if out == [] then h else h.(relay := Joined(h.relay, out[0]))
    case Release(seqNo) =>
      if InList(h.relay, seqNo) then Held(Without(h.relay, seqNo), h.acknowledged + {seqNo}) else h
  }

  ghost function HeldAfter(events: seq<Event>, ofA: bool): Held
    decreases |events|
  {
    if events == [] then Held([], {})
    else
      var init := events[..|events| - 1];
      HeldStep(HeldAfter(init, ofA), MovesOf(init), events[|events| - 1], ofA)
  }

  /** The relay is what is still owed of the items that have left the mailbox, and only those were acknowledged. */
  ghost predicate Exact(h: Held, delivered: seq<Wrapper>) {
    && DistinctSlots(delivered) && h.relay == Owed(delivered, h.acknowledged)
    && (forall n :: n in h.acknowledged ==> InList(delivered, n))
  }

  lemma PrefixDistinct(got: seq<Wrapper>, sent: seq<Wrapper>)
    requires ExactPrefix(got, sent)
    ensures DistinctSlots(got)
  {
    forall i, j | 0 <= i < j < |got| ensures got[i].outSeq != got[j].outSeq {
      assert got[i].outSeq / 2 == i && got[j].outSeq / 2 == j;
    }
  }

  lemma DeliveredDistinct(moves: seq<Move>, ofA: bool)
    requires Run(Start(), moves).Ok?
    ensures DistinctSlots(Delivered(moves, ofA))
  {
    MailboxConserved(moves);
    var sys := Run(Start(), moves).value;
    PrefixDistinct(Delivered(moves, ofA), One(sys, !ofA).sent);
  }

  /** Numbers of different parts differ. */
  lemma Apart(a: seq<Wrapper>, b: seq<Wrapper>, k: nat)
    requires DistinctSlots(a + b) && k < |b|
    ensures !InList(a, b[k].outSeq)
  {
    forall i | 0 <= i < |a| ensures a[i].outSeq != b[k].outSeq {
      assert (a + b)[i] == a[i] && (a + b)[|a| + k] == b[k];
    }
  }

  /** One more item out of the mailbox is owed as well: its number is new. */
  lemma ItemJoins(h: Held, delivered: seq<Wrapper>, item: Wrapper)
    requires Exact(h, delivered) && DistinctSlots(delivered + [item])
    ensures Exact(h.(relay := Joined(h.relay, item)), delivered + [item])
    ensures Ordinary(item) ==> !InList(h.relay, item.outSeq)
  {
    var more := delivered + [item];
    OwedAppends(delivered, item, h.acknowledged);
    Apart(delivered, [item], 0);
    forall n | n in h.acknowledged ensures InList(more, n) {
      var i :| 0 <= i < |delivered| && delivered[i].outSeq == n;
      assert more[i] == delivered[i];
    }
    forall i | 0 <= i < |h.relay| ensures h.relay[i].outSeq != item.outSeq {
      OwedMember(delivered, h.acknowledged, h.relay[i]);
      MemberListed(delivered, h.relay[i]);
    }
  }

  lemma MemberListed(ws: seq<Wrapper>, w: Wrapper)
    ensures w in ws ==> InList(ws, w.outSeq)
  {
  }

  /** Releasing one obligation leaves exactly the others owed. */
  lemma OneReleased(h: Held, delivered: seq<Wrapper>, seqNo: int)
    requires Exact(h, delivered) && InList(h.relay, seqNo)
    ensures Exact(Held(Without(h.relay, seqNo), h.acknowledged + {seqNo}), delivered)
  {
    WithoutOwed(delivered, h.acknowledged, seqNo);
    var i :| 0 <= i < |h.relay| && h.relay[i].outSeq == seqNo;
    OwedMember(delivered, h.acknowledged, h.relay[i]);
    var j :| 0 <= j < |delivered| && delivered[j] == h.relay[i];
    assert delivered[j].outSeq == seqNo;
  }

  lemma StepExact(h: Held, moves: seq<Move>, event: Event, ofA: bool)
    requires Exact(h, Delivered(moves, ofA)) && Run(Start(), moves).Ok?
    requires event.Chat? ==> Run(Start(), moves + [event.move]).Ok?
    ensures Exact(HeldStep(h, moves, event, ofA), Delivered(moves + if event.Chat? then [event.move] else [], ofA))
  {
    match event
    case Chat(move) =>
      var more := moves + [move];
      assert more[..|more| - 1] == moves;
      DeliveredDistinct(more, ofA);
      var sys := Run(Start(), moves).value;
      var out := if move.byA == ofA then Taken(One(sys, ofA), move.step) else [];
      assert Delivered(more, ofA) == Delivered(moves, ofA) + out;
      if out == [] {
        assert Delivered(moves, ofA) + out == Delivered(moves, ofA);
      } else {
        assert out == [out[0]];
        ItemJoins(h, Delivered(moves, ofA), out[0]);
      }
    case Release(seqNo) =>
      assert moves + [] == moves;
      if InList(h.relay, seqNo) { OneReleased(h, Delivered(moves, ofA), seqNo); }
  }

  lemma {:induction false} RunExact(events: seq<Event>, ofA: bool)
    requires Run(Start(), MovesOf(events)).Ok?
    ensures Exact(HeldAfter(events, ofA), Delivered(MovesOf(events), ofA))
    decreases |events|
  {
    if events == [] {
    } else {
      var init, last := events[..|events| - 1], events[|events| - 1];
      if last.Chat? { RunAppend(Start(), MovesOf(init), last.move); }
      else { assert MovesOf(init) + [] == MovesOf(init); }
      RunExact(init, ofA);
      StepExact(HeldAfter(init, ofA), MovesOf(init), last, ofA);
    }
  }

  /** Over every run of two ends, and whatever its consumer acknowledges and when: each message that an end accepted
      is in exactly one of mailbox, relay and acknowledged. */
  lemma ExactlyOnePlace(events: seq<Event>, ofA: bool, w: Wrapper)
    requires Run(Start(), MovesOf(events)).Ok?
    requires w in One(Run(Start(), MovesOf(events)).value, ofA).got && Ordinary(w)
    ensures var x, h := One(Run(Start(), MovesOf(events)).value, ofA), HeldAfter(events, ofA);
      && (w in x.s.mailbox || w in h.relay || w.outSeq in h.acknowledged)
      && !(w in x.s.mailbox && (w in h.relay || w.outSeq in h.acknowledged))
      && !(w in h.relay && w.outSeq in h.acknowledged)
  {
    var moves := MovesOf(events);
    var sys := Run(Start(), moves).value;
    RunExact(events, ofA);
    MailboxConserved(moves);
    Safety(moves);
    PrefixDistinct(One(sys, ofA).got, One(sys, !ofA).sent);
    OneOf(One(sys, ofA).got, Delivered(moves, ofA), One(sys, ofA).s.mailbox, HeldAfter(events, ofA), w);
  }

  lemma OneOf(got: seq<Wrapper>, delivered: seq<Wrapper>, mailbox: seq<Wrapper>, h: Held, w: Wrapper)
    requires got == delivered + mailbox && DistinctSlots(got) && Exact(h, delivered) && w in got && Ordinary(w)
    ensures w in mailbox || w in h.relay || w.outSeq in h.acknowledged
    ensures !(w in mailbox && (w in h.relay || w.outSeq in h.acknowledged))
      && !(w in h.relay && w.outSeq in h.acknowledged)
  {
    OwedMember(delivered, h.acknowledged, w);
    MemberListed(delivered, w);
    forall k | 0 <= k < |mailbox| ensures !InList(delivered, mailbox[k].outSeq) { Apart(delivered, mailbox, k); }
    assert w in delivered || w in mailbox;
  }
}
