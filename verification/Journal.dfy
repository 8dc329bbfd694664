/** The durable protocol state and the ingress marks, told together: every commit in order, and what it made of both. */
module Journal {
  import opened Prelude
  import opened Framing
  import opened Sequence
  import opened Rekey
  import opened Chat
  import opened Storage
  import opened Sequencing
  import opened Receiving
  import opened Captures
  import Ledger

  /** What a document says of the protocol: sequence state, key slots, and the other conversations. */
  datatype Protocol = Protocol(c: State, k: Option<Keys>, others: int)

  function KeysOf(r: ChatRecord): Option<Keys> {
    if r.key.None? then None
    else Some(Keys(r.state, r.key.value, r.pendingKey, r.previousKey, r.exchangeId, r.exchangeSecret, r.rekeyRole,
      r.newKeyConfirmed))
  }

  function ProtocolOf(d: Document): Protocol
    requires d.record.Some?
  {
    Protocol(StateOf(d.record.value, ToMap(d.waiting), ToMap(d.out)), KeysOf(d.record.value), d.custody.others)
  }

  /** One durable commit. Except for the last kind, each marks one update: update `at.1` of capture `at.0`. */
  datatype Deed =
    | Took(at: (nat, nat), key: Key, w: Wrapper) // the frame was accepted
    | Seen(at: (nat, nat), key: Key, w: Wrapper) // the frame's slot had been accepted before
    | Passed(at: (nat, nat)) // nothing to do for the protocol
    | Elsewhere(at: (nat, nat), others: int) // an effect on another conversation
    | Local(p: Protocol) // a commit of this end's own that takes in nothing

  /** The protocol state after a commit, when the commit is one the program can make. */
  ghost function After(p: Protocol, d: Deed): Option<Protocol> {
    match d
    case Took(_, key, w) =>
      if p.k.None? || SelectKey(p.k.value, key).None? then None
      else
        var named := SelectKey(p.k.value, key).value;
        if !Takes(p.c, p.k.value, named, w) then None
        else
          var c := Receive(p.c, w).value.state;
          Some(Protocol(c, Some(OnFrame(p.k.value, named, c.gapRequested).value), p.others))
    case Seen(_, _, w) => if Preflight(p.c, w) == Replay then Some(p) else None
    case Passed(_) => Some(p)
    case Elsewhere(_, others) => Some(p.(others := others))
    case Local(q) => if q.c.inSeq == p.c.inSeq && q.c.queue == p.c.queue then Some(q) else None
  }

  /** The slot whose key opens a frame, as long as the chat has keys. */
  function Opener(p: Protocol, key: Key): Option<Named> {
    if p.k.None? || p.k.value.state.Closed? then None else SelectKey(p.k.value, key)
  }

  /** A frame that some held key opens is committed: its slot was accepted before, or it is accepted now. */
  ghost predicate Admits(p: Protocol, key: Key, w: Wrapper)
    requires Opener(p, key).Some?
  {
    Preflight(p.c, w) == Replay || Takes(p.c, p.k.value, Opener(p, key).value, w)
  }

  /** The commit that an admitted frame makes. */
  function FrameDeed(p: Protocol, at: (nat, nat), key: Key, w: Wrapper): Deed {
    if Preflight(p.c, w) == Replay then Seen(at, key, w) else Deed.Took(at, key, w)
  }

  /** The protocol state that a list of commits leaves. */
  ghost function Replayed(start: Protocol, log: seq<Deed>): Option<Protocol>
    decreases |log|
  {
    if log == [] then Some(start)
    else
      var before := Replayed(start, log[..|log| - 1]);
      if before.None? then None else After(before.value, log[|log| - 1])
  }

  /** What the rest of the store is after a list of commits: what the last effect there made of it, or the last commit
      of this end's own. */
  function OthersAfter(others: int, log: seq<Deed>): int
    decreases |log|
  {
    if log == [] then others
    else match log[|log| - 1]
      case Elsewhere(_, now) => now
      case Local(p) => p.others
      case _ => OthersAfter(others, log[..|log| - 1])
  }

  lemma {:induction false} ReplayedOthers(start: Protocol, log: seq<Deed>)
    requires Replayed(start, log).Some?
    ensures Replayed(start, log).value.others == OthersAfter(start.others, log)
    decreases |log|
  {
    if log != [] { ReplayedOthers(start, log[..|log| - 1]); }
  }

  lemma {:induction false} OthersAppend(others: int, log: seq<Deed>, more: seq<Deed>)
    ensures OthersAfter(others, log + more) == OthersAfter(OthersAfter(others, log), more)
    decreases |more|
  {
    if more == [] {
      assert log + more == log;
    } else {
      OthersAppend(others, log, more[..|more| - 1]);
      assert (log + more)[..|log + more| - 1] == log + more[..|more| - 1];
    }
  }

  function Marks(log: seq<Deed>): seq<(nat, nat)>
    decreases |log|
  {
    if log == [] then []
    else
      var last := log[|log| - 1];
      Marks(log[..|log| - 1]) + (if last.Local? then [] else [last.at])
  }

  lemma Appended(start: Protocol, log: seq<Deed>, d: Deed)
    ensures Marks(log + [d]) == Marks(log) + (if d.Local? then [] else [d.at])
    ensures Replayed(start, log).Some? ==> Replayed(start, log + [d]) == After(Replayed(start, log).value, d)
  {
    assert (log + [d])[..|log + [d]| - 1] == log;
  }

  lemma {:induction false} MarkOf(log: seq<Deed>, at: (nat, nat)) returns (i: nat)
    requires at in Marks(log)
    ensures i < |log| && !log[i].Local? && log[i].at == at
    decreases |log|
  {
    var last := log[|log| - 1];
    if !last.Local? && last.at == at { i := |log| - 1; } else { i := MarkOf(log[..|log| - 1], at); }
  }

  lemma {:induction false} MarkListed(log: seq<Deed>, i: nat)
    requires i < |log| && !log[i].Local?
    ensures log[i].at in Marks(log)
    decreases |log|
  {
    if i < |log| - 1 { MarkListed(log[..|log| - 1], i); }
  }

  /** Two commits of one update would be two marks. */
  lemma {:induction false} MarkedTwice(log: seq<Deed>, i: nat, j: nat)
    requires i < j < |log| && !log[i].Local? && !log[j].Local? && log[i].at == log[j].at
    ensures exists a, b :: 0 <= a < b < |Marks(log)| && Marks(log)[a] == Marks(log)[b]
    decreases |log|
  {
    var init := log[..|log| - 1];
    if j == |log| - 1 {
      MarkListed(init, i);
      var a :| 0 <= a < |Marks(init)| && Marks(init)[a] == log[i].at;
      assert Marks(log)[a] == Marks(log)[|Marks(log)| - 1];
    } else {
      MarkedTwice(init, i, j);
      var a, b :| 0 <= a < b < |Marks(init)| && Marks(init)[a] == Marks(init)[b];
      assert Marks(log)[a] == Marks(log)[b];
    }
  }

  /** A frame or a broken frame of another conversation. */
  predicate OfAnother(chatId: int, u: Ledger.Update) { (u.Secret? || u.Broken?) && u.chat != chatId }

  /** The commit that may stand for an update: a frame of this conversation is never just passed over, for one that
      cannot be read there is none, and one of another conversation stands for an effect there. */
  predicate Fits(chatId: int, u: Ledger.Update, d: Deed)
    requires !d.Local?
  {
    && (d.Took? || d.Seen? ==> u == Ledger.Secret(chatId, d.key, d.w))
    && (u.Secret? && u.chat == chatId ==> d.Took? || d.Seen?)
    && !(u.Broken? && u.chat == chatId)
    && (d.Elsewhere? <==> OfAnother(chatId, u))
  }

  ghost predicate Entitled(m: Ledger.Machine, chatId: int, history: History, d: Deed) {
    !d.Local? ==>
      && d.at.0 < |history| && d.at.1 < Total(m, history, d.at.0)
      && Fits(chatId, UpdateAt(m, history, d.at.0, d.at.1), d)
  }

  function UpdateAt(m: Ledger.Machine, history: History, n: nat, i: nat): Ledger.Update
    requires n < |history| && i < Total(m, history, n)
  {
    m.updates(history[n].0, history[n].1)[i]
  }

  /** What is on disk at every instant: a well-formed ledger of the captured envelopes, and a protocol state that is
      exactly what the commits made of it, each marking its own update. */
  ghost predicate Consistent(
      m: Ledger.Machine, chatId: int, history: History, start: Protocol, log: seq<Deed>, d: Document)
  {
    && d.record.Some? && Ledger.LedgerOk(m, d.custody.ledger) && Matches(history, d.custody.ledger)
    && ExactlyOnce(m, history, d.custody.ledger, Marks(log))
    && Replayed(start, log) == Some(ProtocolOf(d))
    && (forall i :: 0 <= i < |log| ==> Entitled(m, chatId, history, log[i]))
  }

  /** One more marked update, in the commit of its effect. */
  lemma DeedKeeps(
      m: Ledger.Machine, chatId: int, history: History, start: Protocol, log: seq<Deed>, d: Document, d': Document,
      j: nat, i: nat, deed: Deed)
    requires Consistent(m, chatId, history, start, log, d) && d'.record.Some?
    requires var s := d.custody.ledger;
      && j < |s.batches| && i < |Ledger.UpdatesFor(m, s.batches[j])| && i !in s.batches[j].applied
      && Advanced(s, d'.custody.ledger, j, i)
      && !deed.Local? && deed.at == (Removed(history, s) + j, i)
    requires Entitled(m, chatId, history, deed) && After(ProtocolOf(d), deed) == Some(ProtocolOf(d'))
    ensures Consistent(m, chatId, history, start, log + [deed], d')
  {
    var s := d.custody.ledger;
    var cursor :| Ledger.CursorAt(s.batches[j].applied + {i}, cursor) && d'.custody.ledger == Marked(s, j, i, cursor);
    MarkKeeps(m, history, s, Marks(log), j, i, cursor);
    Appended(start, log, deed);
  }

  /** An update of a pending batch is the update of its capture. */
  lemma AtUpdate(m: Ledger.Machine, history: History, s: Ledger.State, j: nat, i: nat)
    requires Matches(history, s) && j < |s.batches| && i < |Ledger.UpdatesFor(m, s.batches[j])|
    ensures i < Total(m, history, Removed(history, s) + j)
    ensures UpdateAt(m, history, Removed(history, s) + j, i) == Ledger.UpdatesFor(m, s.batches[j])[i]
  {
    assert (s.batches[j].before, s.batches[j].envelope) == history[Removed(history, s) + j];
  }

  /** A commit of this end's own. */
  lemma LocalKeeps(
      m: Ledger.Machine, chatId: int, history: History, start: Protocol, log: seq<Deed>, d: Document, d': Document)
    requires Consistent(m, chatId, history, start, log, d) && d'.record.Some? && d'.custody.ledger == d.custody.ledger
    requires After(ProtocolOf(d), Local(ProtocolOf(d'))).Some?
    ensures Consistent(m, chatId, history, start, log + [Local(ProtocolOf(d'))], d')
  {
    Appended(start, log, Local(ProtocolOf(d')));
  }

  /** A change of the ledger alone that loses no mark. */
  lemma LedgerKeeps(
      m: Ledger.Machine, chatId: int, history: History, history': History, start: Protocol, log: seq<Deed>,
      d: Document, ledger: Ledger.State)
    requires Consistent(m, chatId, history, start, log, d) && history <= history'
    requires Ledger.LedgerOk(m, ledger) && Matches(history', ledger) && ExactlyOnce(m, history', ledger, Marks(log))
    ensures Consistent(m, chatId, history', start, log, d.(custody := d.custody.(ledger := ledger)))
  {
    forall i | 0 <= i < |log| ensures Entitled(m, chatId, history', log[i]) {
      assert Entitled(m, chatId, history, log[i]);
    }
  }

  // ---- The disk as a state machine ----

  /** The durable document, and what led to it. */
  datatype Disk = Disk(document: Document, history: History, log: seq<Deed>)

  datatype Change =
    | Begin(baseline: Ledger.Box)
    | Take(box: Ledger.Box, envelope: Ledger.Envelope)
    | Settle(j: nat, i: nat, deed: Deed, document: Document)
    | Drop(k: nat)
    | Own(document: Document)

  function WithLedger(d: Document, ledger: Ledger.State): Document { d.(custody := d.custody.(ledger := ledger)) }

  /** One durable commit; none other is possible. */
  ghost function Written(m: Ledger.Machine, chatId: int, disk: Disk, change: Change): Option<Disk> {
    var ledger := disk.document.custody.ledger;
    match change
    case Begin(baseline) =>
      if ledger != Ledger.State(None, []) then None
      else Some(disk.(document := WithLedger(disk.document, Ledger.State(Some(baseline), []))))
    case Take(box, envelope) =>
      if ledger.checkpoint.None? || IsPending(m, ledger, envelope) || !Continues(m, ledger, envelope, box) then None
      else Some(Disk(WithLedger(disk.document, Extended(ledger, NewBatch(m, envelope, box))),
                     disk.history + [(box, envelope)], disk.log))
    case Settle(j, i, deed, document) =>
      if !Settles(m, chatId, disk, j, i, deed, document) then None
      else Some(Disk(document, disk.history, disk.log + [deed]))
    case Drop(k) =>
      if k > |ledger.batches| || exists j :: 0 <= j < k && !Complete(m, ledger.batches[j]) then None
      else Some(disk.(document := WithLedger(disk.document, Dropped(ledger, k))))
    case Own(document) =>
      if disk.document.record.None? || document.record.None? || document.custody.ledger != ledger
        || After(ProtocolOf(disk.document), Local(ProtocolOf(document))).None?
      then None
      else Some(Disk(document, disk.history, disk.log + [Local(ProtocolOf(document))]))
  }

  /** A pending update is marked in the commit of the effect that stands for it. */
  ghost predicate Settles(m: Ledger.Machine, chatId: int, disk: Disk, j: nat, i: nat, deed: Deed, document: Document) {
    var s := disk.document.custody.ledger;
    && j < |s.batches| <= |disk.history| && i < |Ledger.UpdatesFor(m, s.batches[j])| && i !in s.batches[j].applied
    && Advanced(s, document.custody.ledger, j, i)
    && !deed.Local? && deed.at == (Removed(disk.history, s) + j, i)
    && Fits(chatId, Ledger.UpdatesFor(m, s.batches[j])[i], deed)
    && disk.document.record.Some? && document.record.Some?
    && After(ProtocolOf(disk.document), deed) == Some(ProtocolOf(document))
  }

  lemma TakenSettles(
      m: Ledger.Machine, chatId: int, disk: Disk, j: nat, i: nat, key: Key, w: Wrapper, deed: Deed, d: Document)
    requires disk.document.record.Some? && d.record.Some?
      && After(ProtocolOf(disk.document), deed) == Some(ProtocolOf(d))
    requires var s := disk.document.custody.ledger;
      && j < |s.batches| <= |disk.history| && i < |Ledger.UpdatesFor(m, s.batches[j])| && i !in s.batches[j].applied
      && Ledger.UpdatesFor(m, s.batches[j])[i] == Ledger.Secret(chatId, key, w) && Advanced(s, d.custody.ledger, j, i)
      && (deed == Deed.Took((Removed(disk.history, s) + j, i), key, w)
        || deed == Seen((Removed(disk.history, s) + j, i), key, w))
    ensures Settles(m, chatId, disk, j, i, deed, d)
  {
  }

  lemma BesideSettles(
      m: Ledger.Machine, chatId: int, disk: Disk, j: nat, i: nat, deed: Deed, custody: Custody)
    requires disk.document.record.Some? && (deed.Passed? || deed.Elsewhere?)
    requires var s := disk.document.custody.ledger;
      && j < |s.batches| <= |disk.history| && i < |Ledger.UpdatesFor(m, s.batches[j])| && i !in s.batches[j].applied
      && Fits(chatId, Ledger.UpdatesFor(m, s.batches[j])[i], deed) && Advanced(s, custody.ledger, j, i)
      && deed.at == (Removed(disk.history, s) + j, i)
    requires custody.others == if deed.Elsewhere? then deed.others else disk.document.custody.others
    ensures Settles(m, chatId, disk, j, i, deed, disk.document.(custody := custody))
  {
  }

  /** Every commit of a coordinator, from a store without a ledger on. */
  ghost function Ran(m: Ledger.Machine, chatId: int, origin: Disk, changes: seq<Change>): Option<Disk>
    decreases |changes|
  {
    if changes == [] then Some(origin)
    else
      var before := Ran(m, chatId, origin, changes[..|changes| - 1]);
      if before.None? then None else Written(m, chatId, before.value, changes[|changes| - 1])
  }

  predicate Empty(origin: Disk) {
    && origin.document.record.Some? && origin.document.custody.ledger == Ledger.State(None, [])
    && origin.history == [] && origin.log == []
  }

  lemma RanOne(m: Ledger.Machine, chatId: int, origin: Disk, changes: seq<Change>, change: Change)
    requires Ran(m, chatId, origin, changes).Some?
    ensures Ran(m, chatId, origin, changes + [change])
      == Written(m, chatId, Ran(m, chatId, origin, changes).value, change)
  {
    assert (changes + [change])[..|changes + [change]| - 1] == changes;
  }

  lemma WrittenKeeps(m: Ledger.Machine, chatId: int, start: Protocol, disk: Disk, change: Change)
    requires Consistent(m, chatId, disk.history, start, disk.log, disk.document)
    requires Written(m, chatId, disk, change).Some?
    ensures var disk' := Written(m, chatId, disk, change).value;
      Consistent(m, chatId, disk'.history, start, disk'.log, disk'.document)
  {
    var d, s := disk.document, disk.document.custody.ledger;
    match change
    case Begin(baseline) =>
      LedgerKeeps(m, chatId, disk.history, disk.history, start, disk.log, d, Ledger.State(Some(baseline), []));
    case Take(box, envelope) =>
      var b := NewBatch(m, envelope, box);
      CaptureKeeps(m, disk.history, s, Marks(disk.log), b);
      LedgerKeeps(m, chatId, disk.history, disk.history + [(box, envelope)], start, disk.log, d, Extended(s, b));
    case Settle(j, i, deed, document) =>
      AtUpdate(m, disk.history, s, j, i);
      DeedKeeps(m, chatId, disk.history, start, disk.log, d, document, j, i, deed);
    case Drop(k) =>
      DropKeeps(m, disk.history, s, Marks(disk.log), k);
      LedgerKeeps(m, chatId, disk.history, disk.history, start, disk.log, d, Dropped(s, k));
    case Own(document) =>
      LocalKeeps(m, chatId, disk.history, start, disk.log, d, document);
  }

  lemma {:induction false} RanConsistent(m: Ledger.Machine, chatId: int, origin: Disk, changes: seq<Change>)
    requires Empty(origin) && Ran(m, chatId, origin, changes).Some?
    ensures var disk := Ran(m, chatId, origin, changes).value;
      Consistent(m, chatId, disk.history, ProtocolOf(origin.document), disk.log, disk.document)
    decreases |changes|
  {
    if changes == [] {
    } else {
      var init := changes[..|changes| - 1];
      RanConsistent(m, chatId, origin, init);
      WrittenKeeps(m, chatId, ProtocolOf(origin.document), Ran(m, chatId, origin, init).value, changes[|changes| - 1]);
    }
  }

  // ---- The chat and its store between commits ----

  lemma SettledProtocol(chat: SecretChat, storage: MemoryStorage)
    requires Settled(chat, storage)
    ensures storage.state == storage.durable
    ensures ProtocolOf(storage.state) ==
      Protocol(View(chat, storage), if chat.key.None? then None else Some(chat.Slots()), storage.state.custody.others)
  {
  }

  /** The receive of a frame, as a commit of the journal: what comes of it depends on the protocol state alone, except
      that an admitted frame needs its commit written. */
  method ReceiveDeed(chat: SecretChat, storage: MemoryStorage, key: Key, w: Wrapper, ledger: Ledger.State,
      written: bool, ghost at: (nat, nat))
    returns (r: Receipt, ghost deed: Deed)
    requires Settled(chat, storage) && storage.state.custody.ledger != ledger
    modifies chat, storage
    ensures Settled(chat, storage) && (r.Unopened? <==> Opener(ProtocolOf(old(storage.state)), key).None?)
    ensures r.Fatal? <==>
      Opener(ProtocolOf(old(storage.state)), key).Some? && !Admits(ProtocolOf(old(storage.state)), key, w)
    ensures r.Unwritten? ==> !written
    ensures r.Committed() ==> written && deed == FrameDeed(ProtocolOf(old(storage.state)), at, key, w)
    ensures !r.Committed() ==> storage.state == old(storage.state) && storage.durable == old(storage.durable)
    ensures r.Committed() ==>
      && storage.state == storage.durable && storage.state.custody.ledger == ledger
      && After(ProtocolOf(old(storage.state)), deed) == Some(ProtocolOf(storage.state))
  {
    deed := Passed(at);
    SettledProtocol(chat, storage);
    r := OnEncryptedMessage(chat, storage, key, w, Some(storage.state.custody.(ledger := ledger)), written);
    SettledProtocol(chat, storage);
    if r.Committed() { deed := if r.Taken? then Deed.Took(at, key, w) else Seen(at, key, w); }
  }

  /** The receive of the frame of a pending update, with its mark in the same commit. */
  method ReceiveMarked(chat: SecretChat, storage: MemoryStorage, key: Key, w: Wrapper, ledger: Ledger.State,
      written: bool, ghost m: Ledger.Machine, ghost chatId: int, ghost disk: Disk, ghost j: nat, ghost i: nat)
    returns (r: Receipt, ghost deed: Deed)
    requires Settled(chat, storage) && disk.document == storage.state
    requires var s := disk.document.custody.ledger;
      && j < |s.batches| <= |disk.history| && i < |Ledger.UpdatesFor(m, s.batches[j])| && i !in s.batches[j].applied
      && Ledger.UpdatesFor(m, s.batches[j])[i] == Ledger.Secret(chatId, key, w) && Advanced(s, ledger, j, i)
    modifies chat, storage
    ensures Settled(chat, storage) && (r.Unopened? <==> Opener(ProtocolOf(disk.document), key).None?)
    ensures r.Fatal? <==> Opener(ProtocolOf(disk.document), key).Some? && !Admits(ProtocolOf(disk.document), key, w)
    ensures r.Unwritten? ==> !written
    ensures r.Committed() ==>
      && written
      && deed == FrameDeed(ProtocolOf(disk.document), (Removed(disk.history, disk.document.custody.ledger) + j, i),
        key, w)
      && Settles(m, chatId, disk, j, i, deed, storage.state) && storage.state.custody.ledger == ledger
    ensures !r.Committed() ==> storage.state == old(storage.state) && storage.durable == old(storage.durable)
  {
    ghost var at := (Removed(disk.history, disk.document.custody.ledger) + j, i);
    r, deed := ReceiveDeed(chat, storage, key, w, ledger, written, at);
    if r.Committed() { TakenSettles(m, chatId, disk, j, i, key, w, deed, storage.state); }
  }

  // ---- What the marks mean ----

  /** A frame's slot is in the durable counters: counted, or waiting in the queue. */
  predicate SlotTaken(c: State, w: Wrapper) {
    w.outSeq / 2 < c.inSeq || w.outSeq / 2 in c.queue
  }

  /** Draining loses no slot: what leaves the queue is counted. */
  lemma {:induction false} DrainCounts(c: State, n: int)
    requires Drain(c).Ok? && (n < c.inSeq || n in c.queue)
    ensures var d := Drain(c).value.state; c.inSeq <= d.inSeq && (n < d.inSeq || n in d.queue) && d.inSeq !in d.queue
    decreases |c.queue|
  {
    if c.inSeq in c.queue {
      DrainCounts(Advance(c.(queue := c.queue - {c.inSeq}), c.queue[c.inSeq]), n);
    }
  }

  lemma AcceptCounts(c: State, w: Wrapper, n: int)
    requires Preflight(c, w) == Fresh && Accept(c, w).Ok? && (n < c.inSeq || n in c.queue || n == w.outSeq / 2)
    ensures var d := Accept(c, w).value.state; n < d.inSeq || n in d.queue
  {
    if w.outSeq / 2 <= c.inSeq {
      DrainCounts(Advance(c.(layer := RaiseRemoteLayer(c.layer, w.layer)), w), n);
    }
  }

  /** A taken frame's slot, and every slot taken before it, is taken afterwards. */
  lemma ReceiveCounts(c: State, w: Wrapper, n: int)
    requires Preflight(c, w) == Fresh && Receive(c, w).Ok? && (n < c.inSeq || n in c.queue || n == w.outSeq / 2)
    ensures var d := Receive(c, w).value.state; n < d.inSeq || n in d.queue
  {
    ReceiveParts(c, w);
    AcceptCounts(c, StoredAs(w), n);
  }

  lemma DeedCounts(p: Protocol, deed: Deed, w: Wrapper)
    requires After(p, deed).Some? && (SlotTaken(p.c, w) || ((deed.Took? || deed.Seen?) && deed.w == w))
    ensures SlotTaken(After(p, deed).value.c, w)
  {
    if deed.Took? { ReceiveCounts(p.c, deed.w, w.outSeq / 2); }
  }

  lemma {:induction false} LogCounts(start: Protocol, log: seq<Deed>, i: nat)
    requires i < |log| && (log[i].Took? || log[i].Seen?)
    ensures Replayed(start, log).Some? ==> SlotTaken(Replayed(start, log).value.c, log[i].w)
    decreases |log|
  {
    if Replayed(start, log).None? { return; }
    var init := log[..|log| - 1];
    var before := Replayed(start, init).value;
    if i < |init| { LogCounts(start, init, i); }
    assert SlotTaken(before.c, log[i].w) || i == |log| - 1;
    DeedCounts(before, log[|log| - 1], log[i].w);
  }

  /** An update is marked if and only if exactly one commit stands for it, the slot of a marked frame is taken, and a
      frame that cannot be read is never marked. */
  ghost predicate MarkedWithEffect(m: Ledger.Machine, chatId: int, disk: Disk, n: nat, i: nat)
    requires n < |disk.history| && i < Total(m, disk.history, n) && disk.document.record.Some?
    requires |disk.document.custody.ledger.batches| <= |disk.history|
  {
    && (Done(disk.history, disk.document.custody.ledger, n, i) <==>
          exists k :: DoneBy(disk.log, k, (n, i)) && forall l :: DoneBy(disk.log, l, (n, i)) ==> l == k)
    && (var u := UpdateAt(m, disk.history, n, i);
        Done(disk.history, disk.document.custody.ledger, n, i) && u.Secret? && u.chat == chatId ==>
          SlotTaken(ProtocolOf(disk.document).c, u.wrapper))
    && (var u := UpdateAt(m, disk.history, n, i);
        u.Broken? && u.chat == chatId ==> !Done(disk.history, disk.document.custody.ledger, n, i))
  }

  /** What stands for an update of another conversation is an effect there, and nothing else is. */
  ghost predicate EffectElsewhere(chatId: int, u: Ledger.Update, log: seq<Deed>, at: (nat, nat)) {
    forall k :: DoneBy(log, k, at) ==> (log[k].Elsewhere? <==> OfAnother(chatId, u))
  }

  lemma ConsistentMarks(m: Ledger.Machine, chatId: int, start: Protocol, disk: Disk, n: nat, i: nat)
    requires Consistent(m, chatId, disk.history, start, disk.log, disk.document)
    requires n < |disk.history| && i < Total(m, disk.history, n)
    ensures MarkedWithEffect(m, chatId, disk, n, i)
    ensures EffectElsewhere(chatId, UpdateAt(m, disk.history, n, i), disk.log, (n, i))
  {
    var log := disk.log;
    forall k | DoneBy(log, k, (n, i))
      ensures log[k].Elsewhere? <==> OfAnother(chatId, UpdateAt(m, disk.history, n, i))
    {
      assert Entitled(m, chatId, disk.history, log[k]);
    }
    if Done(disk.history, disk.document.custody.ledger, n, i) {
      var k := MarkOf(log, (n, i));
      forall l | DoneBy(log, l, (n, i)) ensures l == k {
        if l < k { MarkedTwice(log, l, k); } else if k < l { MarkedTwice(log, k, l); }
      }
      assert DoneBy(log, k, (n, i));
      assert Entitled(m, chatId, disk.history, log[k]);
      if log[k].Took? || log[k].Seen? { LogCounts(start, log, k); }
    } else if k :| DoneBy(log, k, (n, i)) {
      MarkListed(log, k);
    }
  }

  /** On disk at every instant, over every run of commits: the protocol state is exactly what the recorded commits
      made of it; an update is marked if and only if exactly one of them made its effect; the slot of every marked
      frame is counted or queued in that state, so acknowledging it loses nothing; no frame that cannot be read is
      marked; and the rest of the store is what the last effect on another conversation, or this end's own last
      commit, made of it. */
  lemma ExactlyOnceOnDisk(m: Ledger.Machine, chatId: int, origin: Disk, changes: seq<Change>, n: nat, i: nat)
    requires Empty(origin) && Ran(m, chatId, origin, changes).Some?
    ensures var disk := Ran(m, chatId, origin, changes).value;
      && disk.document.record.Some? && |disk.document.custody.ledger.batches| <= |disk.history|
      && Replayed(ProtocolOf(origin.document), disk.log) == Some(ProtocolOf(disk.document))
      && disk.document.custody.others == OthersAfter(origin.document.custody.others, disk.log)
      && (n < |disk.history| && i < Total(m, disk.history, n) ==>
          && MarkedWithEffect(m, chatId, disk, n, i)
          && EffectElsewhere(chatId, UpdateAt(m, disk.history, n, i), disk.log, (n, i)))
  {
    RanConsistent(m, chatId, origin, changes);
    var disk := Ran(m, chatId, origin, changes).value;
    ReplayedOthers(ProtocolOf(origin.document), disk.log);
    if n < |disk.history| && i < Total(m, disk.history, n) {
      ConsistentMarks(m, chatId, ProtocolOf(origin.document), disk, n, i);
    }
  }

  predicate DoneBy(log: seq<Deed>, k: int, at: (nat, nat)) {
    0 <= k < |log| && !log[k].Local? && log[k].at == at
  }
}
