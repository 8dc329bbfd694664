/** The durable ingress coordinator: capture before acknowledgement, application together with its effect, and the
    frontier no request may pass. */
module Ingress {
  import opened Prelude
  import opened Chat
  import opened Storage
  import opened Sequencing
  import opened Receiving
  import opened Ledger
  import opened Captures
  import opened Journal
  import opened Draining
  import opened Handing
  import Framing
  import Outbox
  import Sequence

  // ---- Requests ----

  datatype Request =
    | GetDifference(qts: int)
    | ReceivedQueue(maxQts: int)
    | GetState
    | Wrapped(query: Request) // by one of the known wrappers
    | Foreign(query: Request) // some other request that carries a query
    | Ordinary

  /** The request inside any nesting of wrappers. */
  function Innermost(r: Request): Request {
    match r
    case Wrapped(q) => Innermost(q)
    case Foreign(q) => Innermost(q)
    case _ => r
  }

  predicate Acknowledges(r: Request) { r.GetDifference? || r.ReceivedQueue? }

  function Acknowledged(r: Request): int
    requires Acknowledges(r)
  {
    if r.GetDifference? then r.qts else r.maxQts
  }

  /** Nothing inside this request moves the server past the frontier or restarts its state. */
  predicate WithinFrontier(r: Request, frontier: nat) {
    && !Innermost(r).GetState?
    && (Acknowledges(Innermost(r)) ==> 0 <= Acknowledged(Innermost(r)) <= frontier)
  }

  /** A request whose inside can be seen, and which stays within the frontier. */
  predicate Admissible(r: Request, frontier: nat) {
    Depth(r) < 8 && !Core(r).Foreign? && WithinFrontier(r, frontier)
  }

  function Depth(r: Request): nat { if r.Wrapped? then 1 + Depth(r.query) else 0 }

  function Core(r: Request): Request { if r.Wrapped? then Core(r.query) else r }

  /** A request inside k known wrappers. */
  function Around(core: Request, k: nat): Request { if k == 0 then core else Wrapped(Around(core, k - 1)) }

  lemma {:induction false} AroundParts(core: Request, k: nat)
    requires !core.Wrapped?
    ensures Depth(Around(core, k)) == k && Core(Around(core, k)) == core
    ensures Innermost(Around(core, k)) == Innermost(core)
    decreases k
  {
    if k > 0 { AroundParts(core, k - 1); }
  }

  /** Let through is what at most seven known wrappers hold: an acknowledgement of anything up to the frontier, or a
      request that is none; never a restart of the state, nor one whose inside cannot be seen. */
  lemma AdmissibleDecides(core: Request, k: nat, frontier: nat)
    requires !core.Wrapped?
    ensures Admissible(Around(core, k), frontier) <==>
      && k <= 7
      && match core
         case GetDifference(qts) => 0 <= qts <= frontier
         case ReceivedQueue(maxQts) => 0 <= maxQts <= frontier
         case GetState => false
         case Foreign(_) => false
         case Ordinary => true
  {
    AroundParts(core, k);
  }

  /** Strip known wrappers, at most seven; anything else that carries a query is refused. */
  method Unwrap(r: Request) returns (inner: Option<Request>)
    ensures inner == if Depth(r) < 8 && !Core(r).Foreign? then Some(Core(r)) else None
    ensures inner.Some? ==> inner.value == Innermost(r)
  {
    var request, n := r, 0;
    while n < 8
      invariant 0 <= n <= 8 && Depth(r) == n + Depth(request) && Core(r) == Core(request)
      invariant Innermost(r) == Innermost(request)
    {
      if !request.Wrapped? {
        return if request.Foreign? then None else Some(request);
      }
      request := request.query;
      n := n + 1;
    }
    inner := None;
  }

  // ---- The coordinator of one authorization ----

  class DurableIngress {
    const machine: Machine
    const chatId: int
    const known: set<int>
    const chat: SecretChat
    const storage: MemoryStorage
    var state: State
    var staged: Option<State>
    var failed: bool
    var paused: set<int>
    ghost var origin: Disk
    ghost var changes: seq<Change>
    ghost var disk: Disk

    /** What is on disk at every instant, between commits and after a crash: the outcome of the commits made. */
    ghost predicate Durable()
      reads this, storage
    {
      && Empty(origin) && Ran(machine, chatId, origin, changes) == Some(disk) && disk.document == storage.durable
      && storage.durable.record.Some? && storage.durable.record.value.outbound == chat.outbound
      && Unique(storage.durable.out) && Unique(storage.durable.waiting)
      && chatId in known && paused <= known
    }

    /** While running, memory is what is on disk, and nothing is staged. */
    ghost predicate Valid()
      reads this, chat, storage
    {
      Durable() && Settled(chat, storage) && state == storage.state.custody.ledger && staged == None
    }

    ghost function Here(): Site { Site(machine, chatId, known) }

    /** What is on disk and in the pauses, as a drain works on it. */
    ghost function Now(): Stage
      reads this
      requires disk.document.record.Some?
    {
      OnDisk(disk, paused)
    }

    /** How far the server may be told that updates have been received. */
    ghost function Frontier(): Option<Box>
      reads this
    {
      disk.document.custody.ledger.checkpoint
    }

    constructor (machine: Machine, chatId: int, known: set<int>, chat: SecretChat, storage: MemoryStorage)
      requires Settled(chat, storage) && storage.state.custody.ledger == State(None, []) && chatId in known
      ensures Valid() && !failed && state == State(None, []) && disk.log == [] && disk.history == [] && paused == {}
      ensures this.chat == chat && this.storage == storage && this.machine == machine && this.chatId == chatId
    {
      this.machine, this.chatId, this.known, this.chat, this.storage := machine, chatId, known, chat, storage;
      state, staged, failed, paused := State(None, []), None, false, {};
      origin, changes, disk := Disk(storage.durable, [], []), [], Disk(storage.durable, [], []);
    }

    /** One durable commit of the run so far. */
    ghost method Wrote(change: Change)
      requires Ran(machine, chatId, origin, changes) == Some(disk) && Written(machine, chatId, disk, change).Some?
      modifies this`changes, this`disk
      ensures Ran(machine, chatId, origin, changes) == Some(disk) && changes == old(changes) + [change]
      ensures disk == Written(machine, chatId, old(disk), change).value
    {
      RanOne(machine, chatId, origin, changes, change);
      disk := Written(machine, chatId, disk, change).value;
      changes := changes + [change];
    }

    /** The ledger on disk is well formed, and belongs to the captured envelopes. */
    lemma DiskOk()
      requires Durable()
      ensures LedgerOk(machine, disk.document.custody.ledger) && Matches(disk.history, disk.document.custody.ledger)
    {
      RanConsistent(machine, chatId, origin, changes);
    }

    /** Start again after a crash at any instant, whatever memory held: the durable ledger passes its check, and the
        ledger and the chat are what the disk says. */
    method Restart() returns (ok: bool)
      requires Durable()
      modifies this`state, this`staged, this`failed, chat, storage
      ensures ok && Valid() && !failed && storage.durable == old(storage.durable)
    {
      DiskOk();
      storage.Reload();
      ok := Validate(machine, storage.state.custody.ledger);
      if ok {
        chat.Restore(storage.state.record.value);
        state, staged, failed := storage.state.custody.ledger, None, false;
      }
    }

    /** Commit what is kept besides the chat, in a transaction of its own. */
    method CommitCustody(custody: Custody, written: bool) returns (ok: bool)
      requires Settled(chat, storage)
      modifies storage
      ensures Settled(chat, storage) && ok == (written || custody == old(storage.state.custody))
      ensures storage.state == storage.durable
      ensures storage.state == if ok then old(storage.state).(custody := custody) else old(storage.state)
    {
      storage.Enter();
      storage.SaveCustody(custody);
      ok := storage.Leave(written);
    }

    /** The same for the ledger alone; published only once it is durable. */
    method CommitLedger(ledger: State, ghost change: Change, written: bool) returns (ok: bool)
      requires Valid()
      requires Written(machine, chatId, disk, change).Some?
      requires Written(machine, chatId, disk, change).value.document == WithLedger(storage.durable, ledger)
      modifies this`state, this`changes, this`disk, storage
      ensures Valid() && ok == (written || ledger == old(state)) && state == if ok then ledger else old(state)
      ensures changes == old(changes) + (if ok then [change] else [])
      ensures disk == if ok then Written(machine, chatId, old(disk), change).value else old(disk)
    {
      ok := CommitCustody(storage.state.custody.(ledger := ledger), written);
      if ok {
        Wrote(change);
        state := ledger;
      }
    }

    /** The explicit first baseline. */
    method Bootstrap(baseline: Box, written: bool) returns (ok: bool)
      requires Valid()
      modifies this`state, this`changes, this`disk, storage
      ensures Valid() && disk.log == old(disk).log && disk.history == old(disk).history
      ensures ok <==> !failed && old(state).checkpoint.None? && written
      ensures state == if ok then old(state).(checkpoint := Some(baseline)) else old(state)
    {
      DiskOk();
      ok := !failed && state.checkpoint.None? && state.batches == [];
      if ok { ok := CommitLedger(state.(checkpoint := Some(baseline)), Begin(baseline), written); }
    }

    /** Commit an envelope before anything acknowledges it: it joins the chain at the frontier, which moves to where
        the envelope takes it. One that is already pending is skipped; any refusal stops the coordinator. */
    method Capture(envelope: Envelope, box: Box, written: bool) returns (ok: bool)
      requires Valid()
      modifies this`state, this`failed, this`changes, this`disk, storage
      ensures Valid() && disk.log == old(disk).log
      ensures ok <==> (
        && !old(failed) && old(state).checkpoint.Some?
        && (IsPending(machine, old(state), envelope) || (written && Continues(machine, old(state), envelope, box))))
      ensures failed <==> old(failed) || (old(state).checkpoint.Some? && !ok)
      ensures state == if ok && !IsPending(machine, old(state), envelope)
                       then Extended(old(state), NewBatch(machine, envelope, box)) else old(state)
      ensures ok && !IsPending(machine, old(state), envelope) ==>
        && state.checkpoint == Some(machine.after(box, envelope))
        && state.batches == old(state).batches
           + [Batch(machine.identity(envelope), envelope, box, machine.after(box, envelope), 0, {})]
      ensures disk.history == if state == old(state) then old(disk).history else old(disk).history + [(box, envelope)]
    {
      if failed || state.checkpoint.None? { return false; }
      if IsPending(machine, state, envelope) { return true; }
      var after, frontier := machine.after(box, envelope), state.checkpoint.value.qts;
      ok := box.qts == frontier && after.qts >= frontier;
      if ok { ok := CommitLedger(Extended(state, NewBatch(machine, envelope, box)), Take(box, envelope), written); }
      failed := !ok;
    }

    /** Requests are let through exactly when each can be seen through its wrapping and neither acknowledges beyond
        the durable frontier nor restarts the server's state. */
    method GuardRequests(requests: seq<Request>) returns (ok: bool)
      requires Valid()
      ensures ok <==> (
        && !failed && storage.durable.custody.ledger.checkpoint.Some?
        && forall k :: 0 <= k < |requests| ==>
             Admissible(requests[k], storage.durable.custody.ledger.checkpoint.value.qts))
    {
      if failed || state.checkpoint.None? { return false; }
      var frontier := state.checkpoint.value.qts;
      var k := 0;
      while k < |requests|
        invariant 0 <= k <= |requests|
        invariant forall i :: 0 <= i < k ==> Admissible(requests[i], frontier)
      {
        var request := Unwrap(requests[k]);
        if request.None? { return false; }
        var r := request.value;
        if Acknowledges(r) && !(0 <= Acknowledged(r) <= frontier) { return false; }
        if r.GetState? { return false; }
        k := k + 1;
      }
      ok := true;
    }

    /** What is kept besides the chat is, at every instant, what the last commit that touched it made of it. */
    lemma OthersOnDisk()
      requires Durable()
      ensures disk.document.custody.others == OthersAfter(origin.document.custody.others, disk.log)
    {
      RanConsistent(machine, chatId, origin, changes);
      ReplayedOthers(ProtocolOf(origin.document), disk.log);
    }

    lemma OthersSince(log: seq<Deed>, others: int)
      requires Durable() && log <= disk.log && others == OthersAfter(origin.document.custody.others, log)
      ensures disk.document.custody.others == OthersAfter(others, disk.log[|log|..])
    {
      OthersOnDisk();
      OthersAppend(origin.document.custody.others, log, disk.log[|log|..]);
      assert disk.log == log + disk.log[|log|..];
    }

    // ---- One update ----

    /** An update that is pending in the published ledger and not marked. */
    ghost predicate Pending(j: nat, i: nat)
      reads this
    {
      j < |state.batches| && i < |UpdatesFor(machine, state.batches[j])| && i !in state.batches[j].applied
    }

    /** The ledger with one more mark, as it will be saved beside the effect. */
    method Advance(j: nat, i: nat) returns (candidate: State)
      requires Valid() && Pending(j, i)
      ensures Advanced(state, candidate, j, i) && |state.batches| <= |disk.history| && candidate != state
      ensures candidate == state.(batches := WithMark(state.batches, j, i))
    {
      DiskOk();
      var b := state.batches[j];
      var cursor := Contiguous(b.applied + {i}, b.cursor);
      CursorUnique(b.applied + {i}, cursor, CursorOf(b.applied + {i}));
      candidate := Marked(state, j, i, cursor);
      assert candidate.batches[j].applied != b.applied;
    }

    /** The commit is durable: it joins the run, and the staged ledger becomes the published one, unless a crash comes
        between the two. */
    method Publish(ghost j: nat, ghost i: nat, ghost deed: Deed, crash: bool) returns (came: Came)
      requires Ran(machine, chatId, origin, changes) == Some(disk) && Empty(origin) && staged.Some?
      requires Settled(chat, storage) && chatId in known && paused <= known
      requires storage.state.custody.ledger == staged.value
      requires Settles(machine, chatId, disk, j, i, deed, storage.state)
      modifies this`state, this`staged, this`changes, this`disk
      ensures Durable() && came == if crash then Crashed else Applied
      ensures !crash ==> Valid() && state == old(staged).value
      ensures disk == Disk(storage.state, old(disk).history, old(disk).log + [deed])
      ensures changes == old(changes) + [Settle(j, i, deed, storage.state)]
    {
      Wrote(Settle(j, i, deed, storage.state));
      if crash { return Crashed; }
      state, staged := staged.value, None;
      came := Applied;
    }

    /** Mark an update beside a change of what is kept besides the chat. A failed write leaves everything as it was. */
    method ApplyBeside(j: nat, i: nat, others: int, ghost deed: Deed, written: bool, crash: bool) returns (came: Came)
      requires Valid() && Pending(j, i) && (deed.Passed? || deed.Elsewhere?)
      requires |state.batches| <= |disk.history| && deed.at == (Removed(disk.history, state) + j, i)
      requires Fits(chatId, UpdatesFor(machine, state.batches[j])[i], deed)
      requires others == if deed.Elsewhere? then deed.others else storage.state.custody.others
      modifies this`state, this`staged, this`changes, this`disk, storage
      ensures Durable() && (came.Crashed? || Valid()) && Frontier() == old(Frontier())
      ensures Step(came, Now()) == MarkStep(old(Now()), j, i, old(Now()).p.(others := others), deed, written, crash)
      ensures changes == old(changes) + (if came.Refused? then [] else [Settle(j, i, deed, disk.document)])
    {
      var candidate := Advance(j, i);
      staged := Some(candidate);
      var custody := storage.state.custody.(ledger := candidate, others := others);
      var ok := CommitCustody(custody, written);
      if !ok {
        staged := None;
        return Refused;
      }
      BesideSettles(machine, chatId, disk, j, i, deed, custody);
      came := Publish(j, i, deed, crash);
    }

    /** A frame of this conversation. Its receive transaction, taken or replayed, commits the mark as well; a frame that
        would end the chat pauses the conversation instead and stays pending; any other refusal stops the drain. */
    method ApplyFrame(j: nat, i: nat, key: Framing.Key, w: Framing.Wrapper, written: bool, crash: bool)
      returns (came: Came)
      requires Valid() && Pending(j, i) && UpdatesFor(machine, state.batches[j])[i] == Secret(chatId, key, w)
      modifies this`state, this`staged, this`changes, this`disk, this`paused, chat, storage
      ensures Durable() && (came.Crashed? || Valid()) && Frontier() == old(Frontier()) && old(changes) <= changes
      ensures came.Waits? <==> Opener(old(Now()).p, key).Some? && !Admits(old(Now()).p, key, w)
      ensures came.Refused? <==> Opener(old(Now()).p, key).None? || (Admits(old(Now()).p, key, w) && !written)
      ensures Step(came, Now()) == FrameStep(Here(), old(Now()), j, i, key, w, written, crash)
      ensures came.Waits? || came.Refused? ==> disk == old(disk)
    {
      ghost var deed;
      came, deed := TakeFrame(j, i, key, w, written, crash);
      FrameOnDisk(Here(), old(disk), disk, j, i, key, w, paused, written, crash, came, deed);
      if came.Waits? { paused := paused + {chatId}; }
    }

    method TakeFrame(j: nat, i: nat, key: Framing.Key, w: Framing.Wrapper, written: bool, crash: bool)
      returns (came: Came, ghost deed: Deed)
      requires Valid() && Pending(j, i) && UpdatesFor(machine, state.batches[j])[i] == Secret(chatId, key, w)
      modifies this`state, this`staged, this`changes, this`disk, chat, storage
      ensures Durable() && (came.Crashed? || Valid()) && Frontier() == old(Frontier()) && old(changes) <= changes
      ensures came.Waits? <==> Opener(old(Now()).p, key).Some? && !Admits(old(Now()).p, key, w)
      ensures came.Refused? <==> Opener(old(Now()).p, key).None? || (Admits(old(Now()).p, key, w) && !written)
      ensures came.Waits? || came.Refused? ==> disk == old(disk)
      ensures came.Waits? || came.Refused? || came == if crash then Crashed else Applied
      ensures came.Waits? || came.Refused? || FrameTaken(old(disk), disk, j, i, key, w, deed)
    {
      var r;
      r, deed := StageFrame(j, i, key, w, written);
      if r.Committed() {
        came := Publish(j, i, deed, crash);
      } else {
        came := if r.Fatal? then Waits else Refused;
      }
    }

    /** The receive transaction of a frame, with the staged mark in it. */
    method StageFrame(j: nat, i: nat, key: Framing.Key, w: Framing.Wrapper, written: bool)
      returns (r: Receipt, ghost deed: Deed)
      requires Valid() && Pending(j, i) && UpdatesFor(machine, state.batches[j])[i] == Secret(chatId, key, w)
      modifies this`staged, chat, storage
      ensures Settled(chat, storage) && (!r.Committed() ==> Valid())
      ensures r.Unopened? <==> Opener(Now().p, key).None?
      ensures r.Fatal? <==> Opener(Now().p, key).Some? && !Admits(Now().p, key, w)
      ensures r.Unwritten? ==> !written
      ensures r.Committed() ==>
        && written && staged == Some(storage.state.custody.ledger) && staged.value.checkpoint == state.checkpoint
        && Settles(machine, chatId, disk, j, i, deed, storage.state)
      ensures !r.Committed() ||
        FrameTaken(disk, Disk(storage.state, disk.history, disk.log + [deed]), j, i, key, w, deed)
    {
      var candidate := Advance(j, i);
      staged := Some(candidate);
      r, deed := ReceiveMarked(chat, storage, key, w, candidate, written, machine, chatId, disk, j, i);
      if !r.Committed() { staged := None; }
    }

    /** A frame of this conversation that does not decrypt or unwrap: it is never marked. */
    method ApplyBroken(key: Framing.Key, fatal: bool) returns (came: Came)
      requires Valid()
      modifies this`paused
      ensures Valid() && Step(came, Now()) == BrokenStep(Here(), old(Now()), key, fatal)
    {
      SettledProtocol(chat, storage);
      if Opening(chat, key).None? || !fatal { return Refused; }
      paused := paused + {chatId};
      came := Waits;
    }

    /** An update that asks nothing of the protocol is only marked. */
    method ApplyPassed(j: nat, i: nat, fate: Fate) returns (came: Came)
      requires Valid() && Pending(j, i)
      requires var u := UpdatesFor(machine, state.batches[j])[i]; !u.Secret? && !u.Broken?
      modifies this`state, this`staged, this`changes, this`disk, storage
      ensures Durable() && (came.Crashed? || Valid()) && Frontier() == old(Frontier()) && old(changes) <= changes
      ensures Step(came, Now()) == PassStep(old(Now()), j, i, fate)
    {
      DiskOk();
      came := ApplyBeside(j, i, storage.state.custody.others, Passed(Place(Now(), j, i)), fate.written, fate.crash);
    }

    /** An update of another conversation: its effect on the rest of the store commits with the mark. */
    method ApplyOther(j: nat, i: nat, c: int, fate: Fate) returns (came: Came)
      requires Valid() && Pending(j, i) && c != chatId
      requires var u := UpdatesFor(machine, state.batches[j])[i]; (u.Secret? || u.Broken?) && u.chat == c
      modifies this`state, this`staged, this`changes, this`disk, this`paused, storage
      ensures Durable() && (came.Crashed? || Valid()) && Frontier() == old(Frontier()) && old(changes) <= changes
      ensures Step(came, Now()) == OtherStep(Here(), old(Now()), j, i, c, fate)
    {
      if c !in known { return Refused; }
      match fate.response {
        case Took(others) =>
          DiskOk();
          came := ApplyBeside(j, i, others, Elsewhere(Place(Now(), j, i), others), fate.written, fate.crash);
        case Pauses =>
          paused := paused + {c};
          came := Waits;
        case Refuses =>
          came := Refused;
      }
    }

    /** One update, as the drain hands it over: what is not a secret-chat update, or ends a conversation that does not
        exist here, is only marked; the end of a known one pauses it as well; a frame of this conversation takes effect
        with its mark; another conversation answers for itself. */
    method ApplyUpdate(j: nat, i: nat, fate: Fate) returns (came: Came)
      requires Valid() && Pending(j, i)
      modifies this`state, this`staged, this`changes, this`disk, this`paused, chat, storage
      ensures Durable() && (came.Crashed? || Valid()) && Frontier() == old(Frontier()) && old(changes) <= changes
      ensures Step(came, Now()) ==
        UpdateStep(Here(), old(Now()), j, i, UpdatesFor(machine, old(state).batches[j])[i], fate)
      ensures var u := UpdatesFor(machine, old(state).batches[j])[i];
        OfAnother(chatId, u) && u.chat in known && fate.response.Took? && fate.written ==>
        && (came.Applied? || came.Crashed?) && disk.document.custody.others == fate.response.others
        && disk.log == old(disk).log + [Elsewhere((old(Now()).first + j, i), fate.response.others)]
        && disk.document.custody.ledger.batches[j].applied == old(state).batches[j].applied + {i}
    {
      var u := UpdatesFor(machine, state.batches[j])[i];
      if u.Secret? || u.Broken? {
        came := ApplyReceived(j, i, u, fate);
      } else {
        came := ApplyPlain(j, i, u, fate);
      }
    }

    /** An update that is no frame. */
    method ApplyPlain(j: nat, i: nat, u: Update, fate: Fate) returns (came: Came)
      requires Valid() && Pending(j, i) && u == UpdatesFor(machine, state.batches[j])[i] && !u.Secret? && !u.Broken?
      modifies this`state, this`staged, this`changes, this`disk, this`paused, storage
      ensures Durable() && (came.Crashed? || Valid()) && Frontier() == old(Frontier()) && old(changes) <= changes
      ensures Step(came, Now()) == UpdateStep(Here(), old(Now()), j, i, u, fate)
    {
      if u.Repeated? && u.chat !in known { return Refused; }
      came := ApplyPassed(j, i, fate);
      if u.Discarded? && u.chat in known && !came.Refused? { paused := paused + {u.chat}; }
    }

    /** A frame of this or of another conversation. */
    method ApplyReceived(j: nat, i: nat, u: Update, fate: Fate) returns (came: Came)
      requires Valid() && Pending(j, i) && u == UpdatesFor(machine, state.batches[j])[i] && (u.Secret? || u.Broken?)
      modifies this`state, this`staged, this`changes, this`disk, this`paused, chat, storage
      ensures Durable() && (came.Crashed? || Valid()) && Frontier() == old(Frontier()) && old(changes) <= changes
      ensures Step(came, Now()) == UpdateStep(Here(), old(Now()), j, i, u, fate)
      ensures u.chat != chatId && u.chat in known && fate.response.Took? && fate.written ==>
        && (came.Applied? || came.Crashed?) && disk.document.custody.others == fate.response.others
        && disk.log == old(disk).log + [Elsewhere((old(Now()).first + j, i), fate.response.others)]
        && disk.document.custody.ledger.batches[j].applied == old(state).batches[j].applied + {i}
    {
      if u.chat != chatId {
        came := ApplyOther(j, i, u.chat, fate);
        if u.chat in known { AnswerDecides(Here(), old(Now()), j, i, u, fate); }
      } else if u.Secret? {
        came := ApplyFrame(j, i, u.key, u.wrapper, fate.written, fate.crash);
      } else {
        came := ApplyBroken(u.key, u.fatal);
      }
    }

    /** A send of this end's own, between two updates: one more commit of the run. */
    method Say(action: Framing.Action, written: bool) returns (ok: bool)
      requires Valid() && chat.key.Some?
      modifies this`changes, this`disk, chat, storage
      ensures Valid() && changes == old(changes) + (if ok then [Own(storage.durable)] else [])
      ensures ok ==> View(chat, storage) == Sequence.Send(old(View(chat, storage)), action, old(chat.key).value)
    {
      SettledProtocol(chat, storage);
      ok := Outbox.SendAction(chat, storage, action, None, written);
      SettledProtocol(chat, storage);
      if ok { Wrote(Own(storage.durable)); }
    }

    // ---- Draining ----

    /** Batches leave only as a fully applied prefix, in one commit. */
    method RemovePrefix(written: bool, crash: bool) returns (came: Came)
      requires Valid()
      modifies this`state, this`changes, this`disk, storage
      ensures Durable() && (came.Crashed? || Valid()) && Frontier() == old(Frontier()) && old(changes) <= changes
      ensures Step(came, Now()) == PrefixStep(machine, old(Now()), written, crash)
    {
      DiskOk();
      var k := 0;
      while k < |state.batches| && Complete(machine, state.batches[k])
        invariant 0 <= k <= |state.batches|
        invariant forall j :: 0 <= j < k ==> Complete(machine, state.batches[j])
      {
        k := k + 1;
      }
      var ok := CommitLedger(Dropped(state, k), Drop(k), written);
      came := if !ok then Refused else if crash then Crashed else Applied;
    }

    /** The next update of a batch, unless it is applied already or its conversation is paused. */
    method ApplyNext(ghost s: Stage, j: nat, b: Batch, i: nat, fate: nat -> Fate) returns (came: Came)
      requires Valid() && j < |s.batches| && b == s.batches[j] && i < |UpdatesFor(machine, b)|
      requires UpdatesStep(Handed(Here()), s, j, fate, i) == Step(Applied, Now())
      modifies this`state, this`staged, this`changes, this`disk, this`paused, chat, storage
      ensures Durable() && (came.Crashed? || Valid()) && Frontier() == old(Frontier()) && old(changes) <= changes
      ensures UpdatesStep(Handed(Here()), s, j, fate, i + 1) == Step(came, Now())
    {
      ghost var now := Now();
      NotYet(Here(), s, j, fate, i, now);
      var u := UpdatesFor(machine, b)[i];
      if i in b.applied || Blocked(u, paused) {
        PassOver(Here(), s, j, fate, i, now);
        return Applied;
      }
      came := ApplyUpdate(j, i, fate(i));
      NextUpdate(Here(), s, j, fate, i, now, Step(came, Now()));
      if came.Waits? { came := Applied; }
    }

    /** Apply one batch's updates in order, skipping what is applied and what belongs to a paused conversation. */
    method ApplyBatch(j: nat, fate: nat -> Fate) returns (came: Came)
      requires Valid() && j < |state.batches|
      modifies this`state, this`staged, this`changes, this`disk, this`paused, chat, storage
      ensures Durable() && (came.Crashed? || Valid()) && Frontier() == old(Frontier()) && old(changes) <= changes
      ensures Step(came, Now()) ==
        UpdatesStep(Handed(Here()), old(Now()), j, fate, |UpdatesFor(machine, old(state).batches[j])|)
      ensures TellsBatch(Handed(Here()), old(Now()), j, fate, |UpdatesFor(machine, old(state).batches[j])|, disk.log)
      ensures disk.document.custody.others ==
        OthersAfter(old(disk).document.custody.others, disk.log[|old(disk).log|..])
    {
      OthersOnDisk();
      came := ApplyInOrder(j, fate);
      HandedLawful(Here());
      UpdatesTold(Handed(Here()), old(Now()), j, fate, |UpdatesFor(machine, old(state).batches[j])|);
      OthersSince(old(disk).log, old(disk).document.custody.others);
    }

    method ApplyInOrder(j: nat, fate: nat -> Fate) returns (came: Came)
      requires Valid() && j < |state.batches|
      modifies this`state, this`staged, this`changes, this`disk, this`paused, chat, storage
      ensures Durable() && (came.Crashed? || Valid()) && Frontier() == old(Frontier()) && old(changes) <= changes
      ensures Step(came, Now()) ==
        UpdatesStep(Handed(Here()), old(Now()), j, fate, |UpdatesFor(machine, old(state).batches[j])|)
    {
      ghost var rule, s := Handed(Here()), Now();
      var b := state.batches[j];
      var i := 0;
      came := Applied;
      while i < |UpdatesFor(machine, b)|
        invariant 0 <= i <= |UpdatesFor(machine, b)| && Valid() && came.Applied?
        invariant Frontier() == old(Frontier()) && old(changes) <= changes
        invariant UpdatesStep(rule, s, j, fate, i) == Step(Applied, Now())
      {
        came := ApplyNext(s, j, b, i, fate);
        i := i + 1;
        if !came.Applied? {
          UpdatesStop(rule, s, j, fate, i, |UpdatesFor(machine, b)|);
          return;
        }
      }
    }

    method Find(identity: int) returns (j: nat)
      ensures j == Position(state.batches, identity)
    {
      j := 0;
      while j < |state.batches| && state.batches[j].identity != identity
        invariant 0 <= j <= |state.batches|
        invariant forall i :: 0 <= i < j ==> state.batches[i].identity != identity
      {
        j := j + 1;
      }
    }

    /** The batch of a name, unless it has left: apply it and, once it is complete, drop the applied prefix. */
    method DrainBatch(identity: int, fate: nat -> Fate) returns (came: Came)
      requires Valid()
      modifies this`state, this`staged, this`changes, this`disk, this`paused, chat, storage
      ensures Durable() && (came.Crashed? || Valid()) && Frontier() == old(Frontier()) && old(changes) <= changes
      ensures Step(came, Now()) == BatchStep(Handed(Here()), old(Now()), identity, fate)
    {
      var j := Find(identity);
      if j == |state.batches| { return Applied; }
      var last := |UpdatesFor(machine, state.batches[j])|;
      came := ApplyBatch(j, fate);
      if came.Applied? { NotYet(Here(), old(Now()), j, fate, last, Now()); }
      if came.Applied? && Complete(machine, state.batches[j]) {
        came := RemovePrefix(fate(last).written, fate(last).crash);
      }
    }

    /** One drain over every pending batch, cut short by a refusal, a failed write or a crash: what is on disk then, and
        which conversations are paused, is exactly what the specification says. When nothing else goes wrong it comes
        through, or leaves an unwelcome update at the head of what is left; never both. */
    method DrainAll(fates: nat -> (nat -> Fate)) returns (came: Came)
      requires Valid()
      modifies this`state, this`staged, this`changes, this`disk, this`paused, chat, storage
      ensures Durable() && (came.Crashed? || Valid()) && Frontier() == old(Frontier()) && old(changes) <= changes
      ensures Step(came, Now()) ==
        if old(failed) then Step(Refused, old(Now()))
        else DrainedTo(Handed(Here()), old(Now()), fates, |old(state).batches|)
      ensures Tells(Handed(Here()), old(Now()), fates, disk.log)
      ensures disk.document.custody.others ==
        OthersAfter(old(disk).document.custody.others, disk.log[|old(disk).log|..])
      ensures !old(failed) && CalmRun(fates) ==>
        (came.Applied? || came.Refused?) && (came.Refused? <==> exists j, i :: Jammed(Handed(Here()), Now(), j, i))
    {
      ghost var s := Now();
      FormOk();
      OthersOnDisk();
      came := DrainPending(fates);
      HandedLawful(Here());
      DrainTold(Handed(Here()), s, fates, |s.batches|);
      OthersSince(old(disk).log, old(disk).document.custody.others);
      if !old(failed) && CalmRun(fates) {
        DrainEnds(Handed(Here()), s, fates);
      }
    }

    lemma FormOk()
      requires Durable()
      ensures WellFormed(machine, Now().batches)
    {
      DiskOk();
    }

    method DrainPending(fates: nat -> (nat -> Fate)) returns (came: Came)
      requires Valid()
      modifies this`state, this`staged, this`changes, this`disk, this`paused, chat, storage
      ensures Durable() && (came.Crashed? || Valid()) && Frontier() == old(Frontier()) && old(changes) <= changes
      ensures Step(came, Now()) ==
        if old(failed) then Step(Refused, old(Now()))
        else DrainedTo(Handed(Here()), old(Now()), fates, |old(state).batches|)
    {
      if failed { return Refused; }
      ghost var rule, s := Handed(Here()), Now();
      var pending := state.batches;
      var k := 0;
      while k < |pending|
        invariant 0 <= k <= |pending| && Valid() && Frontier() == old(Frontier()) && old(changes) <= changes
        invariant DrainedTo(rule, s, fates, k) == Step(Applied, Now())
      {
        ghost var now := Now();
        came := DrainBatch(pending[k].identity, fates(k));
        NextBatch(rule, s, fates, k, now, Step(came, Now()));
        if !came.Applied? { return; }
        k := k + 1;
      }
      came := Applied;
    }
  }
}
