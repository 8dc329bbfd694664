/** How one update of a pending batch is handled for the conversation modelled here, and what that means for a drain. */
module Handing {
  import opened Prelude
  import opened Ledger
  import opened Journal
  import opened Draining
  import opened Storage
  import Framing

  /** The update machine of one authorization, the conversation modelled here, and all known ones. */
  datatype Site = Site(machine: Machine, chatId: int, known: set<int>)

  /** What a drain finds on disk. */
  function OnDisk(d: Disk, paused: set<int>): Stage
    requires d.document.record.Some?
  {
    var batches := d.document.custody.ledger.batches;
    Stage(ProtocolOf(d.document), batches, d.log, paused,
          if |batches| <= |d.history| then |d.history| - |batches| else 0)
  }

  ghost function WithMark(batches: seq<Batch>, j: nat, i: nat): seq<Batch>
    requires j < |batches|
  {
    var applied := batches[j].applied + {i};
    batches[j := batches[j].(applied := applied, cursor := CursorOf(applied))]
  }

  /** Update i of batch j is marked in commit d, which leaves protocol state p. */
  ghost function MarkStep(s: Stage, j: nat, i: nat, p: Protocol, d: Deed, written: bool, crash: bool): Step
    requires j < |s.batches|
  {
    if !written then Step(Refused, s)
    else Step(if crash then Crashed else Applied, Stage(p, WithMark(s.batches, j, i), s.log + [d], s.paused, s.first))
  }

  /** The place of an update among those of all captures. */
  function Place(s: Stage, j: nat, i: nat): (nat, nat) { (s.first + j, i) }

  /** An update that asks nothing of the protocol. */
  ghost function PassStep(s: Stage, j: nat, i: nat, f: Fate): Step
    requires j < |s.batches|
  {
    MarkStep(s, j, i, s.p, Passed(Place(s, j, i)), f.written, f.crash)
  }

  /** A frame of this conversation: refused unless a held key opens it; one that would end the chat pauses the
      conversation instead. */
  ghost function FrameStep(
      site: Site, s: Stage, j: nat, i: nat, key: Framing.Key, w: Framing.Wrapper, written: bool, crash: bool): Step
    requires j < |s.batches|
  {
    if Opener(s.p, key).None? then Step(Refused, s)
    else if !Admits(s.p, key, w) then Step(Waits, s.(paused := s.paused + {site.chatId}))
    else
      var d := FrameDeed(s.p, Place(s, j, i), key, w);
      MarkStep(s, j, i, After(s.p, d).value, d, written, crash)
  }

  /** An admitted frame is on disk: its commit is in the log, its update marked, and the protocol moved on. */
  ghost predicate FrameTaken(
      disk: Disk, disk': Disk, j: nat, i: nat, key: Framing.Key, w: Framing.Wrapper, deed: Deed)
    requires disk.document.record.Some?
  {
    var p, batches := ProtocolOf(disk.document), disk.document.custody.ledger.batches;
    && disk'.document.record.Some? && j < |batches| <= |disk.history|
    && deed == FrameDeed(p, (|disk.history| - |batches| + j, i), key, w)
    && disk'.history == disk.history && disk'.log == disk.log + [deed]
    && After(p, deed) == Some(ProtocolOf(disk'.document))
    && disk'.document.custody.ledger.batches == WithMark(batches, j, i)
  }

  /** How a frame was handled is how a drain hands it over. */
  lemma FrameOnDisk(site: Site, disk: Disk, disk': Disk, j: nat, i: nat, key: Framing.Key, w: Framing.Wrapper,
      paused: set<int>, written: bool, crash: bool, came: Came, deed: Deed)
    requires disk.document.record.Some? && disk'.document.record.Some? && j < |disk.document.custody.ledger.batches|
    requires came.Waits? <==> Opener(ProtocolOf(disk.document), key).Some? && !Admits(ProtocolOf(disk.document), key, w)
    requires came.Refused? <==>
      Opener(ProtocolOf(disk.document), key).None? || (Admits(ProtocolOf(disk.document), key, w) && !written)
    requires came.Waits? || came.Refused? ==> disk' == disk
    requires came.Waits? || came.Refused? || came == if crash then Crashed else Applied
    requires came.Waits? || came.Refused? || FrameTaken(disk, disk', j, i, key, w, deed)
    ensures FrameStep(site, OnDisk(disk, paused), j, i, key, w, written, crash)
         == Step(came, OnDisk(disk', if came.Waits? then paused + {site.chatId} else paused))
  {
  }

  /** A frame that cannot be read under the key it names. */
  function BrokenStep(site: Site, s: Stage, key: Framing.Key, fatal: bool): Step {
    if Opener(s.p, key).None? || !fatal then Step(Refused, s)
    else Step(Waits, s.(paused := s.paused + {site.chatId}))
  }

  ghost function OtherStep(site: Site, s: Stage, j: nat, i: nat, c: int, f: Fate): Step
    requires j < |s.batches|
  {
    if c !in site.known then Step(Refused, s)
    else match f.response
      case Took(others) =>
        MarkStep(s, j, i, s.p.(others := others), Elsewhere(Place(s, j, i), others), f.written, f.crash)
      case Pauses => Step(Waits, s.(paused := s.paused + {c}))
      case Refuses => Step(Refused, s)
  }

  /** One update, as the drain hands it over. */
  ghost function UpdateStep(site: Site, s: Stage, j: nat, i: nat, u: Update, f: Fate): Step
    requires j < |s.batches|
  {
    match u
    case Other => PassStep(s, j, i, f)
    case Repeated(c) => if c in site.known then PassStep(s, j, i, f) else Step(Refused, s)
    case Discarded(c) =>
      var r := PassStep(s, j, i, f);
      if c in site.known && !r.came.Refused? then r.(now := r.now.(paused := r.now.paused + {c})) else r
    case Secret(c, key, w) =>
      if c == site.chatId then FrameStep(site, s, j, i, key, w, f.written, f.crash) else OtherStep(site, s, j, i, c, f)
    case Broken(c, key, fatal) =>
      if c == site.chatId then BrokenStep(site, s, key, fatal) else OtherStep(site, s, j, i, c, f)
  }

  // ---- What is done with an update ----

  /** Update i of batch j is on disk as applied by commit d, and nothing else of the batches or the pauses has
      changed. */
  ghost predicate MarkedBy(s: Stage, now: Stage, j: nat, i: nat, d: Deed) {
    && OnlyBatch(s.batches, now.batches, j) && now.paused == s.paused
    && now.batches[j].applied == s.batches[j].applied + {i} && now.log == s.log + [d]
  }

  /** What a known other conversation answers is what happens: its effect, and no other, is committed with the mark;
      or it waits, paused; or the drain stops. */
  lemma AnswerDecides(site: Site, s: Stage, j: nat, i: nat, u: Update, f: Fate)
    requires j < |s.batches| && OfAnother(site.chatId, u) && u.chat in site.known
    ensures var r := UpdateStep(site, s, j, i, u, f);
      match f.response
      case Took(others) =>
        && (!f.written ==> r == Step(Refused, s))
        && (f.written ==> MarkedBy(s, r.now, j, i, Elsewhere((s.first + j, i), others)))
        && (f.written ==> r.now.p == s.p.(others := others) && r.came == if f.crash then Crashed else Applied)
      case Pauses => r == Step(Waits, s.(paused := s.paused + {u.chat}))
      case Refuses => r == Step(Refused, s)
  {
  }

  /** Every other update leaves the rest of the store, and only a frame of this conversation changes anything of the
      protocol; one that cannot be read waits, paused, if it ends the chat and a held key opens it, and otherwise
      stops the drain; whatever is no frame is just marked, and the end of a known conversation pauses it as well; an
      update of an unknown conversation is refused unless it is that conversation's end. */
  lemma NoAnswerDecides(site: Site, s: Stage, j: nat, i: nat, u: Update, f: Fate)
    requires j < |s.batches| && !(OfAnother(site.chatId, u) && u.chat in site.known)
    ensures var r := UpdateStep(site, s, j, i, u, f);
      && r.now.p.others == s.p.others
      && (!(u.Secret? && u.chat == site.chatId) ==> r.now.p == s.p)
      && (u.Broken? && u.chat == site.chatId ==>
          r == if Opener(s.p, u.key).Some? && u.fatal then Step(Waits, s.(paused := s.paused + {u.chat}))
               else Step(Refused, s))
      && (OfAnother(site.chatId, u) || (u.Repeated? && u.chat !in site.known) ==> r == Step(Refused, s))
      && (u.Other? || u.Discarded? || (u.Repeated? && u.chat in site.known) ==>
          && (!f.written ==> r == Step(Refused, s))
          && (f.written ==> r.came == if f.crash then Crashed else Applied)
          && (f.written ==> MarkedBy(s, r.now.(paused := s.paused), j, i, Passed((s.first + j, i))))
          && (f.written ==>
              r.now.paused == s.paused + if u.Discarded? && u.chat in site.known then {u.chat} else {}))
  {
  }

  /** A commit that may stand for update u: an effect elsewhere is the one that the other conversation answered. */
  predicate Stands(chatId: int, u: Update, f: Fate, d: Deed) {
    !d.Local? && Fits(chatId, u, d) && (d.Elsewhere? ==> f.response == Response.Took(d.others))
  }

  /** An update that this end can do something with: its conversation is known and, if it is a frame of the one modelled
      here, a held key opens it and it can be read, or ends the chat. */
  predicate Welcome(site: Site, p: Protocol, u: Update) {
    match u
    case Other => true
    case Discarded(_) => true
    case Repeated(c) => c in site.known
    case Secret(c, key, _) => if c == site.chatId then Opener(p, key).Some? else c in site.known
    case Broken(c, key, fatal) => if c == site.chatId then Opener(p, key).Some? && fatal else c in site.known
  }

  ghost function Handed(site: Site): Rule {
    Rule(site.machine,
         (s: Stage, j: nat, i: nat, u: Update, f: Fate) =>
           if j < |s.batches| then UpdateStep(site, s, j, i, u, f) else Step(Refused, s),
         (p: Protocol, u: Update) => Welcome(site, p, u),
         (u: Update, f: Fate, d: Deed) => Stands(site.chatId, u, f, d))
  }

  lemma MarkKeepsForm(m: Machine, batches: seq<Batch>, j: nat, i: nat)
    requires WellFormed(m, batches) && j < |batches| && i < |UpdatesFor(m, batches[j])|
    ensures WellFormed(m, WithMark(batches, j, i))
  {
  }

  lemma UpdateDecided(site: Site, s: Stage, j: nat, i: nat, u: Update, f: Fate)
    requires j < |s.batches|
    ensures Decided(Handed(site), s, u, f, UpdateStep(site, s, j, i, u, f))
  {
  }

  lemma MarkShaped(
      m: Machine, s: Stage, j: nat, i: nat, u: Update, p: Protocol, d: Deed, written: bool, crash: bool)
    requires j < |s.batches|
    ensures Shaped(m, s, j, i, u, MarkStep(s, j, i, p, d, written, crash))
  {
    if WellFormed(m, s.batches) && i < |UpdatesFor(m, s.batches[j])| { MarkKeepsForm(m, s.batches, j, i); }
  }

  lemma UpdateShaped(site: Site, s: Stage, j: nat, i: nat, u: Update, f: Fate)
    requires j < |s.batches|
    ensures Shaped(site.machine, s, j, i, u, UpdateStep(site, s, j, i, u, f))
  {
    var at := Place(s, j, i);
    MarkShaped(site.machine, s, j, i, u, s.p, Passed(at), f.written, f.crash);
    if u.Secret? && u.chat == site.chatId && Opener(s.p, u.key).Some? && Admits(s.p, u.key, u.wrapper) {
      var d := FrameDeed(s.p, at, u.key, u.wrapper);
      MarkShaped(site.machine, s, j, i, u, After(s.p, d).value, d, f.written, f.crash);
    } else if (u.Secret? || u.Broken?) && f.response.Took? {
      var others := f.response.others;
      MarkShaped(site.machine, s, j, i, u, s.p.(others := others), Elsewhere(at, others), f.written, f.crash);
    }
  }

  lemma UpdateLogged(site: Site, s: Stage, j: nat, i: nat, u: Update, f: Fate)
    requires j < |s.batches|
    ensures Logged(Handed(site), s, j, i, u, f, UpdateStep(site, s, j, i, u, f))
  {
  }

  lemma HandedLawful(site: Site)
    ensures Lawful(Handed(site))
  {
    forall s: Stage, j: nat, i: nat, u: Update, f: Fate | j < |s.batches|
      ensures Shaped(site.machine, s, j, i, u, Handed(site).step(s, j, i, u, f))
        && Decided(Handed(site), s, u, f, Handed(site).step(s, j, i, u, f))
        && Logged(Handed(site), s, j, i, u, f, Handed(site).step(s, j, i, u, f))
    {
      UpdateLogged(site, s, j, i, u, f);
      UpdateDecided(site, s, j, i, u, f);
      UpdateShaped(site, s, j, i, u, f);
    }
  }

  /** A batch under way is still that batch, and what has not come up is as it was. */
  lemma NotYet(site: Site, s: Stage, j: nat, fate: nat -> Fate, i: nat, now: Stage)
    requires j < |s.batches| && i <= |UpdatesFor(site.machine, s.batches[j])|
    requires UpdatesStep(Handed(site), s, j, fate, i) == Step(Applied, now)
    ensures |now.batches| == |s.batches| && SameBatch(s.batches[j], now.batches[j])
    ensures i in now.batches[j].applied <==> i in s.batches[j].applied
  {
    HandedLawful(site);
    UpdatesShape(Handed(site), s, j, fate, i);
  }

  lemma PassOver(site: Site, s: Stage, j: nat, fate: nat -> Fate, i: nat, now: Stage)
    requires j < |s.batches| && i < |UpdatesFor(site.machine, s.batches[j])|
    requires UpdatesStep(Handed(site), s, j, fate, i) == Step(Applied, now)
    requires Skipped(s.batches[j], i, UpdatesFor(site.machine, s.batches[j])[i], now.paused)
    ensures UpdatesStep(Handed(site), s, j, fate, i + 1) == Step(Applied, now)
  {
  }

  /** One more update of a batch, as handled. */
  lemma NextUpdate(site: Site, s: Stage, j: nat, fate: nat -> Fate, i: nat, now: Stage, r: Step)
    requires j < |s.batches| == |now.batches| && i < |UpdatesFor(site.machine, s.batches[j])|
    requires UpdatesStep(Handed(site), s, j, fate, i) == Step(Applied, now)
    requires !Skipped(s.batches[j], i, UpdatesFor(site.machine, s.batches[j])[i], now.paused)
    requires r == UpdateStep(site, now, j, i, UpdatesFor(site.machine, s.batches[j])[i], fate(i))
    ensures UpdatesStep(Handed(site), s, j, fate, i + 1) == Onward(r)
  {
  }
}
