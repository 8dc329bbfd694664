/** A pending frame that no held key opens: it ends every drain, and how it comes to be pending. */
module Jams {
  import opened Prelude
  import opened Framing
  import opened Sequence
  import opened Ledger
  import opened Journal
  import opened Draining
  import opened Handing
  import Delivery
  import RekeyRewrite
  import RekeyWitness

  /** Update i of batch k comes up in a drain, at position j: a frame of this conversation that no held key opens. */
  ghost predicate UnopenedComesUp(site: Site, s: Stage, fates: nat -> (nat -> Fate), k: nat, j: nat, i: nat)
    requires k < |s.batches|
  {
    var so := DrainedTo(Handed(site), s, fates, k);
    && so.came.Applied? && j < |so.now.batches| && j == Position(so.now.batches, s.batches[k].identity)
    && i < |UpdatesFor(site.machine, so.now.batches[j])|
    && var u, r := UpdatesFor(site.machine, so.now.batches[j])[i], UpdatesStep(Handed(site), so.now, j, fates(k), i);
      && r.came.Applied? && !Skipped(so.now.batches[j], i, u, r.now.paused)
      && u.Secret? && u.chat == site.chatId && Opener(r.now.p, u.key).None?
  }

  /** Such a frame ends the drain there, refused, with everything behind it as it was. After that no drain gets past it,
      whatever is captured behind it and however the writes and the other conversations go: no update takes effect, no
      batch leaves, and no conversation is paused. */
  lemma UnopenedEndsDrains(
      site: Site, s: Stage, fates: nat -> (nat -> Fate), k: nat, j: nat, i: nat, rounds: seq<Round>)
    requires WellFormed(site.machine, s.batches) && k < |s.batches| && UnopenedComesUp(site, s, fates, k, j, i)
    ensures var r := DrainedTo(Handed(site), s, fates, |s.batches|);
      && r.came.Refused? && j < |r.now.batches| && SameBatch(s.batches[k], r.now.batches[j])
      && i !in r.now.batches[j].applied && r.now.batches[j + 1..] == s.batches[k + 1..]
      && (DistinctNames(r.now.batches + CapturedIn(rounds)) ==>
            AfterRounds(Handed(site), r.now, rounds) == r.now.(batches := r.now.batches + CapturedIn(rounds)))
  {
    HandedLawful(site);
    UnwelcomeJams(Handed(site), s, fates, k, j, i);
    var r := DrainedTo(Handed(site), s, fates, |s.batches|);
    if DistinctNames(r.now.batches + CapturedIn(rounds)) { JamLasts(Handed(site), r.now, j, i, rounds); }
  }

  /** When all goes well, a drain comes through exactly when each update handed over is welcome at its turn; for a frame
      of this conversation that means that a held key opens it, and that it can be read or ends the chat. */
  lemma DrainComesThrough(site: Site, s: Stage, fates: nat -> (nat -> Fate))
    requires CalmRun(fates)
    ensures DrainedTo(Handed(site), s, fates, |s.batches|).came.Applied? <==>
      forall k: nat :: k < |s.batches| ==> AtTurn(Handed(site), s, fates, k)
  {
    HandedLawful(site);
    ComesThrough(Handed(site), s, fates);
  }

  // ---- How such a frame comes to be pending ----

  function Single(u: Update): Machine {
    Machine((box: Box, e: Envelope) => box, (box: Box, e: Envelope) => [u], (e: Envelope) => e.raw)
  }

  /** From any store without a ledger, one capture leaves the disk jammed when the captured frame is under a key that
      the chat does not hold: capturing never looks at keys. */
  lemma UnopenedIsCaptured(origin: Disk, chatId: int, key: Key, w: Wrapper) returns (m: Machine, changes: seq<Change>)
    requires Empty(origin) && Opener(ProtocolOf(origin.document), key).None?
    ensures Ran(m, chatId, origin, changes).Some?
    ensures var disk := Ran(m, chatId, origin, changes).value;
      && disk.document.record.Some? && disk.document.custody.ledger.batches != []
      && Jammed(Handed(Site(m, chatId, {chatId})), OnDisk(disk, {}), 0, 0)
  {
    m := Single(Secret(chatId, key, w));
    var begin, take := Begin(Box(0, 0)), Take(Box(0, 0), Envelope(0, None));
    RanOne(m, chatId, origin, [], begin);
    RanOne(m, chatId, origin, [begin], take);
    changes := [begin, take];
    assert [] + [begin] == [begin] && [begin] + [take] == changes;
  }

  /** Two honest ends get there: after a rekey a mere repeat of a slot that was accepted long ago is such a frame,
      because its key is looked for before its number is. */
  lemma RepeatUnderARetiredKey() returns (moves: seq<RekeyRewrite.Turned>)
    ensures RekeyWitness.Small().Valid()
      && RekeyRewrite.RunAll(RekeyRewrite.Started(0), moves, RekeyWitness.Small()).Ok?
    ensures var w := RekeyRewrite.RunAll(RekeyRewrite.Started(0), moves, RekeyWitness.Small()).value;
      var p := Protocol(w.b.side.e.s, Some(w.b.side.k), 0);
      && |w.a.side.e.sent| == |w.a.side.epochs| > 0 && w.a.side.epochs[0] < |w.past.keys|
      && Preflight(p.c, w.a.side.e.sent[0]) == Replay && Opener(p, w.past.keys[w.a.side.epochs[0]]).None?
  {
    var t := RekeyWitness.CommitmentWaiting();
    moves := t.moves;
    var w := RekeyWitness.Reached(moves);
    RekeyWitness.Playing(t, false);
    RepeatIsReplay(w.a.side.e, w.b.side.e);
  }

  lemma RepeatIsReplay(y: Delivery.End, x: Delivery.End)
    requires Delivery.CanReceive(y, x) && x.s.inSeq > 0 && |y.sent| > 0
    ensures Preflight(x.s, y.sent[0]) == Replay
  {
    Delivery.PreflightHonest(y, x, 0, y.sent[0]);
  }
}
