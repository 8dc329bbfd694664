/** Draining the pending batches, as a function of what is on disk, of the pauses, and of what else decides: when a
    drain comes through, and what stops it for good. */
module Draining {
  import opened Ledger
  import opened Captures
  import opened Journal

  /** What a conversation other than the one modelled here makes of an update handed to it. */
  datatype Response = Took(others: int) | Pauses | Refuses

  /** What else decides how one update goes: the other conversations, the durable write, and a crash after it. */
  datatype Fate = Fate(response: Response, written: bool, crash: bool)

  /** What became of one update. */
  datatype Came = Applied | Waits | Refused | Crashed

  /** What a drain works on: the protocol state, the pending batches and the log on disk, the paused conversations, and
      how many captures came before the first pending one. */
  datatype Stage = Stage(p: Protocol, batches: seq<Batch>, log: seq<Deed>, paused: set<int>, first: nat)

  datatype Step = Step(came: Came, now: Stage)

  /** How one update of a pending batch is handled, which updates this end can do something with, and which commits may
      stand for one. */
  datatype Rule = Rule(
    machine: Machine, step: (Stage, nat, nat, Update, Fate) -> Step, welcome: (Protocol, Update) -> bool,
    stands: (Update, Fate, Deed) -> bool)

  predicate Blocked(u: Update, paused: set<int>) { !u.Other? && u.chat in paused }

  /** The write succeeds, no crash follows, and another conversation does not refuse. */
  predicate Calm(f: Fate) { f.written && !f.crash && !f.response.Refuses? }

  predicate SameBatch(a: Batch, b: Batch) {
    a.identity == b.identity && a.envelope == b.envelope && a.before == b.before && a.after == b.after
  }

  /** Only batch j has changed, and only what was applied of it. */
  ghost predicate OnlyBatch(batches: seq<Batch>, batches': seq<Batch>, j: nat) {
    && j < |batches| == |batches'| && SameBatch(batches[j], batches'[j])
    && (forall q :: 0 <= q < |batches| && q != j ==> batches'[q] == batches[q])
  }

  ghost predicate WellFormed(m: Machine, batches: seq<Batch>) {
    DistinctNames(batches) && forall q :: 0 <= q < |batches| ==> BatchOk(m, batches[q])
  }

  /** What handling update i of batch j may change: an applied one is marked, one that waits has its conversation
      paused, a refused one leaves everything. */
  ghost predicate Shaped(m: Machine, s: Stage, j: nat, i: nat, u: Update, r: Step) {
    && s.paused <= r.now.paused && OnlyBatch(s.batches, r.now.batches, j)
    && (r.came.Refused? ==> r.now == s)
    && (r.came.Waits? ==> r.now.p == s.p && r.now.batches == s.batches && Blocked(u, r.now.paused))
    && (r.came.Applied? ==> r.now.batches[j].applied == s.batches[j].applied + {i})
    && (WellFormed(m, s.batches) && i < |UpdatesFor(m, s.batches[j])| ==> WellFormed(m, r.now.batches))
  }

  /** An unwelcome update is refused whatever else happens; a welcome one is not, if all goes well. */
  predicate Decided(rule: Rule, s: Stage, u: Update, f: Fate, r: Step) {
    && (!rule.welcome(s.p, u) ==> r == Step(Refused, s))
    && (Calm(f) ==> !r.came.Crashed? && (r.came.Refused? <==> !rule.welcome(s.p, u)))
  }

  /** A marked update has one commit more that stands for it, one that is not marked has none. */
  predicate Logged(rule: Rule, s: Stage, j: nat, i: nat, u: Update, f: Fate, r: Step) {
    && r.now.first == s.first
    && if r.came.Waits? || r.came.Refused? then r.now.log == s.log
       else (
         && |r.now.log| == |s.log| + 1 && s.log <= r.now.log
         && var d := r.now.log[|s.log|];
            !d.Local? && d.at == (s.first + j, i) && rule.stands(u, f, d))
  }

  ghost predicate Kept(rule: Rule, s: Stage, j: nat, i: nat, u: Update, f: Fate, r: Step) {
    Shaped(rule.machine, s, j, i, u, r) && Decided(rule, s, u, f, r) && Logged(rule, s, j, i, u, f, r)
  }

  ghost predicate Lawful(rule: Rule) {
    forall s: Stage, j: nat, i: nat, u: Update, f: Fate {:trigger rule.step(s, j, i, u, f)} :: j < |s.batches| ==>
      Kept(rule, s, j, i, u, f, rule.step(s, j, i, u, f))
  }

  function UpdatesAt(rule: Rule, s: Stage, j: nat): seq<Update>
    requires j < |s.batches|
  {
    UpdatesFor(rule.machine, s.batches[j])
  }

  // ---- The updates of one batch ----

  predicate Skipped(b: Batch, i: nat, u: Update, paused: set<int>) { i in b.applied || Blocked(u, paused) }

  function Onward(r: Step): Step { if r.came.Waits? then r.(came := Applied) else r }

  /** After the first i updates of batch j: those applied before and those of paused conversations are skipped. */
  ghost function UpdatesStep(rule: Rule, s: Stage, j: nat, fate: nat -> Fate, i: nat): Step
    requires j < |s.batches| && i <= |UpdatesAt(rule, s, j)|
    decreases i
  {
    if i == 0 then Step(Applied, s)
    else
      var before := UpdatesStep(rule, s, j, fate, i - 1);
      var u := UpdatesAt(rule, s, j)[i - 1];
      if !before.came.Applied? || Skipped(s.batches[j], i - 1, u, before.now.paused) then before
      else Onward(rule.step(before.now, j, i - 1, u, fate(i - 1)))
  }

  /** Of the first n updates, whatever was applied was not blocked before, and whatever was not is blocked now. */
  ghost predicate Served(m: Machine, b: Batch, b': Batch, n: nat, before: set<int>, now: set<int>) {
    && b.applied <= b'.applied
    && (forall x :: x in b'.applied ==>
          x in b.applied || (x < n && x < |UpdatesFor(m, b)| && !Blocked(UpdatesFor(m, b)[x], before)))
    && (forall x: nat :: x < n && x < |UpdatesFor(m, b)| && x !in b'.applied ==> Blocked(UpdatesFor(m, b)[x], now))
  }

  lemma {:induction false} UpdatesShape(rule: Rule, s: Stage, j: nat, fate: nat -> Fate, i: nat)
    requires Lawful(rule) && j < |s.batches| && i <= |UpdatesAt(rule, s, j)|
    ensures var r := UpdatesStep(rule, s, j, fate, i);
      && !r.came.Waits? && s.paused <= r.now.paused && OnlyBatch(s.batches, r.now.batches, j)
      && (r.came.Applied? ==> Served(rule.machine, s.batches[j], r.now.batches[j], i, s.paused, r.now.paused))
    decreases i
  {
    if i == 0 {
    } else {
      var before, u := UpdatesStep(rule, s, j, fate, i - 1), UpdatesAt(rule, s, j)[i - 1];
      UpdatesShape(rule, s, j, fate, i - 1);
      if before.came.Applied? && !Skipped(s.batches[j], i - 1, u, before.now.paused) {
        assert Shaped(rule.machine, before.now, j, i - 1, u, rule.step(before.now, j, i - 1, u, fate(i - 1)));
      }
    }
  }

  lemma {:induction false} UpdatesStop(rule: Rule, s: Stage, j: nat, fate: nat -> Fate, i: nat, n: nat)
    requires j < |s.batches| && i <= n <= |UpdatesAt(rule, s, j)| && !UpdatesStep(rule, s, j, fate, i).came.Applied?
    ensures UpdatesStep(rule, s, j, fate, n) == UpdatesStep(rule, s, j, fate, i)
    decreases n
  {
    if i < n { UpdatesStop(rule, s, j, fate, i, n - 1); }
  }

  /** Where the updates of a batch stop. */
  lemma {:induction false} WhereUpdatesStop(rule: Rule, s: Stage, j: nat, fate: nat -> Fate, n: nat) returns (i: nat)
    requires j < |s.batches| && n <= |UpdatesAt(rule, s, j)| && !UpdatesStep(rule, s, j, fate, n).came.Applied?
    ensures i < n && UpdatesStep(rule, s, j, fate, i).came.Applied?
    ensures UpdatesStep(rule, s, j, fate, i + 1) == UpdatesStep(rule, s, j, fate, n)
    decreases n
  {
    if UpdatesStep(rule, s, j, fate, n - 1).came.Applied? {
      i := n - 1;
    } else {
      i := WhereUpdatesStop(rule, s, j, fate, n - 1);
    }
  }

  /** When its turn comes, update i of batch j is skipped or welcome. */
  ghost predicate Turn(rule: Rule, s: Stage, j: nat, fate: nat -> Fate, i: nat)
    requires j < |s.batches| && i < |UpdatesAt(rule, s, j)|
  {
    var now, u := UpdatesStep(rule, s, j, fate, i).now, UpdatesAt(rule, s, j)[i];
    Skipped(s.batches[j], i, u, now.paused) || rule.welcome(now.p, u)
  }

  ghost predicate CalmBatch(fate: nat -> Fate) { forall i: nat :: Calm(fate(i)) }

  /** When all goes well, a batch comes through exactly when every update is skipped or welcome at its turn. */
  lemma {:induction false} UpdatesThrough(rule: Rule, s: Stage, j: nat, fate: nat -> Fate, n: nat)
    requires Lawful(rule) && j < |s.batches| && n <= |UpdatesAt(rule, s, j)| && CalmBatch(fate)
    ensures var came := UpdatesStep(rule, s, j, fate, n).came;
      (came.Applied? || came.Refused?) && (came.Applied? <==> forall i: nat :: i < n ==> Turn(rule, s, j, fate, i))
    decreases n
  {
    if n == 0 {
    } else {
      var before, u := UpdatesStep(rule, s, j, fate, n - 1), UpdatesAt(rule, s, j)[n - 1];
      UpdatesThrough(rule, s, j, fate, n - 1);
      UpdatesShape(rule, s, j, fate, n - 1);
      assert Decided(rule, before.now, u, fate(n - 1), rule.step(before.now, j, n - 1, u, fate(n - 1)));
      assert before.came.Applied? ==>
        (UpdatesStep(rule, s, j, fate, n).came.Applied? <==> Turn(rule, s, j, fate, n - 1));
    }
  }

  // ---- All pending batches ----

  function Position(batches: seq<Batch>, identity: int): (j: nat)
    ensures j <= |batches| && (j < |batches| ==> batches[j].identity == identity)
    ensures forall i :: 0 <= i < j ==> batches[i].identity != identity
  {
    if batches == [] || batches[0].identity == identity then 0 else 1 + Position(batches[1..], identity)
  }

  /** How many batches at the front are fully applied. */
  function Leading(m: Machine, batches: seq<Batch>): (n: nat)
    ensures n <= |batches| && (n < |batches| ==> !Complete(m, batches[n]))
    ensures forall i :: 0 <= i < n ==> Complete(m, batches[i])
  {
    if batches == [] || !Complete(m, batches[0]) then 0 else 1 + Leading(m, batches[1..])
  }

  /** The fully applied batches at the front leave, in one commit. */
  function PrefixStep(m: Machine, s: Stage, written: bool, crash: bool): Step {
    var n := Leading(m, s.batches);
    if n > 0 && !written then Step(Refused, s)
    else Step(if crash then Crashed else Applied, s.(batches := s.batches[n..], first := s.first + n))
  }

  function TidyStep(m: Machine, s: Stage, j: nat, f: Fate): Step {
    if j < |s.batches| && Complete(m, s.batches[j]) then PrefixStep(m, s, f.written, f.crash) else Step(Applied, s)
  }

  /** The batch of a name, unless it has left: its updates, and then the batches that are fully applied. */
  ghost function BatchStep(rule: Rule, s: Stage, identity: int, fate: nat -> Fate): Step {
    var j := Position(s.batches, identity);
    if j == |s.batches| then Step(Applied, s)
    else
      var r := UpdatesStep(rule, s, j, fate, |UpdatesAt(rule, s, j)|);
      if r.came.Applied? then TidyStep(rule.machine, r.now, j, fate(|UpdatesAt(rule, s, j)|)) else r
  }

  /** After the first k of the batches that were pending. */
  ghost function DrainedTo(rule: Rule, s: Stage, fates: nat -> (nat -> Fate), k: nat): Step
    requires k <= |s.batches|
    decreases k
  {
    if k == 0 then Step(Applied, s)
    else
      var before := DrainedTo(rule, s, fates, k - 1);
      if before.came.Applied? then BatchStep(rule, before.now, s.batches[k - 1].identity, fates(k - 1)) else before
  }

  lemma {:induction false} DrainStops(rule: Rule, s: Stage, fates: nat -> (nat -> Fate), k: nat, n: nat)
    requires k <= n <= |s.batches| && !DrainedTo(rule, s, fates, k).came.Applied?
    ensures DrainedTo(rule, s, fates, n) == DrainedTo(rule, s, fates, k)
    decreases n
  {
    if k < n { DrainStops(rule, s, fates, k, n - 1); }
  }

  lemma {:induction false} ThroughSoFar(rule: Rule, s: Stage, fates: nat -> (nat -> Fate), k: nat, n: nat)
    requires k <= n <= |s.batches| && DrainedTo(rule, s, fates, n).came.Applied?
    ensures DrainedTo(rule, s, fates, k).came.Applied?
    decreases n
  {
    if k < n { ThroughSoFar(rule, s, fates, k, n - 1); }
  }

  lemma {:induction false} WhereDrainStops(rule: Rule, s: Stage, fates: nat -> (nat -> Fate), n: nat) returns (k: nat)
    requires n <= |s.batches| && !DrainedTo(rule, s, fates, n).came.Applied?
    ensures k < n && DrainedTo(rule, s, fates, k).came.Applied?
    ensures DrainedTo(rule, s, fates, k + 1) == DrainedTo(rule, s, fates, n)
    decreases n
  {
    if DrainedTo(rule, s, fates, n - 1).came.Applied? {
      k := n - 1;
    } else {
      DrainStops(rule, s, fates, n - 1, n);
      k := WhereDrainStops(rule, s, fates, n - 1);
    }
  }

  /** One more batch, as drained. */
  lemma NextBatch(rule: Rule, s: Stage, fates: nat -> (nat -> Fate), k: nat, now: Stage, r: Step)
    requires k < |s.batches| && DrainedTo(rule, s, fates, k) == Step(Applied, now)
    requires r == BatchStep(rule, now, s.batches[k].identity, fates(k))
    ensures DrainedTo(rule, s, fates, k + 1) == r
    ensures !r.came.Applied? ==> DrainedTo(rule, s, fates, |s.batches|) == r
  {
    if !r.came.Applied? { DrainStops(rule, s, fates, k + 1, |s.batches|); }
  }

  // ---- What a drain leaves ----

  /** A drain under way: the batches it started with, what has become of each, and how many have left. */
  datatype Drain = Drain(pending: seq<Batch>, now: seq<Batch>, gone: nat)

  /** A drain that has come to batch k: the later ones are as they were, those that left were fully applied, and the
      first one left, once come past, still waits for something. */
  ghost predicate DrainOk(m: Machine, d: Drain, k: nat) {
    && DistinctNames(d.pending) && |d.now| == |d.pending| && d.gone <= |d.pending|
    && (forall q :: 0 <= q < |d.pending| ==> SameBatch(d.pending[q], d.now[q]))
    && (forall q :: k <= q < |d.pending| ==> d.now[q] == d.pending[q])
    && (forall q :: 0 <= q < d.gone ==> Gone(m, d.now[q]))
    && (d.gone < k && d.gone < |d.now| ==> !Complete(m, d.now[d.gone]))
  }

  ghost predicate Gone(m: Machine, b: Batch) { forall x: nat :: x < |UpdatesFor(m, b)| ==> x in b.applied }

  lemma CompleteIsGone(m: Machine, batches: seq<Batch>)
    requires WellFormed(m, batches)
    ensures forall i :: 0 <= i < |batches| && Complete(m, batches[i]) ==> Gone(m, batches[i])
  {
    forall i | 0 <= i < |batches| && Complete(m, batches[i]) ensures Gone(m, batches[i]) {
      assert BatchOk(m, batches[i]);
    }
  }

  ghost predicate AllServed(m: Machine, d: Drain, k: nat, before: set<int>, now: set<int>)
    requires |d.now| == |d.pending|
  {
    forall q :: 0 <= q < |d.pending| && q < k ==>
      Served(m, d.pending[q], d.now[q], |UpdatesFor(m, d.pending[q])|, before, now)
  }

  lemma FoundWhere(m: Machine, d: Drain, batches: seq<Batch>, k: nat)
    requires DrainOk(m, d, k) && k < |d.pending| && batches == d.now[d.gone..]
    ensures Position(batches, d.pending[k].identity) == if k >= d.gone then k - d.gone else |batches|
  {
    var j := Position(batches, d.pending[k].identity);
    if j < |batches| { assert SameBatch(d.pending[d.gone + j], batches[j]); }
    if k >= d.gone { assert SameBatch(d.pending[k], batches[k - d.gone]); }
  }

  lemma TakeStep(d: Drain, batches: seq<Batch>, k: nat, b: Batch)
    requires |d.now| == |d.pending| && d.gone <= k < |d.pending| && |batches| == |d.now| - d.gone
    requires forall i :: 0 <= i < |batches| ==> batches[i] == if i == k - d.gone then b else d.now[d.gone..][i]
    ensures batches == d.now[k := b][d.gone..]
  {
  }

  lemma LeaveStep(m: Machine, d: Drain, k: nat, b: Batch, more: nat)
    requires DrainOk(m, d, k) && d.gone <= k < |d.pending| && SameBatch(d.now[k], b) && more <= |d.now| - d.gone
    requires var now := d.now[k := b][d.gone..];
      && (forall i :: 0 <= i < more ==> Gone(m, now[i])) && (!Complete(m, b) ==> more == 0)
      && (Complete(m, b) ==> now[more..] == [] || !Complete(m, now[more..][0]))
    ensures DrainOk(m, Drain(d.pending, d.now[k := b], d.gone + more), k + 1)
    ensures d.now[k := b][d.gone..][more..] == d.now[k := b][d.gone + more..]
  {
    var now := d.now[k := b];
    forall q | 0 <= q < d.gone + more ensures Gone(m, now[q]) {
      if q >= d.gone { assert now[d.gone..][q - d.gone] == now[q]; }
    }
    if d.gone + more < |now| { assert now[d.gone..][more..][0] == now[d.gone + more]; }
  }

  lemma FinishStep(m: Machine, d: Drain, k: nat, batches: seq<Batch>, more: nat)
    requires DrainOk(m, d, k) && d.gone <= k < |d.pending| && OnlyBatch(d.now[d.gone..], batches, k - d.gone)
    requires more <= |batches| && (forall i :: 0 <= i < more ==> Gone(m, batches[i]))
    requires !Complete(m, batches[k - d.gone]) ==> more == 0
    requires Complete(m, batches[k - d.gone]) ==> batches[more..] == [] || !Complete(m, batches[more..][0])
    ensures var d' := Drain(d.pending, d.now[k := batches[k - d.gone]], d.gone + more);
      DrainOk(m, d', k + 1) && batches[more..] == d'.now[d'.gone..]
  {
    TakeStep(d, batches, k, batches[k - d.gone]);
    LeaveStep(m, d, k, batches[k - d.gone], more);
  }

  lemma SkipStep(m: Machine, d: Drain, k: nat, before: set<int>, now: set<int>)
    requires DrainOk(m, d, k) && k < d.gone
    ensures DrainOk(m, d, k + 1)
    ensures AllServed(m, d, k, before, now) ==> AllServed(m, d, k + 1, before, now)
  {
    assert Gone(m, d.now[k]) && SameBatch(d.pending[k], d.now[k]);
  }

  lemma {:induction false} UpdatesKeepForm(rule: Rule, s: Stage, j: nat, fate: nat -> Fate, i: nat)
    requires Lawful(rule) && j < |s.batches| && i <= |UpdatesAt(rule, s, j)| && WellFormed(rule.machine, s.batches)
    ensures WellFormed(rule.machine, UpdatesStep(rule, s, j, fate, i).now.batches)
    decreases i
  {
    if i == 0 {
    } else {
      var before, u := UpdatesStep(rule, s, j, fate, i - 1), UpdatesAt(rule, s, j)[i - 1];
      UpdatesKeepForm(rule, s, j, fate, i - 1);
      UpdatesShape(rule, s, j, fate, i - 1);
      assert Shaped(rule.machine, before.now, j, i - 1, u, rule.step(before.now, j, i - 1, u, fate(i - 1)));
    }
  }

  lemma ServedStep(m: Machine, d: Drain, k: nat, b: Batch, gone: nat, before: set<int>, mid: set<int>, now: set<int>)
    requires |d.now| == |d.pending| && k < |d.pending| && before <= mid <= now && AllServed(m, d, k, before, mid)
    requires Served(m, d.pending[k], b, |UpdatesFor(m, d.pending[k])|, mid, now)
    ensures AllServed(m, Drain(d.pending, d.now[k := b], gone), k + 1, before, now)
  {
    var d' := Drain(d.pending, d.now[k := b], gone);
    forall q | 0 <= q < |d.pending| && q < k + 1
      ensures Served(m, d'.pending[q], d'.now[q], |UpdatesFor(m, d'.pending[q])|, before, now)
    {
      if q < k { assert Served(m, d.pending[q], d.now[q], |UpdatesFor(m, d.pending[q])|, before, mid); }
    }
  }

  lemma RestKeepsForm(m: Machine, batches: seq<Batch>, n: nat)
    requires WellFormed(m, batches) && n <= |batches|
    ensures WellFormed(m, batches[n..])
  {
  }

  /** A drain that has come through k batches, the later ones as they were. */
  ghost predicate Traced(m: Machine, d: Drain, k: nat, before: set<int>, now: Stage) {
    && DrainOk(m, d, k) && now.batches == d.now[d.gone..] && WellFormed(m, now.batches) && before <= now.paused
    && AllServed(m, d, k, before, now.paused)
  }

  /** The batches that leave after batch k came through. */
  lemma TidyTrace(m: Machine, d: Drain, k: nat, s: Stage, f: Fate) returns (d': Drain)
    requires DrainOk(m, d, k) && d.gone <= k < |d.pending| && OnlyBatch(d.now[d.gone..], s.batches, k - d.gone)
    requires WellFormed(m, s.batches) && TidyStep(m, s, k - d.gone, f).came.Applied?
    ensures d' == Drain(d.pending, d.now[k := s.batches[k - d.gone]], d'.gone) && DrainOk(m, d', k + 1)
    ensures var now := TidyStep(m, s, k - d.gone, f).now;
      now.batches == d'.now[d'.gone..] && WellFormed(m, now.batches) && now.paused == s.paused
  {
    var b := s.batches[k - d.gone];
    var more := if Complete(m, b) then Leading(m, s.batches) else 0;
    CompleteIsGone(m, s.batches);
    RestKeepsForm(m, s.batches, more);
    FinishStep(m, d, k, s.batches, more);
    d' := Drain(d.pending, d.now[k := b], d.gone + more);
  }

  /** A batch that comes through, and the fully applied ones that leave with it. */
  lemma TraceStep(rule: Rule, s: Stage, d: Drain, k: nat, fate: nat -> Fate, before: set<int>) returns (d': Drain)
    requires Lawful(rule) && Traced(rule.machine, d, k, before, s) && k < |d.pending|
    requires BatchStep(rule, s, d.pending[k].identity, fate).came.Applied?
    ensures d'.pending == d.pending
    ensures Traced(rule.machine, d', k + 1, before, BatchStep(rule, s, d.pending[k].identity, fate).now)
  {
    var m := rule.machine;
    FoundWhere(m, d, s.batches, k);
    if k < d.gone {
      SkipStep(m, d, k, before, s.paused);
      d' := d;
    } else {
      var n := |UpdatesAt(rule, s, k - d.gone)|;
      var r := UpdatesStep(rule, s, k - d.gone, fate, n).now;
      UpdatesShape(rule, s, k - d.gone, fate, n);
      UpdatesKeepForm(rule, s, k - d.gone, fate, n);
      d' := TidyTrace(m, d, k, r, fate(n));
      ServedStep(m, d, k, r.batches[k - d.gone], d'.gone, before, s.paused, r.paused);
    }
  }

  lemma NothingDrained(m: Machine, s: Stage)
    requires WellFormed(m, s.batches)
    ensures Traced(m, Drain(s.batches, s.batches, 0), 0, s.paused, s)
  {
  }

  lemma {:induction false} DrainTrace(rule: Rule, s: Stage, fates: nat -> (nat -> Fate), k: nat) returns (d: Drain)
    requires Lawful(rule) && WellFormed(rule.machine, s.batches) && k <= |s.batches|
    requires DrainedTo(rule, s, fates, k).came.Applied?
    ensures d.pending == s.batches && Traced(rule.machine, d, k, s.paused, DrainedTo(rule, s, fates, k).now)
    decreases k
  {
    if k == 0 {
      d := Drain(s.batches, s.batches, 0);
      NothingDrained(rule.machine, s);
    } else {
      d := DrainTrace(rule, s, fates, k - 1);
      d := TraceStep(rule, DrainedTo(rule, s, fates, k - 1).now, d, k - 1, fates(k - 1), s.paused);
    }
  }

  // ---- What a drain adds to the log ----

  /** Each of these commits stands for one of the first i updates of batch j, and fits how that one went. */
  ghost predicate TellsBatch(rule: Rule, s: Stage, j: nat, fate: nat -> Fate, i: nat, log: seq<Deed>)
    requires j < |s.batches| && i <= |UpdatesAt(rule, s, j)|
  {
    s.log <= log && forall x :: |s.log| <= x < |log| ==>
      && !log[x].Local? && log[x].at.0 == s.first + j && log[x].at.1 < i
      && rule.stands(UpdatesAt(rule, s, j)[log[x].at.1], fate(log[x].at.1), log[x])
  }

  /** Each of these commits stands for one of the updates that were pending, and fits how that one went. */
  ghost predicate Tells(rule: Rule, s: Stage, fates: nat -> (nat -> Fate), log: seq<Deed>) {
    s.log <= log && forall x :: |s.log| <= x < |log| ==>
      && !log[x].Local? && s.first <= log[x].at.0 < s.first + |s.batches|
      && var j, i := log[x].at.0 - s.first, log[x].at.1;
        i < |UpdatesAt(rule, s, j)| && rule.stands(UpdatesAt(rule, s, j)[i], fates(j)(i), log[x])
  }

  lemma {:induction false} UpdatesTold(rule: Rule, s: Stage, j: nat, fate: nat -> Fate, i: nat)
    requires Lawful(rule) && j < |s.batches| && i <= |UpdatesAt(rule, s, j)|
    ensures var r := UpdatesStep(rule, s, j, fate, i);
      r.now.first == s.first && TellsBatch(rule, s, j, fate, i, r.now.log)
    decreases i
  {
    if i == 0 {
    } else {
      var before, u := UpdatesStep(rule, s, j, fate, i - 1), UpdatesAt(rule, s, j)[i - 1];
      UpdatesTold(rule, s, j, fate, i - 1);
      if before.came.Applied? && !Skipped(s.batches[j], i - 1, u, before.now.paused) {
        UpdatesShape(rule, s, j, fate, i - 1);
        assert Logged(rule, before.now, j, i - 1, u, fate(i - 1), rule.step(before.now, j, i - 1, u, fate(i - 1)));
      }
    }
  }

  lemma BatchTold(rule: Rule, s: Stage, identity: int, fate: nat -> Fate)
    requires Lawful(rule)
    ensures var j, r := Position(s.batches, identity), BatchStep(rule, s, identity, fate);
      && r.now.first + |r.now.batches| == s.first + |s.batches|
      && (if j == |s.batches| then r.now.log == s.log
          else TellsBatch(rule, s, j, fate, |UpdatesAt(rule, s, j)|, r.now.log))
  {
    var j := Position(s.batches, identity);
    if j < |s.batches| {
      UpdatesTold(rule, s, j, fate, |UpdatesAt(rule, s, j)|);
      UpdatesShape(rule, s, j, fate, |UpdatesAt(rule, s, j)|);
    }
  }

  lemma TellsMore(
      rule: Rule, s: Stage, fates: nat -> (nat -> Fate), now: Stage, j: nat, k: nat, log: seq<Deed>)
    requires Tells(rule, s, fates, now.log) && j < |now.batches| && k < |s.batches| && now.first + j == s.first + k
    requires SameBatch(s.batches[k], now.batches[j])
    requires TellsBatch(rule, now, j, fates(k), |UpdatesAt(rule, now, j)|, log)
    ensures Tells(rule, s, fates, log)
  {
  }

  /** A pending batch that is found in the course of a drain is still that batch, and counted as it was. */
  lemma StillThere(rule: Rule, s: Stage, fates: nat -> (nat -> Fate), k: nat, now: Stage)
    requires Lawful(rule) && WellFormed(rule.machine, s.batches) && k < |s.batches|
    requires DrainedTo(rule, s, fates, k) == Step(Applied, now)
    ensures |now.batches| <= |s.batches|
    ensures var j := Position(now.batches, s.batches[k].identity);
      j < |now.batches| ==> |s.batches| - |now.batches| + j == k && SameBatch(s.batches[k], now.batches[j])
  {
    var d := DrainTrace(rule, s, fates, k);
    FoundWhere(rule.machine, d, now.batches, k);
    assert SameBatch(d.pending[k], d.now[k]);
  }

  lemma NextTold(rule: Rule, s: Stage, fates: nat -> (nat -> Fate), k: nat, now: Stage)
    requires Lawful(rule) && WellFormed(rule.machine, s.batches) && k < |s.batches|
    requires DrainedTo(rule, s, fates, k) == Step(Applied, now)
    requires now.first + |now.batches| == s.first + |s.batches| && Tells(rule, s, fates, now.log)
    ensures var r := BatchStep(rule, now, s.batches[k].identity, fates(k));
      r.now.first + |r.now.batches| == s.first + |s.batches| && Tells(rule, s, fates, r.now.log)
  {
    var j := Position(now.batches, s.batches[k].identity);
    BatchTold(rule, now, s.batches[k].identity, fates(k));
    StillThere(rule, s, fates, k, now);
    if j < |now.batches| {
      TellsMore(rule, s, fates, now, j, k, BatchStep(rule, now, s.batches[k].identity, fates(k)).now.log);
    }
  }

  lemma {:induction false} DrainTold(rule: Rule, s: Stage, fates: nat -> (nat -> Fate), k: nat)
    requires Lawful(rule) && WellFormed(rule.machine, s.batches) && k <= |s.batches|
    ensures var r := DrainedTo(rule, s, fates, k);
      r.now.first + |r.now.batches| == s.first + |s.batches| && Tells(rule, s, fates, r.now.log)
    decreases k
  {
    if k == 0 {
    } else {
      DrainTold(rule, s, fates, k - 1);
      var before := DrainedTo(rule, s, fates, k - 1);
      if before.came.Applied? { NextTold(rule, s, fates, k - 1, before.now); }
    }
  }

  // ---- When a drain comes through ----

  ghost predicate CalmRun(fates: nat -> (nat -> Fate)) { forall k: nat :: CalmBatch(fates(k)) }

  ghost predicate BatchTurns(rule: Rule, s: Stage, identity: int, fate: nat -> Fate) {
    var j := Position(s.batches, identity);
    j < |s.batches| ==> forall i: nat :: i < |UpdatesAt(rule, s, j)| ==> Turn(rule, s, j, fate, i)
  }

  lemma BatchThrough(rule: Rule, s: Stage, identity: int, fate: nat -> Fate)
    requires Lawful(rule) && CalmBatch(fate)
    ensures var came := BatchStep(rule, s, identity, fate).came;
      (came.Applied? || came.Refused?) && (came.Applied? <==> BatchTurns(rule, s, identity, fate))
  {
    var j := Position(s.batches, identity);
    if j < |s.batches| {
      UpdatesThrough(rule, s, j, fate, |UpdatesAt(rule, s, j)|);
      assert Calm(fate(|UpdatesAt(rule, s, j)|));
    }
  }

  /** When batch k comes up, each of its updates is skipped or welcome at its turn. */
  ghost predicate AtTurn(rule: Rule, s: Stage, fates: nat -> (nat -> Fate), k: nat)
    requires k < |s.batches|
  {
    BatchTurns(rule, DrainedTo(rule, s, fates, k).now, s.batches[k].identity, fates(k))
  }

  lemma ComesStep(rule: Rule, s: Stage, fates: nat -> (nat -> Fate), k: nat)
    requires Lawful(rule) && k < |s.batches| && CalmBatch(fates(k)) && DrainedTo(rule, s, fates, k).came.Applied?
    ensures var now := DrainedTo(rule, s, fates, k + 1).came;
      (now.Applied? || now.Refused?) && (now.Applied? <==> AtTurn(rule, s, fates, k))
  {
    BatchThrough(rule, DrainedTo(rule, s, fates, k).now, s.batches[k].identity, fates(k));
  }

  lemma TurnsTaken(rule: Rule, s: Stage, fates: nat -> (nat -> Fate), k: nat)
    requires Lawful(rule) && k < |s.batches| && CalmBatch(fates(k))
      && DrainedTo(rule, s, fates, |s.batches|).came.Applied?
    ensures AtTurn(rule, s, fates, k)
  {
    ThroughSoFar(rule, s, fates, k, |s.batches|);
    ThroughSoFar(rule, s, fates, k + 1, |s.batches|);
    ComesStep(rule, s, fates, k);
  }

  /** When every write succeeds and nothing else goes wrong, a drain comes through if and only if every update handed
      over is welcome when its turn comes: its conversation is known and, if it is a frame of the one modelled here,
      a held key opens it, and it can be read or ends the chat. */
  lemma ComesThrough(rule: Rule, s: Stage, fates: nat -> (nat -> Fate))
    requires Lawful(rule) && CalmRun(fates)
    ensures var came := DrainedTo(rule, s, fates, |s.batches|).came;
      && (came.Applied? || came.Refused?)
      && (came.Applied? <==> forall k: nat :: k < |s.batches| ==> AtTurn(rule, s, fates, k))
  {
    if DrainedTo(rule, s, fates, |s.batches|).came.Applied? {
      forall k: nat | k < |s.batches| ensures AtTurn(rule, s, fates, k) {
        assert CalmBatch(fates(k));
        TurnsTaken(rule, s, fates, k);
      }
    } else {
      var k := WhereDrainStops(rule, s, fates, |s.batches|);
      assert CalmBatch(fates(k));
      ComesStep(rule, s, fates, k);
    }
  }

  // ---- What stops a drain stops every drain ----

  /** Every one of the first n updates is applied or blocked. */
  ghost predicate SkippedUpTo(m: Machine, b: Batch, n: nat, paused: set<int>) {
    forall x: nat :: x < n && x < |UpdatesFor(m, b)| ==> Skipped(b, x, UpdatesFor(m, b)[x], paused)
  }

  /** An unwelcome update heads what is left: all before it is applied or blocked, and its conversation is not
      paused. */
  ghost predicate Jammed(rule: Rule, s: Stage, j: nat, i: nat) {
    && j < |s.batches| && i < |UpdatesAt(rule, s, j)|
    && !Skipped(s.batches[j], i, UpdatesAt(rule, s, j)[i], s.paused)
    && !rule.welcome(s.p, UpdatesAt(rule, s, j)[i])
    && SkippedUpTo(rule.machine, s.batches[j], i, s.paused)
    && (forall q :: 0 <= q < j ==>
      SkippedUpTo(rule.machine, s.batches[q], |UpdatesFor(rule.machine, s.batches[q])|, s.paused))
    && (j > 0 ==> !Complete(rule.machine, s.batches[0]))
  }

  lemma {:induction false} NothingToHand(rule: Rule, s: Stage, j: nat, fate: nat -> Fate, i: nat)
    requires j < |s.batches| && i <= |UpdatesAt(rule, s, j)| && SkippedUpTo(rule.machine, s.batches[j], i, s.paused)
    ensures UpdatesStep(rule, s, j, fate, i) == Step(Applied, s)
    decreases i
  {
    if i == 0 {
    } else {
      NothingToHand(rule, s, j, fate, i - 1);
    }
  }

  /** A drain that hands over an unwelcome update ends refused there, and changes nothing more. */
  lemma UnwelcomeStops(rule: Rule, s: Stage, j: nat, fate: nat -> Fate, i: nat)
    requires Lawful(rule) && j < |s.batches| && i < |UpdatesAt(rule, s, j)|
      && UpdatesStep(rule, s, j, fate, i).came.Applied?
    requires !Turn(rule, s, j, fate, i)
    ensures UpdatesStep(rule, s, j, fate, |UpdatesAt(rule, s, j)|)
      == Step(Refused, UpdatesStep(rule, s, j, fate, i).now)
  {
    var before, u := UpdatesStep(rule, s, j, fate, i), UpdatesAt(rule, s, j)[i];
    UpdatesShape(rule, s, j, fate, i);
    assert Decided(rule, before.now, u, fate(i), rule.step(before.now, j, i, u, fate(i)));
    UpdatesStop(rule, s, j, fate, i + 1, |UpdatesAt(rule, s, j)|);
  }

  lemma NamedOnce(batches: seq<Batch>, k: nat)
    requires DistinctNames(batches) && k < |batches|
    ensures Position(batches, batches[k].identity) == k
  {
  }

  lemma IdleBatch(rule: Rule, s: Stage, j: nat, i: nat, fate: nat -> Fate, q: nat)
    requires DistinctNames(s.batches) && Jammed(rule, s, j, i) && q < j
    ensures var r := BatchStep(rule, s, s.batches[q].identity, fate);
      r.now == s && (r.came.Applied? || r.came.Crashed?) && (CalmBatch(fate) ==> r.came.Applied?)
  {
    var n := |UpdatesAt(rule, s, q)|;
    NamedOnce(s.batches, q);
    NothingToHand(rule, s, q, fate, n);
    assert Leading(rule.machine, s.batches) == 0 && s.batches[0..] == s.batches;
    assert CalmBatch(fate) ==> Calm(fate(n));
  }

  /** Before the jam there is nothing to do, and nothing leaves. */
  lemma {:induction false} BeforeTheJam(rule: Rule, s: Stage, j: nat, i: nat, fates: nat -> (nat -> Fate), k: nat)
    requires DistinctNames(s.batches) && Jammed(rule, s, j, i) && k <= j
    ensures DrainedTo(rule, s, fates, k).now == s && !DrainedTo(rule, s, fates, k).came.Refused?
    ensures !DrainedTo(rule, s, fates, k).came.Waits?
    ensures CalmRun(fates) ==> DrainedTo(rule, s, fates, k).came.Applied?
    decreases k
  {
    if k == 0 {
    } else {
      BeforeTheJam(rule, s, j, i, fates, k - 1);
      IdleBatch(rule, s, j, i, fates(k - 1), k - 1);
      assert CalmRun(fates) ==> CalmBatch(fates(k - 1));
    }
  }

  lemma AtTheJam(rule: Rule, s: Stage, j: nat, i: nat, fate: nat -> Fate)
    requires Lawful(rule) && DistinctNames(s.batches) && Jammed(rule, s, j, i)
    ensures BatchStep(rule, s, s.batches[j].identity, fate) == Step(Refused, s)
  {
    NamedOnce(s.batches, j);
    NothingToHand(rule, s, j, fate, i);
    UnwelcomeStops(rule, s, j, fate, i);
  }

  /** However writes, crashes and the other conversations go, a drain of what is jammed does not come through and
      changes nothing, on disk or in the pauses. */
  lemma JamHolds(rule: Rule, s: Stage, j: nat, i: nat, fates: nat -> (nat -> Fate))
    requires Lawful(rule) && DistinctNames(s.batches) && Jammed(rule, s, j, i)
    ensures var r := DrainedTo(rule, s, fates, |s.batches|);
      r.now == s && (r.came.Refused? || r.came.Crashed?) && (CalmRun(fates) ==> r.came.Refused?)
  {
    BeforeTheJam(rule, s, j, i, fates, j);
    if DrainedTo(rule, s, fates, j).came.Applied? {
      AtTheJam(rule, s, j, i, fates(j));
      DrainStops(rule, s, fates, j + 1, |s.batches|);
    } else {
      DrainStops(rule, s, fates, j, |s.batches|);
    }
  }

  /** Where the updates of a batch are stopped although all goes well, an unwelcome one is. */
  lemma StoppedHere(rule: Rule, s: Stage, j: nat, fate: nat -> Fate, i: nat)
    requires Lawful(rule) && j < |s.batches| && i < |UpdatesAt(rule, s, j)| && Calm(fate(i))
    requires UpdatesStep(rule, s, j, fate, i).came.Applied? && !UpdatesStep(rule, s, j, fate, i + 1).came.Applied?
    ensures !Turn(rule, s, j, fate, i)
  {
    var before, u := UpdatesStep(rule, s, j, fate, i), UpdatesAt(rule, s, j)[i];
    UpdatesShape(rule, s, j, fate, i);
    assert Decided(rule, before.now, u, fate(i), rule.step(before.now, j, i, u, fate(i)));
  }

  lemma SkippedBefore(m: Machine, d: Drain, k: nat, before: set<int>, s: Stage, q: nat)
    requires Traced(m, d, k, before, s) && d.gone + q < k <= |d.pending|
    ensures SkippedUpTo(m, s.batches[q], |UpdatesFor(m, s.batches[q])|, s.paused)
  {
    var p := d.gone + q;
    assert SameBatch(d.pending[p], d.now[p]) && s.batches[q] == d.now[p];
    assert Served(m, d.pending[p], d.now[p], |UpdatesFor(m, d.pending[p])|, before, s.paused);
  }

  lemma SkippedStays(m: Machine, b: Batch, n: nat, paused: set<int>, now: set<int>)
    requires SkippedUpTo(m, b, n, paused) && paused <= now
    ensures SkippedUpTo(m, b, n, now)
  {
  }

  /** Update i of batch k comes up in a drain, at position j, and is unwelcome. */
  ghost predicate ComesUp(rule: Rule, s: Stage, fates: nat -> (nat -> Fate), k: nat, j: nat, i: nat)
    requires k < |s.batches|
  {
    var so := DrainedTo(rule, s, fates, k);
    && so.came.Applied? && j < |so.now.batches| && j == Position(so.now.batches, s.batches[k].identity)
    && i < |UpdatesAt(rule, so.now, j)| && UpdatesStep(rule, so.now, j, fates(k), i).came.Applied?
    && !Turn(rule, so.now, j, fates(k), i)
  }

  lemma StoppedDrain(rule: Rule, s: Stage, fates: nat -> (nat -> Fate), k: nat, j: nat, i: nat)
    requires Lawful(rule) && k < |s.batches| && ComesUp(rule, s, fates, k, j, i)
    ensures var so := DrainedTo(rule, s, fates, k).now;
      DrainedTo(rule, s, fates, |s.batches|) == UpdatesStep(rule, so, j, fates(k), |UpdatesAt(rule, so, j)|)
  {
    UnwelcomeStops(rule, DrainedTo(rule, s, fates, k).now, j, fates(k), i);
    DrainStops(rule, s, fates, k + 1, |s.batches|);
  }

  /** An unwelcome update whose turn comes stops the drain there: what is left is jammed, and everything behind the
      batch is as it was. */
  lemma UnwelcomeJams(rule: Rule, s: Stage, fates: nat -> (nat -> Fate), k: nat, j: nat, i: nat)
    requires Lawful(rule) && WellFormed(rule.machine, s.batches) && k < |s.batches|
    requires ComesUp(rule, s, fates, k, j, i)
    ensures var r := DrainedTo(rule, s, fates, |s.batches|);
      && r.came.Refused? && Jammed(rule, r.now, j, i) && WellFormed(rule.machine, r.now.batches)
      && SameBatch(s.batches[k], r.now.batches[j]) && r.now.batches[j + 1..] == s.batches[k + 1..]
  {
    var d := DrainTrace(rule, s, fates, k);
    var so := DrainedTo(rule, s, fates, k).now;
    FoundWhere(rule.machine, d, so.batches, k);
    StoppedDrain(rule, s, fates, k, j, i);
    JamsAt(rule, so, d, k, s.paused, fates(k), i);
  }

  lemma JamsAt(rule: Rule, s: Stage, d: Drain, k: nat, before: set<int>, fate: nat -> Fate, i: nat)
    requires Lawful(rule) && Traced(rule.machine, d, k, before, s) && d.gone <= k < |d.pending|
    requires i < |UpdatesAt(rule, s, k - d.gone)| && UpdatesStep(rule, s, k - d.gone, fate, i).came.Applied?
    requires !Turn(rule, s, k - d.gone, fate, i)
    ensures var j, r := k - d.gone, UpdatesStep(rule, s, k - d.gone, fate, |UpdatesAt(rule, s, k - d.gone)|);
      && r.came.Refused? && Jammed(rule, r.now, j, i) && WellFormed(rule.machine, r.now.batches)
      && SameBatch(d.pending[k], r.now.batches[j]) && r.now.batches[j + 1..] == d.pending[k + 1..]
  {
    var j, t := k - d.gone, UpdatesStep(rule, s, k - d.gone, fate, i).now;
    UnwelcomeStops(rule, s, j, fate, i);
    UpdatesShape(rule, s, j, fate, i);
    UpdatesKeepForm(rule, s, j, fate, i);
    assert SameBatch(d.pending[k], d.now[k]) && s.batches[j] == d.now[k];
    forall q | 0 <= q < j
      ensures SkippedUpTo(rule.machine, t.batches[q], |UpdatesFor(rule.machine, t.batches[q])|, t.paused)
    {
      SkippedBefore(rule.machine, d, k, before, s, q);
      SkippedStays(rule.machine, s.batches[q], |UpdatesFor(rule.machine, s.batches[q])|, s.paused, t.paused);
    }
    assert t.batches[j + 1..] == d.now[d.gone..][j + 1..] == d.now[k + 1..] == d.pending[k + 1..];
  }

  /** A drain that all goes well for and that does not come through meets an unwelcome update. */
  lemma MeetsUnwelcome(rule: Rule, s: Stage, fates: nat -> (nat -> Fate)) returns (k: nat, j: nat, i: nat)
    requires Lawful(rule) && CalmRun(fates) && !DrainedTo(rule, s, fates, |s.batches|).came.Applied?
    ensures k < |s.batches| && ComesUp(rule, s, fates, k, j, i)
  {
    k := WhereDrainStops(rule, s, fates, |s.batches|);
    var so := DrainedTo(rule, s, fates, k).now;
    assert CalmBatch(fates(k));
    j, i := StoppedBatch(rule, so, s.batches[k].identity, fates(k));
  }

  lemma StoppedBatch(rule: Rule, s: Stage, identity: int, fate: nat -> Fate) returns (j: nat, i: nat)
    requires Lawful(rule) && CalmBatch(fate) && !BatchStep(rule, s, identity, fate).came.Applied?
    ensures j == Position(s.batches, identity) < |s.batches| && i < |UpdatesAt(rule, s, j)|
    ensures UpdatesStep(rule, s, j, fate, i).came.Applied? && !Turn(rule, s, j, fate, i)
  {
    j := Position(s.batches, identity);
    var n := |UpdatesAt(rule, s, j)|;
    assert Calm(fate(n));
    i := WhereUpdatesStop(rule, s, j, fate, n);
    assert Calm(fate(i));
    StoppedHere(rule, s, j, fate, i);
  }

  /** A drain that comes through leaves no jam: what is not applied is paused. */
  lemma ThroughIsClear(rule: Rule, s: Stage, fates: nat -> (nat -> Fate), j: nat, i: nat)
    requires Lawful(rule) && WellFormed(rule.machine, s.batches)
    requires DrainedTo(rule, s, fates, |s.batches|).came.Applied?
    ensures !Jammed(rule, DrainedTo(rule, s, fates, |s.batches|).now, j, i)
  {
    var now := DrainedTo(rule, s, fates, |s.batches|).now;
    var d := DrainTrace(rule, s, fates, |s.batches|);
    if j < |now.batches| { SkippedBefore(rule.machine, d, |s.batches|, s.paused, now, j); }
  }

  /** A drain that all goes well for comes through, or leaves a jam; never both. */
  lemma DrainEnds(rule: Rule, s: Stage, fates: nat -> (nat -> Fate))
    requires Lawful(rule) && WellFormed(rule.machine, s.batches) && CalmRun(fates)
    ensures var r := DrainedTo(rule, s, fates, |s.batches|);
      && (r.came.Applied? || r.came.Refused?)
      && (r.came.Refused? <==> exists j, i :: Jammed(rule, r.now, j, i))
  {
    var r := DrainedTo(rule, s, fates, |s.batches|);
    if r.came.Applied? {
      forall j: nat, i: nat ensures !Jammed(rule, r.now, j, i) { ThroughIsClear(rule, s, fates, j, i); }
    } else {
      var k, j, i := MeetsUnwelcome(rule, s, fates);
      UnwelcomeJams(rule, s, fates, k, j, i);
    }
  }

  // ---- Every repetition ----

  /** More batches are captured, and then comes another drain. */
  datatype Round = Round(captured: seq<Batch>, fates: nat -> (nat -> Fate))

  function CapturedIn(rounds: seq<Round>): seq<Batch>
    decreases |rounds|
  {
    if rounds == [] then [] else CapturedIn(rounds[..|rounds| - 1]) + rounds[|rounds| - 1].captured
  }

  ghost function RoundStep(rule: Rule, s: Stage, round: Round): Stage {
    var more := s.(batches := s.batches + round.captured);
    DrainedTo(rule, more, round.fates, |more.batches|).now
  }

  ghost function AfterRounds(rule: Rule, s: Stage, rounds: seq<Round>): Stage
    decreases |rounds|
  {
    if rounds == [] then s else RoundStep(rule, AfterRounds(rule, s, rounds[..|rounds| - 1]), rounds[|rounds| - 1])
  }

  lemma JamGrows(rule: Rule, s: Stage, j: nat, i: nat, more: seq<Batch>)
    requires Jammed(rule, s, j, i)
    ensures Jammed(rule, s.(batches := s.batches + more), j, i)
  {
    var t := s.(batches := s.batches + more);
    forall q | 0 <= q < j
      ensures SkippedUpTo(rule.machine, t.batches[q], |UpdatesFor(rule.machine, t.batches[q])|, t.paused)
    {
      assert t.batches[q] == s.batches[q];
    }
  }

  /** A jam lasts: whatever is captured behind it, and however often and however the drains go, no update takes effect
      any more, no batch leaves and no conversation is paused. */
  lemma {:induction false} JamLasts(rule: Rule, s: Stage, j: nat, i: nat, rounds: seq<Round>)
    requires Lawful(rule) && Jammed(rule, s, j, i) && DistinctNames(s.batches + CapturedIn(rounds))
    ensures AfterRounds(rule, s, rounds) == s.(batches := s.batches + CapturedIn(rounds))
    decreases |rounds|
  {
    if rounds == [] {
      assert s.batches + [] == s.batches;
    } else {
      var init, last := rounds[..|rounds| - 1], rounds[|rounds| - 1];
      var so, all := s.batches + CapturedIn(init), s.batches + CapturedIn(rounds);
      assert all == so + last.captured && so == all[..|so|];
      JamLasts(rule, s, j, i, init);
      JamGrows(rule, s, j, i, CapturedIn(rounds));
      JamHolds(rule, s.(batches := all), j, i, last.fates);
    }
  }
}
