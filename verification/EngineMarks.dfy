/** What a successful commit makes the tracker forget. */
module EngineMarks {
  import opened Types
  import opened TrackerSpec
  import opened LaneMachine
  import opened PartitionMachine
  import opened PartitionInvariant
  import opened PartitionShared
  import opened PartitionHistory
  import opened EngineMachine
  import opened EngineInvariant

  // ---------------------------------------------------------------- when the pointer moves

  /** The event takes the pointer's own offset in as completed. */
  predicate CompletesAt(p: Part, ev: PartEvent) {
    && ev.AgentStep? && ev.i < |p.agents|
    && var x := Passing(p.agents[ev.i].Pc(), ev.e);
       x.Some? && x.value.stage == Complete && x.value.m.offset == p.sh.tracker.base
  }

  /** A completion moves the pointer exactly when it is of the pointer's own offset. */
  lemma CompleteMoves(t: Tracker, seed: Offset, c: set<Offset>, o: Offset)
    requires Tracks(t, seed, c) && t.hasBase
    ensures TrackerSpec.Complete(t, o).hasBase && t.base <= TrackerSpec.Complete(t, o).base
    ensures t.base < TrackerSpec.Complete(t, o).base <==> o == t.base
  {
    CompleteTracks(t, seed, c, o);
    assert t.base !in t.done;
    if o == t.base {
      assert o in c + {o};
    } else if t.base < o {
      var s := t.(done := t.done + {o});
      assert t.base !in s.done && TrackerSpec.Advance(s) == s;
    }
  }

  lemma PartMoves(cfg: Config, p: Part, ev: PartEvent)
    requires TrackerOk(p.sh, p.poll) && PartGuard(cfg, p, ev) && p.sh.tracker.hasBase
    ensures
      var t := NextPart(cfg, p, ev).sh.tracker;
      t.hasBase && p.sh.tracker.base <= t.base && (p.sh.tracker.base < t.base <==> CompletesAt(p, ev))
  {
    match ev
    case AgentStep(i, e) =>
      var x := Passing(p.agents[i].Pc(), e);
      if x.Some? && x.value.stage == Complete {
        CompleteMoves(p.sh.tracker, SeedOf(p.sh), DoneSet(p.sh.h.completed), x.value.m.offset);
      }
    case _ =>
  }

  /** The consumer's event is such an event in worker k. */
  predicate MovesPointer(e: Engine, ev: EngineEvent, k: nat) {
    ev.Inner? && ev.i == k && k < |e.workers| && CompletesAt(e.workers[k].part, ev.ev)
  }

  lemma ActingMoves(cfg: Config, e: Engine, f: Engine, i: nat, pe: PartEvent, k: nat)
    requires PartsOk(cfg, e.workers) && i < |e.workers| && k < |e.workers| && PartGuard(cfg, e.workers[i].part, pe)
    requires f.workers == Acting(cfg, e, i, pe).workers && e.workers[k].part.sh.tracker.hasBase
    ensures k < |f.workers|
    ensures
      var s, t := e.workers[k].part.sh.tracker, f.workers[k].part.sh.tracker;
      t.hasBase && s.base <= t.base && (s.base < t.base <==> i == k && CompletesAt(e.workers[k].part, pe))
  {
    if i == k {
      assert PartAt(cfg, e.workers, k);
      PartMoves(cfg, e.workers[k].part, pe);
    }
  }

  lemma EngineMoves(cfg: Config, w: World, e: Engine, ev: EngineEvent, k: nat)
    requires PartsOk(cfg, e.workers) && EngineGuard(cfg, w, e, ev) && k < |e.workers|
    requires e.workers[k].part.sh.tracker.hasBase
    ensures k < |NextEngine(cfg, w, e, ev).workers|
    ensures
      var s, t := e.workers[k].part.sh.tracker, NextEngine(cfg, w, e, ev).workers[k].part.sh.tracker;
      t.hasBase && s.base <= t.base && (s.base < t.base <==> MovesPointer(e, ev, k))
  {
    if !ev.Assign? {
      ActionStep(cfg, w, e, ev);
      if ActionOf(e, ev).Some? {
        var a := ActionOf(e, ev).value;
        ActingMoves(cfg, e, NextEngine(cfg, w, e, ev), a.i, a.ev, k);
      }
    }
  }

  ghost predicate MovedBetween(es: seq<Engine>, evs: seq<EngineEvent>, j: nat, i: nat, k: nat)
    requires i <= |evs| && |es| == |evs| + 1
  {
    exists x :: j <= x < i && MovesPointer(es[x], evs[x], k)
  }

  lemma {:induction false} PointerMovesExactly(cfg: Config, w: World, es: seq<Engine>, evs: seq<EngineEvent>, j: nat,
                                               i: nat, k: nat)
    requires ValidConfig(cfg) && EngineRun(cfg, w, es, evs) && j <= i < |es|
    requires k < |es[j].workers| && es[j].workers[k].part.sh.tracker.hasBase
    ensures k < |es[i].workers|
    ensures
      var s, t := es[j].workers[k].part.sh.tracker, es[i].workers[k].part.sh.tracker;
      t.hasBase && s.base <= t.base && (s.base < t.base <==> MovedBetween(es, evs, j, i, k))
  {
    if j < i {
      PointerMovesExactly(cfg, w, es, evs, j, i - 1, k);
      EngineRunInv(cfg, w, es, evs, i - 1);
      assert EngineStep(cfg, w, es, evs, i - 1);
      EngineMoves(cfg, w, es[i - 1], evs[i - 1], k);
      assert MovedBetween(es, evs, j, i, k)
        <==> MovedBetween(es, evs, j, i - 1, k) || MovesPointer(es[i - 1], evs[i - 1], k);
    }
  }

  // ---------------------------------------------------------------- marking a commit

  /** The value v of worker k goes into the commit that the committer collects at j. */
  predicate CollectsAt(es: seq<Engine>, evs: seq<EngineEvent>, j: nat, tp: TopicPartition, k: nat, v: Offset)
    requires j < |evs| && |es| == |evs| + 1
  {
    && evs[j] == Collect(tp) && es[j].committer.Collecting?
    && tp in es[j].current && es[j].current[tp] == k && k < |es[j].workers|
    && Collects(es[j].committer.advanceOnly, es[j].workers[k].part.sh.tracker)
    && es[j].workers[k].part.sh.tracker.base == v
  }

  /** Since j nothing belonged to another commit, and the partition was neither collected nor marked again. */
  predicate SameCommit(evs: seq<EngineEvent>, j: nat, i: nat, tp: TopicPartition)
    requires i <= |evs|
  {
    forall x :: j < x < i ==> !evs[x].StartCommit? && !evs[x].Crash? && evs[x] != Collect(tp) && evs[x] != Mark(tp)
  }

  /** The commit under way has a value for the partition, or has still to mark it. */
  predicate InCommit(c: Committer, tp: TopicPartition) {
    || ((c.Collecting? || c.Sending?) && tp in c.acc)
    || (c.MarkingDone? && tp in c.left)
  }

  /** A partition is collected at most once per commit. */
  predicate CollectsOnce(c: Committer) {
    c.Collecting? ==> c.acc.Keys !! c.left
  }

  /** Events of the committer, and a crash. */
  predicate OfCommitter(ev: EngineEvent) {
    ev.StartCommit? || ev.Collect? || ev.EndCollect? || ev.Send? || ev.Mark? || ev.Crash?
  }

  lemma CommitterKept(cfg: Config, w: World, e: Engine, ev: EngineEvent)
    requires EngineGuard(cfg, w, e, ev) && !OfCommitter(ev)
    ensures NextEngine(cfg, w, e, ev).committer == e.committer
  {
    match ev
    case Route(_, _) =>
    case Inner(_, _) =>
    case BeginDrain =>
    case EndDrain =>
    case FinalCommit(_) =>
    case _ =>
  }

  lemma CollectsOnceStep(cfg: Config, w: World, e: Engine, ev: EngineEvent)
    requires CollectsOnce(e.committer) && EngineGuard(cfg, w, e, ev)
    ensures CollectsOnce(NextEngine(cfg, w, e, ev).committer)
  {
    if OfCommitter(ev) {
      match ev
      case Collect(_) =>
      case Mark(_) =>
      case _ =>
    } else {
      CommitterKept(cfg, w, e, ev);
    }
  }

  lemma {:induction false} CollectsOnceRun(cfg: Config, w: World, es: seq<Engine>, evs: seq<EngineEvent>, i: nat)
    requires EngineRun(cfg, w, es, evs) && i < |es|
    ensures CollectsOnce(es[i].committer)
  {
    if 0 < i {
      CollectsOnceRun(cfg, w, es, evs, i - 1);
      assert EngineStep(cfg, w, es, evs, i - 1);
      CollectsOnceStep(cfg, w, es[i - 1], evs[i - 1]);
    }
  }

  lemma MarkInCommit(cfg: Config, w: World, e: Engine, ev: EngineEvent, tp: TopicPartition)
    requires EngineGuard(cfg, w, e, ev) && ev.Mark? && InCommit(NextEngine(cfg, w, e, ev).committer, tp)
    ensures InCommit(e.committer, tp) && ev != Mark(tp)
  {
  }

  lemma InCommitStep(cfg: Config, w: World, e: Engine, ev: EngineEvent, tp: TopicPartition)
    requires CollectsOnce(e.committer) && EngineGuard(cfg, w, e, ev)
    requires InCommit(NextEngine(cfg, w, e, ev).committer, tp)
    ensures
      || (ev == Collect(tp) && Collects(e.committer.advanceOnly, e.workers[e.current[tp]].part.sh.tracker))
      || (InCommit(e.committer, tp) && !ev.StartCommit? && !ev.Crash? && ev != Collect(tp) && ev != Mark(tp))
  {
    if ev.Mark? {
      MarkInCommit(cfg, w, e, ev, tp);
    } else if OfCommitter(ev) {
      match ev
      case Collect(_) =>
      case _ =>
    } else {
      CommitterKept(cfg, w, e, ev);
    }
  }

  /** What a commit holds for a partition was collected for it, from the worker assigned then. */
  lemma {:induction false} CommitSource(cfg: Config, w: World, es: seq<Engine>, evs: seq<EngineEvent>, i: nat,
                                        tp: TopicPartition)
    returns (j: nat, from: nat, v: Offset)
    requires EngineRun(cfg, w, es, evs) && i < |es| && InCommit(es[i].committer, tp)
    ensures j < i && CollectsAt(es, evs, j, tp, from, v) && SameCommit(evs, j, i, tp)
  {
    if i == 0 {
      assert false;
    } else {
      CollectsOnceRun(cfg, w, es, evs, i - 1);
      assert EngineStep(cfg, w, es, evs, i - 1);
      InCommitStep(cfg, w, es[i - 1], evs[i - 1], tp);
      if evs[i - 1] == Collect(tp) {
        j, from := i - 1, es[i - 1].current[tp];
        v := es[i - 1].workers[from].part.sh.tracker.base;
      } else {
        j, from, v := CommitSource(cfg, w, es, evs, i - 1, tp);
      }
    }
  }

  // ---------------------------------------------------------------- the worker assigned meanwhile

  lemma CurrentStep(cfg: Config, w: World, e: Engine, ev: EngineEvent, tp: TopicPartition)
    requires EngineGuard(cfg, w, e, ev) && tp in NextEngine(cfg, w, e, ev).current
    ensures
      var f := NextEngine(cfg, w, e, ev);
      && |e.workers| <= |f.workers|
      && ((tp in e.current && f.current[tp] == e.current[tp]) || |e.workers| <= f.current[tp])
  {
    if !ev.Assign? {
      ActionStep(cfg, w, e, ev);
    }
  }

  lemma WorkersStay(cfg: Config, w: World, e: Engine, ev: EngineEvent)
    requires EngineGuard(cfg, w, e, ev)
    ensures |e.workers| <= |NextEngine(cfg, w, e, ev).workers|
    ensures forall k :: 0 <= k < |e.workers| ==> NextEngine(cfg, w, e, ev).workers[k].tp == e.workers[k].tp
  {
    if !ev.Assign? {
      ActionStep(cfg, w, e, ev);
    }
  }

  /** The worker assigned to a partition is still the same one, or one that came later. */
  lemma {:induction false} CurrentLater(cfg: Config, w: World, es: seq<Engine>, evs: seq<EngineEvent>, j: nat, i: nat,
                                        tp: TopicPartition)
    requires EngineRun(cfg, w, es, evs) && j <= i < |es|
    ensures |es[j].workers| <= |es[i].workers|
    ensures tp in es[i].current ==>
      (tp in es[j].current && es[i].current[tp] == es[j].current[tp]) || |es[j].workers| <= es[i].current[tp]
  {
    if j < i {
      CurrentLater(cfg, w, es, evs, j, i - 1, tp);
      assert EngineStep(cfg, w, es, evs, i - 1);
      WorkersStay(cfg, w, es[i - 1], evs[i - 1]);
      if tp in es[i].current {
        CurrentStep(cfg, w, es[i - 1], evs[i - 1], tp);
      }
    }
  }

  /** The baseline of a tracker that no commit was marked in is the first offset it saw. */
  predicate Unmarked(s: Shared) {
    if s.tracker.hasBase
    then s.h.delivered != [] && s.tracker.baselineSet && s.tracker.baseline == SeedOf(s)
    else !s.tracker.baselineSet
  }

  lemma UnmarkedStep(cfg: Config, p: Part, ev: PartEvent)
    requires AgentsOk(cfg, p.agents) && FateOk(p) && TrackerOk(p.sh, p.poll)
    requires PartGuard(cfg, p, ev) && ev != MarkCommit && Unmarked(p.sh)
    ensures Unmarked(NextPart(cfg, p, ev).sh)
  {
    match ev
    case AgentStep(i, e) => UnmarkedAgent(cfg, p, i, e);
    case PollStep(give) => UnmarkedRoute(cfg.mode, p.sh, p.closed, p.poll, give);
    case _ =>
  }

  lemma UnmarkedRoute(mode: Mode, s: Shared, closed: bool, poll: Poll, give: bool)
    requires TrackerOk(s, poll) && Unmarked(s)
    ensures Unmarked(RouteShared(mode, s, closed, poll, give))
  {
  }

  lemma UnmarkedAgent(cfg: Config, p: Part, i: nat, e: Event)
    requires AgentsOk(cfg, p.agents) && PartGuard(cfg, p, AgentStep(i, e)) && FateOk(p) && TrackerOk(p.sh, p.poll)
    requires Unmarked(p.sh)
    ensures Unmarked(Stepped(cfg, p, i, e).sh)
  {
    var x := Passing(p.agents[i].Pc(), e);
    CompletesAdmitted(cfg, p, i, e);
    if Completing(x) {
      CompleteTracks(p.sh.tracker, SeedOf(p.sh), DoneSet(p.sh.h.completed), x.value.m.offset);
    }
  }

  lemma {:induction false} UnmarkedRun(cfg: Config, w: World, es: seq<Engine>, evs: seq<EngineEvent>, b: nat, i: nat,
                                       k: nat)
    requires ValidConfig(cfg) && EngineRun(cfg, w, es, evs) && b <= i < |es| && |es[b].workers| <= k < |es[i].workers|
    requires forall x :: b <= x < i ==> evs[x] != Mark(es[i].workers[k].tp)
    ensures Unmarked(es[i].workers[k].part.sh)
  {
    assert EngineStep(cfg, w, es, evs, i - 1);
    EngineRunInv(cfg, w, es, evs, i - 1);
    WorkersStay(cfg, w, es[i - 1], evs[i - 1]);
    if k < |es[i - 1].workers| {
      UnmarkedRun(cfg, w, es, evs, b, i - 1, k);
      UnmarkedKept(cfg, w, es[i - 1], evs[i - 1], k);
    } else {
      NewUnmarked(cfg, w, es[i - 1], evs[i - 1], k);
    }
  }

  lemma NewUnmarked(cfg: Config, w: World, e: Engine, ev: EngineEvent, k: nat)
    requires EngineGuard(cfg, w, e, ev) && |e.workers| <= k < |NextEngine(cfg, w, e, ev).workers|
    ensures Unmarked(NextEngine(cfg, w, e, ev).workers[k].part.sh)
  {
    if !ev.Assign? {
      ActionStep(cfg, w, e, ev);
    }
  }

  lemma UnmarkedKept(cfg: Config, w: World, e: Engine, ev: EngineEvent, k: nat)
    requires PartsOk(cfg, e.workers) && CurrentOk(e) && EngineGuard(cfg, w, e, ev) && k < |e.workers|
    requires Unmarked(e.workers[k].part.sh) && ev != Mark(e.workers[k].tp)
    ensures k < |NextEngine(cfg, w, e, ev).workers| && Unmarked(NextEngine(cfg, w, e, ev).workers[k].part.sh)
  {
    if !ev.Assign? {
      ActionStep(cfg, w, e, ev);
      var a := ActionOf(e, ev);
      if a.Some? && a.value.i == k {
        assert PartAt(cfg, e.workers, k);
        UnmarkedStep(cfg, e.workers[k].part, a.value.ev);
      }
    }
  }

  // ---------------------------------------------------------------- what a mark forgets

  /**
   * The pointer of a worker is beyond what commits took from it: beyond v if the commit being marked
   * took v from it, and otherwise beyond the first offset it saw, since then none took anything.
   */
  predicate Uncommitted(s: Shared, taken: Option<Offset>) {
    && s.tracker.hasBase && s.h.delivered != []
    && (if taken.Some? then taken.value else SeedOf(s)) < s.tracker.base
  }

  /** The tracker as it would be if only the worker that gave a value were marked, and with that value. */
  function MarkedWith(t: Tracker, taken: Option<Offset>): Tracker {
    if taken.Some? then MarkCommittedAt(t, taken.value) else t
  }

  /**
   * What a successful commit makes a tracker forget, for every mark of every run, whoever holds the
   * partition by then. The commit took the value v from the worker assigned at j. Marking it makes the
   * tracker of the worker assigned now report no uncommitted progress. That is false exactly when, if
   * it is still the same worker, some event since j completed the offset at its pointer, and if it is
   * another one, its first offset has completed. Marked with the value sent, and only in the worker
   * that gave it, the trackers would report progress in just these cases.
   */
  lemma MarkForgetsExactly(cfg: Config, w: World, es: seq<Engine>, evs: seq<EngineEvent>, i: nat, tp: TopicPartition,
                           k: nat)
    returns (j: nat, from: nat, v: Offset)
    requires ValidConfig(cfg) && EngineRun(cfg, w, es, evs) && i < |evs|
    requires evs[i] == Mark(tp) && tp in es[i].current && es[i].current[tp] == k
    ensures j < i && CollectsAt(es, evs, j, tp, from, v) && SameCommit(evs, j, i, tp)
    ensures k < |es[i].workers| && k < |es[i + 1].workers|
    ensures !AdvancedSinceCommit(es[i + 1].workers[k].part.sh.tracker)
    ensures
      var s := es[i].workers[k].part.sh;
      var taken := if from == k then Some(v) else None;
      && (Uncommitted(s, taken) <==> if from == k then MovedBetween(es, evs, j, i, k) else FirstCompleted(s))
      && (Uncommitted(s, taken) <==> AdvancedSinceCommit(MarkedWith(s.tracker, taken)))
  {
    MarkedTracker(cfg, w, es, evs, i, tp, k);
    j, from, v := CommitSource(cfg, w, es, evs, i, tp);
    if from == k {
      CollectedMark(cfg, w, es, evs, j, i, tp, k, v);
    } else {
      LaterMark(cfg, w, es, evs, j, i, tp, from, k, v);
    }
  }

  lemma MarkedTracker(cfg: Config, w: World, es: seq<Engine>, evs: seq<EngineEvent>, i: nat, tp: TopicPartition, k: nat)
    requires ValidConfig(cfg) && EngineRun(cfg, w, es, evs) && i < |evs|
    requires evs[i] == Mark(tp) && tp in es[i].current && es[i].current[tp] == k
    ensures InCommit(es[i].committer, tp) && k < |es[i].workers| && k < |es[i + 1].workers|
    ensures !AdvancedSinceCommit(es[i + 1].workers[k].part.sh.tracker)
  {
    assert EngineStep(cfg, w, es, evs, i);
    EngineRunInv(cfg, w, es, evs, i);
    MarkStep(cfg, w, es[i], tp, k);
  }

  /** The worker that gave its pointer is still assigned. */
  lemma CollectedMark(cfg: Config, w: World, es: seq<Engine>, evs: seq<EngineEvent>, j: nat, i: nat,
                      tp: TopicPartition, k: nat, v: Offset)
    requires ValidConfig(cfg) && EngineRun(cfg, w, es, evs) && j < i < |evs| && CollectsAt(es, evs, j, tp, k, v)
    ensures k < |es[i].workers|
    ensures
      var s := es[i].workers[k].part.sh;
      && (Uncommitted(s, Some(v)) <==> MovedBetween(es, evs, j, i, k))
      && (Uncommitted(s, Some(v)) <==> AdvancedSinceCommit(MarkCommittedAt(s.tracker, v)))
  {
    assert EngineStep(cfg, w, es, evs, j);
    PointerMovesExactly(cfg, w, es, evs, j, i, k);
    EngineRunInv(cfg, w, es, evs, i);
    TrackerOf(cfg, es[i].workers, k);
    assert !MovesPointer(es[j], evs[j], k);
  }

  /** Another worker was assigned since. */
  lemma LaterMark(cfg: Config, w: World, es: seq<Engine>, evs: seq<EngineEvent>, j: nat, i: nat,
                  tp: TopicPartition, from: nat, k: nat, v: Offset)
    requires ValidConfig(cfg) && EngineRun(cfg, w, es, evs) && j < i < |evs| && CollectsAt(es, evs, j, tp, from, v)
    requires SameCommit(evs, j, i, tp) && tp in es[i].current && es[i].current[tp] == k && k != from
    ensures k < |es[i].workers|
    ensures
      var s := es[i].workers[k].part.sh;
      && (Uncommitted(s, None) <==> FirstCompleted(s))
      && (Uncommitted(s, None) <==> AdvancedSinceCommit(s.tracker))
  {
    CurrentLater(cfg, w, es, evs, j, i, tp);
    EngineRunInv(cfg, w, es, evs, i);
    UnmarkedSince(cfg, w, es, evs, j, i, tp, k);
    TrackerOf(cfg, es[i].workers, k);
    FirstMoves(es[i].workers[k].part.sh, es[i].workers[k].part.poll);
  }

  /** The first offset the worker saw has completed. */
  predicate FirstCompleted(s: Shared) {
    s.tracker.hasBase && s.h.delivered != [] && SeedOf(s) in s.h.completed
  }

  lemma FirstMoves(s: Shared, poll: Poll)
    requires TrackerOk(s, poll) && Unmarked(s)
    ensures Uncommitted(s, None) <==> FirstCompleted(s)
    ensures Uncommitted(s, None) <==> AdvancedSinceCommit(s.tracker)
  {
    if s.tracker.hasBase {
      assert SeedOf(s) in DoneSet(s.h.completed) <==> SeedOf(s) in s.h.completed;
    }
  }

  lemma UnmarkedSince(cfg: Config, w: World, es: seq<Engine>, evs: seq<EngineEvent>, j: nat, i: nat,
                      tp: TopicPartition, k: nat)
    requires ValidConfig(cfg) && EngineRun(cfg, w, es, evs) && j < i < |evs| && evs[j] == Collect(tp)
    requires SameCommit(evs, j, i, tp) && CurrentOk(es[i]) && tp in es[i].current && es[i].current[tp] == k
    requires |es[j].workers| <= k
    ensures k < |es[i].workers| && Unmarked(es[i].workers[k].part.sh)
  {
    assert es[i].workers[k].tp == tp;
    forall x | j <= x < i ensures evs[x] != Mark(tp) {
    }
    UnmarkedRun(cfg, w, es, evs, j, i, k);
  }

  /** What a mark forgot stays forgotten: commit-on-advance mode asks for it only once the pointer moves again. */
  lemma {:induction false} ForgottenStays(cfg: Config, w: World, es: seq<Engine>, evs: seq<EngineEvent>, j: nat,
                                          i: nat, k: nat)
    requires ValidConfig(cfg) && EngineRun(cfg, w, es, evs) && j <= i < |es| && k < |es[j].workers|
    requires es[j].workers[k].part.sh.tracker.hasBase && !AdvancedSinceCommit(es[j].workers[k].part.sh.tracker)
    requires !MovedBetween(es, evs, j, i, k)
    ensures k < |es[i].workers| && !Collects(true, es[i].workers[k].part.sh.tracker)
    ensures es[i].workers[k].part.sh.tracker.base == es[j].workers[k].part.sh.tracker.base
  {
    if j < i {
      assert !MovedBetween(es, evs, j, i - 1, k);
      ForgottenStays(cfg, w, es, evs, j, i - 1, k);
      PointerMovesExactly(cfg, w, es, evs, j, i - 1, k);
      ForgottenNext(cfg, w, es, evs, i - 1, k);
    }
  }

  lemma ForgottenNext(cfg: Config, w: World, es: seq<Engine>, evs: seq<EngineEvent>, i: nat, k: nat)
    requires ValidConfig(cfg) && EngineRun(cfg, w, es, evs) && i < |evs| && k < |es[i].workers|
    requires es[i].workers[k].part.sh.tracker.hasBase && !AdvancedSinceCommit(es[i].workers[k].part.sh.tracker)
    requires !MovesPointer(es[i], evs[i], k)
    ensures k < |es[i + 1].workers| && !Collects(true, es[i + 1].workers[k].part.sh.tracker)
    ensures es[i + 1].workers[k].part.sh.tracker.base == es[i].workers[k].part.sh.tracker.base
  {
    EngineRunInv(cfg, w, es, evs, i);
    assert EngineStep(cfg, w, es, evs, i);
    EngineMoves(cfg, w, es[i], evs[i], k);
    BaselineStep(cfg, w, es[i], evs[i], k);
  }

  /** The baseline of a tracker with a pointer only ever changes to the pointer. */
  lemma BaselineStep(cfg: Config, w: World, e: Engine, ev: EngineEvent, k: nat)
    requires EngineGuard(cfg, w, e, ev) && k < |e.workers| && e.workers[k].part.sh.tracker.hasBase
    ensures k < |NextEngine(cfg, w, e, ev).workers|
    ensures
      var s, t := e.workers[k].part.sh.tracker, NextEngine(cfg, w, e, ev).workers[k].part.sh.tracker;
      t.base == s.base ==> !AdvancedSinceCommit(s) ==> !AdvancedSinceCommit(t)
  {
    if !ev.Assign? {
      ActionStep(cfg, w, e, ev);
      var a := ActionOf(e, ev);
      if a.Some? && a.value.i == k {
        PartBaseline(cfg, e.workers[k].part, a.value.ev);
      }
    }
  }

  lemma PartBaseline(cfg: Config, p: Part, ev: PartEvent)
    requires PartGuard(cfg, p, ev) && p.sh.tracker.hasBase
    ensures
      var t := NextPart(cfg, p, ev).sh.tracker;
      (t.baseline == p.sh.tracker.baseline && t.baselineSet == p.sh.tracker.baselineSet) || t.baseline == t.base
  {
    match ev
    case AgentStep(i, e) =>
      var x := Passing(p.agents[i].Pc(), e);
      if x.Some? && x.value.stage == Complete {
        AdvanceBaseline(p.sh.tracker.(done := p.sh.tracker.done + {x.value.m.offset}));
      }
    case _ =>
  }

  lemma {:induction false} AdvanceBaseline(t: Tracker)
    ensures TrackerSpec.Advance(t).baseline == t.baseline && TrackerSpec.Advance(t).baselineSet == t.baselineSet
    decreases |t.done|
  {
    if t.base in t.done {
      AdvanceBaseline(t.(done := t.done - {t.base}, base := t.base + 1));
    }
  }

  lemma MarkStep(cfg: Config, w: World, e: Engine, tp: TopicPartition, k: nat)
    requires EngineGuard(cfg, w, e, Mark(tp)) && tp in e.current && e.current[tp] == k && k < |e.workers|
    ensures
      var f := NextEngine(cfg, w, e, Mark(tp));
      |f.workers| == |e.workers| && f.workers[k].part.sh.tracker == MarkCommitted(e.workers[k].part.sh.tracker)
  {
  }
}
