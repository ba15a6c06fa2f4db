/** What every reachable state of the consumer satisfies. */
module EngineInvariant {
  import opened Types
  import opened LaneMachine
  import opened PartitionMachine
  import opened PartitionHistory
  import opened PartitionRuns
  import opened EngineMachine

  // ---------------------------------------------------------------- completed records

  /** The tracker of some worker took this offset in as completed. */
  ghost predicate CompletedBySome(workers: seq<Worker>, tp: TopicPartition, o: Offset) {
    exists i :: 0 <= i < |workers| && workers[i].tp == tp && o in workers[i].part.sh.h.completed
  }

  /** Every record of the partition from the start position up to v was completed. */
  ghost predicate Covered(w: World, workers: seq<Worker>, tp: TopicPartition, v: Offset) {
    forall o :: w.start(tp) <= o < v && w.isRecord(tp, o) ==> CompletedBySome(workers, tp, o)
  }

  /** A worker starts where everything before was completed, and skips no record before its seed. */
  ghost predicate StartCovered(w: World, workers: seq<Worker>, k: Worker) {
    && TrackerOk(k.part.sh, k.part.poll)
    && Covered(w, workers, k.tp, k.from)
    && (k.part.sh.h.delivered != [] ==> forall o :: k.from <= o < SeedOf(k.part.sh) ==> !w.isRecord(k.tp, o))
  }

  /** Workers only come, and what they completed stays completed. */
  ghost predicate Grows(before: seq<Worker>, after: seq<Worker>) {
    && |before| <= |after|
    && forall i :: 0 <= i < |before| ==>
         after[i].tp == before[i].tp && before[i].part.sh.h.completed <= after[i].part.sh.h.completed
  }

  lemma CoveredGrows(w: World, before: seq<Worker>, after: seq<Worker>, tp: TopicPartition, v: Offset)
    requires Covered(w, before, tp, v) && Grows(before, after)
    ensures Covered(w, after, tp, v)
  {
    forall o | w.start(tp) <= o < v && w.isRecord(tp, o) ensures CompletedBySome(after, tp, o) {
      assert CompletedBySome(before, tp, o);
      var i :| 0 <= i < |before| && before[i].tp == tp && o in before[i].part.sh.h.completed;
      assert after[i].tp == tp && o in after[i].part.sh.h.completed;
    }
  }

  /** The pointer of a worker covers everything before it. */
  lemma PointerCovered(w: World, workers: seq<Worker>, i: nat)
    requires i < |workers| && StartCovered(w, workers, workers[i]) && workers[i].part.sh.tracker.hasBase
    ensures Covered(w, workers, workers[i].tp, workers[i].part.sh.tracker.base)
  {
    var k := workers[i];
    var s := k.part.sh;
    forall o | w.start(k.tp) <= o < s.tracker.base && w.isRecord(k.tp, o) ensures CompletedBySome(workers, k.tp, o) {
      if SeedOf(s) <= o {
        assert o in DoneSet(s.h.completed);
      } else {
        assert o < k.from;
      }
    }
  }

  // ---------------------------------------------------------------- steps inside workers

  lemma EffectHistory(s: Shared, x: Option<Passage>)
    ensures AgentEffect(s, x).h.delivered == s.h.delivered
    ensures s.h.completed <= AgentEffect(s, x).h.completed
  {
  }

  lemma PartHistory(cfg: Config, p: Part, ev: PartEvent)
    requires PartGuard(cfg, p, ev)
    ensures NextPart(cfg, p, ev).sh.h.delivered == if ev.Deliver? then p.sh.h.delivered + [ev.m] else p.sh.h.delivered
    ensures p.sh.h.completed <= NextPart(cfg, p, ev).sh.h.completed
  {
    if ev.AgentStep? {
      EffectHistory(p.sh, Passing(p.agents[ev.i].Pc(), ev.e));
    }
  }

  ghost predicate PartAt(cfg: Config, workers: seq<Worker>, i: int) {
    0 <= i < |workers| ==> PartInv(cfg, workers[i].part)
  }

  /** Every worker of all times satisfies its invariant. */
  ghost predicate PartsOk(cfg: Config, workers: seq<Worker>) {
    forall i :: PartAt(cfg, workers, i)
  }

  ghost predicate WorkersOk(w: World, workers: seq<Worker>) {
    forall i :: 0 <= i < |workers| ==> StartCovered(w, workers, workers[i])
  }

  lemma PartsStep(cfg: Config, e: Engine, i: nat, pe: PartEvent)
    requires PartsOk(cfg, e.workers) && i < |e.workers| && PartGuard(cfg, e.workers[i].part, pe)
    ensures PartsOk(cfg, Acting(cfg, e, i, pe).workers)
  {
    var q := NextPart(cfg, e.workers[i].part, pe);
    assert PartAt(cfg, e.workers, i);
    PartInvStep(cfg, e.workers[i].part, pe);
    PartReplaced(cfg, e.workers, i, q);
  }

  lemma PartReplaced(cfg: Config, workers: seq<Worker>, i: nat, q: Part)
    requires PartsOk(cfg, workers) && i < |workers| && PartInv(cfg, q)
    ensures PartsOk(cfg, workers[i := workers[i].(part := q)])
  {
    var after := workers[i := workers[i].(part := q)];
    forall j ensures PartAt(cfg, after, j) {
      assert PartAt(cfg, workers, j);
    }
  }

  lemma TrackerOf(cfg: Config, workers: seq<Worker>, i: nat)
    requires PartsOk(cfg, workers) && i < |workers|
    ensures TrackerOk(workers[i].part.sh, workers[i].part.poll)
  {
    assert PartAt(cfg, workers, i);
  }

  lemma WorkersStep(cfg: Config, w: World, e: Engine, i: nat, pe: PartEvent)
    requires WorkersOk(w, e.workers) && i < |e.workers| && PartGuard(cfg, e.workers[i].part, pe)
    requires pe.Deliver? ==> Polls(w, e.workers[i], pe.m)
    requires PartsOk(cfg, Acting(cfg, e, i, pe).workers)
    ensures WorkersOk(w, Acting(cfg, e, i, pe).workers)
    ensures Grows(e.workers, Acting(cfg, e, i, pe).workers)
  {
    PartHistory(cfg, e.workers[i].part, pe);
    TrackerOf(cfg, Acting(cfg, e, i, pe).workers, i);
    WorkerReplaced(w, e.workers, i, NextPart(cfg, e.workers[i].part, pe), pe);
  }

  lemma WorkerReplaced(w: World, workers: seq<Worker>, i: nat, q: Part, pe: PartEvent)
    requires WorkersOk(w, workers) && i < |workers| && TrackerOk(q.sh, q.poll)
    requires pe.Deliver? ==> Polls(w, workers[i], pe.m)
    requires
      var s := workers[i].part.sh;
      && q.sh.h.delivered == (if pe.Deliver? then s.h.delivered + [pe.m] else s.h.delivered)
      && s.h.completed <= q.sh.h.completed
    ensures
      var after := workers[i := workers[i].(part := q)];
      WorkersOk(w, after) && Grows(workers, after)
  {
    var after := workers[i := workers[i].(part := q)];
    assert Grows(workers, after);
    forall j | 0 <= j < |after| ensures StartCovered(w, after, after[j]) {
      assert StartCovered(w, workers, workers[j]);
      CoveredGrows(w, workers, after, after[j].tp, after[j].from);
      if j == i {
        SeedKept(w, workers[i], q, pe);
      }
    }
  }

  lemma SeedKept(w: World, k: Worker, q: Part, pe: PartEvent)
    requires q.sh.h.delivered == if pe.Deliver? then k.part.sh.h.delivered + [pe.m] else k.part.sh.h.delivered
    requires pe.Deliver? ==> Polls(w, k, pe.m)
    requires k.part.sh.h.delivered != [] ==> forall o :: k.from <= o < SeedOf(k.part.sh) ==> !w.isRecord(k.tp, o)
    ensures q.sh.h.delivered != [] ==> forall o :: k.from <= o < SeedOf(q.sh) ==> !w.isRecord(k.tp, o)
  {
    if k.part.sh.h.delivered == [] && q.sh.h.delivered != [] {
      assert SeedOf(q.sh) == pe.m.offset;
    } else if q.sh.h.delivered != [] {
      assert SeedOf(q.sh) == SeedOf(k.part.sh);
    }
  }

  // ---------------------------------------------------------------- values in commits

  predicate In(c: Commits, tp: TopicPartition, v: Offset) {
    tp in c && c[tp] == v
  }

  predicate OnWire(wire: seq<Commits>, tp: TopicPartition, v: Offset) {
    exists i :: 0 <= i < |wire| && In(wire[i], tp, v)
  }

  /** The value is being collected, sent, under way, or at the broker. */
  predicate InPlay(e: Engine, tp: TopicPartition, v: Offset) {
    || In(e.committed, tp, v)
    || OnWire(e.wire, tp, v)
    || (e.main.Draining? && In(e.main.acc, tp, v))
    || ((e.committer.Collecting? || e.committer.Sending?) && In(e.committer.acc, tp, v))
  }

  /** It is the pointer of a worker of the partition. */
  ghost predicate Pointer(e: Engine, tp: TopicPartition, v: Offset) {
    exists k :: 0 <= k < |e.workers| && HoldsPointer(e.workers[k], tp, v)
  }

  predicate HoldsPointer(k: Worker, tp: TopicPartition, v: Offset) {
    k.tp == tp && k.part.sh.tracker.hasBase && k.part.sh.tracker.base == v
  }

  predicate CurrentOk(e: Engine) {
    forall tp :: tp in e.current ==> e.current[tp] < |e.workers| && e.workers[e.current[tp]].tp == tp
  }

  lemma WireMore(wire: seq<Commits>, c: Commits, tp: TopicPartition, v: Offset)
    requires OnWire(wire + [c], tp, v)
    ensures OnWire(wire, tp, v) || In(c, tp, v)
  {
    var i :| 0 <= i < |wire + [c]| && In((wire + [c])[i], tp, v);
    assert i < |wire| ==> (wire + [c])[i] == wire[i];
  }

  /** Every value comes from a pointer: no step puts any other into a commit. */
  lemma InPlayStep(cfg: Config, w: World, e: Engine, ev: EngineEvent, tp: TopicPartition, v: Offset)
    requires CurrentOk(e) && EngineGuard(cfg, w, e, ev) && InPlay(NextEngine(cfg, w, e, ev), tp, v)
    ensures InPlay(e, tp, v) || Pointer(e, tp, v)
  {
    var f := NextEngine(cfg, w, e, ev);
    match ev
    case EndDrain => DrainInPlay(cfg, w, e, tp, v);
    case Collect(from) => CollectInPlay(cfg, w, e, from, tp, v);
    case FinalCommit(ok) => if OnWire(f.wire, tp, v) && f.wire != e.wire { WireMore(e.wire, e.main.acc, tp, v); }
    case Send(ok) => if OnWire(f.wire, tp, v) { WireMore(e.wire, e.committer.acc, tp, v); }
    case Land(k, on) => if In(f.committed, tp, v) && on == tp { assert In(e.wire[k], tp, v); }
    case Assign(_, _) =>
    case Route(_, _) =>
    case Inner(_, _) =>
    case Revoke(_, _) =>
    case BeginDrain =>
    case CheckFatal(_) =>
    case Mark(_) =>
    case Crash =>
    case _ =>
  }

  lemma DrainInPlay(cfg: Config, w: World, e: Engine, tp: TopicPartition, v: Offset)
    requires EngineGuard(cfg, w, e, EndDrain) && InPlay(NextEngine(cfg, w, e, EndDrain), tp, v)
    ensures InPlay(e, tp, v) || Pointer(e, tp, v)
  {
    var k := e.workers[e.main.left[0]];
    if !InPlay(e, tp, v) {
      assert In(WithPointer(e.main.acc, k), tp, v);
      assert HoldsPointer(k, tp, v);
    }
  }

  lemma CollectInPlay(cfg: Config, w: World, e: Engine, from: TopicPartition, tp: TopicPartition, v: Offset)
    requires CurrentOk(e) && EngineGuard(cfg, w, e, Collect(from))
    requires InPlay(NextEngine(cfg, w, e, Collect(from)), tp, v)
    ensures InPlay(e, tp, v) || Pointer(e, tp, v)
  {
    var k := e.workers[e.current[from]];
    if !InPlay(e, tp, v) {
      assert tp == from && HoldsPointer(k, tp, v);
    }
  }

  // ---------------------------------------------------------------- the invariant

  ghost predicate CommitsOk(w: World, e: Engine) {
    forall tp, v :: InPlay(e, tp, v) ==> Covered(w, e.workers, tp, v)
  }

  ghost predicate EngineInv(cfg: Config, w: World, e: Engine) {
    PartsOk(cfg, e.workers) && WorkersOk(w, e.workers) && CommitsOk(w, e) && CurrentOk(e)
  }

  lemma CommitsStep(cfg: Config, w: World, e: Engine, ev: EngineEvent)
    requires CommitsOk(w, e) && WorkersOk(w, e.workers) && CurrentOk(e) && EngineGuard(cfg, w, e, ev)
    requires Grows(e.workers, NextEngine(cfg, w, e, ev).workers)
    ensures CommitsOk(w, NextEngine(cfg, w, e, ev))
  {
    var f := NextEngine(cfg, w, e, ev);
    forall tp, v | InPlay(f, tp, v) ensures Covered(w, f.workers, tp, v) {
      InPlayStep(cfg, w, e, ev, tp, v);
      if !InPlay(e, tp, v) {
        var k :| 0 <= k < |e.workers| && HoldsPointer(e.workers[k], tp, v);
        PointerCovered(w, e.workers, k);
      }
      CoveredGrows(w, e.workers, f.workers, tp, v);
    }
  }

  lemma CurrentKept(e: Engine, f: Engine)
    requires CurrentOk(e) && Grows(e.workers, f.workers) && f.current == e.current
    ensures CurrentOk(f)
  {
  }

  lemma AssignKeeps(cfg: Config, w: World, e: Engine, ev: EngineEvent)
    requires ValidConfig(cfg) && EngineInv(cfg, w, e) && EngineGuard(cfg, w, e, ev) && ev.Assign?
    ensures EngineInv(cfg, w, NextEngine(cfg, w, e, ev))
  {
    var k := Worker(ev.tp, Position(w, e, ev.tp), NewPart(cfg, ev.now));
    assert ev.tp in e.committed ==> InPlay(e, ev.tp, e.committed[ev.tp]);
    assert Covered(w, e.workers, ev.tp, k.from);
    AssignWorkers(cfg, w, e.workers, k, ev.now);
    CommitsStep(cfg, w, e, ev);
  }

  lemma AssignWorkers(cfg: Config, w: World, workers: seq<Worker>, k: Worker, now: int)
    requires ValidConfig(cfg) && PartsOk(cfg, workers) && WorkersOk(w, workers) && k.part == NewPart(cfg, now)
    requires Covered(w, workers, k.tp, k.from)
    ensures PartsOk(cfg, workers + [k]) && WorkersOk(w, workers + [k]) && Grows(workers, workers + [k])
  {
    PartAdded(cfg, workers, k, now);
    TrackerOf(cfg, workers + [k], |workers|);
    WorkerAdded(w, workers, k);
  }

  lemma PartAdded(cfg: Config, workers: seq<Worker>, k: Worker, now: int)
    requires ValidConfig(cfg) && PartsOk(cfg, workers) && k.part == NewPart(cfg, now)
    ensures PartsOk(cfg, workers + [k])
  {
    forall j ensures PartAt(cfg, workers + [k], j) {
      if j == |workers| {
        NewPartAt(cfg, workers, k, now);
      } else {
        assert PartAt(cfg, workers, j);
      }
    }
  }

  lemma NewPartAt(cfg: Config, workers: seq<Worker>, k: Worker, now: int)
    requires ValidConfig(cfg) && k.part == NewPart(cfg, now)
    ensures PartAt(cfg, workers + [k], |workers|)
  {
    NewPartInv(cfg, now);
  }

  lemma WorkerAdded(w: World, workers: seq<Worker>, k: Worker)
    requires WorkersOk(w, workers) && Covered(w, workers, k.tp, k.from)
    requires TrackerOk(k.part.sh, k.part.poll) && k.part.sh.h.delivered == []
    ensures WorkersOk(w, workers + [k]) && Grows(workers, workers + [k])
  {
    var after := workers + [k];
    forall j | 0 <= j < |after| ensures StartCovered(w, after, after[j]) {
      if j < |workers| {
        assert StartCovered(w, workers, workers[j]);
      }
      CoveredGrows(w, workers, after, after[j].tp, after[j].from);
    }
  }

  /** What an event does inside a worker. */
  datatype Action = Action(i: nat, ev: PartEvent)

  function ActionOf(e: Engine, ev: EngineEvent): Option<Action> {
    match ev
    case Route(tp, m) => if Assigned(e, tp) then Some(Action(e.current[tp], Deliver(m))) else None
    case Inner(i, pe) => Some(Action(i, pe))
    case BeginDrain => if AtHead(e) then Some(Action(e.main.left[0], StartDrain)) else None
    case Mark(tp) => if Assigned(e, tp) then Some(Action(e.current[tp], MarkCommit)) else None
    case _ => None
  }

  /** No worker but that one changes, and none is assigned. */
  lemma ActionStep(cfg: Config, w: World, e: Engine, ev: EngineEvent)
    requires EngineGuard(cfg, w, e, ev) && !ev.Assign?
    ensures
      var f := NextEngine(cfg, w, e, ev);
      match ActionOf(e, ev)
      case Some(Action(i, pe)) =>
        && i < |e.workers| && PartGuard(cfg, e.workers[i].part, pe) && (pe.Deliver? ==> Polls(w, e.workers[i], pe.m))
        && f.workers == Acting(cfg, e, i, pe).workers && f.current == e.current
      case None =>
        && f.workers == e.workers
        && forall tp :: tp in f.current ==> tp in e.current && f.current[tp] == e.current[tp]
  {
    match ev
    case Route(_, _) =>
    case Inner(_, _) =>
    case BeginDrain =>
    case Mark(_) =>
    case Revoke(_, _) =>
    case EndDrain =>
    case FinalCommit(_) =>
    case CheckFatal(_) =>
    case Collect(_) =>
    case Send(_) =>
    case Land(_, _) =>
    case Crash =>
    case _ =>
  }

  lemma ActingKeeps(cfg: Config, w: World, e: Engine, ev: EngineEvent)
    requires EngineInv(cfg, w, e) && EngineGuard(cfg, w, e, ev) && !ev.Assign? && ActionOf(e, ev).Some?
    ensures EngineInv(cfg, w, NextEngine(cfg, w, e, ev))
  {
    var a := ActionOf(e, ev).value;
    ActionStep(cfg, w, e, ev);
    PartsStep(cfg, e, a.i, a.ev);
    WorkersStep(cfg, w, e, a.i, a.ev);
    CommitsStep(cfg, w, e, ev);
    CurrentKept(e, NextEngine(cfg, w, e, ev));
  }

  lemma StillKeeps(cfg: Config, w: World, e: Engine, ev: EngineEvent)
    requires EngineInv(cfg, w, e) && EngineGuard(cfg, w, e, ev) && !ev.Assign? && ActionOf(e, ev).None?
    ensures EngineInv(cfg, w, NextEngine(cfg, w, e, ev))
  {
    ActionStep(cfg, w, e, ev);
    CommitsStep(cfg, w, e, ev);
  }

  lemma EngineInvStep(cfg: Config, w: World, e: Engine, ev: EngineEvent)
    requires ValidConfig(cfg) && EngineInv(cfg, w, e) && EngineGuard(cfg, w, e, ev)
    ensures EngineInv(cfg, w, NextEngine(cfg, w, e, ev))
  {
    if ev.Assign? {
      AssignKeeps(cfg, w, e, ev);
    } else if ActionOf(e, ev).Some? {
      ActingKeeps(cfg, w, e, ev);
    } else {
      StillKeeps(cfg, w, e, ev);
    }
  }

  lemma {:induction false} EngineRunInv(cfg: Config, w: World, es: seq<Engine>, evs: seq<EngineEvent>, i: nat)
    requires ValidConfig(cfg) && EngineRun(cfg, w, es, evs) && i < |es|
    ensures EngineInv(cfg, w, es[i])
  {
    if 0 < i {
      EngineRunInv(cfg, w, es, evs, i - 1);
      assert EngineStep(cfg, w, es, evs, i - 1);
      EngineInvStep(cfg, w, es[i - 1], evs[i - 1]);
    }
  }
}
