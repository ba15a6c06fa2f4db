/**
 * The consumer as a state machine over whole runs: the poll goroutine with its rebalance callbacks,
 * every worker ever assigned, the committer, the broker, and crashes.
 */
module EngineMachine {
  import opened Types
  import opened TrackerSpec
  import opened LaneMachine
  import opened PartitionMachine

  /** The records of every partition, and where consumption of each one started. */
  datatype World = World(start: TopicPartition -> Offset, isRecord: (TopicPartition, Offset) -> bool)

  type Commits = map<TopicPartition, Offset>

  /** A worker, and the position its ownership period started from. */
  datatype Worker = Worker(tp: TopicPartition, from: Offset, part: Part)

  /** The poll goroutine. Rebalance callbacks run inside Poll, and what it returned is routed after them. */
  datatype MainPc =
    | Looping                 // at the top of the run loop
    | Polling
    | Routing(i: nat)
    | Draining(shutdown: bool, err: bool, left: seq<nat>, active: bool, acc: Commits)
    | CheckingFatal(err: bool)
    | Returned(err: bool)

  /** The committer: it reads one pointer after the other, sends them, and marks what it sent. */
  datatype Committer =
    | Resting
    | Collecting(advanceOnly: bool, left: set<TopicPartition>, acc: Commits)
    | Sending(acc: Commits)
    | MarkingDone(left: set<TopicPartition>)

  /**
   * Workers holds all workers of all times, current those assigned now. Wire holds every commit ever
   * sent: each of its entries can reach the broker at any later time, or never. Workers below epoch
   * died with their process. EarlyFatal and revokeFailed are history: a fatal error was reported
   * before the check, and the final commit of some revoke failed.
   */
  datatype Engine = Engine(
    workers: seq<Worker>,
    current: map<TopicPartition, nat>,
    main: MainPc,
    committer: Committer,
    wire: seq<Commits>,
    committed: Commits,
    fatalCh: bool,
    rebalanceErr: bool,
    earlyFatal: bool,
    revokeFailed: bool,
    epoch: nat)

  const NEW_ENGINE := Engine([], map[], Looping, Resting, [], map[], false, false, false, false, 0)

  datatype EngineEvent =
    | BeginPoll
    | EndPoll
    | Assign(tp: TopicPartition, now: int)
    | Route(tp: TopicPartition, m: Message)
    | RouteDone
    | Inner(i: nat, ev: PartEvent)                           // a step inside worker i
    | Revoke(tps: set<TopicPartition>, order: seq<nat>)
    | BeginDrain
    | EndDrain                                               // the drained worker's pointer is read
    | FinalCommit(ok: bool)
    | TakeRebalanceErr                                       // the run loop finds a failed revoke commit
    | TakeFatal
    | StopSeen                                               // the context ended, or Stop was called
    | PollFails(err: bool)                                   // Poll ends the run loop
    | CheckFatal(order: seq<nat>)
    | StartCommit(advanceOnly: bool)
    | Collect(tp: TopicPartition)
    | EndCollect
    | Send(ok: bool)
    | Mark(tp: TopicPartition)
    | Land(k: nat, tp: TopicPartition)                       // a commit sent earlier reaches the broker
    | Crash

  /** Where polling of a partition resumes. */
  function Position(w: World, e: Engine, tp: TopicPartition): Offset {
    if tp in e.committed then e.committed[tp] else w.start(tp)
  }

  /** Polling starts at the position of the ownership period and first finds the first record there. */
  ghost predicate Polls(w: World, k: Worker, m: Message) {
    && k.from <= m.offset
    && (k.part.sh.h.delivered == [] ==> forall o :: k.from <= o < m.offset ==> !w.isRecord(k.tp, o))
  }

  /** Steps that worker i takes by itself, or that the poll goroutine takes inside it. */
  predicate Inside(e: Engine, i: nat, ev: PartEvent) {
    match ev
    case AgentStep(_, _) => true
    case Tick(_) => true
    case CancelContext => true
    case PollStep(_) =>
      || e.main == Routing(i)
      || (e.main.Draining? && e.main.active && e.main.left != [] && e.main.left[0] == i)
    case _ => false
  }

  /** The consumer's mutex is free: the committer is not collecting or marking under it. */
  predicate MutexFree(e: Engine) {
    !e.committer.Collecting? && !e.committer.MarkingDone?
  }

  predicate Assigned(e: Engine, tp: TopicPartition) {
    tp in e.current && e.current[tp] < |e.workers|
  }

  predicate AtHead(e: Engine) {
    e.main.Draining? && e.main.left != [] && e.main.left[0] < |e.workers|
  }

  /** order lists the workers now assigned to these partitions, each once. */
  ghost predicate Victims(e: Engine, tps: set<TopicPartition>, order: seq<nat>) {
    && (forall tp :: tp in tps && tp in e.current ==> e.current[tp] in order)
    && (forall i :: i in order ==> i < |e.workers| && exists tp :: tp in tps && tp in e.current && e.current[tp] == i)
    && (forall a, b :: 0 <= a < b < |order| ==> order[a] != order[b])
  }

  ghost predicate EngineGuard(cfg: Config, w: World, e: Engine, ev: EngineEvent) {
    match ev
    case BeginPoll => e.main.Looping? && !e.rebalanceErr && !e.fatalCh
    case EndPoll => e.main.Polling?
    case Assign(tp, _) => e.main.Polling? && MutexFree(e) && tp !in e.current
    case Route(tp, m) =>
      && e.main.Polling? && Assigned(e, tp)
      && PartGuard(cfg, e.workers[e.current[tp]].part, Deliver(m))
      && Polls(w, e.workers[e.current[tp]], m)
    case RouteDone => e.main.Routing? && e.main.i < |e.workers| && e.workers[e.main.i].part.poll.Idle?
    case Inner(i, pe) => e.epoch <= i < |e.workers| && Inside(e, i, pe) && PartGuard(cfg, e.workers[i].part, pe)
    case Revoke(tps, order) =>
      e.main.Polling? && MutexFree(e) && Victims(e, tps, order)
    case BeginDrain => AtHead(e) && !e.main.active && PartGuard(cfg, e.workers[e.main.left[0]].part, StartDrain)
    case EndDrain => AtHead(e) && e.main.active && e.workers[e.main.left[0]].part.poll.Drained?
    case FinalCommit(_) => e.main.Draining? && e.main.left == []
    case TakeRebalanceErr => e.main.Looping? && e.rebalanceErr
    case TakeFatal => e.main.Looping? && !e.rebalanceErr && e.fatalCh
    case StopSeen => e.main.Looping? && !e.rebalanceErr
    case PollFails(_) => e.main.Polling?
    case CheckFatal(order) => e.main.CheckingFatal? && Victims(e, e.current.Keys, order)
    case StartCommit(_) => e.committer.Resting?
    case Collect(tp) => e.committer.Collecting? && tp in e.committer.left && Assigned(e, tp)
    case EndCollect => e.committer.Collecting? && e.committer.left == {}
    case Send(_) => e.committer.Sending?
    case Mark(tp) => e.committer.MarkingDone? && tp in e.committer.left
    case Land(k, tp) => k < |e.wire| && tp in e.wire[k]
    case Crash => true
  }

  ghost function Acting(cfg: Config, e: Engine, i: nat, pe: PartEvent): Engine
    requires i < |e.workers| && PartGuard(cfg, e.workers[i].part, pe)
  {
    e.(workers := e.workers[i := e.workers[i].(part := NextPart(cfg, e.workers[i].part, pe))])
  }

  /** The worker's event is the one that reports a fatal error. */
  predicate Reports(e: Engine, i: nat, pe: PartEvent) {
    && i < |e.workers| && pe.AgentStep? && pe.i < |e.workers[i].part.agents|
    && var x := Passing(e.workers[i].part.agents[pe.i].Pc(), pe.e);
       x.Some? && x.value.stage == Report
  }

  predicate BeforeCheck(m: MainPc) {
    m.Looping? || m.Polling? || m.Routing? || m.CheckingFatal? || (m.Draining? && !m.shutdown)
  }

  /** The pointer of a worker, added to a commit if the worker has one. */
  function WithPointer(acc: Commits, k: Worker): Commits {
    if k.part.sh.tracker.hasBase then acc[k.tp := k.part.sh.tracker.base] else acc
  }

  function Collects(advanceOnly: bool, t: Tracker): bool {
    t.hasBase && (advanceOnly ==> AdvancedSinceCommit(t))
  }

  ghost function NextEngine(cfg: Config, w: World, e: Engine, ev: EngineEvent): Engine
    requires EngineGuard(cfg, w, e, ev)
  {
    match ev
    case BeginPoll => e.(main := Polling)
    case EndPoll => e.(main := Looping)
    case Assign(tp, now) =>
      e.(workers := e.workers + [Worker(tp, Position(w, e, tp), NewPart(cfg, now))],
         current := e.current[tp := |e.workers|])
    case Route(tp, m) => Acting(cfg, e, e.current[tp], Deliver(m)).(main := Routing(e.current[tp]))
    case RouteDone => e.(main := Polling)
    case Inner(i, pe) =>
      Acting(cfg, e, i, pe).(fatalCh := e.fatalCh || Reports(e, i, pe),
                             earlyFatal := e.earlyFatal || (Reports(e, i, pe) && BeforeCheck(e.main)))
    case Revoke(tps, order) => e.(current := e.current - tps, main := Draining(false, false, order, false, map[]))
    case BeginDrain => Acting(cfg, e, e.main.left[0], StartDrain).(main := e.main.(active := true))
    case EndDrain =>
      e.(main := e.main.(left := e.main.left[1..], active := false,
                         acc := WithPointer(e.main.acc, e.workers[e.main.left[0]])))
    case FinalCommit(ok) =>
      var failed := e.main.acc != map[] && !ok;
      e.(wire := if e.main.acc == map[] then e.wire else e.wire + [e.main.acc],
         rebalanceErr := e.rebalanceErr || (!e.main.shutdown && failed),
         revokeFailed := e.revokeFailed || (!e.main.shutdown && failed),
         main := if e.main.shutdown then Returned(e.main.err || failed) else Polling)
    case TakeRebalanceErr => e.(main := CheckingFatal(true), rebalanceErr := false)
    case TakeFatal => e.(main := CheckingFatal(true), fatalCh := false)
    case StopSeen => e.(main := CheckingFatal(false))
    case PollFails(err) => e.(main := CheckingFatal(err))
    case CheckFatal(order) =>
      e.(main := Draining(true, e.main.err || e.fatalCh, order, false, map[]),
         fatalCh := e.fatalCh && e.main.err)
    case StartCommit(advanceOnly) => e.(committer := Collecting(advanceOnly, e.current.Keys, map[]))
    case Collect(tp) =>
      var c, k := e.committer, e.workers[e.current[tp]];
      var acc := if Collects(c.advanceOnly, k.part.sh.tracker) then c.acc[tp := k.part.sh.tracker.base] else c.acc;
      e.(committer := Collecting(c.advanceOnly, c.left - {tp}, acc))
    case EndCollect => e.(committer := if e.committer.acc == map[] then Resting else Sending(e.committer.acc))
    case Send(ok) =>
      e.(wire := e.wire + [e.committer.acc], committer := if ok then MarkingDone(e.committer.acc.Keys) else Resting)
    case Mark(tp) =>
      var left := e.committer.left - {tp};
      var next := if Assigned(e, tp) then Acting(cfg, e, e.current[tp], MarkCommit) else e;
      next.(committer := if left == {} then Resting else MarkingDone(left))
    case Land(k, tp) => e.(committed := e.committed[tp := e.wire[k][tp]])
    case Crash => NEW_ENGINE.(workers := e.workers, wire := e.wire, committed := e.committed, epoch := |e.workers|)
  }

  /** es are the states of a run from a fresh start, evs the events between them. */
  ghost predicate EngineRun(cfg: Config, w: World, es: seq<Engine>, evs: seq<EngineEvent>) {
    && |es| == |evs| + 1
    && es[0] == NEW_ENGINE
    && forall i :: 0 <= i < |evs| ==> EngineStep(cfg, w, es, evs, i)
  }

  ghost predicate EngineStep(cfg: Config, w: World, es: seq<Engine>, evs: seq<EngineEvent>, i: nat)
    requires |es| == |evs| + 1 && i < |evs|
  {
    EngineGuard(cfg, w, es[i], evs[i]) && es[i + 1] == NextEngine(cfg, w, es[i], evs[i])
  }
}
