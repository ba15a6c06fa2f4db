/** What the consumer promises over whole runs, crashes included. */
module EngineTheorems {
  import opened Types
  import opened TrackerSpec
  import opened PartitionMachine
  import opened PartitionHistory
  import opened PartitionLog
  import opened PartitionTheorems
  import opened EngineMachine
  import opened EngineInvariant

  // ---------------------------------------------------------------- at least once

  /** The attempt history of some worker ends an attempt on this offset well: handler or OnDiscard returned. */
  ghost predicate Handled(workers: seq<Worker>, tp: TopicPartition, o: Offset) {
    exists i :: 0 <= i < |workers| && workers[i].tp == tp && EndedWell(workers[i].part.log, o)
  }

  lemma CompletedHandled(cfg: Config, workers: seq<Worker>, tp: TopicPartition, o: Offset)
    requires PartsOk(cfg, workers) && CompletedBySome(workers, tp, o)
    ensures Handled(workers, tp, o)
  {
    var i :| 0 <= i < |workers| && workers[i].tp == tp && o in workers[i].part.sh.h.completed;
    assert PartAt(cfg, workers, i);
  }

  /**
   * At least once. In every run, under every interleaving of routing, handlers, the committer,
   * rebalances, shutdowns and crashes, and however late any commit lands, each record from the start
   * of a partition up to its committed offset was handled. So a restart loses nothing.
   */
  lemma AtLeastOnce(cfg: Config, w: World, es: seq<Engine>, evs: seq<EngineEvent>, i: nat, tp: TopicPartition,
                    o: Offset)
    requires ValidConfig(cfg) && EngineRun(cfg, w, es, evs) && i < |es|
    requires w.start(tp) <= o < Position(w, es[i], tp) && w.isRecord(tp, o)
    ensures Handled(es[i].workers, tp, o)
  {
    EngineRunInv(cfg, w, es, evs, i);
    assert tp in es[i].committed;
    assert InPlay(es[i], tp, es[i].committed[tp]);
    CompletedHandled(cfg, es[i].workers, tp, o);
  }

  // ---------------------------------------------------------------- what a commit carries

  /**
   * The value a commit takes from a worker: the least offset that has not completed, at most any
   * offset that failed fatally, and once nothing is in flight one past the last message exactly when
   * none was let go or refused.
   */
  ghost predicate Carries(p: Part, v: Offset) {
    && p.sh.h.delivered != []
    && LeastMissing(v, SeedOf(p.sh), DoneSet(p.sh.h.completed))
    && (DupFree(p.sh) ==> forall o :: o in p.sh.h.fatals ==> v <= o)
    && (Emptied(p) ==> (v == Last(p.sh) + 1 <==> p.sh.h.dropped == multiset{} && p.sh.h.refused == multiset{}))
  }

  lemma PointerCarries(cfg: Config, workers: seq<Worker>, i: nat)
    requires PartsOk(cfg, workers) && i < |workers| && workers[i].part.sh.tracker.hasBase
    ensures Carries(workers[i].part, workers[i].part.sh.tracker.base)
  {
    var p := workers[i].part;
    assert PartAt(cfg, workers, i);
    forall o | o in p.sh.h.fatals && DupFree(p.sh) ensures p.sh.tracker.base <= o {
      assert o in p.sh.h.dropped;
      FateAccount(p, o);
    }
    if Emptied(p) {
      EmptiedPointer(cfg, p);
    }
  }

  /** The final commit of a revoke or of the shutdown takes such a value from each drained worker that has one. */
  lemma FinalCommitCarries(cfg: Config, w: World, es: seq<Engine>, evs: seq<EngineEvent>, i: nat)
    requires ValidConfig(cfg) && EngineRun(cfg, w, es, evs) && i < |evs| && evs[i].EndDrain?
    ensures EngineStep(cfg, w, es, evs, i)
    ensures
      var k, acc := es[i].workers[es[i].main.left[0]], es[i + 1].main.acc;
      if k.part.sh.tracker.hasBase
      then k.tp in acc && acc == es[i].main.acc[k.tp := acc[k.tp]] && Carries(k.part, acc[k.tp])
      else acc == es[i].main.acc
  {
    EngineRunInv(cfg, w, es, evs, i);
    assert EngineStep(cfg, w, es, evs, i);
    var j := es[i].main.left[0];
    if es[i].workers[j].part.sh.tracker.hasBase {
      PointerCarries(cfg, es[i].workers, j);
    }
  }

  /** And so does the committer, from each assigned worker that it collects. */
  lemma PeriodicCommitCarries(cfg: Config, w: World, es: seq<Engine>, evs: seq<EngineEvent>, i: nat)
    requires ValidConfig(cfg) && EngineRun(cfg, w, es, evs) && i < |evs| && evs[i].Collect?
    ensures EngineStep(cfg, w, es, evs, i)
    ensures
      var tp := evs[i].tp;
      var p, acc := es[i].workers[es[i].current[tp]].part, es[i + 1].committer.acc;
      if Collects(es[i].committer.advanceOnly, p.sh.tracker)
      then tp in acc && acc == es[i].committer.acc[tp := acc[tp]] && Carries(p, acc[tp])
      else acc == es[i].committer.acc
  {
    EngineRunInv(cfg, w, es, evs, i);
    assert EngineStep(cfg, w, es, evs, i);
    var j := es[i].current[evs[i].tp];
    if es[i].workers[j].part.sh.tracker.hasBase {
      PointerCarries(cfg, es[i].workers, j);
    }
  }

  /**
   * Nothing else is ever committed: each value that is collected, sent, under way or at the broker, of
   * whatever commit, was taken like that from some worker of its partition earlier in the run.
   */
  lemma {:induction false} CommitsCarry(cfg: Config, w: World, es: seq<Engine>, evs: seq<EngineEvent>, i: nat,
                                        tp: TopicPartition, v: Offset) returns (j: nat, k: nat)
    requires ValidConfig(cfg) && EngineRun(cfg, w, es, evs) && i < |es| && InPlay(es[i], tp, v)
    ensures j <= i && k < |es[j].workers| && es[j].workers[k].tp == tp && Carries(es[j].workers[k].part, v)
  {
    if 0 < i {
      EngineRunInv(cfg, w, es, evs, i - 1);
      assert EngineStep(cfg, w, es, evs, i - 1);
      InPlayStep(cfg, w, es[i - 1], evs[i - 1], tp, v);
      if InPlay(es[i - 1], tp, v) {
        j, k := CommitsCarry(cfg, w, es, evs, i - 1, tp, v);
      } else {
        j, k :| j == i - 1 && 0 <= k < |es[i - 1].workers| && HoldsPointer(es[i - 1].workers[k], tp, v);
        PointerCarries(cfg, es[j].workers, k);
      }
    } else {
      assert false;
    }
  }

  /** The position at the broker goes back exactly when a commit lands that holds a smaller value. */
  lemma PositionBackExactly(cfg: Config, w: World, es: seq<Engine>, evs: seq<EngineEvent>, i: nat, tp: TopicPartition)
    requires EngineRun(cfg, w, es, evs) && i < |evs|
    ensures Position(w, es[i + 1], tp) < Position(w, es[i], tp) <==>
      (evs[i].Land? && evs[i].tp == tp && evs[i].k < |es[i].wire| && tp in es[i].wire[evs[i].k]
       && es[i].wire[evs[i].k][tp] < Position(w, es[i], tp))
  {
    assert EngineStep(cfg, w, es, evs, i);
    if !evs[i].Land? {
      PositionStep(cfg, w, es[i], evs[i]);
    }
  }

  lemma PositionStep(cfg: Config, w: World, e: Engine, ev: EngineEvent)
    requires EngineGuard(cfg, w, e, ev) && !ev.Land?
    ensures NextEngine(cfg, w, e, ev).committed == e.committed
  {
    match ev
    case Assign(_, _) =>
    case Route(_, _) =>
    case Inner(_, _) =>
    case Revoke(_, _) =>
    case BeginDrain =>
    case EndDrain =>
    case FinalCommit(_) =>
    case CheckFatal(_) =>
    case Collect(_) =>
    case Send(_) =>
    case Mark(_) =>
    case Crash =>
    case _ =>
  }

  // ---------------------------------------------------------------- counters

  /** The sum of an int over the workers of a process. */
  function SumOf(workers: seq<Worker>, f: Worker -> int): int {
    if workers == [] then 0 else f(workers[0]) + SumOf(workers[1..], f)
  }

  function Finished(): Worker -> int {
    (k: Worker) => k.part.sh.n.processed + k.part.sh.n.discarded
  }

  function Advanced(): Worker -> int {
    (k: Worker) => Progress(k.part.sh)
  }

  function InTotal(): Worker -> int {
    (k: Worker) => k.part.sh.n.total
  }

  function InCount(): Worker -> int {
    (k: Worker) => k.part.sh.n.count + |k.part.sh.h.skipped|
  }

  lemma {:induction false} SumsAgree(workers: seq<Worker>, f: Worker -> int, g: Worker -> int)
    requires forall i :: 0 <= i < |workers| ==> f(workers[i]) == g(workers[i])
    ensures SumOf(workers, f) == SumOf(workers, g)
  {
    if workers != [] {
      assert forall i :: 0 <= i < |workers[1..]| ==> workers[1..][i] == workers[i + 1];
      SumsAgree(workers[1..], f, g);
    }
  }

  /**
   * Counter conservation for the consumer, whatever was assigned and revoked: while no worker is in
   * the middle of an update, processed and discarded messages add up to the progress of all trackers
   * this process ever had, and the messages in flight, with those skipped as duplicates, to the
   * consumer-wide count.
   */
  lemma ConsumerCounters(cfg: Config, w: World, es: seq<Engine>, evs: seq<EngineEvent>, i: nat)
    requires ValidConfig(cfg) && EngineRun(cfg, w, es, evs) && i < |es|
    requires forall k :: es[i].epoch <= k < |es[i].workers| ==>
      Calm(es[i].workers[k].part) && DupFree(es[i].workers[k].part.sh)
    ensures es[i].epoch <= |es[i].workers|
    ensures
      var live := es[i].workers[es[i].epoch..];
      SumOf(live, Finished()) == SumOf(live, Advanced()) && SumOf(live, InTotal()) == SumOf(live, InCount())
  {
    EngineRunInv(cfg, w, es, evs, i);
    EpochWithin(cfg, w, es, evs, i);
    var live := es[i].workers[es[i].epoch..];
    forall k | 0 <= k < |live|
      ensures Finished()(live[k]) == Advanced()(live[k]) && InTotal()(live[k]) == InCount()(live[k]) {
      assert PartAt(cfg, es[i].workers, es[i].epoch + k);
      CalmCounters(cfg, live[k].part);
    }
    SumsAgree(live, Finished(), Advanced());
    SumsAgree(live, InTotal(), InCount());
  }

  lemma {:induction false} EpochWithin(cfg: Config, w: World, es: seq<Engine>, evs: seq<EngineEvent>, i: nat)
    requires EngineRun(cfg, w, es, evs) && i < |es|
    ensures es[i].epoch <= |es[i].workers|
  {
    if 0 < i {
      EpochWithin(cfg, w, es, evs, i - 1);
      assert EngineStep(cfg, w, es, evs, i - 1);
      EpochStep(cfg, w, es[i - 1], evs[i - 1]);
    }
  }

  lemma EpochStep(cfg: Config, w: World, e: Engine, ev: EngineEvent)
    requires e.epoch <= |e.workers| && EngineGuard(cfg, w, e, ev)
    ensures NextEngine(cfg, w, e, ev).epoch <= |NextEngine(cfg, w, e, ev).workers|
  {
    match ev
    case Assign(_, _) =>
    case Route(_, _) =>
    case Inner(_, _) =>
    case BeginDrain =>
    case Mark(_) =>
    case Crash =>
    case _ =>
  }

  // ---------------------------------------------------------------- fatal errors

  /** A fatal error reported in time is in the channel, or already the error Run will return. */
  predicate FatalOk(e: Engine) {
    e.earlyFatal ==>
      match e.main
      case CheckingFatal(err) => err || e.fatalCh
      case Draining(shutdown, err, _, _, _) => if shutdown then err else e.fatalCh
      case Returned(err) => err
      case _ => e.fatalCh
  }

  lemma FatalStep(cfg: Config, w: World, e: Engine, ev: EngineEvent)
    requires FatalOk(e) && EngineGuard(cfg, w, e, ev)
    ensures FatalOk(NextEngine(cfg, w, e, ev))
  {
    match ev
    case Inner(_, _) =>
    case FinalCommit(_) =>
    case EndDrain =>
    case BeginDrain =>
    case Revoke(_, _) =>
    case CheckFatal(_) =>
    case TakeFatal =>
    case Crash =>
    case _ =>
  }

  /**
   * A fatal error that is reported before shutdown looks for one makes Run return an error, whichever
   * way the run loop was left.
   */
  lemma {:induction false} FatalSurfaces(cfg: Config, w: World, es: seq<Engine>, evs: seq<EngineEvent>, i: nat)
    requires EngineRun(cfg, w, es, evs) && i < |es|
    ensures FatalOk(es[i])
    ensures es[i].earlyFatal && es[i].main.Returned? ==> es[i].main.err
  {
    if 0 < i {
      FatalSurfaces(cfg, w, es, evs, i - 1);
      assert EngineStep(cfg, w, es, evs, i - 1);
      FatalStep(cfg, w, es[i - 1], evs[i - 1]);
    }
  }
}
