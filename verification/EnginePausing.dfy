/** When backpressure has nothing to do in the whole consumer. */
module EnginePausing {
  import opened Types
  import opened PartitionMachine
  import opened PartitionSums
  import opened PartitionTheorems
  import opened EngineMachine
  import opened EngineInvariant
  import opened Pausing

  // ---------------------------------------------------------------- the poll goroutine is in one place

  /** The poll goroutine is inside route for worker k only while the run loop is. */
  predicate RoutesOnly(e: Engine, k: nat) {
    e.epoch <= k < |e.workers| && 0 < PollRank(e.workers[k].part.poll) ==> e.main == Routing(k)
  }

  ghost predicate RoutesOne(e: Engine) {
    forall k :: RoutesOnly(e, k)
  }

  /** Assigned workers are of this process. */
  predicate CurrentLives(e: Engine) {
    && e.epoch <= |e.workers|
    && forall tp :: tp in e.current ==> e.epoch <= e.current[tp] < |e.workers|
  }

  lemma PartPollRank(cfg: Config, p: Part, ev: PartEvent)
    requires PartGuard(cfg, p, ev) && !ev.Deliver?
    ensures PollRank(p.poll) == 0 ==> PollRank(NextPart(cfg, p, ev).poll) == 0
    ensures !ev.PollStep? && !ev.StartDrain? ==> NextPart(cfg, p, ev).poll == p.poll
  {
  }

  lemma RoutesStep(cfg: Config, w: World, e: Engine, ev: EngineEvent, k: nat)
    requires RoutesOnly(e, k) && CurrentLives(e) && EngineGuard(cfg, w, e, ev) && k < |e.workers|
    ensures RoutesOnly(NextEngine(cfg, w, e, ev), k)
  {
    if !ev.Assign? {
      ActionStep(cfg, w, e, ev);
      var a := ActionOf(e, ev);
      if a.Some? && a.value.i == k && !ev.Route? {
        PartPollRank(cfg, e.workers[k].part, a.value.ev);
      }
      MainStep(cfg, w, e, ev);
    }
  }

  /** The run loop leaves a route only when it is over, or with the process. */
  lemma MainStep(cfg: Config, w: World, e: Engine, ev: EngineEvent)
    requires EngineGuard(cfg, w, e, ev) && !ev.Assign?
    ensures
      var f := NextEngine(cfg, w, e, ev);
      && (ev.Crash? ==> f.epoch == |e.workers|)
      && (!ev.Crash? ==> f.epoch == e.epoch)
      && (e.main.Routing? && !ev.Crash? && !ev.RouteDone? ==> f.main == e.main)
      && (ev.Route? ==> ActionOf(e, ev).Some? && f.main == Routing(ActionOf(e, ev).value.i))
      && (ev.RouteDone? ==> e.main.i < |e.workers| && PollRank(e.workers[e.main.i].part.poll) == 0)
  {
    match ev
    case Route(_, _) =>
    case RouteDone =>
    case Inner(_, _) =>
    case Mark(_) =>
    case Crash =>
    case _ =>
  }

  lemma RoutesOneStep(cfg: Config, w: World, e: Engine, ev: EngineEvent)
    requires RoutesOne(e) && CurrentLives(e) && EngineGuard(cfg, w, e, ev)
    ensures RoutesOne(NextEngine(cfg, w, e, ev))
  {
    var f := NextEngine(cfg, w, e, ev);
    forall k: nat ensures RoutesOnly(f, k) {
      assert RoutesOnly(e, k);
      if k < |e.workers| {
        RoutesStep(cfg, w, e, ev, k);
      } else if k < |f.workers| {
        NewIdle(cfg, w, e, ev, k);
      }
    }
  }

  lemma NewIdle(cfg: Config, w: World, e: Engine, ev: EngineEvent, k: nat)
    requires EngineGuard(cfg, w, e, ev) && |e.workers| <= k < |NextEngine(cfg, w, e, ev).workers|
    ensures PollRank(NextEngine(cfg, w, e, ev).workers[k].part.poll) == 0
  {
    if !ev.Assign? {
      ActionStep(cfg, w, e, ev);
    }
  }

  lemma LivesStep(cfg: Config, w: World, e: Engine, ev: EngineEvent)
    requires CurrentLives(e) && EngineGuard(cfg, w, e, ev)
    ensures CurrentLives(NextEngine(cfg, w, e, ev))
  {
    if !ev.Assign? {
      ActionStep(cfg, w, e, ev);
      MainStep(cfg, w, e, ev);
    }
  }

  lemma {:induction false} RoutesRun(cfg: Config, w: World, es: seq<Engine>, evs: seq<EngineEvent>, i: nat)
    requires EngineRun(cfg, w, es, evs) && i < |es|
    ensures RoutesOne(es[i]) && CurrentLives(es[i])
  {
    if 0 < i {
      RoutesRun(cfg, w, es, evs, i - 1);
      assert EngineStep(cfg, w, es, evs, i - 1);
      RoutesOneStep(cfg, w, es[i - 1], evs[i - 1]);
      LivesStep(cfg, w, es[i - 1], evs[i - 1]);
    }
  }

  // ---------------------------------------------------------------- backpressure finds nothing to pause

  /** What is in flight per assigned partition. */
  function InFlightOf(e: Engine): InFlightCounts
    requires CurrentOk(e)
  {
    map tp | tp in e.current :: e.workers[e.current[tp]].part.sh.n.count
  }

  lemma IdleCount(cfg: Config, w: World, es: seq<Engine>, evs: seq<EngineEvent>, i: nat, tp: TopicPartition)
    requires ValidConfig(cfg) && EngineRun(cfg, w, es, evs) && i < |es| && es[i].main.Looping? && tp in es[i].current
    ensures CurrentOk(es[i]) && InFlightOf(es[i])[tp] <= InFlightCap(cfg)
  {
    EngineRunInv(cfg, w, es, evs, i);
    RoutesRun(cfg, w, es, evs, i);
    var k := es[i].current[tp];
    assert RoutesOnly(es[i], k);
    assert PartAt(cfg, es[i].workers, k);
    CountInFlight(cfg, es[i].workers[k].part);
    CapsOrdered(cfg);
  }

  /**
   * With MaxInFlight above the bound on messages in flight, backpressure never pauses a partition: at
   * the top of the run loop, in every run and whatever was paused, it finds none to pause.
   */
  lemma NeverPauses(cfg: Config, w: World, es: seq<Engine>, evs: seq<EngineEvent>, i: nat, s: Flags)
    requires ValidConfig(cfg) && EngineRun(cfg, w, es, evs) && i < |es| && es[i].main.Looping?
    requires InFlightCap(cfg) < cfg.maxInFlight
    ensures CurrentOk(es[i]) && ToPause(cfg, s, InFlightOf(es[i])) == {}
  {
    EngineRunInv(cfg, w, es, evs, i);
    forall tp ensures tp !in ToPause(cfg, s, InFlightOf(es[i])) {
      if tp in es[i].current {
        IdleCount(cfg, w, es, evs, i, tp);
      }
    }
  }
}
