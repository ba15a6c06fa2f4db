/** Which errors Run returns. */
module EngineErrors {
  import opened Types
  import opened EngineMachine

  // ---------------------------------------------------------------- how the run loop is left

  predicate Leaves(ev: EngineEvent) {
    ev.TakeRebalanceErr? || ev.TakeFatal? || ev.StopSeen? || ev.PollFails?
  }

  /** The error with which it is left. */
  predicate LeavesWith(ev: EngineEvent) {
    match ev
    case PollFails(err) => err
    case StopSeen => false
    case _ => true
  }

  /** Shutdown finds an error: a fatal one that was reported, or its own commit fails. */
  predicate Finds(e: Engine, ev: EngineEvent) {
    || (ev.CheckFatal? && e.fatalCh)
    || (ev.FinalCommit? && !ev.ok && e.main.Draining? && e.main.acc != map[])
  }

  ghost predicate Found(es: seq<Engine>, evs: seq<EngineEvent>, j: nat, i: nat)
    requires i <= |evs| && |es| == |evs| + 1
  {
    exists c :: j < c < i && Finds(es[c], evs[c])
  }

  /** After the run loop was left, what the shutdown is about to return. */
  predicate Returning(m: MainPc, err: bool) {
    match m
    case CheckingFatal(found) => err == found
    case Draining(shutdown, found, _, _, _) => shutdown && err == found
    case Returned(found) => err == found
    case _ => false
  }

  lemma ReturningStep(cfg: Config, w: World, e: Engine, ev: EngineEvent, err: bool)
    requires Returning(e.main, err) && EngineGuard(cfg, w, e, ev) && !ev.Crash?
    ensures Returning(NextEngine(cfg, w, e, ev).main, err || Finds(e, ev))
  {
    match ev
    case BeginDrain =>
    case EndDrain =>
    case FinalCommit(_) =>
    case CheckFatal(_) =>
    case _ =>
  }

  /**
   * Run returns an error exactly when the run loop was left with one, or shutdown then finds a fatal
   * one, or its own commit fails.
   */
  lemma {:induction false} RunReturns(cfg: Config, w: World, es: seq<Engine>, evs: seq<EngineEvent>, j: nat, i: nat)
    requires EngineRun(cfg, w, es, evs) && j < i < |es| && Leaves(evs[j])
    requires forall c :: j < c < i ==> !evs[c].Crash?
    ensures Returning(es[i].main, LeavesWith(evs[j]) || Found(es, evs, j, i))
  {
    assert EngineStep(cfg, w, es, evs, i - 1);
    if i == j + 1 {
      LeavesStep(cfg, w, es[j], evs[j]);
    } else {
      RunReturns(cfg, w, es, evs, j, i - 1);
      ReturningStep(cfg, w, es[i - 1], evs[i - 1], LeavesWith(evs[j]) || Found(es, evs, j, i - 1));
      assert Found(es, evs, j, i) <==> Found(es, evs, j, i - 1) || Finds(es[i - 1], evs[i - 1]);
    }
  }

  lemma LeavesStep(cfg: Config, w: World, e: Engine, ev: EngineEvent)
    requires EngineGuard(cfg, w, e, ev) && Leaves(ev)
    ensures NextEngine(cfg, w, e, ev).main == CheckingFatal(LeavesWith(ev))
  {
  }

  // ---------------------------------------------------------------- a failed revoke commit

  /** The run loop has a failed revoke commit still before it. */
  predicate RevokeOk(e: Engine) {
    e.revokeFailed
      && (e.main.Looping? || e.main.Polling? || e.main.Routing? || (e.main.Draining? && !e.main.shutdown)) ==>
      e.rebalanceErr
  }

  lemma RevokeStep(cfg: Config, w: World, e: Engine, ev: EngineEvent)
    requires RevokeOk(e) && EngineGuard(cfg, w, e, ev)
    ensures RevokeOk(NextEngine(cfg, w, e, ev))
  {
    match ev
    case FinalCommit(_) =>
    case Revoke(_, _) =>
    case CheckFatal(_) =>
    case Crash =>
    case _ =>
  }

  lemma {:induction false} RevokeRunOk(cfg: Config, w: World, es: seq<Engine>, evs: seq<EngineEvent>, i: nat)
    requires EngineRun(cfg, w, es, evs) && i < |es|
    ensures RevokeOk(es[i])
  {
    if 0 < i {
      RevokeRunOk(cfg, w, es, evs, i - 1);
      assert EngineStep(cfg, w, es, evs, i - 1);
      RevokeStep(cfg, w, es[i - 1], evs[i - 1]);
    }
  }

  /**
   * When the final commit of a revoke failed, Run returns an error exactly unless Poll, having run
   * the callback, itself ends the loop without one, and shutdown finds no other.
   */
  lemma RevokeFailureSurfaces(cfg: Config, w: World, es: seq<Engine>, evs: seq<EngineEvent>, j: nat, i: nat)
    requires EngineRun(cfg, w, es, evs) && j < i < |es| && Leaves(evs[j]) && es[j].revokeFailed
    requires forall c :: j < c < i ==> !evs[c].Crash?
    requires es[i].main.Returned?
    ensures es[i].main.err <==> evs[j] != PollFails(false) || Found(es, evs, j, i)
  {
    RevokeRunOk(cfg, w, es, evs, j);
    assert EngineStep(cfg, w, es, evs, j);
    RunReturns(cfg, w, es, evs, j, i);
  }
}
