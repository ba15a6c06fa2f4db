/** How a drain ends: each closed lane and each message goroutine stops, unless a lane was left too early. */
module PartitionDrain {
  import opened Types
  import opened Sums
  import opened LaneMachine
  import opened LaneStock
  import opened LaneTheorems
  import opened LaneDrain
  import opened PartitionMachine
  import opened PartitionSums
  import opened PartitionInvariant
  import opened PartitionShared
  import opened PartitionRuns

  // ---------------------------------------------------------------- lanes are closed once

  predicate ClosedLane(p: Part, k: nat) {
    k < |p.agents| && p.agents[k].LaneAgent? && p.agents[k].lane.buf.closed
  }

  /** The drain has still to close this lane. */
  predicate WillClose(poll: Poll, k: nat) {
    (poll.Closing? && poll.lane <= k) || (poll.ClosingSignal? && poll.lane < k)
  }

  ghost predicate ClosedOnce(p: Part) {
    && (p.poll.Closing? || p.poll.ClosingSignal? ==> p.closed)
    && forall k :: ClosedLane(p, k) ==> p.closed && !WillClose(p.poll, k)
  }

  /** Only the event that closes a lane touches the flag. */
  lemma ClosedStep(cfg: Config, l: Lane, e: Event)
    requires Guard(cfg, l, e)
    ensures Next(cfg, l, e).buf.closed == (l.buf.closed || e.Close?)
  {
  }

  lemma ClosedOnceStep(cfg: Config, p: Part, ev: PartEvent)
    requires ClosedOnce(p) && PartGuard(cfg, p, ev)
    ensures ClosedOnce(NextPart(cfg, p, ev))
  {
    var q := NextPart(cfg, p, ev);
    forall k | ClosedLane(q, k) ensures q.closed && !WillClose(q.poll, k) {
      match ev
      case AgentStep(i, e) =>
        if i == k && p.agents[i].LaneAgent? { ClosedStep(cfg, p.agents[i].lane, e); }
        assert ClosedLane(p, k);
      case PollStep(give) => ClosedOncePoll(cfg, p, give, k);
      case _ => assert ClosedLane(p, k);
    }
  }

  lemma ClosedOncePoll(cfg: Config, p: Part, give: bool, k: nat)
    requires ClosedOnce(p) && PollGuard(cfg, p, give) && ClosedLane(Polled(cfg, p, give), k)
    ensures p.closed && !WillClose(NextPoll(cfg, p, give), k)
  {
    match LaneEventOf(cfg, p, give)
    case Some((i, e)) =>
      ClosedStep(cfg, p.agents[i].lane, e);
      assert ClosedLane(p, k) || (i == k && e.Close?);
    case None => assert ClosedLane(p, k);
  }

  lemma {:induction false} ClosedOnceRun(cfg: Config, ps: seq<Part>, evs: seq<PartEvent>, i: nat)
    requires PartRun(cfg, ps, evs) && i < |ps|
    ensures ClosedOnce(ps[i])
  {
    if 0 < i {
      ClosedOnceRun(cfg, ps, evs, i - 1);
      assert PartStep(cfg, ps, evs, i - 1);
      ClosedOnceStep(cfg, ps[i - 1], evs[i - 1]);
    }
  }

  // ---------------------------------------------------------------- message goroutines

  function TaskRank(pc: Pc): nat {
    match pc
    case Handling(_) => 27
    case Failing(_) => 26
    case Discarding(_) => 25
    case Cooling(_, _) => 1
    case Settling(_, _, s) => SettleRank(s)
    case _ => 0
  }

  /** What a message goroutine may still do. */
  ghost function TaskMeasure(cfg: Config, t: Task): nat {
    var left := match t.pc
      case Handling(wk) => Minus1(Left(cfg)(wk))
      case Failing(wk) => Minus1(Left(cfg)(wk))
      case Cooling(wk, _) => Left(cfg)(wk)
      case _ => 0;
    30 * left + TaskRank(t.pc)
  }

  lemma TaskLowers(cfg: Config, t: Task, e: Event)
    requires TaskInv(cfg, t) && TaskGuard(t, e)
    ensures TaskMeasure(cfg, NextTask(cfg, t, e)) < TaskMeasure(cfg, t)
  {
    if e.Settle? {
      var next := NextTaskStage(t.pc.fate, t.pc.stage);
      assert next.Some? ==> Rank(t.pc.stage) < Rank(next.value);
    }
  }

  // ---------------------------------------------------------------- whoever takes no more messages

  /** Every message goroutine, and the worker of a closed lane. */
  predicate Finite(a: Agent) {
    a.LaneAgent? ==> a.lane.buf.closed
  }

  ghost function AgentMeasure(cfg: Config, a: Agent, now: int): nat {
    match a
    case LaneAgent(l) => Measure(cfg, l, now)
    case TaskAgent(t) => TaskMeasure(cfg, t)
  }

  lemma AgentLowers(cfg: Config, a: Agent, i: nat, e: Event, now: int)
    requires AgentOk(cfg, a, i) && AgentGuard(cfg, a, e) && OwnEvent(e) && Timely(e, now) && Finite(a)
    ensures Finite(NextAgent(cfg, a, e)) && AgentMeasure(cfg, NextAgent(cfg, a, e), now) < AgentMeasure(cfg, a, now)
  {
    match a
    case LaneAgent(l) =>
      OwnEventLowers(cfg, l, e, now);
      ClosedStep(cfg, l, e);
    case TaskAgent(t) => TaskLowers(cfg, t, e);
  }

  /** The poll goroutine only turns away from a closed lane. */
  lemma PollKeepsMeasure(cfg: Config, p: Part, give: bool, k: nat)
    requires AgentsOk(cfg, p.agents) && ClosedOnce(p) && PollGuard(cfg, p, give) && k < |p.agents|
    requires Finite(p.agents[k])
    ensures
      var q := Polled(cfg, p, give);
      k < |q.agents| && Finite(q.agents[k])
        && AgentMeasure(cfg, q.agents[k], q.now) <= AgentMeasure(cfg, p.agents[k], p.now)
  {
    match LaneEventOf(cfg, p, give)
    case Some((i, e)) =>
      if i == k {
        var l := p.agents[k].lane;
        assert AgentOk(cfg, p.agents[k], k) && ClosedLane(p, k);
        OthersKeep(cfg, l, e, p.now);
        ClosedStep(cfg, l, e);
      }
    case None =>
  }

  lemma MeasureStep(cfg: Config, p: Part, ev: PartEvent, k: nat)
    requires AgentsOk(cfg, p.agents) && ClosedOnce(p) && PartGuard(cfg, p, ev) && k < |p.agents| && Finite(p.agents[k])
    ensures
      var q := NextPart(cfg, p, ev);
      && k < |q.agents| && Finite(q.agents[k])
      && Acts(ev, k) + AgentMeasure(cfg, q.agents[k], q.now) <= AgentMeasure(cfg, p.agents[k], p.now)
  {
    match ev
    case AgentStep(i, e) => if i == k { AgentLowers(cfg, p.agents[k], k, e, p.now); }
    case PollStep(give) => PollKeepsMeasure(cfg, p, give, k);
    case Tick(later) => if p.agents[k].LaneAgent? { LaterKeeps(cfg, p.agents[k].lane, p.now, later); }
    case _ =>
  }

  /** Whether the event is one of this agent's own. */
  function Acts(ev: PartEvent, k: nat): nat {
    if ev.AgentStep? && ev.i == k then 1 else 0
  }

  function Actions(evs: seq<PartEvent>, k: nat): nat {
    if evs == [] then 0 else Actions(evs[..|evs| - 1], k) + Acts(evs[|evs| - 1], k)
  }

  /**
   * A drain comes to an end. Once a lane is closed, its worker takes at most as many steps of its own
   * in the rest of the run as its measure says, whatever everybody else does, and so does the
   * goroutine of a message from its start on.
   */
  lemma {:induction false} DrainBounded(cfg: Config, ps: seq<Part>, evs: seq<PartEvent>, i: nat, j: nat, k: nat)
    requires ValidConfig(cfg) && PartRun(cfg, ps, evs) && i <= j < |ps| && k < |ps[i].agents| && Finite(ps[i].agents[k])
    ensures k < |ps[j].agents| && Finite(ps[j].agents[k])
    ensures Actions(evs[i..j], k) + AgentMeasure(cfg, ps[j].agents[k], ps[j].now)
      <= AgentMeasure(cfg, ps[i].agents[k], ps[i].now)
  {
    if i < j {
      DrainBounded(cfg, ps, evs, i, j - 1, k);
      NextBounded(cfg, ps, evs, j - 1, k);
      assert evs[i..j][..j - 1 - i] == evs[i..j - 1];
    }
  }

  lemma NextBounded(cfg: Config, ps: seq<Part>, evs: seq<PartEvent>, i: nat, k: nat)
    requires ValidConfig(cfg) && PartRun(cfg, ps, evs) && i < |evs| && k < |ps[i].agents| && Finite(ps[i].agents[k])
    ensures k < |ps[i + 1].agents| && Finite(ps[i + 1].agents[k])
    ensures Acts(evs[i], k) + AgentMeasure(cfg, ps[i + 1].agents[k], ps[i + 1].now)
      <= AgentMeasure(cfg, ps[i].agents[k], ps[i].now)
  {
    PartRunInv(cfg, ps, evs, i);
    ClosedOnceRun(cfg, ps, evs, i);
    assert PartStep(cfg, ps, evs, i);
    MeasureStep(cfg, ps[i], evs[i], k);
  }

  // ---------------------------------------------------------------- signals on their way

  /** The poll goroutine's next step is the signal to this lane. */
  predicate Signals(poll: Poll, k: nat) {
    (poll.Signalling? || poll.ClosingSignal?) && poll.lane == k
  }

  /** A lane is owed a signal exactly while the poll goroutine is about to send it. */
  ghost predicate OwedOk(p: Part) {
    forall k :: 0 <= k < |p.agents| && p.agents[k].LaneAgent? ==> p.agents[k].lane.owed == Bit(Signals(p.poll, k))
  }

  lemma OwedStep(cfg: Config, l: Lane, e: Event)
    requires Guard(cfg, l, e)
    ensures Next(cfg, l, e).owed + Bit(e.Notify?) == l.owed + Bit(e.Push? || e.Close?)
  {
  }

  lemma OwedPoll(cfg: Config, p: Part, give: bool, k: nat)
    requires OwedOk(p) && PollGuard(cfg, p, give) && k < |Polled(cfg, p, give).agents|
    requires Polled(cfg, p, give).agents[k].LaneAgent?
    ensures Polled(cfg, p, give).agents[k].lane.owed == Bit(Signals(NextPoll(cfg, p, give), k))
  {
    match LaneEventOf(cfg, p, give)
    case Some((i, e)) => OwedStep(cfg, p.agents[i].lane, e);
    case None =>
  }

  lemma OwedOkStep(cfg: Config, p: Part, ev: PartEvent)
    requires OwedOk(p) && PartGuard(cfg, p, ev)
    ensures OwedOk(NextPart(cfg, p, ev))
  {
    var q := NextPart(cfg, p, ev);
    forall k | 0 <= k < |q.agents| && q.agents[k].LaneAgent? ensures q.agents[k].lane.owed == Bit(Signals(q.poll, k)) {
      match ev
      case AgentStep(i, e) => if i == k { OwedStep(cfg, p.agents[k].lane, e); }
      case PollStep(give) => OwedPoll(cfg, p, give, k);
      case _ =>
    }
  }

  lemma {:induction false} OwedRun(cfg: Config, ps: seq<Part>, evs: seq<PartEvent>, i: nat)
    requires PartRun(cfg, ps, evs) && i < |ps|
    ensures OwedOk(ps[i])
  {
    if i == 0 {
      NewOwed(cfg, ps[0]);
    } else {
      OwedRun(cfg, ps, evs, i - 1);
      assert PartStep(cfg, ps, evs, i - 1);
      OwedOkStep(cfg, ps[i - 1], evs[i - 1]);
    }
  }

  lemma NewOwed(cfg: Config, p: Part)
    requires p == NewPart(cfg, p.now)
    ensures OwedOk(p)
  {
    forall k | 0 <= k < |p.agents| ensures p.agents[k] == LaneAgent(NEW_LANE) {
    }
  }

  /** The next step of the poll goroutine can be taken now, and sends this lane its signal. */
  ghost predicate SendsSignal(cfg: Config, p: Part, k: nat) {
    PartGuard(cfg, p, PollStep(false)) && LaneEventOf(cfg, p, false) == Some((k, Notify))
  }

  lemma OwedIsSent(cfg: Config, p: Part, k: nat)
    requires OwedOk(p) && k < |p.agents| && p.agents[k].LaneAgent? && 0 < p.agents[k].lane.owed
    ensures SendsSignal(cfg, p, k)
  {
    assert Signals(p.poll, k);
  }

  /**
   * And until it is gone it is never stuck: it has a step to take, or the poll goroutine is about to
   * send it a signal and can, or it waits for a deadline that the clock has yet to reach.
   */
  lemma DrainMoves(cfg: Config, ps: seq<Part>, evs: seq<PartEvent>, i: nat, k: nat)
    requires ValidConfig(cfg) && PartRun(cfg, ps, evs) && i < |ps| && k < |ps[i].agents| && Finite(ps[i].agents[k])
    requires ps[i].agents[k].Pc() != Exited
    ensures
      || (exists e :: PartGuard(cfg, ps[i], AgentStep(k, e)))
      || SendsSignal(cfg, ps[i], k)
      || AwaitsClock(ps[i], k)
  {
    PartRunInv(cfg, ps, evs, i);
    assert AgentOk(cfg, ps[i].agents[k], k);
    OwedRun(cfg, ps, evs, i);
    AgentCanMove(cfg, ps[i], k);
  }

  /**
   * No lost wakeup in the whole worker, closed lanes or not: for a parked worker the token is there, or
   * the poll goroutine is about to send its signal and can, or it has a reason to wait.
   */
  lemma WakeupComes(cfg: Config, ps: seq<Part>, evs: seq<PartEvent>, i: nat, k: nat)
    requires ValidConfig(cfg) && PartRun(cfg, ps, evs) && i < |ps| && k < |ps[i].agents|
    requires ps[i].agents[k].LaneAgent? && ps[i].agents[k].lane.pc.Parked?
    ensures
      var l := ps[i].agents[k].lane;
      || l.buf.wake
      || SendsSignal(cfg, ps[i], k)
      || ((l.buf.closed ==> HasQueued(l.buf.chains)) && WaitsFor(l.buf.chains, l.pc.timer))
  {
    PartRunInv(cfg, ps, evs, i);
    assert AgentOk(cfg, ps[i].agents[k], k);
    OwedRun(cfg, ps, evs, i);
    if 0 < ps[i].agents[k].lane.owed {
      OwedIsSent(cfg, ps[i], k);
    }
  }

  /** The worker of the lane sleeps until a deadline still to come. */
  predicate AwaitsClock(p: Part, k: nat)
    requires k < |p.agents|
  {
    p.agents[k].LaneAgent? && p.agents[k].lane.pc.Parked? && p.agents[k].lane.pc.timer.At?
      && p.now < p.agents[k].lane.pc.timer.when
  }

  lemma AgentCanMove(cfg: Config, p: Part, k: nat)
    requires k < |p.agents| && AgentOk(cfg, p.agents[k], k) && Finite(p.agents[k]) && p.agents[k].Pc() != Exited
    requires OwedOk(p)
    ensures (exists e :: PartGuard(cfg, p, AgentStep(k, e))) || SendsSignal(cfg, p, k) || AwaitsClock(p, k)
  {
    match p.agents[k]
    case LaneAgent(l) =>
      ClosedLaneMoves(cfg, l, p.now, p.sh.cancelled);
      if e :| OwnEvent(e) && Guard(cfg, l, e) && MayDo(e, p.now, p.sh.cancelled) {
        assert PartGuard(cfg, p, AgentStep(k, e));
      } else if 0 < l.owed {
        OwedIsSent(cfg, p, k);
      }
    case TaskAgent(t) =>
      var e := TaskEvent(t, p.now, p.sh.cancelled);
      assert PartGuard(cfg, p, AgentStep(k, e));
  }

  function TaskEvent(t: Task, now: int, cancelled: bool): Event {
    match t.pc
    case Handling(_) => Return(true)
    case Failing(_) => Decide(cancelled, 0)
    case Discarding(_) => DiscardReturn(true)
    case Cooling(_, _) => Expire(now)
    case _ => Settle
  }

  // ---------------------------------------------------------------- what is left behind

  ghost predicate Stranding(p: Part, k: nat) {
    k < |p.agents| && p.agents[k].LaneAgent? && p.agents[k].lane.pc.Exited? && HasQueued(p.agents[k].lane.buf.chains)
  }

  lemma ExitedKeeps(cfg: Config, l: Lane, e: Event)
    requires Guard(cfg, l, e) && l.pc.Exited? && HasQueued(l.buf.chains)
    ensures Next(cfg, l, e).pc.Exited? && HasQueued(Next(cfg, l, e).buf.chains)
  {
    var k :| k in l.buf.chains && l.buf.chains[k].queue != [];
    assert k in Next(cfg, l, e).buf.chains && Next(cfg, l, e).buf.chains[k].queue != [];
  }

  lemma StrandingStep(cfg: Config, p: Part, ev: PartEvent, k: nat)
    requires Stranding(p, k) && PartGuard(cfg, p, ev)
    ensures Stranding(NextPart(cfg, p, ev), k)
  {
    match ev
    case AgentStep(i, e) => if i == k { ExitedKeeps(cfg, p.agents[k].lane, e); }
    case PollStep(give) =>
      match LaneEventOf(cfg, p, give) {
        case Some((i, e)) => if i == k { ExitedKeeps(cfg, p.agents[k].lane, e); }
        case None =>
      }
    case _ =>
  }

  ghost function Queued(): Agent -> nat {
    (a: Agent) => if a.LaneAgent? then Stock(a.lane.buf.chains, OfMessage(One())) else 0
  }

  lemma QueuedSome(chains: Chains)
    ensures HasQueued(chains) <==> 0 < Stock(chains, OfMessage(One()))
  {
    if HasQueued(chains) {
      var k :| k in chains && chains[k].queue != [];
      SumMapTake(chains, k, QueueSum(OfMessage(One())));
    } else {
      StockNonEmpty(chains, OfMessage(One()));
      assert NonEmpty(chains) == map[];
    }
  }

  lemma StrandingWaits(cfg: Config, p: Part, k: nat)
    requires CountersOk(p) && Stranding(p, k)
    ensures 0 < p.sh.n.waiting
  {
    QueuedSome(p.agents[k].lane.buf.chains);
    SumSeqAt(p.agents, k, WeightOf(One(), AWAITED));
  }

  /**
   * A lane whose worker is gone while a message is queued in it keeps the wait group from ever
   * reaching zero: no drain ends cleanly any more.
   */
  lemma StrandedBlocksDrain(cfg: Config, ps: seq<Part>, evs: seq<PartEvent>, i: nat, j: nat, k: nat)
    requires ValidConfig(cfg) && PartRun(cfg, ps, evs) && i <= j < |ps| && Stranding(ps[i], k)
    ensures Stranding(ps[j], k) && 0 < ps[j].sh.n.waiting
    ensures j < |evs| && evs[j].PollStep? && ps[j].poll.AwaitingDrain? ==> ps[j + 1].poll == Drained(false)
  {
    StrandingStays(cfg, ps, evs, i, j, k);
    PartRunInv(cfg, ps, evs, j);
    StrandingWaits(cfg, ps[j], k);
    if j < |evs| && evs[j].PollStep? && ps[j].poll.AwaitingDrain? {
      assert PartStep(cfg, ps, evs, j);
      AwaitStep(cfg, ps[j], evs[j]);
    }
  }

  lemma AwaitStep(cfg: Config, p: Part, ev: PartEvent)
    requires PartGuard(cfg, p, ev) && ev.PollStep? && p.poll.AwaitingDrain?
    ensures NextPart(cfg, p, ev).poll == Drained(p.sh.n.waiting == 0)
  {
  }

  lemma {:induction false} StrandingStays(cfg: Config, ps: seq<Part>, evs: seq<PartEvent>, i: nat, j: nat, k: nat)
    requires PartRun(cfg, ps, evs) && i <= j < |ps| && Stranding(ps[i], k)
    ensures Stranding(ps[j], k)
  {
    if i < j {
      StrandingStays(cfg, ps, evs, i, j - 1, k);
      assert PartStep(cfg, ps, evs, j - 1);
      StrandingStep(cfg, ps[j - 1], evs[j - 1], k);
    }
  }

  /** Everybody who runs handlers is gone. */
  predicate AllGone(p: Part) {
    forall a :: a in p.agents ==> a.Pc().Exited?
  }

  /**
   * And nothing else does: once every worker is gone, outside route the wait group holds exactly the
   * messages that are stranded, so it is zero if and only if there are none.
   */
  lemma OnlyStrandedWait(cfg: Config, ps: seq<Part>, evs: seq<PartEvent>, i: nat)
    requires ValidConfig(cfg) && PartRun(cfg, ps, evs) && i < |ps| && AllGone(ps[i]) && PollRank(ps[i].poll) == 0
    ensures ps[i].sh.n.waiting == SumSeq(ps[i].agents, Queued())
    ensures ps[i].sh.n.waiting == 0 <==> forall k :: !Stranding(ps[i], k)
  {
    PartRunInv(cfg, ps, evs, i);
    GoneWaiting(ps[i]);
    if forall k :: !Stranding(ps[i], k) {
      forall a | a in ps[i].agents ensures Queued()(a) <= 0 {
        var k :| 0 <= k < |ps[i].agents| && ps[i].agents[k] == a;
        assert !Stranding(ps[i], k);
        if a.LaneAgent? { QueuedSome(a.lane.buf.chains); }
      }
      SumSeqBound(ps[i].agents, Queued(), 0);
    } else {
      var k :| Stranding(ps[i], k);
      StrandingWaits(cfg, ps[i], k);
    }
  }

  lemma GoneWaiting(p: Part)
    requires CountersOk(p) && AllGone(p) && PollRank(p.poll) == 0
    ensures p.sh.n.waiting == SumSeq(p.agents, Queued())
  {
    forall a | a in p.agents ensures WeightOf(One(), AWAITED)(a) == Queued()(a) {
    }
    SumSeqMonotone(p.agents, WeightOf(One(), AWAITED), Queued());
    SumSeqMonotone(p.agents, Queued(), WeightOf(One(), AWAITED));
  }

  // ---------------------------------------------------------------- a clean drain

  /** A closed lane whose worker, if it is on its way out, left nothing queued. */
  ghost predicate LeavesClean(p: Part, k: nat) {
    ClosedLane(p, k) && CleanLane(p.agents[k].lane)
  }

  ghost predicate CleanLane(l: Lane) {
    l.buf.closed && !l.buf.accepting && (Gone(l.pc) ==> l.buf.chains == map[])
  }

  lemma CleanStep(cfg: Config, l: Lane, e: Event)
    requires Guard(cfg, l, e) && CleanLane(l)
    ensures CleanLane(Next(cfg, l, e))
  {
  }

  lemma LeavesCleanStep(cfg: Config, p: Part, ev: PartEvent, k: nat)
    requires LeavesClean(p, k) && PartGuard(cfg, p, ev)
    ensures LeavesClean(NextPart(cfg, p, ev), k)
  {
    match ev
    case AgentStep(i, e) =>
      if i == k { CleanStep(cfg, p.agents[k].lane, e); }
    case PollStep(give) =>
      match LaneEventOf(cfg, p, give) {
        case Some((i, e)) =>
          if i == k { CleanStep(cfg, p.agents[k].lane, e); }
        case None =>
      }
    case _ =>
  }

  lemma {:induction false} LeavesCleanRun(cfg: Config, ps: seq<Part>, evs: seq<PartEvent>, j: nat, i: nat, k: nat)
    requires PartRun(cfg, ps, evs) && j <= i < |ps| && LeavesClean(ps[j], k)
    ensures LeavesClean(ps[i], k)
  {
    if j < i {
      LeavesCleanRun(cfg, ps, evs, j, i - 1, k);
      assert PartStep(cfg, ps, evs, i - 1);
      LeavesCleanStep(cfg, ps[i - 1], evs[i - 1], k);
    }
  }

  lemma ClosedLaneClean(cfg: Config, ps: seq<Part>, evs: seq<PartEvent>, j: nat, k: nat)
    requires ValidConfig(cfg) && PartRun(cfg, ps, evs) && j < |ps| && ClosedLane(ps[j], k)
    requires !Gone(ps[j].agents[k].lane.pc)
    ensures LeavesClean(ps[j], k)
  {
    PartRunInv(cfg, ps, evs, j);
    assert AgentOk(cfg, ps[j].agents[k], k);
  }

  /** At some point so far the lane was closed, and its worker had not gathered what was queued. */
  ghost predicate ClosedInTime(ps: seq<Part>, i: nat, k: nat)
    requires i < |ps|
  {
    exists j :: 0 <= j <= i && ClosedLane(ps[j], k) && !Gone(ps[j].agents[k].lane.pc)
  }

  /**
   * A drain ends clean: when every lane was closed before its worker left, and all workers are gone, the
   * wait group is zero, and the drain that waits for it succeeds. In Unordered mode nothing is asked.
   */
  lemma DrainEndsClean(cfg: Config, ps: seq<Part>, evs: seq<PartEvent>, i: nat)
    requires ValidConfig(cfg) && PartRun(cfg, ps, evs) && i < |ps| && AllGone(ps[i]) && PollRank(ps[i].poll) == 0
    requires forall k :: 0 <= k < |ps[i].agents| && ps[i].agents[k].LaneAgent? ==> ClosedInTime(ps, i, k)
    ensures ps[i].sh.n.waiting == 0
    ensures i < |evs| && evs[i].PollStep? && ps[i].poll.AwaitingDrain? ==> ps[i + 1].poll == Drained(true)
  {
    forall k: nat ensures !Stranding(ps[i], k) {
      if Stranding(ps[i], k) {
        var j :| 0 <= j <= i && ClosedLane(ps[j], k) && !Gone(ps[j].agents[k].lane.pc);
        ClosedLaneClean(cfg, ps, evs, j, k);
        LeavesCleanRun(cfg, ps, evs, j, i, k);
        assert false;
      }
    }
    OnlyStrandedWait(cfg, ps, evs, i);
    if i < |evs| && evs[i].PollStep? && ps[i].poll.AwaitingDrain? {
      assert PartStep(cfg, ps, evs, i);
      AwaitStep(cfg, ps[i], evs[i]);
    }
  }
}
