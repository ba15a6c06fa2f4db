/** The shared bookkeeping of a partition worker agrees with the messages inside it, always. */
module PartitionShared {
  import opened Types
  import opened Sums
  import opened LaneMachine
  import opened LaneStock
  import opened PartitionMachine
  import opened PartitionSums
  import opened PartitionInvariant

  function Bit(b: bool): nat {
    if b then 1 else 0
  }

  /** An agent's event moves the messages exactly as the stages it completes say. */
  lemma AgentMoves(cfg: Config, p: Part, i: nat, e: Event, g: Message -> nat, u: Until)
    requires AgentsOk(cfg, p.agents) && PartGuard(cfg, p, AgentStep(i, e)) && Counts(u) && u != SLOTTED
    ensures Total(Stepped(cfg, p, i, e), g, u) + Loss(Passing(p.agents[i].Pc(), e), g, u) == Total(p, g, u)
  {
    AgentTotal(cfg, p.agents, i, e, g, u);
  }

  /** A step of the poll goroutine moves them by where it is in route, and by what it hands over. */
  lemma PollMoves(cfg: Config, p: Part, give: bool, g: Message -> nat, u: Until)
    requires AgentsOk(cfg, p.agents) && PollGuard(cfg, p, give) && Counts(u) && u != SLOTTED
    ensures Total(Polled(cfg, p, give), g, u) + PollWeight(p.poll, g, u)
         == Total(p, g, u) + Handed(cfg.mode, p.poll, give, Appends(cfg, p), g)
           + PollWeight(NextPoll(cfg, p, give), g, u)
  {
    PolledTotal(cfg, p, give, g, u);
  }

  /** Only messages that complete pass the tracker. */
  predicate OnTrack(x: Option<Passage>) {
    x.Some? && x.value.stage == Complete ==> Completes(x.value.fate)
  }

  lemma AgentOnTrack(cfg: Config, a: Agent, i: nat, e: Event)
    requires AgentOk(cfg, a, i)
    ensures OnTrack(Passing(a.Pc(), e))
  {
  }

  // ---------------------------------------------------------------- pending

  /** Pending is exactly the offsets in flight, each once, and those Unordered mode left behind. */
  ghost predicate PendingOk(p: Part) {
    forall o :: Total(p, AtOffset(o), LIVE) + Bit(o in p.sh.h.leaked) == Bit(o in p.sh.pending)
  }

  lemma PendingEffect(s: Shared, x: Option<Passage>, o: Offset, before: nat, after: nat)
    requires after + Loss(x, AtOffset(o), LIVE) == before
    requires before + Bit(o in s.h.leaked) == Bit(o in s.pending)
    ensures after + Bit(o in AgentEffect(s, x).h.leaked) == Bit(o in AgentEffect(s, x).pending)
  {
  }

  lemma PendingAgent(cfg: Config, p: Part, i: nat, e: Event)
    requires AgentsOk(cfg, p.agents) && PartGuard(cfg, p, AgentStep(i, e)) && PendingOk(p)
    ensures PendingOk(Stepped(cfg, p, i, e))
  {
    var q := Stepped(cfg, p, i, e);
    forall o ensures Total(q, AtOffset(o), LIVE) + Bit(o in q.sh.h.leaked) == Bit(o in q.sh.pending) {
      AgentMoves(cfg, p, i, e, AtOffset(o), LIVE);
      PendingEffect(p.sh, Passing(p.agents[i].Pc(), e), o, Total(p, AtOffset(o), LIVE), Total(q, AtOffset(o), LIVE));
    }
  }

  lemma PendingRoute(mode: Mode, s: Shared, closed: bool, poll: Poll, give: bool, accepts: bool, home: nat, lanes: nat,
                     o: Offset, before: nat, after: nat)
    requires after + PollWeight(poll, AtOffset(o), LIVE)
      == before + Handed(mode, poll, give, accepts, AtOffset(o))
         + PollWeight(RoutePoll(mode, s, closed, poll, give, accepts, home, lanes), AtOffset(o), LIVE)
    requires PollWeight(poll, AtOffset(o), LIVE) <= before
    requires before + Bit(o in s.h.leaked) == Bit(o in s.pending)
    ensures
      var t := RouteShared(mode, s, closed, poll, give);
      after + Bit(o in t.h.leaked) == Bit(o in t.pending)
  {
  }

  lemma PendingPoll(cfg: Config, p: Part, give: bool)
    requires AgentsOk(cfg, p.agents) && PollGuard(cfg, p, give) && PendingOk(p)
    ensures PendingOk(Polled(cfg, p, give))
  {
    var q := Polled(cfg, p, give);
    forall o ensures Total(q, AtOffset(o), LIVE) + Bit(o in q.sh.h.leaked) == Bit(o in q.sh.pending) {
      PollMoves(cfg, p, give, AtOffset(o), LIVE);
      PendingRoute(cfg.mode, p.sh, p.closed, p.poll, give, Appends(cfg, p),
                   if p.poll.Appending? then HomeOf(cfg, p.poll.m)
                     else 0, |p.agents|, o, Total(p, AtOffset(o), LIVE), Total(q, AtOffset(o), LIVE));
    }
  }

  // ---------------------------------------------------------------- fates

  /** Every admission of an offset is still open, or was completed, or was let go: never two of these. */
  ghost predicate FateOk(p: Part) {
    forall o :: Total(p, AtOffset(o), OPEN) + p.sh.h.completed[o] + p.sh.h.dropped[o] == p.sh.h.admitted[o]
  }

  lemma FateEffect(s: Shared, x: Option<Passage>, o: Offset, before: nat, after: nat)
    requires OnTrack(x)
    requires after + Loss(x, AtOffset(o), OPEN) == before
    ensures
      var t := AgentEffect(s, x);
      && t.h.admitted == s.h.admitted
      && after + t.h.completed[o] + t.h.dropped[o] == before + s.h.completed[o] + s.h.dropped[o]
  {
  }

  lemma FateAgent(cfg: Config, p: Part, i: nat, e: Event)
    requires AgentsOk(cfg, p.agents) && PartGuard(cfg, p, AgentStep(i, e)) && FateOk(p)
    ensures FateOk(Stepped(cfg, p, i, e))
  {
    var q := Stepped(cfg, p, i, e);
    AgentOnTrack(cfg, p.agents[i], i, e);
    forall o ensures Total(q, AtOffset(o), OPEN) + q.sh.h.completed[o] + q.sh.h.dropped[o] == q.sh.h.admitted[o] {
      AgentMoves(cfg, p, i, e, AtOffset(o), OPEN);
      FateEffect(p.sh, Passing(p.agents[i].Pc(), e), o, Total(p, AtOffset(o), OPEN), Total(q, AtOffset(o), OPEN));
    }
  }

  lemma FateRoute(mode: Mode, s: Shared, closed: bool, poll: Poll, give: bool, accepts: bool, home: nat, lanes: nat,
                  o: Offset, before: nat, after: nat)
    requires after + PollWeight(poll, AtOffset(o), OPEN)
      == before + Handed(mode, poll, give, accepts, AtOffset(o))
         + PollWeight(RoutePoll(mode, s, closed, poll, give, accepts, home, lanes), AtOffset(o), OPEN)
    requires before + s.h.completed[o] + s.h.dropped[o] == s.h.admitted[o]
    ensures
      var t := RouteShared(mode, s, closed, poll, give);
      after + t.h.completed[o] + t.h.dropped[o] == t.h.admitted[o]
  {
  }

  lemma FatePoll(cfg: Config, p: Part, give: bool)
    requires AgentsOk(cfg, p.agents) && PollGuard(cfg, p, give) && FateOk(p)
    ensures FateOk(Polled(cfg, p, give))
  {
    var q := Polled(cfg, p, give);
    forall o ensures Total(q, AtOffset(o), OPEN) + q.sh.h.completed[o] + q.sh.h.dropped[o] == q.sh.h.admitted[o] {
      PollMoves(cfg, p, give, AtOffset(o), OPEN);
      FateRoute(cfg.mode, p.sh, p.closed, p.poll, give, Appends(cfg, p),
                if p.poll.Appending? then HomeOf(cfg, p.poll.m)
                  else 0, |p.agents|, o, Total(p, AtOffset(o), OPEN), Total(q, AtOffset(o), OPEN));
    }
  }

  // ---------------------------------------------------------------- counters

  /**
   * The wait group and the in-flight counters equal the messages that have not passed the step that
   * takes them out. The consumer-wide counter also keeps one for every skipped duplicate.
   */
  ghost predicate CountersOk(p: Part) {
    && p.sh.n.waiting == Total(p, One(), AWAITED)
    && p.sh.n.count == Total(p, One(), COUNTED)
    && p.sh.n.total == Total(p, One(), TOTALLED) + |p.sh.h.skipped|
  }

  lemma WaitingEffect(s: Shared, x: Option<Passage>)
    ensures AgentEffect(s, x).n.waiting + Loss(x, One(), AWAITED) == s.n.waiting
  {
  }

  lemma CountEffect(s: Shared, x: Option<Passage>)
    ensures AgentEffect(s, x).n.count + Loss(x, One(), COUNTED) == s.n.count
  {
  }

  lemma TotalEffect(s: Shared, x: Option<Passage>)
    ensures AgentEffect(s, x).n.total + Loss(x, One(), TOTALLED) == s.n.total
    ensures AgentEffect(s, x).h.skipped == s.h.skipped
  {
  }

  lemma CountersAgent(cfg: Config, p: Part, i: nat, e: Event)
    requires AgentsOk(cfg, p.agents) && PartGuard(cfg, p, AgentStep(i, e)) && CountersOk(p)
    ensures CountersOk(Stepped(cfg, p, i, e))
  {
    AgentMoves(cfg, p, i, e, One(), AWAITED);
    AgentMoves(cfg, p, i, e, One(), COUNTED);
    AgentMoves(cfg, p, i, e, One(), TOTALLED);
    WaitingEffect(p.sh, Passing(p.agents[i].Pc(), e));
    CountEffect(p.sh, Passing(p.agents[i].Pc(), e));
    TotalEffect(p.sh, Passing(p.agents[i].Pc(), e));
  }

  lemma WaitingRoute(mode: Mode, s: Shared, closed: bool, poll: Poll, give: bool, accepts: bool, home: nat, lanes: nat)
    ensures RouteShared(mode, s, closed, poll, give).n.waiting + PollWeight(poll, One(), AWAITED)
      == s.n.waiting + Handed(mode, poll, give, accepts, One())
         + PollWeight(RoutePoll(mode, s, closed, poll, give, accepts, home, lanes), One(), AWAITED)
  {
  }

  lemma CountRoute(mode: Mode, s: Shared, closed: bool, poll: Poll, give: bool, accepts: bool, home: nat, lanes: nat)
    ensures RouteShared(mode, s, closed, poll, give).n.count + PollWeight(poll, One(), COUNTED)
      == s.n.count + Handed(mode, poll, give, accepts, One())
         + PollWeight(RoutePoll(mode, s, closed, poll, give, accepts, home, lanes), One(), COUNTED)
  {
  }

  lemma TotalRoute(mode: Mode, s: Shared, closed: bool, poll: Poll, give: bool, accepts: bool, home: nat, lanes: nat)
    ensures
      var t := RouteShared(mode, s, closed, poll, give);
      t.n.total - |t.h.skipped| + PollWeight(poll, One(), TOTALLED)
      == s.n.total - |s.h.skipped| + Handed(mode, poll, give, accepts, One())
         + PollWeight(RoutePoll(mode, s, closed, poll, give, accepts, home, lanes), One(), TOTALLED)
  {
  }

  lemma CountersPoll(cfg: Config, p: Part, give: bool)
    requires AgentsOk(cfg, p.agents) && PollGuard(cfg, p, give) && CountersOk(p)
    ensures CountersOk(Polled(cfg, p, give))
  {
    PollMoves(cfg, p, give, One(), AWAITED);
    PollMoves(cfg, p, give, One(), COUNTED);
    PollMoves(cfg, p, give, One(), TOTALLED);
    var home := if p.poll.Appending? then HomeOf(cfg, p.poll.m) else 0;
    WaitingRoute(cfg.mode, p.sh, p.closed, p.poll, give, Appends(cfg, p), home, |p.agents|);
    CountRoute(cfg.mode, p.sh, p.closed, p.poll, give, Appends(cfg, p), home, |p.agents|);
    TotalRoute(cfg.mode, p.sh, p.closed, p.poll, give, Appends(cfg, p), home, |p.agents|);
  }

  // ---------------------------------------------------------------- tallies

  /** Every tallied message is completed, except those between the two steps. */
  ghost predicate TallyOk(p: Part) {
    p.sh.n.processed + p.sh.n.discarded == |p.sh.h.completed| + SumSeq(p.agents, Tallied())
  }

  predicate Tallying(x: Option<Passage>) {
    x.Some? && x.value.stage == Tally && Completes(x.value.fate)
  }

  predicate Completing(x: Option<Passage>) {
    x.Some? && x.value.stage == Complete
  }

  lemma TalliedStep(cfg: Config, a: Agent, e: Event)
    requires AgentGuard(cfg, a, e) && OnTrack(Passing(a.Pc(), e))
    ensures Tallied()(NextAgent(cfg, a, e)) + Bit(Completing(Passing(a.Pc(), e)))
      == Tallied()(a) + Bit(Tallying(Passing(a.Pc(), e)))
  {
  }

  lemma TallyEffect(s: Shared, x: Option<Passage>)
    requires OnTrack(x)
    ensures
      var t := AgentEffect(s, x);
      && t.n.processed + t.n.discarded == s.n.processed + s.n.discarded + Bit(Tallying(x))
      && t.h.completed == s.h.completed + (if Completing(x) then multiset{x.value.m.offset} else multiset{})
  {
  }

  lemma TallyAgent(cfg: Config, p: Part, i: nat, e: Event)
    requires AgentsOk(cfg, p.agents) && PartGuard(cfg, p, AgentStep(i, e)) && TallyOk(p)
    ensures TallyOk(Stepped(cfg, p, i, e))
  {
    var a := p.agents[i];
    AgentOnTrack(cfg, a, i, e);
    TalliedStep(cfg, a, e);
    SumSeqUpdate(p.agents, i, NextAgent(cfg, a, e), Tallied());
    TallyEffect(p.sh, Passing(a.Pc(), e));
  }

  /** The poll goroutine's lane events leave the worker of the lane where it is. */
  lemma PollKeepsPc(cfg: Config, a: Agent, e: Event)
    requires AgentGuard(cfg, a, e) && !OwnEvent(e)
    ensures NextAgent(cfg, a, e).Pc() == a.Pc()
    ensures NextAgent(cfg, a, e).LaneAgent? == a.LaneAgent?
  {
  }

  /** So sums of a weight that only looks at the worker change only when a goroutine is spawned. */
  lemma RouteSum(cfg: Config, p: Part, give: bool, f: Agent -> nat)
    requires PollGuard(cfg, p, give)
    requires forall a: Agent, b: Agent :: a.Pc() == b.Pc() && a.LaneAgent? == b.LaneAgent? ==> f(a) == f(b)
    ensures SumSeq(RouteAgents(cfg, p, give), f)
         == SumSeq(p.agents, f) + if Spawns(cfg.mode, p.poll, give) then f(TaskAgent(NewTask(p.poll.m))) else 0
  {
    match LaneEventOf(cfg, p, give)
    case Some((i, e)) =>
      LaneEventGain(cfg, p, give, One());
      PollKeepsPc(cfg, p.agents[i], e);
      SumSeqUpdate(p.agents, i, NextAgent(cfg, p.agents[i], e), f);
    case None =>
      if Spawns(cfg.mode, p.poll, give) {
        var a := TaskAgent(NewTask(p.poll.m));
        SumSeqConcat(p.agents, [a], f);
        assert SumSeq([a], f) == f(a) + SumSeq([], f);
      }
  }

  lemma TallyPoll(cfg: Config, p: Part, give: bool)
    requires PollGuard(cfg, p, give) && TallyOk(p)
    ensures TallyOk(Polled(cfg, p, give))
  {
    RouteSum(cfg, p, give, Tallied());
  }

  // ---------------------------------------------------------------- semaphore

  /** The semaphore counts the goroutines that have not exited. */
  ghost predicate SemOk(cfg: Config, p: Part) {
    && p.sem == SumSeq(p.agents, HoldingSem())
    && p.sem <= cfg.concurrency
  }

  lemma HoldingStep(cfg: Config, a: Agent, i: nat, e: Event)
    requires AgentOk(cfg, a, i) && AgentGuard(cfg, a, e)
    ensures HoldingSem()(NextAgent(cfg, a, e)) + Bit(a.TaskAgent? && e.Settle? && a.task.pc.stage == FreeSem)
      == HoldingSem()(a)
  {
  }

  lemma SemAgent(cfg: Config, p: Part, i: nat, e: Event)
    requires AgentsOk(cfg, p.agents) && PartGuard(cfg, p, AgentStep(i, e)) && SemOk(cfg, p)
    ensures SemOk(cfg, Stepped(cfg, p, i, e))
  {
    HoldingStep(cfg, p.agents[i], i, e);
    SumSeqUpdate(p.agents, i, NextAgent(cfg, p.agents[i], e), HoldingSem());
  }

  lemma SemPoll(cfg: Config, p: Part, give: bool)
    requires PollGuard(cfg, p, give) && SemOk(cfg, p)
    ensures SemOk(cfg, Polled(cfg, p, give))
  {
    RouteSum(cfg, p, give, HoldingSem());
  }
}
