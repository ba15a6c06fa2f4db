/** Whole runs of a partition worker keep all of its invariants. */
module PartitionRuns {
  import opened Types
  import opened Sums
  import opened TrackerSpec
  import opened LaneMachine
  import opened LaneStock
  import opened LaneTheorems
  import opened PartitionMachine
  import opened PartitionSums
  import opened PartitionInvariant
  import opened PartitionShared
  import opened PartitionHistory
  import opened PartitionOrder
  import opened PartitionLog

  /** Where the messages are. */
  ghost predicate FlowInv(cfg: Config, p: Part) {
    && AgentsOk(cfg, p.agents)
    && PendingOk(p)
    && FateOk(p)
    && CountersOk(p)
    && TallyOk(p)
    && SemOk(cfg, p)
  }

  /** What became of the deliveries. */
  ghost predicate RecordInv(p: Part) {
    && TrackerOk(p.sh, p.poll)
    && DeliveryOk(p.sh, p.poll)
    && SkipsOk(p.sh)
    && LedgerOk(p.sh)
    && HighestOk(p.sh, p.poll)
    && ArrivalOk(p)
  }

  ghost predicate PartInv(cfg: Config, p: Part) {
    FlowInv(cfg, p) && RecordInv(p) && AllAtHome(cfg, p) && LogOk(cfg, p)
  }

  // ---------------------------------------------------------------- agents

  lemma FlowAgent(cfg: Config, p: Part, i: nat, e: Event)
    requires FlowInv(cfg, p) && PartGuard(cfg, p, AgentStep(i, e))
    ensures FlowInv(cfg, Stepped(cfg, p, i, e))
  {
    AgentsOkUpdate(cfg, p.agents, i, e);
    PendingAgent(cfg, p, i, e);
    FateAgent(cfg, p, i, e);
    CountersAgent(cfg, p, i, e);
    TallyAgent(cfg, p, i, e);
    SemAgent(cfg, p, i, e);
  }

  lemma RecordAgent(cfg: Config, p: Part, i: nat, e: Event)
    requires AgentsOk(cfg, p.agents) && FateOk(p) && RecordInv(p) && PartGuard(cfg, p, AgentStep(i, e))
    ensures RecordInv(Stepped(cfg, p, i, e))
  {
    TrackerAgent(cfg, p, i, e);
    RecordEffect(p, Stepped(cfg, p, i, e), Passing(p.agents[i].Pc(), e));
  }

  lemma RecordEffect(p: Part, q: Part, x: Option<Passage>)
    requires RecordInv(p) && TrackerOk(q.sh, q.poll)
    requires q.sh == AgentEffect(p.sh, x) && q.poll == p.poll && q.appended == p.appended
    ensures RecordInv(q)
  {
    DeliveryEffect(p.sh, p.poll, x);
    SkipsEffect(p.sh, x);
    HighestEffect(p.sh, p.poll, x);
    EffectDelivered(p.sh, x);
  }

  lemma EffectDelivered(s: Shared, x: Option<Passage>)
    ensures AgentEffect(s, x).h.delivered == s.h.delivered
  {
  }

  // ---------------------------------------------------------------- poll goroutine

  lemma FlowPoll(cfg: Config, p: Part, give: bool)
    requires FlowInv(cfg, p) && PollGuard(cfg, p, give)
    ensures FlowInv(cfg, Polled(cfg, p, give))
  {
    AgentsStep(cfg, p, PollStep(give));
    PendingPoll(cfg, p, give);
    FatePoll(cfg, p, give);
    CountersPoll(cfg, p, give);
    TallyPoll(cfg, p, give);
    SemPoll(cfg, p, give);
  }

  lemma RecordPoll(cfg: Config, p: Part, give: bool)
    requires FateOk(p) && RecordInv(p) && PollGuard(cfg, p, give)
    ensures RecordInv(Polled(cfg, p, give))
  {
    var home := if p.poll.Appending? then HomeOf(cfg, p.poll.m) else 0;
    TrackerRoute(cfg.mode, p.sh, p.closed, p.poll, give, Appends(cfg, p), home, |p.agents|);
    DeliveryRoute(cfg.mode, p.sh, p.closed, p.poll, give, Appends(cfg, p), home, |p.agents|);
    SkipsRoute(cfg, p, give);
    LedgerRoute(cfg.mode, p.sh, p.closed, p.poll, give);
    HighestRoute(cfg.mode, p.sh, p.closed, p.poll, give, Appends(cfg, p), home, |p.agents|);
    ArrivalPoll(cfg, p, give);
  }

  // ---------------------------------------------------------------- the other events

  predicate Outer(ev: PartEvent) {
    !ev.AgentStep? && !ev.PollStep?
  }

  /** They leave the agents alone, and only a delivery puts a message anywhere. */
  lemma OuterTotal(cfg: Config, p: Part, ev: PartEvent, g: Message -> nat, u: Until)
    requires Outer(ev) && PartGuard(cfg, p, ev)
    ensures Total(NextPart(cfg, p, ev), g, u) == Total(p, g, u) + if ev.Deliver?
      && FirstPoll(u) == 1 then g(ev.m) else 0
  {
  }

  lemma FlowOuter(cfg: Config, p: Part, ev: PartEvent)
    requires FlowInv(cfg, p) && Outer(ev) && PartGuard(cfg, p, ev)
    ensures FlowInv(cfg, NextPart(cfg, p, ev))
  {
    var q := NextPart(cfg, p, ev);
    OuterTotal(cfg, p, ev, One(), AWAITED);
    OuterTotal(cfg, p, ev, One(), COUNTED);
    OuterTotal(cfg, p, ev, One(), TOTALLED);
    OffsetsOuter(cfg, p, ev);
  }

  lemma OffsetsOuter(cfg: Config, p: Part, ev: PartEvent)
    requires PendingOk(p) && FateOk(p) && Outer(ev) && PartGuard(cfg, p, ev)
    ensures PendingOk(NextPart(cfg, p, ev)) && FateOk(NextPart(cfg, p, ev))
  {
    var q := NextPart(cfg, p, ev);
    forall o ensures Total(q, AtOffset(o), LIVE) + Bit(o in q.sh.h.leaked) == Bit(o in q.sh.pending) {
      OuterTotal(cfg, p, ev, AtOffset(o), LIVE);
      assert Total(p, AtOffset(o), LIVE) + Bit(o in p.sh.h.leaked) == Bit(o in p.sh.pending);
    }
    forall o ensures Total(q, AtOffset(o), OPEN) + q.sh.h.completed[o] + q.sh.h.dropped[o] == q.sh.h.admitted[o] {
      OuterTotal(cfg, p, ev, AtOffset(o), OPEN);
    }
  }

  /** Nothing in the record depends on more than the history, the tracker and the poll goroutine. */
  lemma RecordKept(p: Part, q: Part)
    requires RecordInv(p)
    requires q.sh.h == p.sh.h && q.sh.pending == p.sh.pending && q.sh.highest == p.sh.highest
    requires q.appended == p.appended
    requires q.sh.tracker == p.sh.tracker || q.sh.tracker == MarkCommitted(p.sh.tracker)
    requires q.poll == p.poll || (PollRank(q.poll) == 0 && PollRank(p.poll) == 0)
    ensures RecordInv(q)
  {
    DeliveryKept(p.sh, q.sh, p.poll, q.poll);
    SkipsKept(p.sh, q.sh);
  }

  lemma DeliveryKept(s: Shared, t: Shared, before: Poll, after: Poll)
    requires DeliveryOk(s, before) && t.h == s.h
    requires after == before || (PollRank(after) == 0 && PollRank(before) == 0)
    ensures DeliveryOk(t, after)
  {
    forall o ensures Deliveries(t, o) == t.h.admitted[o] + t.h.skipped[o] + t.h.refused[o] + Undecided(after, o) {
      assert Deliveries(s, o) == s.h.admitted[o] + s.h.skipped[o] + s.h.refused[o] + Undecided(before, o);
    }
  }

  lemma SkipsKept(s: Shared, t: Shared)
    requires SkipsOk(s) && t.h == s.h
    ensures SkipsOk(t)
  {
    forall o | o in t.h.skipped ensures t.h.delivered != [] && (2 <= Deliveries(t, o) || o < SeedOf(t)) {
      assert 2 <= Deliveries(s, o) || o < SeedOf(s);
    }
  }

  lemma RecordOuter(cfg: Config, p: Part, ev: PartEvent)
    requires RecordInv(p) && Outer(ev) && !ev.Deliver? && PartGuard(cfg, p, ev)
    ensures RecordInv(NextPart(cfg, p, ev))
  {
    RecordKept(p, NextPart(cfg, p, ev));
  }

  lemma RecordDeliver(cfg: Config, p: Part, m: Message)
    requires RecordInv(p) && PartGuard(cfg, p, Deliver(m))
    ensures RecordInv(NextPart(cfg, p, Deliver(m)))
  {
    var q := NextPart(cfg, p, Deliver(m));
    ArrivalDeliver(p, m);
    forall o ensures Deliveries(q.sh, o)
      == q.sh.h.admitted[o] + q.sh.h.skipped[o] + q.sh.h.refused[o] + Undecided(q.poll, o) {
      DeliverMore(p.sh, m, o);
      assert Deliveries(p.sh, o) == p.sh.h.admitted[o] + p.sh.h.skipped[o] + p.sh.h.refused[o] + Undecided(p.poll, o);
    }
    SkipsDeliver(p.sh, q.sh, m);
  }

  lemma SkipsDeliver(s: Shared, t: Shared, m: Message)
    requires SkipsOk(s) && t.h.skipped == s.h.skipped && t.h.delivered == s.h.delivered + [m]
    ensures SkipsOk(t)
  {
    forall o | o in t.h.skipped ensures t.h.delivered != [] && (2 <= Deliveries(t, o) || o < SeedOf(t)) {
      DeliverMore(s, m, o);
      assert 2 <= Deliveries(s, o) || o < SeedOf(s);
    }
  }

  // ---------------------------------------------------------------- all events

  lemma FlowStep(cfg: Config, p: Part, ev: PartEvent)
    requires FlowInv(cfg, p) && PartGuard(cfg, p, ev)
    ensures FlowInv(cfg, NextPart(cfg, p, ev))
  {
    match ev
    case AgentStep(i, e) => FlowAgent(cfg, p, i, e);
    case PollStep(give) => FlowPoll(cfg, p, give);
    case _ => FlowOuter(cfg, p, ev);
  }

  lemma RecordStep(cfg: Config, p: Part, ev: PartEvent)
    requires FlowInv(cfg, p) && RecordInv(p) && PartGuard(cfg, p, ev)
    ensures RecordInv(NextPart(cfg, p, ev))
  {
    match ev
    case AgentStep(i, e) => RecordAgent(cfg, p, i, e);
    case PollStep(give) => RecordPoll(cfg, p, give);
    case Deliver(m) => RecordDeliver(cfg, p, m);
    case _ => RecordOuter(cfg, p, ev);
  }

  lemma OrderStep(cfg: Config, p: Part, ev: PartEvent)
    requires AgentsOk(cfg, p.agents) && AllAtHome(cfg, p) && PartGuard(cfg, p, ev)
    ensures AllAtHome(cfg, NextPart(cfg, p, ev))
  {
    match ev
    case AgentStep(i, e) => OrderAgent(cfg, p, i, e);
    case PollStep(give) => OrderPoll(cfg, p, give);
    case _ => NothingMoved(cfg, p, NextPart(cfg, p, ev));
  }

  lemma PartInvStep(cfg: Config, p: Part, ev: PartEvent)
    requires PartInv(cfg, p) && PartGuard(cfg, p, ev)
    ensures PartInv(cfg, NextPart(cfg, p, ev))
  {
    FlowStep(cfg, p, ev);
    RecordStep(cfg, p, ev);
    OrderStep(cfg, p, ev);
    LogStep(cfg, p, ev);
  }

  lemma NewAgentsWeigh(cfg: Config, f: Agent -> nat)
    requires f(LaneAgent(NEW_LANE)) == 0
    ensures SumSeq(NewPart(cfg, 0).agents, f) == 0
  {
    SumSeqBound(NewPart(cfg, 0).agents, f, 0);
  }

  lemma NewLaneWeighs(g: Message -> nat, u: Until)
    ensures WeightOf(g, u)(LaneAgent(NEW_LANE)) == 0
  {
    assert Stock(map[], OfMessage(g)) == 0;
  }

  lemma NewTotal(cfg: Config, now: int, g: Message -> nat, u: Until)
    ensures Total(NewPart(cfg, now), g, u) == 0
  {
    NewLaneWeighs(g, u);
    NewAgentsWeigh(cfg, WeightOf(g, u));
  }

  lemma NewFlow(cfg: Config, now: int)
    requires ValidConfig(cfg)
    ensures FlowInv(cfg, NewPart(cfg, now))
  {
    var p := NewPart(cfg, now);
    assert p.agents == NewPart(cfg, 0).agents;
    NewAgents(cfg, p);
    NewTotal(cfg, now, One(), AWAITED);
    NewTotal(cfg, now, One(), COUNTED);
    NewTotal(cfg, now, One(), TOTALLED);
    NewAgentsWeigh(cfg, Tallied());
    NewAgentsWeigh(cfg, HoldingSem());
    NewFates(cfg, now);
  }

  lemma NewAgents(cfg: Config, p: Part)
    requires ValidConfig(cfg) && p.agents == NewPart(cfg, 0).agents
    ensures AgentsOk(cfg, p.agents)
  {
    forall i | 0 <= i < |p.agents| ensures AgentOk(cfg, p.agents[i], i) {
      assert p.agents[i] == LaneAgent(NEW_LANE);
      NewLaneInv(cfg);
    }
  }

  lemma NewFates(cfg: Config, now: int)
    ensures PendingOk(NewPart(cfg, now)) && FateOk(NewPart(cfg, now))
  {
    var p := NewPart(cfg, now);
    forall o ensures Total(p, AtOffset(o), LIVE) == 0 && Total(p, AtOffset(o), OPEN) == 0 {
      NewTotal(cfg, now, AtOffset(o), LIVE);
      NewTotal(cfg, now, AtOffset(o), OPEN);
    }
  }

  lemma NewRecord(p: Part)
    requires p.sh == NEW_SHARED && p.poll == Idle && p.appended == []
    ensures RecordInv(p)
  {
  }

  lemma NewOrder(cfg: Config, now: int)
    requires ValidConfig(cfg)
    ensures AllAtHome(cfg, NewPart(cfg, now))
  {
    var p := NewPart(cfg, now);
    if cfg.mode == KeyOrdered {
      forall key ensures KeyAtHome(cfg, p, key) {
        assert p.agents[LaneIndex(cfg, key)] == LaneAgent(NEW_LANE);
      }
    }
  }

  lemma NewPartInv(cfg: Config, now: int)
    requires ValidConfig(cfg)
    ensures PartInv(cfg, NewPart(cfg, now))
  {
    NewFlow(cfg, now);
    NewRecord(NewPart(cfg, now));
    NewOrder(cfg, now);
    NewLog(cfg, now);
  }

  lemma NewLog(cfg: Config, now: int)
    ensures LogOk(cfg, NewPart(cfg, now))
  {
    var p := NewPart(cfg, now);
    forall i | 0 <= i < |p.agents| ensures !Finishing(p.agents[i].Pc()) {
      assert p.agents[i] == LaneAgent(NEW_LANE);
    }
  }

  /** ps are the states of a run from a new worker, evs the events between them. */
  ghost predicate PartRun(cfg: Config, ps: seq<Part>, evs: seq<PartEvent>) {
    && |ps| == |evs| + 1
    && ps[0] == NewPart(cfg, ps[0].now)
    && forall i :: 0 <= i < |evs| ==> PartStep(cfg, ps, evs, i)
  }

  ghost predicate PartStep(cfg: Config, ps: seq<Part>, evs: seq<PartEvent>, i: nat)
    requires |ps| == |evs| + 1 && i < |evs|
  {
    PartGuard(cfg, ps[i], evs[i]) && ps[i + 1] == NextPart(cfg, ps[i], evs[i])
  }

  ghost predicate PartInvAt(cfg: Config, ps: seq<Part>, i: int) {
    0 <= i < |ps| ==> PartInv(cfg, ps[i])
  }

  lemma PartRunStart(cfg: Config, ps: seq<Part>)
    requires ValidConfig(cfg) && ps != [] && ps[0] == NewPart(cfg, ps[0].now)
    ensures PartInvAt(cfg, ps, 0)
  {
    NewPartInv(cfg, ps[0].now);
  }

  lemma PartRunNext(cfg: Config, ps: seq<Part>, evs: seq<PartEvent>, i: nat)
    requires PartRun(cfg, ps, evs) && 0 < i < |ps| && PartInvAt(cfg, ps, i - 1)
    ensures PartInvAt(cfg, ps, i)
  {
    assert PartStep(cfg, ps, evs, i - 1);
    PartInvStep(cfg, ps[i - 1], evs[i - 1]);
  }

  lemma {:induction false} PartRunInvs(cfg: Config, ps: seq<Part>, evs: seq<PartEvent>, i: nat)
    requires ValidConfig(cfg) && PartRun(cfg, ps, evs) && i < |ps|
    ensures forall j :: 0 <= j <= i ==> PartInvAt(cfg, ps, j)
  {
    if 0 < i {
      PartRunInvs(cfg, ps, evs, i - 1);
    }
    forall j | 0 <= j <= i ensures PartInvAt(cfg, ps, j) {
      if j == 0 {
        PartRunStart(cfg, ps);
      } else if j == i {
        PartRunNext(cfg, ps, evs, j);
      }
    }
  }

  lemma PartRunInv(cfg: Config, ps: seq<Part>, evs: seq<PartEvent>, i: nat)
    requires ValidConfig(cfg) && PartRun(cfg, ps, evs) && i < |ps|
    ensures PartInv(cfg, ps[i])
  {
    PartRunInvs(cfg, ps, evs, i);
    assert PartInvAt(cfg, ps, i);
  }
}
