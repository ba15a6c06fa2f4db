/** What every reachable state of a partition worker satisfies. */
module PartitionInvariant {
  import opened Types
  import opened Sums
  import opened LaneMachine
  import opened LaneStock
  import opened LaneTheorems
  import opened PartitionMachine
  import opened PartitionSums

  // ---------------------------------------------------------------- agents

  /** A lane only ever holds keys that hash to it. */
  ghost predicate Home(cfg: Config, l: Lane, i: nat) {
    forall k :: k in l.buf.chains ==> LaneIndex(cfg, k) == i
  }

  ghost predicate AgentOk(cfg: Config, a: Agent, i: nat) {
    match a
    case LaneAgent(l) => cfg.mode == KeyOrdered && LaneInv(cfg, l) && Home(cfg, l, i)
    case TaskAgent(t) => cfg.mode == Unordered && TaskInv(cfg, t)
  }

  ghost predicate AgentsOk(cfg: Config, agents: seq<Agent>) {
    && (cfg.mode == KeyOrdered ==> |agents| == cfg.lanes)
    && forall i :: 0 <= i < |agents| ==> AgentOk(cfg, agents[i], i)
  }

  lemma HomeStep(cfg: Config, l: Lane, e: Event, i: nat)
    requires LaneInv(cfg, l) && Home(cfg, l, i) && Guard(cfg, l, e)
    requires e.Push? ==> HomeOf(cfg, e.msg) == i
    ensures Home(cfg, Next(cfg, l, e), i)
  {
  }

  lemma AgentStepOk(cfg: Config, a: Agent, i: nat, e: Event)
    requires AgentOk(cfg, a, i) && AgentGuard(cfg, a, e)
    requires e.Push? ==> HomeOf(cfg, e.msg) == i
    ensures AgentOk(cfg, NextAgent(cfg, a, e), i)
  {
    match a
    case LaneAgent(l) =>
      LaneInvStep(cfg, l, e);
      HomeStep(cfg, l, e, i);
    case TaskAgent(t) => TaskStep(cfg, t, e);
  }

  lemma AgentWeightStep(cfg: Config, a: Agent, i: nat, e: Event, g: Message -> nat, u: Until)
    requires AgentOk(cfg, a, i) && AgentGuard(cfg, a, e) && Counts(u) && u != SLOTTED
    ensures AgentWeight(NextAgent(cfg, a, e), g, u) + Loss(Passing(a.Pc(), e), g, u)
      == AgentWeight(a, g, u) + Gain(e, g)
  {
    match a
    case LaneAgent(l) => WeightStep(cfg, l, e, g, u);
    case TaskAgent(t) => TaskWeightStep(cfg, t, e, g, u);
  }

  /** An agent's event moves the total by what the event gains and loses. */
  lemma AgentTotal(cfg: Config, agents: seq<Agent>, i: nat, e: Event, g: Message -> nat, u: Until)
    requires AgentsOk(cfg, agents) && i < |agents| && AgentGuard(cfg, agents[i], e) && Counts(u) && u != SLOTTED
    ensures
      SumSeq(agents[i := NextAgent(cfg, agents[i], e)], WeightOf(g, u)) + Loss(Passing(agents[i].Pc(), e), g, u)
      == SumSeq(agents, WeightOf(g, u)) + Gain(e, g)
  {
    AgentWeightStep(cfg, agents[i], i, e, g, u);
    SumSeqUpdate(agents, i, NextAgent(cfg, agents[i], e), WeightOf(g, u));
  }

  /** What the poll goroutine hands over to a lane or a goroutine in its next step. */
  ghost function Handed(mode: Mode, poll: Poll, give: bool, appends: bool, g: Message -> nat): nat {
    match poll
    case Pushing(m) => if Spawns(mode, poll, give) then g(m) else 0
    case Appending(m) => if appends then g(m) else 0
    case _ => 0
  }

  /** The poll goroutine only pushes a message into its home lane. */
  lemma LaneEventGain(cfg: Config, p: Part, give: bool, g: Message -> nat)
    requires LaneEventOf(cfg, p, give).Some?
    ensures
      var (i, e) := LaneEventOf(cfg, p, give).value;
      && Gain(e, g) == Handed(cfg.mode, p.poll, give, Appends(cfg, p), g)
      && (e.Push? ==> HomeOf(cfg, e.msg) == i)
      && !OwnEvent(e)
  {
  }

  lemma SpawnTotal(agents: seq<Agent>, m: Message, g: Message -> nat, u: Until)
    ensures SumSeq(agents + [TaskAgent(NewTask(m))], WeightOf(g, u)) == SumSeq(agents, WeightOf(g, u)) + g(m)
  {
    var a := TaskAgent(NewTask(m));
    SumSeqConcat(agents, [a], WeightOf(g, u));
    assert SumSeq([a], WeightOf(g, u)) == WeightOf(g, u)(a) + SumSeq([], WeightOf(g, u));
  }

  lemma PolledTotal(cfg: Config, p: Part, give: bool, g: Message -> nat, u: Until)
    requires AgentsOk(cfg, p.agents) && PollGuard(cfg, p, give) && Counts(u) && u != SLOTTED
    ensures SumSeq(RouteAgents(cfg, p, give), WeightOf(g, u))
      == SumSeq(p.agents, WeightOf(g, u)) + Handed(cfg.mode, p.poll, give, Appends(cfg, p), g)
  {
    match LaneEventOf(cfg, p, give)
    case Some((i, e)) =>
      LaneEventGain(cfg, p, give, g);
      AgentTotal(cfg, p.agents, i, e, g, u);
    case None =>
      if Spawns(cfg.mode, p.poll, give) {
        SpawnTotal(p.agents, p.poll.m, g, u);
      }
  }

  lemma NewTaskOk(cfg: Config, m: Message)
    ensures TaskInv(cfg, NewTask(m))
  {
    assert [Begin(m, 0)][..0] == [];
  }

  lemma AgentsOkUpdate(cfg: Config, agents: seq<Agent>, i: nat, e: Event)
    requires AgentsOk(cfg, agents) && i < |agents| && AgentGuard(cfg, agents[i], e)
    requires e.Push? ==> HomeOf(cfg, e.msg) == i
    ensures AgentsOk(cfg, agents[i := NextAgent(cfg, agents[i], e)])
  {
    AgentStepOk(cfg, agents[i], i, e);
  }

  lemma AgentsStep(cfg: Config, p: Part, ev: PartEvent)
    requires AgentsOk(cfg, p.agents) && PartGuard(cfg, p, ev)
    ensures AgentsOk(cfg, NextPart(cfg, p, ev).agents)
  {
    match ev
    case AgentStep(i, e) => AgentsOkUpdate(cfg, p.agents, i, e);
    case PollStep(give) =>
      match LaneEventOf(cfg, p, give) {
        case Some((i, e)) =>
          LaneEventGain(cfg, p, give, One());
          AgentsOkUpdate(cfg, p.agents, i, e);
        case None =>
          if Spawns(cfg.mode, p.poll, give) { NewTaskOk(cfg, p.poll.m); }
      }
    case _ =>
  }
}
