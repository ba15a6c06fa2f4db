/** The messages inside a partition worker, weighed over its agents and its poll goroutine. */
module PartitionSums {
  import opened Types
  import opened Sums
  import opened LaneMachine
  import opened LaneStock
  import opened LaneTheorems
  import opened PartitionMachine

  // ---------------------------------------------------------------- agents

  ghost function AgentWeight(a: Agent, g: Message -> nat, u: Until): nat {
    match a
    case LaneAgent(l) => Weight(l, g, u)
    case TaskAgent(t) => PcWeight(t.pc, g, u)
  }

  predicate TaskOnPath(f: Fate, s: Stage) {
    s != Unlink && s != FreeSlot && s != Signal && (s == FreeSem || OnPath(f, s))
  }

  /** A goroutine of Unordered mode: where it can be after this many handler calls. */
  predicate TaskPcOk(cfg: Config, pc: Pc, calls: nat) {
    match pc
    case Handling(wk) => calls == wk.attempts + 1 <= MaxAttempts(cfg)
    case Failing(wk) => calls == wk.attempts + 1 <= MaxAttempts(cfg)
    case Discarding(wk) => calls == wk.attempts + 1 == MaxAttempts(cfg)
    case Cooling(wk, _) => calls == wk.attempts < MaxAttempts(cfg)
    case Settling(_, f, s) => calls <= MaxAttempts(cfg) && f != Vanished && TaskOnPath(f, s)
    case Exited => calls <= MaxAttempts(cfg)
    case _ => false
  }

  ghost predicate TaskInv(cfg: Config, t: Task) {
    TaskPcOk(cfg, t.pc, Calls(t.log))
  }

  lemma TaskStep(cfg: Config, t: Task, e: Event)
    requires TaskInv(cfg, t) && TaskGuard(t, e)
    ensures TaskInv(cfg, NextTask(cfg, t, e))
  {
    var next := NextTask(cfg, t, e);
    var calls := Calls(t.log) + if e.Expire? then 1 else 0;
    TaskPcStep(cfg, t, e);
    if next.log != t.log {
      CallsMore(t.log, next.log[|t.log|]);
    }
    assert Calls(next.log) == calls;
  }

  lemma TaskPcStep(cfg: Config, t: Task, e: Event)
    requires TaskGuard(t, e)
    ensures
      forall calls: nat :: TaskPcOk(cfg, t.pc, calls) ==>
        TaskPcOk(cfg, NextTask(cfg, t, e).pc, calls + if e.Expire? then 1 else 0)
  {
  }

  lemma TaskWeightStep(cfg: Config, t: Task, e: Event, g: Message -> nat, u: Until)
    requires TaskInv(cfg, t) && TaskGuard(t, e) && Counts(u) && u != SLOTTED
    ensures PcWeight(NextTask(cfg, t, e).pc, g, u) + Loss(Passing(t.pc, e), g, u) == PcWeight(t.pc, g, u)
  {
    if e.Settle? {
      TaskSettleWeight(t.pc.wk, t.pc.fate, t.pc.stage, g, u);
    }
  }

  lemma TaskSettleWeight(wk: Work, f: Fate, s: Stage, g: Message -> nat, u: Until)
    requires f != Vanished && TaskOnPath(f, s) && Counts(u) && u != SLOTTED
    ensures PcWeight(match NextTaskStage(f, s) case Some(next) => Settling(wk, f, next) case None => Exited, g, u)
          + (if s == LimitOf(u, f) then g(wk.msg) else 0)
         == PcWeight(Settling(wk, f, s), g, u)
  {
    var limit := LimitOf(u, f);
    assert limit in {Complete, Forget, DropTotal, DropCount, DropWait};
    assert limit == Complete ==> Completes(f);
  }

  // ---------------------------------------------------------------- sums over agents

  ghost function WeightOf(g: Message -> nat, u: Until): Agent -> nat {
    (a: Agent) => AgentWeight(a, g, u)
  }

  /** Completed messages are tallied one step before they reach the tracker. */
  ghost function Tallied(): Agent -> nat {
    (a: Agent) => if a.Pc().Settling? && Completes(a.Pc().fate) && a.Pc().stage == Complete then 1 else 0
  }

  ghost function HoldingSem(): Agent -> nat {
    (a: Agent) => if a.TaskAgent? && !a.task.pc.Exited? then 1 else 0
  }

  // ---------------------------------------------------------------- the poll goroutine

  function PollRank(poll: Poll): nat {
    match poll
    case Seeding(_) => 1
    case Checking(_) => 2
    case Admitting(_) => 3
    case Marking(_) => 4
    case Joining(_) => 5
    case Counting(_) => 6
    case Pushing(_) => 7
    case Appending(_) => 8
    case Rejected(_) => 9
    case Unadmitting(_) => 10
    case Unjoining(_) => 11
    case Uncounting(_) => 12
    case Untotalling(_) => 13
    case _ => 0
  }

  /** From and until which step of route the message counts before a lane or goroutine has it. */
  function FirstPoll(u: Until): nat {
    if u == LIVE || u == OPEN then 4 else if u == AWAITED then 6 else if u == COUNTED then 7 else 1
  }

  function LastPoll(u: Until): nat {
    if u == LIVE || u == OPEN then 10 else if u == AWAITED then 11 else if u == COUNTED then 12 else 13
  }

  ghost function PollWeight(poll: Poll, g: Message -> nat, u: Until): nat {
    if 0 < PollRank(poll) && FirstPoll(u) <= PollRank(poll) <= LastPoll(u) then g(poll.m) else 0
  }

  /** The weight of all the messages in the worker that still count. */
  ghost function Total(p: Part, g: Message -> nat, u: Until): nat {
    SumSeq(p.agents, WeightOf(g, u)) + PollWeight(p.poll, g, u)
  }
}
