/** The attempt history of a partition worker agrees with what it completed. */
module PartitionLog {
  import opened Types
  import opened LaneMachine
  import opened LaneStock
  import opened LaneInvariant
  import opened LaneSerial
  import opened PartitionMachine
  import opened PartitionSums
  import opened PartitionInvariant

  /** Some attempt on the offset ended well: its handler succeeded, or OnDiscard returned for it. */
  predicate EndedWell(log: seq<Entry>, o: Offset) {
    exists x :: 0 <= x < |log| && WellAt(log[x], o)
  }

  predicate WellAt(e: Entry, o: Offset) {
    e.End? && e.verdict == Done && e.msg.offset == o
  }

  /** The message is on its way out and will complete, or has. */
  predicate Finishing(pc: Pc) {
    pc.Settling? && Completes(pc.fate)
  }

  ghost predicate LogOk(cfg: Config, p: Part) {
    && AttemptsBelow(p.log, MaxAttempts(cfg))
    && (forall o :: o in p.sh.h.completed ==> EndedWell(p.log, o))
    && (forall i :: 0 <= i < |p.agents| && Finishing(p.agents[i].Pc()) ==>
      EndedWell(p.log, p.agents[i].Pc().wk.msg.offset))
  }

  lemma EndedWellMore(log: seq<Entry>, added: seq<Entry>, o: Offset)
    requires EndedWell(log, o) || (exists x :: 0 <= x < |added| && WellAt(added[x], o))
    ensures EndedWell(log + added, o)
  {
    if EndedWell(log, o) {
      var x :| 0 <= x < |log| && WellAt(log[x], o);
      assert WellAt((log + added)[x], o);
    } else {
      var x :| 0 <= x < |added| && WellAt(added[x], o);
      assert WellAt((log + added)[|log| + x], o);
    }
  }

  /** What an event of an agent adds to its history: an allowed attempt, and its good end before it completes. */
  ghost predicate Adds(cfg: Config, a: Agent, b: Agent, added: seq<Entry>) {
    && b.Log() == a.Log() + added
    && AttemptsBelow(added, MaxAttempts(cfg))
    && (Finishing(b.Pc()) ==>
          || (Finishing(a.Pc()) && a.Pc().wk == b.Pc().wk)
          || (exists x :: 0 <= x < |added| && WellAt(added[x], b.Pc().wk.msg.offset)))
  }

  lemma LaneAdds(cfg: Config, l: Lane, e: Event) returns (added: seq<Entry>)
    requires Structure(cfg, l) && Guard(cfg, l, e)
    ensures Adds(cfg, LaneAgent(l), LaneAgent(Next(cfg, l, e)), added)
  {
    var next := Next(cfg, l, e);
    if e.Pick? {
      assert ChainOk(cfg, e.key, l.buf.chains[e.key]);
      var wk := l.buf.chains[e.key].queue[0];
      added := [Begin(wk.msg, wk.attempts)];
    } else if e.Return? || e.Decide? || e.DiscardReturn? {
      added := next.log[|l.log|..];
      assert next.log != l.log ==> next.log == l.log + [next.log[|l.log|]];
    } else {
      added := [];
    }
  }

  lemma TaskAdds(cfg: Config, t: Task, e: Event) returns (added: seq<Entry>)
    requires TaskInv(cfg, t) && TaskGuard(t, e)
    ensures Adds(cfg, TaskAgent(t), TaskAgent(NextTask(cfg, t, e)), added)
  {
    added := NextTask(cfg, t, e).log[|t.log|..];
    assert NextTask(cfg, t, e).log != t.log ==> NextTask(cfg, t, e).log == t.log + [NextTask(cfg, t, e).log[|t.log|]];
  }

  lemma AgentAdds(cfg: Config, a: Agent, i: nat, e: Event) returns (added: seq<Entry>)
    requires AgentOk(cfg, a, i) && AgentGuard(cfg, a, e)
    ensures Adds(cfg, a, NextAgent(cfg, a, e), added)
  {
    match a
    case LaneAgent(l) => added := LaneAdds(cfg, l, e);
    case TaskAgent(t) => added := TaskAdds(cfg, t, e);
  }

  lemma LogAgent(cfg: Config, p: Part, i: nat, e: Event)
    requires AgentsOk(cfg, p.agents) && PartGuard(cfg, p, AgentStep(i, e)) && LogOk(cfg, p)
    ensures LogOk(cfg, Stepped(cfg, p, i, e))
  {
    var added := AgentAdds(cfg, p.agents[i], i, e);
    AgentMoved(cfg, p, Stepped(cfg, p, i, e), i, NextAgent(cfg, p.agents[i], e), added);
  }

  lemma AgentMoved(cfg: Config, p: Part, q: Part, i: nat, b: Agent, added: seq<Entry>)
    requires LogOk(cfg, p) && i < |p.agents| && Adds(cfg, p.agents[i], b, added)
    requires q.agents == p.agents[i := b] && q.log == p.log + added
    requires forall o :: o in q.sh.h.completed ==>
      o in p.sh.h.completed || (Finishing(p.agents[i].Pc()) && p.agents[i].Pc().wk.msg.offset == o)
    ensures LogOk(cfg, q)
  {
    forall o | o in q.sh.h.completed ensures EndedWell(q.log, o) {
      EndedWellMore(p.log, added, o);
    }
    forall j | 0 <= j < |q.agents| && Finishing(q.agents[j].Pc())
      ensures EndedWell(q.log, q.agents[j].Pc().wk.msg.offset) {
      EndedWellMore(p.log, added, q.agents[j].Pc().wk.msg.offset);
    }
  }

  lemma LogPoll(cfg: Config, p: Part, give: bool)
    requires AgentsOk(cfg, p.agents) && PollGuard(cfg, p, give) && LogOk(cfg, p)
    ensures LogOk(cfg, Polled(cfg, p, give))
  {
    var q := Polled(cfg, p, give);
    assert q.sh.h.completed == p.sh.h.completed;
    match LaneEventOf(cfg, p, give)
    case Some((i, e)) =>
      LaneEventGain(cfg, p, give, One());
      PollQuiet(cfg, p.agents[i].lane, e);
      assert q.log == p.log + [];
      AgentMoved(cfg, p, q, i, NextAgent(cfg, p.agents[i], e), []);
    case None =>
      LogSpawn(cfg, p, q);
  }

  /** A push or a close leaves the worker and its history alone. */
  lemma PollQuiet(cfg: Config, l: Lane, e: Event)
    requires Guard(cfg, l, e) && !OwnEvent(e)
    ensures Next(cfg, l, e).log == l.log && Next(cfg, l, e).pc == l.pc
  {
  }

  lemma LogSpawn(cfg: Config, p: Part, q: Part)
    requires LogOk(cfg, p) && q.sh.h.completed == p.sh.h.completed
    requires
      || (q.agents == p.agents && q.log == p.log)
      || exists m :: q.agents == p.agents + [TaskAgent(NewTask(m))] && q.log == p.log + [Begin(m, 0)]
    ensures LogOk(cfg, q)
  {
    var added := q.log[|p.log|..];
    assert q.log == p.log + added;
    forall o | o in q.sh.h.completed ensures EndedWell(q.log, o) {
      EndedWellMore(p.log, added, o);
    }
    forall j | 0 <= j < |q.agents| && Finishing(q.agents[j].Pc())
      ensures EndedWell(q.log, q.agents[j].Pc().wk.msg.offset) {
      assert j < |p.agents| && q.agents[j] == p.agents[j];
      EndedWellMore(p.log, added, q.agents[j].Pc().wk.msg.offset);
    }
  }

  lemma LogStep(cfg: Config, p: Part, ev: PartEvent)
    requires AgentsOk(cfg, p.agents) && LogOk(cfg, p) && PartGuard(cfg, p, ev)
    ensures LogOk(cfg, NextPart(cfg, p, ev))
  {
    match ev
    case AgentStep(i, e) => LogAgent(cfg, p, i, e);
    case PollStep(give) => LogPoll(cfg, p, give);
    case _ => LogSpawn(cfg, p, NextPart(cfg, p, ev));
  }
}
