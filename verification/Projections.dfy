/** The runs of the parts inside the runs of the whole: what holds of the former holds of the latter. */
module Projections {
  import opened Types
  import opened LaneMachine
  import opened LaneTheorems
  import opened PartitionMachine
  import opened PartitionRuns
  import opened PartitionTheorems
  import opened EngineMachine
  import opened EngineInvariant

  // ---------------------------------------------------------------- a lane of a partition worker

  /** What an event of the worker is for lane k. */
  ghost function EventFor(cfg: Config, p: Part, ev: PartEvent, k: nat): Option<Event> {
    match ev
    case AgentStep(i, e) => if i == k then Some(e) else None
    case PollStep(give) =>
      (match LaneEventOf(cfg, p, give)
       case Some((i, e)) => if i == k then Some(e) else None
       case None => None)
    case _ => None
  }

  lemma LaneMoves(cfg: Config, p: Part, ev: PartEvent, k: nat)
    requires PartGuard(cfg, p, ev) && k < |p.agents| && p.agents[k].LaneAgent?
    ensures
      var q := NextPart(cfg, p, ev);
      && k < |q.agents| && q.agents[k].LaneAgent?
      && match EventFor(cfg, p, ev, k)
         case Some(e) => Guard(cfg, p.agents[k].lane, e) && q.agents[k].lane == Next(cfg, p.agents[k].lane, e)
         case None => q.agents[k] == p.agents[k]
  {
  }

  lemma LaneRunMore(cfg: Config, ls: seq<Lane>, es: seq<Event>, e: Event)
    requires LaneRun(cfg, ls, es) && Guard(cfg, ls[|es|], e)
    ensures LaneRun(cfg, ls + [Next(cfg, ls[|es|], e)], es + [e])
  {
    var ms, fs := ls + [Next(cfg, ls[|es|], e)], es + [e];
    forall i | 0 <= i < |fs| ensures LaneStep(cfg, ms, fs, i) {
      if i < |es| {
        assert LaneStep(cfg, ls, es, i);
      }
    }
  }

  /**
   * The states of lane k up to any two points of a run of its worker are those of one run of the lane
   * alone, so every result about lanes holds there.
   */
  lemma {:induction false} LaneRunOf(cfg: Config, ps: seq<Part>, evs: seq<PartEvent>, j: nat, i: nat, k: nat)
    returns (ls: seq<Lane>, es: seq<Event>, a: nat)
    requires PartRun(cfg, ps, evs) && j <= i < |ps| && k < |ps[0].agents|
    ensures k < |ps[j].agents| && k < |ps[i].agents| && ps[j].agents[k].LaneAgent? && ps[i].agents[k].LaneAgent?
    ensures LaneRun(cfg, ls, es) && a <= |es| && ls[a] == ps[j].agents[k].lane && ls[|es|] == ps[i].agents[k].lane
    decreases i + j
  {
    if i == 0 {
      ls, es, a := [NEW_LANE], [], 0;
    } else if j == i {
      ls, es, a := LaneRunOf(cfg, ps, evs, i - 1, i, k);
      a := |es|;
    } else {
      ls, es, a := LaneRunOf(cfg, ps, evs, j, i - 1, k);
      assert PartStep(cfg, ps, evs, i - 1);
      LaneMoves(cfg, ps[i - 1], evs[i - 1], k);
      var e := EventFor(cfg, ps[i - 1], evs[i - 1], k);
      if e.Some? {
        LaneRunMore(cfg, ls, es, e.value);
        ls, es := ls + [Next(cfg, ls[|es|], e.value)], es + [e.value];
      }
    }
  }

  // ---------------------------------------------------------------- a worker of the consumer

  ghost predicate Becomes(cfg: Config, p: Part, ev: PartEvent, q: Part) {
    PartGuard(cfg, p, ev) && q == NextPart(cfg, p, ev)
  }

  lemma WorkerMoves(cfg: Config, w: World, e: Engine, ev: EngineEvent, k: nat)
    requires EngineGuard(cfg, w, e, ev) && k < |e.workers|
    ensures
      var f := NextEngine(cfg, w, e, ev);
      && k < |f.workers|
      && (f.workers[k].part == e.workers[k].part || exists pe :: Becomes(cfg, e.workers[k].part, pe, f.workers[k].part))
  {
    if !ev.Assign? {
      ActionStep(cfg, w, e, ev);
      var a := ActionOf(e, ev);
      if a.Some? && a.value.i == k {
        assert Becomes(cfg, e.workers[k].part, a.value.ev, NextEngine(cfg, w, e, ev).workers[k].part);
      }
    }
  }

  lemma WorkerNew(cfg: Config, w: World, e: Engine, ev: EngineEvent, k: nat)
    requires EngineGuard(cfg, w, e, ev) && |e.workers| <= k < |NextEngine(cfg, w, e, ev).workers|
    ensures
      var p := NextEngine(cfg, w, e, ev).workers[k].part;
      p == NewPart(cfg, p.now)
  {
    if !ev.Assign? {
      ActionStep(cfg, w, e, ev);
    }
  }

  lemma PartRunMore(cfg: Config, ps: seq<Part>, evs: seq<PartEvent>, ev: PartEvent)
    requires PartRun(cfg, ps, evs) && PartGuard(cfg, ps[|evs|], ev)
    ensures PartRun(cfg, ps + [NextPart(cfg, ps[|evs|], ev)], evs + [ev])
  {
    var qs, fs := ps + [NextPart(cfg, ps[|evs|], ev)], evs + [ev];
    forall i | 0 <= i < |fs| ensures PartStep(cfg, qs, fs, i) {
      if i < |evs| {
        assert PartStep(cfg, ps, evs, i);
      }
    }
  }

  /**
   * The states of worker k up to any two points of a run of the consumer are those of one run of the
   * worker alone, so every result about workers holds there.
   */
  lemma {:induction false} PartRunOf(cfg: Config, w: World, es: seq<Engine>, evs: seq<EngineEvent>, j: nat, i: nat,
                                     k: nat)
    returns (ps: seq<Part>, pes: seq<PartEvent>, a: nat)
    requires EngineRun(cfg, w, es, evs) && j <= i < |es| && k < |es[j].workers|
    ensures k < |es[i].workers|
    ensures PartRun(cfg, ps, pes) && a <= |pes| && ps[a] == es[j].workers[k].part && ps[|pes|] == es[i].workers[k].part
    decreases i + j
  {
    if j == i {
      assert EngineStep(cfg, w, es, evs, i - 1);
      if k < |es[i - 1].workers| {
        ps, pes, a := PartRunOf(cfg, w, es, evs, i - 1, i, k);
        a := |pes|;
      } else {
        WorkerNew(cfg, w, es[i - 1], evs[i - 1], k);
        ps, pes, a := [es[i].workers[k].part], [], 0;
      }
    } else {
      ps, pes, a := PartRunOf(cfg, w, es, evs, j, i - 1, k);
      assert EngineStep(cfg, w, es, evs, i - 1);
      WorkerMoves(cfg, w, es[i - 1], evs[i - 1], k);
      if es[i].workers[k].part != es[i - 1].workers[k].part {
        var pe :| Becomes(cfg, es[i - 1].workers[k].part, pe, es[i].workers[k].part);
        PartRunMore(cfg, ps, pes, pe);
        ps, pes := ps + [NextPart(cfg, ps[|pes|], pe)], pes + [pe];
      }
    }
  }

  /** Fatal containment in the whole consumer: no worker's pointer ever passes a message that failed fatally there. */
  lemma FatalContained(cfg: Config, w: World, es: seq<Engine>, evs: seq<EngineEvent>, j: nat, i: nat, k: nat, o: Offset)
    requires ValidConfig(cfg) && EngineRun(cfg, w, es, evs) && j <= i < |es| && k < |es[j].workers|
    requires o in es[j].workers[k].part.sh.h.fatals
    ensures k < |es[i].workers|
    ensures DupFree(es[i].workers[k].part.sh) ==> es[i].workers[k].part.sh.tracker.base <= o
  {
    var ps, pes, a := PartRunOf(cfg, w, es, evs, j, i, k);
    if DupFree(es[i].workers[k].part.sh) {
      FatalContainment(cfg, ps, pes, a, |pes|, o);
    }
  }
}
