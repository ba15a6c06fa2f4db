/** Runs of the consumer in which it does less than it says. */
module EngineWitness {
  import opened Types
  import opened TrackerSpec
  import opened LaneMachine
  import opened PartitionMachine
  import opened PartitionRuns
  import opened PartitionPaths
  import opened EngineMachine

  // ---------------------------------------------------------------- building runs

  /** Some run leads to this state. */
  ghost predicate Attained(cfg: Config, w: World, e: Engine) {
    exists es: seq<Engine>, evs: seq<EngineEvent> :: EngineRun(cfg, w, es, evs) && es[|evs|] == e
  }

  lemma AttainedNew(cfg: Config, w: World)
    ensures Attained(cfg, w, NEW_ENGINE)
  {
    var es: seq<Engine>, evs: seq<EngineEvent> := [NEW_ENGINE], [];
    assert EngineRun(cfg, w, es, evs) && es[|evs|] == NEW_ENGINE;
  }

  lemma AttainedMore(cfg: Config, w: World, e: Engine, ev: EngineEvent)
    requires Attained(cfg, w, e) && EngineGuard(cfg, w, e, ev)
    ensures Attained(cfg, w, NextEngine(cfg, w, e, ev))
  {
    var es: seq<Engine>, evs: seq<EngineEvent> :| EngineRun(cfg, w, es, evs) && es[|evs|] == e;
    var fs, gs := es + [NextEngine(cfg, w, e, ev)], evs + [ev];
    forall i | 0 <= i < |gs| ensures EngineStep(cfg, w, fs, gs, i) {
      if i < |evs| {
        assert EngineStep(cfg, w, es, evs, i);
      }
    }
    assert EngineRun(cfg, w, fs, gs);
    assert fs[|gs|] == NextEngine(cfg, w, e, ev);
  }

  /** Only worker k differs. */
  predicate SameBut(e: Engine, f: Engine, k: nat, q: Part) {
    k < |e.workers| && f == e.(workers := e.workers[k := e.workers[k].(part := q)])
  }

  /** The worker may take all its inward steps: the poll goroutine is inside it. */
  predicate MayMove(e: Engine, k: nat) {
    e.epoch <= k < |e.workers| &&
    (e.main == Routing(k) || (e.main.Draining? && e.main.active && e.main.left != [] && e.main.left[0] == k))
  }

  lemma ReportedStays(cfg: Config, p: Part, ev: PartEvent)
    requires PartGuard(cfg, p, ev)
    ensures p.sh.reported ==> NextPart(cfg, p, ev).sh.reported
  {
  }

  /** Steps inside a worker, none of which reports a fatal error, are steps of the consumer. */
  lemma {:induction false} AttainedAlong(cfg: Config, w: World, e: Engine, k: nat, ps: seq<Part>, evs: seq<PartEvent>,
                                         i: nat)
    returns (f: Engine)
    requires Attained(cfg, w, e) && MayMove(e, k) && Path(cfg, ps, evs) && e.workers[k].part == ps[0] && i < |ps|
    requires !ps[i].sh.reported
    ensures Attained(cfg, w, f) && SameBut(e, f, k, ps[i])
  {
    if i == 0 {
      f := e;
      assert e.workers[k := e.workers[k].(part := ps[0])] == e.workers;
    } else {
      assert PartStep(cfg, ps, evs, i - 1);
      ReportedStays(cfg, ps[i - 1], evs[i - 1]);
      f := AttainedAlong(cfg, w, e, k, ps, evs, i - 1);
      f := AttainedInner(cfg, w, e, f, k, ps[i - 1], evs[i - 1]);
    }
  }

  lemma AttainedInner(cfg: Config, w: World, e: Engine, f: Engine, k: nat, p: Part, pe: PartEvent) returns (g: Engine)
    requires Attained(cfg, w, f) && SameBut(e, f, k, p) && MayMove(e, k) && Inward(pe) && PartGuard(cfg, p, pe)
    requires !NextPart(cfg, p, pe).sh.reported
    ensures Attained(cfg, w, g) && SameBut(e, g, k, NextPart(cfg, p, pe))
  {
    assert f.workers[k].part == p;
    InnerStep(cfg, w, f, k, pe);
    AttainedMore(cfg, w, f, Inner(k, pe));
    g := NextEngine(cfg, w, f, Inner(k, pe));
  }

  lemma InnerStep(cfg: Config, w: World, f: Engine, k: nat, pe: PartEvent)
    requires MayMove(f, k) && Inward(pe) && PartGuard(cfg, f.workers[k].part, pe)
    requires !NextPart(cfg, f.workers[k].part, pe).sh.reported
    ensures EngineGuard(cfg, w, f, Inner(k, pe))
    ensures NextEngine(cfg, w, f, Inner(k, pe)) == Acting(cfg, f, k, pe)
  {
    assert !Reports(f, k, pe);
  }

  lemma AttainedLeads(cfg: Config, w: World, e: Engine, k: nat, q: Part) returns (f: Engine)
    requires Attained(cfg, w, e) && MayMove(e, k) && Leads(cfg, e.workers[k].part, q) && !q.sh.reported
    ensures Attained(cfg, w, f) && SameBut(e, f, k, q)
  {
    var ps: seq<Part>, evs: seq<PartEvent> :| Path(cfg, ps, evs) && ps[0] == e.workers[k].part && ps[|evs|] == q;
    f := AttainedAlong(cfg, w, e, k, ps, evs, |evs|);
  }

  // ---------------------------------------------------------------- the first message

  function FirstWorker(cfg: Config, w: World, tp: TopicPartition, p: Part): Worker {
    Worker(tp, w.start(tp), p)
  }

  function FirstDelivered(cfg: Config, m: Message): Part {
    var p := NewPart(cfg, 0);
    p.(sh := p.sh.(h := p.sh.h.(delivered := [m]), n := p.sh.n.(total := 1)), poll := Seeding(m))
  }

  /** The partition is assigned, and its first record arrives. */
  lemma FirstArrives(cfg: Config, w: World, tp: TopicPartition, m: Message) returns (e: Engine)
    requires m.offset == w.start(tp)
    ensures Attained(cfg, w, e)
    ensures e == NEW_ENGINE.(workers := [FirstWorker(cfg, w, tp, FirstDelivered(cfg, m))], current := map[tp := 0],
      main := Routing(0))
  {
    AttainedNew(cfg, w);
    AttainedMore(cfg, w, NEW_ENGINE, BeginPoll);
    var e1 := NEW_ENGINE.(main := Polling);
    AttainedMore(cfg, w, e1, Assign(tp, 0));
    var e2 := NextEngine(cfg, w, e1, Assign(tp, 0));
    assert e2.workers == [FirstWorker(cfg, w, tp, NewPart(cfg, 0))];
    AttainedMore(cfg, w, e2, Route(tp, m));
    e := NextEngine(cfg, w, e2, Route(tp, m));
    assert [] + [m] == [m];
    assert e.workers == [FirstWorker(cfg, w, tp, FirstDelivered(cfg, m))];
  }

  // ---------------------------------------------------------------- two records, in commit-on-advance mode

  /** The first record has been handled and is behind the pointer; nobody committed anything yet. */
  lemma FirstHandled(cfg: Config, w: World, tp: TopicPartition, m: Message) returns (e: Engine, p: Part, l: Lane)
    requires SingleLane(cfg) && 1 <= cfg.queueSize && m.offset == w.start(tp)
    ensures Attained(cfg, w, e)
    ensures e == NEW_ENGINE.(workers := [FirstWorker(cfg, w, tp, p)], current := map[tp := 0], main := Routing(0))
    ensures OneLane(p, l) && l.pc == Scanning && l.buf == Buffer(map[], 0, false, true, true)
    ensures p.poll.Idle? && !p.closed && p.sh.pending == {} && p.sh.h.delivered != [] && !p.sh.reported
    ensures p.sh.tracker == TrackerSpec.Complete(Seed(FRESH, m.offset), m.offset)
  {
    var e0 := FirstArrives(cfg, w, tp, m);
    var p0 := FirstDelivered(cfg, m);
    assert OneLane(p0, NEW_LANE);
    var p1 := Routes(cfg, p0, m, NEW_LANE);
    var e1 := AttainedLeads(cfg, w, e0, 0, p1);
    SingleHead(KeyOf(cfg, m), Work(m, 0));
    p, l := Handles(cfg, p1, m, Received(cfg, NEW_LANE, m));
    e := AttainedLeads(cfg, w, e1, 0, p);
  }

  /** The next record of the partition arrives at its only worker. */
  lemma NextArrives(cfg: Config, w: World, e: Engine, tp: TopicPartition, p: Part, m: Message)
    returns (f: Engine, q: Part)
    requires Attained(cfg, w, e) && e.main == Routing(0) && e.current == map[tp := 0]
    requires e.workers == [FirstWorker(cfg, w, tp, p)] && p.poll.Idle? && p.sh.h.delivered != []
    requires w.start(tp) <= m.offset
    ensures Attained(cfg, w, f) && f == e.(workers := [FirstWorker(cfg, w, tp, q)])
    ensures q == NextPart(cfg, p, Deliver(m))
  {
    AttainedMore(cfg, w, e, RouteDone);
    var e1 := NextEngine(cfg, w, e, RouteDone);
    AttainedMore(cfg, w, e1, Route(tp, m));
    f, q := NextEngine(cfg, w, e1, Route(tp, m)), NextPart(cfg, p, Deliver(m));
  }

  /** The second record has been handled too, and the next step takes it in as completed. */
  lemma SecondReady(cfg: Config, w: World, tp: TopicPartition, first: Message, second: Message)
    returns (e: Engine, p: Part, l: Lane)
    requires SingleLane(cfg) && 1 <= cfg.queueSize && first.offset == w.start(tp) && second.offset == first.offset + 1
    ensures Attained(cfg, w, e)
    ensures e == NEW_ENGINE.(workers := [FirstWorker(cfg, w, tp, p)], current := map[tp := 0], main := Routing(0))
    ensures OneLane(p, l) && l.pc == Settling(Work(second, 0), Succeeded, Stage.Complete) && p.poll.Idle? && !p.closed
    ensures p.sh.tracker == TrackerSpec.Complete(Seed(FRESH, first.offset), first.offset) && !p.sh.reported
  {
    var e0, p0, l0 := FirstHandled(cfg, w, tp, first);
    FirstCompletes(first.offset);
    var e1, p1 := NextArrives(cfg, w, e0, tp, p0, second);
    var p2 := Routes(cfg, p1, second, l0);
    SingleHead(KeyOf(cfg, second), Work(second, 0));
    var p3, l3 := Succeeds(cfg, p1, p2, second, Received(cfg, l0, second));
    p, l := Tallies(cfg, p1, p3, Work(second, 0), l3);
    e := AttainedLeads(cfg, w, e1, 0, p);
  }

  /** The committer, woken by the first advance, has collected the pointer; the second record completes. */
  lemma CompletesDuringCommit(cfg: Config, w: World, tp: TopicPartition, first: Message, second: Message)
    returns (e: Engine, p: Part, l: Lane)
    requires SingleLane(cfg) && 1 <= cfg.queueSize && first.offset == w.start(tp) && second.offset == first.offset + 1
    ensures Attained(cfg, w, e)
    ensures e == NEW_ENGINE.(workers := [FirstWorker(cfg, w, tp, p)], current := map[tp := 0], main := Routing(0),
                             committer := Sending(map[tp := second.offset]))
    ensures OneLane(p, l) && p.poll.Idle? && !p.closed && !p.sh.reported
    ensures p.sh.tracker.hasBase && p.sh.tracker.base == second.offset + 1
  {
    var e0, p0, l0 := SecondReady(cfg, w, tp, first, second);
    FirstCompletes(first.offset);
    SecondCompletes(first.offset);
    var e1 := PointerCollected(cfg, w, e0, tp, p0, second.offset);
    LeadsSelf(cfg, p0);
    p := Works(cfg, p0, p0, l0, Settle);
    l := Next(cfg, l0, Settle);
    e := AttainedLeads(cfg, w, e1, 0, p);
  }

  lemma PointerCollected(cfg: Config, w: World, e: Engine, tp: TopicPartition, p: Part, v: Offset) returns (f: Engine)
    requires Attained(cfg, w, e) && e.workers == [FirstWorker(cfg, w, tp, p)] && e.current == map[tp := 0]
    requires e.committer == Resting
    requires Collects(true, p.sh.tracker) && p.sh.tracker.base == v
    ensures Attained(cfg, w, f) && f == e.(committer := Sending(map[tp := v]))
  {
    AttainedMore(cfg, w, e, StartCommit(true));
    var e1 := NextEngine(cfg, w, e, StartCommit(true));
    AttainedMore(cfg, w, e1, Collect(tp));
    f := CollectEnded(cfg, w, NextEngine(cfg, w, e1, Collect(tp)), tp, v);
  }

  lemma CollectEnded(cfg: Config, w: World, e: Engine, tp: TopicPartition, v: Offset) returns (f: Engine)
    requires Attained(cfg, w, e) && e.committer == Collecting(true, {}, map[tp := v])
    ensures Attained(cfg, w, f) && f == e.(committer := Sending(map[tp := v]))
  {
    AttainedMore(cfg, w, e, EndCollect);
    assert tp in map[tp := v];
    f := NextEngine(cfg, w, e, EndCollect);
  }

  /** The commit is sent, and its partition marked. */
  lemma CommitMarked(cfg: Config, w: World, e: Engine, tp: TopicPartition, v: Offset) returns (f: Engine)
    requires Attained(cfg, w, e) && e.committer == Sending(map[tp := v]) && Assigned(e, tp)
    ensures Attained(cfg, w, f) && f.wire == e.wire + [map[tp := v]] && f.committer == Resting && f.current == e.current
    ensures f.workers == Acting(cfg, e, e.current[tp], MarkCommit).workers
  {
    AttainedMore(cfg, w, e, Send(true));
    var e1 := NextEngine(cfg, w, e, Send(true));
    assert map[tp := v].Keys == {tp};
    AttainedMore(cfg, w, e1, Mark(tp));
    f := NextEngine(cfg, w, e1, Mark(tp));
    assert {tp} - {tp} == {};
  }

  /** The tracker of the assigned worker is beyond every value ever sent for it, without saying so. */
  predicate Forgotten(e: Engine, tp: TopicPartition) {
    && e.committer == Resting && Assigned(e, tp)
    && var t := e.workers[e.current[tp]].part.sh.tracker;
       t.hasBase && !Collects(true, t) && forall c :: c in e.wire && tp in c ==> c[tp] < t.base
  }

  /**
   * A run of commit-on-advance mode in which the second record completes while the pointer behind the
   * first is being committed, and marking that commit makes the tracker report no progress: the
   * advance was sent nowhere, and the committer skips the partition until another record completes.
   */
  lemma MarkForgets(cfg: Config, w: World, tp: TopicPartition, first: Message, second: Message)
    requires SingleLane(cfg) && 1 <= cfg.queueSize && first.offset == w.start(tp) && second.offset == first.offset + 1
    ensures exists e ::
      && Attained(cfg, w, e) && Forgotten(e, tp)
      && e.wire == [map[tp := second.offset]] && e.current == map[tp := 0]
  {
    var e0, p, l := CompletesDuringCommit(cfg, w, tp, first, second);
    var e := CommitMarked(cfg, w, e0, tp, second.offset);
    assert Forgotten(e, tp) && e.wire == [map[tp := second.offset]];
  }

  // ---------------------------------------------------------------- a late commit

  /**
   * While the committer is sending the pointer behind the first record, the partition is revoked, and
   * the final commit sends the pointer behind the second.
   */
  lemma RevokedDuringCommit(cfg: Config, w: World, tp: TopicPartition, first: Message, second: Message)
    returns (e: Engine)
    requires SingleLane(cfg) && 1 <= cfg.queueSize && first.offset == w.start(tp) && second.offset == first.offset + 1
    ensures Attained(cfg, w, e) && |e.workers| == 1 && e.current == map[] && e.main == Polling && e.epoch == 0
    ensures e.committer == Sending(map[tp := second.offset]) && e.wire == [map[tp := second.offset + 1]]
    ensures e.committed == map[]
  {
    var e0, p, l := CompletesDuringCommit(cfg, w, tp, first, second);
    var e1 := RevokeStarted(cfg, w, e0, tp, p);
    var q := ShutsDown(cfg, p, l);
    var e2 := AttainedLeads(cfg, w, e1, 0, q);
    e := FinallyCommitted(cfg, w, e2, tp, q, second.offset + 1);
  }

  lemma FinallyCommitted(cfg: Config, w: World, e: Engine, tp: TopicPartition, p: Part, v: Offset) returns (f: Engine)
    requires Attained(cfg, w, e) && e.main == Draining(false, false, [0], true, map[]) && e.wire == []
    requires e.workers == [FirstWorker(cfg, w, tp, p)] && p.poll.Drained? && p.sh.tracker.hasBase
    requires p.sh.tracker.base == v
    ensures Attained(cfg, w, f) && f == e.(main := Polling, wire := [map[tp := v]])
  {
    AttainedMore(cfg, w, e, EndDrain);
    var e1 := NextEngine(cfg, w, e, EndDrain);
    assert [0][1..] == [] && e1.main.acc == map[tp := v] && tp in e1.main.acc;
    AttainedMore(cfg, w, e1, FinalCommit(true));
    f := NextEngine(cfg, w, e1, FinalCommit(true));
  }

  /**
   * A position at the broker can go back: the final commit of the revoke lands first, and then the one
   * that the committer had read before it. What lies between was handled, and is handled again.
   */
  lemma PositionGoesBack(cfg: Config, w: World, tp: TopicPartition, first: Message, second: Message)
    requires SingleLane(cfg) && 1 <= cfg.queueSize && first.offset == w.start(tp) && second.offset == first.offset + 1
    ensures exists e, ev ::
      && Attained(cfg, w, e) && EngineGuard(cfg, w, e, ev)
      && Position(w, NextEngine(cfg, w, e, ev), tp) < Position(w, e, tp)
  {
    var e0 := RevokedDuringCommit(cfg, w, tp, first, second);
    AttainedMore(cfg, w, e0, Land(0, tp));
    var e1 := NextEngine(cfg, w, e0, Land(0, tp));
    AttainedMore(cfg, w, e1, Send(true));
    var e2 := NextEngine(cfg, w, e1, Send(true));
    assert e2.wire[1] == map[tp := second.offset];
    assert EngineGuard(cfg, w, e2, Land(1, tp));
    assert Position(w, NextEngine(cfg, w, e2, Land(1, tp)), tp) < Position(w, e2, tp);
  }

  /** The partition comes back with a new worker, which handles the third record. */
  lemma Reassigned(cfg: Config, w: World, e: Engine, tp: TopicPartition, third: Message) returns (f: Engine)
    requires SingleLane(cfg) && 1 <= cfg.queueSize
    requires Attained(cfg, w, e) && |e.workers| == 1 && e.current == map[] && e.main == Polling && e.epoch == 0
    requires e.committer.Sending? && e.wire != [] && e.wire[0] == map[tp := third.offset]
    ensures Attained(cfg, w, f) && f.current == map[tp := 1] && |f.workers| == 2 && f.committer == e.committer
    ensures f.wire == e.wire
    ensures f.workers[1].part.sh.tracker == TrackerSpec.Complete(Seed(FRESH, third.offset), third.offset)
  {
    var e1 := ArrivesAgain(cfg, w, e, tp, third);
    var p1 := FirstDelivered(cfg, third);
    assert OneLane(p1, NEW_LANE);
    var p2 := Routes(cfg, p1, third, NEW_LANE);
    var e2 := AttainedLeads(cfg, w, e1, 1, p2);
    SingleHead(KeyOf(cfg, third), Work(third, 0));
    var p3, l3 := Handles(cfg, p2, third, Received(cfg, NEW_LANE, third));
    f := AttainedLeads(cfg, w, e2, 1, p3);
  }

  lemma ArrivesAgain(cfg: Config, w: World, e: Engine, tp: TopicPartition, m: Message) returns (f: Engine)
    requires Attained(cfg, w, e) && |e.workers| == 1 && e.current == map[] && e.main == Polling && e.epoch == 0
    requires e.committer.Sending? && e.wire != [] && e.wire[0] == map[tp := m.offset]
    ensures Attained(cfg, w, f) && f.current == map[tp := 1] && f.main == Routing(1) && f.epoch == 0
    ensures f.committer == e.committer && f.wire == e.wire
    ensures |f.workers| == 2 && f.workers[1].part == FirstDelivered(cfg, m)
  {
    var e1 := AssignedAgain(cfg, w, e, tp, m.offset);
    AttainedMore(cfg, w, e1, Route(tp, m));
    f := NextEngine(cfg, w, e1, Route(tp, m));
    assert [] + [m] == [m];
  }

  lemma AssignedAgain(cfg: Config, w: World, e: Engine, tp: TopicPartition, v: Offset) returns (f: Engine)
    requires Attained(cfg, w, e) && |e.workers| == 1 && e.current == map[] && e.main == Polling
    requires e.committer.Sending? && e.wire != [] && e.wire[0] == map[tp := v]
    ensures Attained(cfg, w, f)
    ensures f == e.(committed := e.committed[tp := v], current := map[tp := 1],
                    workers := e.workers + [Worker(tp, v, NewPart(cfg, 0))])
  {
    AttainedMore(cfg, w, e, Land(0, tp));
    var e1 := NextEngine(cfg, w, e, Land(0, tp));
    AttainedMore(cfg, w, e1, Assign(tp, 0));
    f := NextEngine(cfg, w, e1, Assign(tp, 0));
    assert map[][tp := 1] == map[tp := 1];
  }

  /**
   * A run in which the mark hits another worker than the commit: the partition was revoked and came
   * back while the commit was under way. The new worker's pointer was in no commit at all, and its
   * tracker reports no progress.
   */
  lemma MarkForgetsLater(cfg: Config, w: World, tp: TopicPartition, first: Message, second: Message, third: Message)
    requires SingleLane(cfg) && 1 <= cfg.queueSize && first.offset == w.start(tp)
    requires second.offset == first.offset + 1 && third.offset == second.offset + 1
    ensures exists e ::
      && Attained(cfg, w, e) && Forgotten(e, tp)
      && e.wire == [map[tp := third.offset], map[tp := second.offset]] && e.current == map[tp := 1]
  {
    var e0 := RevokedDuringCommit(cfg, w, tp, first, second);
    var e1 := Reassigned(cfg, w, e0, tp, third);
    FirstCompletes(third.offset);
    var e := CommitMarked(cfg, w, e1, tp, second.offset);
    assert Forgotten(e, tp) && e.wire == [map[tp := third.offset], map[tp := second.offset]];
  }

  // ---------------------------------------------------------------- a failed revoke commit is lost

  /** In Unordered mode, a step of route up to the start of the goroutine. */
  lemma Steps(cfg: Config, from: Part, p: Part, next: Poll) returns (q: Part)
    requires Leads(cfg, from, p) && cfg.mode == Unordered && p.sem == 0 && 1 <= cfg.concurrency && !p.closed
    requires p.poll.Seeding? || p.poll.Checking? || p.poll.Admitting? || p.poll.Marking? || p.poll.Joining?
      || p.poll.Counting? || p.poll.Pushing?
    requires next == RoutePoll(cfg.mode, p.sh, false, p.poll, false, false, 0, 0)
    ensures Leads(cfg, from, q) && q.poll == next && !q.closed && (q.sem == 0 || p.poll.Pushing?)
    ensures q.sh == RouteShared(cfg.mode, p.sh, false, p.poll, false)
  {
    LeadsMore(cfg, from, p, PollStep(false));
    q := NextPart(cfg, p, PollStep(false));
  }

  lemma Marked(cfg: Config, m: Message) returns (q: Part)
    requires cfg.mode == Unordered && 1 <= cfg.concurrency
    ensures Leads(cfg, FirstDelivered(cfg, m), q) && q.poll == Marking(m) && !q.closed && q.sem == 0
    ensures q.sh.tracker == Seed(FRESH, m.offset) && !q.sh.reported
  {
    var p := FirstDelivered(cfg, m);
    LeadsSelf(cfg, p);
    var p1 := Steps(cfg, p, p, Checking(m));
    var p2 := Steps(cfg, p, p1, Admitting(m));
    q := Steps(cfg, p, p2, Marking(m));
  }

  lemma Spawned(cfg: Config, m: Message) returns (q: Part)
    requires cfg.mode == Unordered && 1 <= cfg.concurrency
    ensures Leads(cfg, FirstDelivered(cfg, m), q) && q.poll == Idle && !q.closed
    ensures q.sh.tracker == Seed(FRESH, m.offset) && !q.sh.reported
  {
    var p := FirstDelivered(cfg, m);
    var p3 := Marked(cfg, m);
    var p4 := Steps(cfg, p, p3, Joining(m));
    var p5 := Steps(cfg, p, p4, Counting(m));
    var p6 := Steps(cfg, p, p5, Pushing(m));
    q := Steps(cfg, p, p6, Idle);
  }

  /** Waiting for the message times out. */
  lemma GivesUp(cfg: Config, p: Part) returns (q: Part)
    requires cfg.mode == Unordered && p.poll == Idle && !p.closed
    ensures Leads(cfg, NextPart(cfg, p, StartDrain), q) && q.poll.Drained? && q.sh == p.sh
  {
    var p1 := NextPart(cfg, p, StartDrain);
    LeadsSelf(cfg, p1);
    LeadsMore(cfg, p1, p1, PollStep(true));
    q := NextPart(cfg, p1, PollStep(true));
  }

  /** The callback of the revoke has drained the only worker and is about to commit its pointer. */
  lemma RevokeCollected(cfg: Config, w: World, tp: TopicPartition, m: Message) returns (e: Engine)
    requires cfg.mode == Unordered && 1 <= cfg.concurrency && m.offset == w.start(tp)
    ensures Attained(cfg, w, e) && e.main == Draining(false, false, [], false, map[tp := m.offset])
    ensures e.current == map[] && !e.fatalCh
  {
    var e0 := FirstArrives(cfg, w, tp, m);
    var p := Spawned(cfg, m);
    var e1 := AttainedLeads(cfg, w, e0, 0, p);
    var e2 := RevokeStarted(cfg, w, e1, tp, p);
    var q := GivesUp(cfg, p);
    var e3 := AttainedLeads(cfg, w, e2, 0, q);
    AttainedMore(cfg, w, e3, EndDrain);
    e := NextEngine(cfg, w, e3, EndDrain);
    assert [0][1..] == [];
  }

  lemma RevokeStarted(cfg: Config, w: World, e: Engine, tp: TopicPartition, p: Part) returns (f: Engine)
    requires Attained(cfg, w, e) && e.workers == [FirstWorker(cfg, w, tp, p)] && e.current == map[tp := 0]
    requires e.main == Routing(0)
    requires MutexFree(e) && p.poll == Idle
    ensures Attained(cfg, w, f)
    ensures f == e.(main := Draining(false, false, [0], true, map[]), current := map[],
                    workers := [FirstWorker(cfg, w, tp, NextPart(cfg, p, StartDrain))])
  {
    AttainedMore(cfg, w, e, RouteDone);
    var e1 := NextEngine(cfg, w, e, RouteDone);
    var e2 := Revoking(cfg, w, e1, tp);
    AttainedMore(cfg, w, e2, BeginDrain);
    f := NextEngine(cfg, w, e2, BeginDrain);
  }

  lemma Revoking(cfg: Config, w: World, e: Engine, tp: TopicPartition) returns (f: Engine)
    requires Attained(cfg, w, e) && |e.workers| == 1 && e.current == map[tp := 0] && e.main == Polling && MutexFree(e)
    ensures Attained(cfg, w, f) && f == e.(current := map[], main := Draining(false, false, [0], false, map[]))
  {
    assert Victims(e, {tp}, [0]);
    AttainedMore(cfg, w, e, Revoke({tp}, [0]));
    f := NextEngine(cfg, w, e, Revoke({tp}, [0]));
    assert map[tp := 0] - {tp} == map[];
  }

  /**
   * A run in which the final commit of a revoke fails and Run returns no error: the Poll that ran the
   * callback also sees the context end, and the run loop never looks at the failure.
   */
  lemma RevokeFailureLost(cfg: Config, w: World, tp: TopicPartition, m: Message)
    requires cfg.mode == Unordered && 1 <= cfg.concurrency && m.offset == w.start(tp)
    ensures exists e :: Attained(cfg, w, e) && e.revokeFailed && e.main == Returned(false)
  {
    var e0 := RevokeCollected(cfg, w, tp, m);
    assert tp in map[tp := m.offset];
    AttainedMore(cfg, w, e0, FinalCommit(false));
    var e1 := NextEngine(cfg, w, e0, FinalCommit(false));
    AttainedMore(cfg, w, e1, PollFails(false));
    var e2 := NextEngine(cfg, w, e1, PollFails(false));
    assert Victims(e2, {}, []);
    AttainedMore(cfg, w, e2, CheckFatal([]));
    var e3 := NextEngine(cfg, w, e2, CheckFatal([]));
    AttainedMore(cfg, w, e3, FinalCommit(true));
    assert NextEngine(cfg, w, e3, FinalCommit(true)).main == Returned(false);
  }
}
