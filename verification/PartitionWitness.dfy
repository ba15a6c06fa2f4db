/** Runs of a partition worker in which it does what it is not expected to do. */
module PartitionWitness {
  import opened Types
  import opened TrackerSpec
  import opened LaneMachine
  import opened PartitionMachine
  import opened PartitionPaths
  import opened PartitionTheorems
  import opened PartitionRuns
  import opened PartitionDrain
  import opened WorkerObject

  /** A message is delivered to a worker and routed into its only lane. */
  lemma DeliveredAndRouted(cfg: Config, p: Part, m: Message, l: Lane) returns (q: Part)
    requires Reached(cfg, p) && SingleLane(cfg) && OneLane(p, l) && p.poll.Idle? && !p.closed
    requires Seed(p.sh.tracker, m.offset).base <= m.offset && m.offset !in p.sh.pending
    requires l.buf.accepting && l.buf.slots < cfg.queueSize
    ensures Reached(cfg, q) && OneLane(q, Received(cfg, l, m)) && q.poll.Idle? && !q.closed
    ensures q.sh.n.count == p.sh.n.count + 1 && q.sh.tracker == Seed(p.sh.tracker, m.offset)
    ensures q.sh.pending == p.sh.pending + {m.offset} && q.sh.h.completed == p.sh.h.completed
  {
    ReachedMore(cfg, p, Deliver(m));
    var p1 := NextPart(cfg, p, Deliver(m));
    q := Routes(cfg, p1, m, l);
    ReachedLeads(cfg, p1, q);
  }

  /** The first message, alone in its lane. */
  lemma FirstRouted(cfg: Config, m: Message) returns (q: Part, l: Lane)
    requires SingleLane(cfg) && 1 <= cfg.queueSize
    ensures Reached(cfg, q) && OneLane(q, l) && q.poll.Idle? && !q.closed
    ensures l.pc == Scanning && l.buf == Buffer(map[KeyOf(cfg, m) := Chain([Work(m, 0)], Never)], 1, false, true, true)
    ensures q.sh.n.count == 1 && q.sh.tracker == Seed(FRESH, m.offset) && q.sh.pending == {m.offset}
    ensures q.sh.h.completed == multiset{}
  {
    ReachedNew(cfg, 0);
    var p := NewPart(cfg, 0);
    assert OneLane(p, NEW_LANE);
    q := DeliveredAndRouted(cfg, p, m, NEW_LANE);
    l := Received(cfg, NEW_LANE, m);
    SingleHead(KeyOf(cfg, m), Work(m, 0));
  }

  /**
   * The cap that route enforces by blocking is not the most that is in flight: with one lane and one
   * slot two messages are, outside route, when the second takes the slot that the first has freed.
   */
  lemma NaturalCapExceeded(cfg: Config, first: Message, second: Message)
    requires SingleLane(cfg) && cfg.queueSize == 1 && second.offset == first.offset + 1
    ensures exists p :: Reached(cfg, p) && p.poll.Idle? && NaturalCap(cfg) < p.sh.n.count
  {
    var p, l := FirstRouted(cfg, first);
    SingleHead(KeyOf(cfg, first), Work(first, 0));
    LeadsSelf(cfg, p);
    var p1, l1 := Succeeds(cfg, p, p, first, l);
    var p2, l2 := Finishes(cfg, p, p1, Work(first, 0), l1);
    var p3, l3 := FreesSlot(cfg, p, p2, Work(first, 0), l2);
    ReachedLeads(cfg, p, p3);
    FirstCompletes(first.offset);
    var p4 := DeliveredAndRouted(cfg, p3, second, l3);
    assert p4.sh.n.count == 2;
  }

  /**
   * An offset can complete ahead of an earlier one, and when it is delivered again it is routed again:
   * it has completed, it is not skipped, and a lane takes it.
   */
  lemma CompletedRunsAgain(cfg: Config, first: Message, second: Message)
    requires SingleLane(cfg) && 2 <= cfg.queueSize && second.offset == first.offset + 1
    requires KeyOf(cfg, first) != KeyOf(cfg, second)
    ensures exists p, l ::
      && Reached(cfg, p) && OneLane(p, l) && p.poll.Idle? && !p.closed
      && second.offset in p.sh.h.completed && second.offset in p.sh.tracker.done && second.offset !in p.sh.pending
      && RoutingOf(cfg.mode, p.sh, p.closed, second.offset, false, l.buf.accepting) == Entered
  {
    var p, l := FirstRouted(cfg, first);
    var p1 := DeliveredAndRouted(cfg, p, second, l);
    var l1 := Received(cfg, l, second);
    LeadsSelf(cfg, p1);
    var p2, l2 := Succeeds(cfg, p1, p1, second, l1);
    var p3, l3 := Finishes(cfg, p1, p2, Work(second, 0), l2);
    ReachedLeads(cfg, p1, p3);
    SecondWaits(first.offset);
    assert l3.buf.accepting;
  }

  lemma SecondWaits(o: Offset)
    ensures
      var t := TrackerSpec.Complete(Seed(FRESH, o), o + 1);
      t.hasBase && t.base == o && t.done == {o + 1}
  {
    var t := Seed(FRESH, o);
    assert t.(done := t.done + {o + 1}).done == {o + 1};
  }

  // ---------------------------------------------------------------- a message nobody will handle

  /** The context ends, and the worker of the only lane leaves. */
  lemma WorkerLeft(cfg: Config) returns (p: Part, l: Lane)
    requires SingleLane(cfg)
    ensures Reached(cfg, p) && OneLane(p, l) && p.poll.Idle? && !p.closed && p.sh == NEW_SHARED.(cancelled := true)
    ensures l.pc == Exited && l.buf == EMPTY_BUFFER
  {
    ReachedNew(cfg, 0);
    var p0 := NewPart(cfg, 0);
    assert OneLane(p0, NEW_LANE);
    ReachedMore(cfg, p0, CancelContext);
    var p1 := NextPart(cfg, p0, CancelContext);
    var p2 := Does(cfg, p1, NEW_LANE, Park(Never, 0));
    var l2 := Next(cfg, NEW_LANE, Park(Never, 0));
    assert NonEmpty(map[]) == map[];
    var p3 := Does(cfg, p2, l2, Quit);
    var l3 := Next(cfg, l2, Quit);
    p := Does(cfg, p3, l3, Gather([]));
    l := Next(cfg, l3, Gather([]));
  }

  lemma Does(cfg: Config, p: Part, l: Lane, e: Event) returns (q: Part)
    requires Reached(cfg, p) && OneLane(p, l) && Guard(cfg, l, e) && p.sh.cancelled
    requires (e.Park? && e.now == p.now) || e.Quit? || e.Gather?
    ensures Reached(cfg, q) && OneLane(q, Next(cfg, l, e)) && q.poll == p.poll && q.closed == p.closed && q.now == p.now
    ensures q.sh == p.sh
  {
    ReachedMore(cfg, p, AgentStep(0, e));
    q := NextPart(cfg, p, AgentStep(0, e));
  }

  /** And a message that was polled before is routed all the same, accepted, and stranded. */
  lemma StrandedAfterCancel(cfg: Config, m: Message)
    requires SingleLane(cfg) && 1 <= cfg.queueSize
    ensures exists p :: Reached(cfg, p) && p.poll.Idle? && !p.closed && Stranding(p, 0) && m.offset in p.sh.pending
  {
    var p, l := WorkerLeft(cfg);
    var q := DeliveredAndRouted(cfg, p, m, l);
    SingleHead(KeyOf(cfg, m), Work(m, 0));
    var chains := Received(cfg, l, m).buf.chains;
    assert KeyOf(cfg, m) in chains && chains[KeyOf(cfg, m)].queue != [];
    assert Stranding(q, 0);
  }

  // ---------------------------------------------------------------- a duplicate that stays counted

  /** The first message is delivered once more while it is pending, and skipped. */
  lemma SkippedDuplicate(cfg: Config, m: Message) returns (p: Part, l: Lane)
    requires SingleLane(cfg) && 1 <= cfg.queueSize
    ensures Reached(cfg, p) && OneLane(p, l) && l.pc == Scanning && p.poll.Idle? && m.offset in p.sh.h.skipped
  {
    var p0, l0 := FirstRouted(cfg, m);
    ReachedMore(cfg, p0, Deliver(m));
    var p1 := NextPart(cfg, p0, Deliver(m));
    LeadsSelf(cfg, p1);
    var p2 := Bookkeeping(cfg, p1, p1, l0);
    var p3 := Bookkeeping(cfg, p1, p2, l0);
    p := Bookkeeping(cfg, p1, p3, l0);
    l := l0;
    ReachedLeads(cfg, p1, p);
  }

  /** Then the consumer-wide count is above what is in flight, and nothing ever takes the difference out. */
  lemma DuplicateStaysCounted(cfg: Config, m: Message)
    requires ValidConfig(cfg) && SingleLane(cfg)
    ensures exists p :: Reached(cfg, p) && Calm(p) && p.sh.n.count < p.sh.n.total
  {
    var p, l := SkippedDuplicate(cfg, m);
    var ps: seq<Part>, evs: seq<PartEvent> :| PartRun(cfg, ps, evs) && ps[|evs|] == p;
    assert Calm(p);
    CounterConservation(cfg, ps, evs, |evs|);
    assert 0 < |p.sh.h.skipped| by {
      assert m.offset in p.sh.h.skipped;
      assert p.sh.h.skipped == p.sh.h.skipped - multiset{m.offset} + multiset{m.offset};
    }
  }
}
