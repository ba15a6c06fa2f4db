/** Pieces of runs of a partition worker with one lane, to build whole runs from. */
module PartitionPaths {
  import opened Types
  import opened TrackerSpec
  import opened LaneMachine
  import opened PartitionMachine
  import opened PartitionRuns

  // ---------------------------------------------------------------- paths

  /** Steps that are taken inside the worker. */
  predicate Inward(ev: PartEvent) {
    ev.AgentStep? || ev.PollStep?
  }

  ghost predicate Path(cfg: Config, ps: seq<Part>, evs: seq<PartEvent>) {
    && |ps| == |evs| + 1
    && (forall i :: 0 <= i < |evs| ==> Inward(evs[i]))
    && forall i :: 0 <= i < |evs| ==> PartStep(cfg, ps, evs, i)
  }

  /** Such steps lead from p to q. */
  ghost predicate Leads(cfg: Config, p: Part, q: Part) {
    exists ps: seq<Part>, evs: seq<PartEvent> :: Path(cfg, ps, evs) && ps[0] == p && ps[|evs|] == q
  }

  lemma LeadsSelf(cfg: Config, p: Part)
    ensures Leads(cfg, p, p)
  {
    var ps: seq<Part>, evs: seq<PartEvent> := [p], [];
    assert Path(cfg, ps, evs) && ps[|evs|] == p;
  }

  lemma LeadsMore(cfg: Config, from: Part, p: Part, ev: PartEvent)
    requires Leads(cfg, from, p) && PartGuard(cfg, p, ev) && Inward(ev)
    ensures Leads(cfg, from, NextPart(cfg, p, ev))
  {
    var ps: seq<Part>, evs: seq<PartEvent> :| Path(cfg, ps, evs) && ps[0] == from && ps[|evs|] == p;
    var qs, fs := ps + [NextPart(cfg, p, ev)], evs + [ev];
    forall i | 0 <= i < |fs| ensures PartStep(cfg, qs, fs, i) {
      if i < |evs| {
        assert PartStep(cfg, ps, evs, i);
      }
    }
    assert Path(cfg, qs, fs);
    assert qs[|fs|] == NextPart(cfg, p, ev);
  }

  /** Some run leads to this state. */
  ghost predicate Reached(cfg: Config, p: Part) {
    exists ps: seq<Part>, evs: seq<PartEvent> :: PartRun(cfg, ps, evs) && ps[|evs|] == p
  }

  lemma ReachedNew(cfg: Config, now: int)
    ensures Reached(cfg, NewPart(cfg, now))
  {
    var ps: seq<Part>, evs: seq<PartEvent> := [NewPart(cfg, now)], [];
    assert PartRun(cfg, ps, evs) && ps[|evs|] == NewPart(cfg, now);
  }

  lemma ReachedMore(cfg: Config, p: Part, ev: PartEvent)
    requires Reached(cfg, p) && PartGuard(cfg, p, ev)
    ensures Reached(cfg, NextPart(cfg, p, ev))
  {
    var ps: seq<Part>, evs: seq<PartEvent> :| PartRun(cfg, ps, evs) && ps[|evs|] == p;
    var qs, fs := ps + [NextPart(cfg, p, ev)], evs + [ev];
    forall i | 0 <= i < |fs| ensures PartStep(cfg, qs, fs, i) {
      if i < |evs| {
        assert PartStep(cfg, ps, evs, i);
      }
    }
    assert PartRun(cfg, qs, fs);
    assert qs[|fs|] == NextPart(cfg, p, ev);
  }

  lemma {:induction false} ReachedAlong(cfg: Config, ps: seq<Part>, evs: seq<PartEvent>, i: nat)
    requires Path(cfg, ps, evs) && i < |ps| && Reached(cfg, ps[0])
    ensures Reached(cfg, ps[i])
  {
    if 0 < i {
      ReachedAlong(cfg, ps, evs, i - 1);
      assert PartStep(cfg, ps, evs, i - 1);
      ReachedMore(cfg, ps[i - 1], evs[i - 1]);
    }
  }

  lemma ReachedLeads(cfg: Config, p: Part, q: Part)
    requires Reached(cfg, p) && Leads(cfg, p, q)
    ensures Reached(cfg, q)
  {
    var ps: seq<Part>, evs: seq<PartEvent> :| Path(cfg, ps, evs) && ps[0] == p && ps[|evs|] == q;
    ReachedAlong(cfg, ps, evs, |evs|);
  }

  // ---------------------------------------------------------------- a message is routed

  predicate SingleLane(cfg: Config) {
    cfg.mode == KeyOrdered && cfg.lanes == 1
  }

  ghost predicate OneLane(p: Part, l: Lane) {
    p.agents == [LaneAgent(l)]
  }

  /** The steps of route outside the lane. */
  lemma Bookkeeping(cfg: Config, from: Part, p: Part, l: Lane) returns (q: Part)
    requires Leads(cfg, from, p) && SingleLane(cfg) && OneLane(p, l)
    requires p.poll.Seeding? || p.poll.Checking? || p.poll.Admitting? || p.poll.Marking? || p.poll.Joining?
      || p.poll.Counting?
    ensures Leads(cfg, from, q) && OneLane(q, l) && q.closed == p.closed && q.now == p.now
    ensures q.sh == RouteShared(cfg.mode, p.sh, p.closed, p.poll, false)
    ensures q.poll == RoutePoll(cfg.mode, p.sh, p.closed, p.poll, false, false, 0, 1)
  {
    LeadsMore(cfg, from, p, PollStep(false));
    q := NextPart(cfg, p, PollStep(false));
  }

  /** The steps of route inside it. */
  lemma Handover(cfg: Config, from: Part, p: Part, l: Lane, e: Event) returns (q: Part)
    requires Leads(cfg, from, p) && SingleLane(cfg) && OneLane(p, l) && Guard(cfg, l, e)
    requires match p.poll
      case Pushing(m) => e == Reserve
      case Appending(m) => l.buf.accepting && e == Push(m)
      case Signalling(i) => i == 0 && e == Notify
      case _ => false
    ensures Leads(cfg, from, q) && OneLane(q, Next(cfg, l, e)) && q.closed == p.closed && q.now == p.now && q.sh == p.sh
    ensures q.poll == match p.poll
      case Pushing(m) => Appending(m)
      case Appending(m) => Signalling(0)
      case _ => Idle
  {
    LeadsMore(cfg, from, p, PollStep(false));
    q := NextPart(cfg, p, PollStep(false));
  }

  /** The lane after it accepted a message. */
  function Received(cfg: Config, l: Lane, m: Message): Lane {
    l.(buf := Buffer(Enqueue(l.buf.chains, KeyOf(cfg, m), Work(m, 0)), l.buf.slots + 1, l.buf.closed, true, true),
       arrived := l.arrived + [m])
  }

  /** From the message's delivery to the point where it asks for a slot. */
  lemma Announced(cfg: Config, p: Part, m: Message, l: Lane) returns (q: Part)
    requires SingleLane(cfg) && OneLane(p, l) && p.poll == Seeding(m) && !p.closed
    requires Seed(p.sh.tracker, m.offset).base <= m.offset && m.offset !in p.sh.pending
    ensures Leads(cfg, p, q) && OneLane(q, l) && q.poll == Pushing(m) && !q.closed && q.now == p.now
    ensures q.sh.n.count == p.sh.n.count + 1 && q.sh.tracker == Seed(p.sh.tracker, m.offset)
    ensures q.sh.pending == p.sh.pending + {m.offset} && q.sh.h.completed == p.sh.h.completed
    ensures q.sh.reported == p.sh.reported && q.sh.h.delivered == p.sh.h.delivered
  {
    LeadsSelf(cfg, p);
    var p1 := Bookkeeping(cfg, p, p, l);
    var p2 := Bookkeeping(cfg, p, p1, l);
    var p3 := Bookkeeping(cfg, p, p2, l);
    var p4 := Bookkeeping(cfg, p, p3, l);
    var p5 := Bookkeeping(cfg, p, p4, l);
    q := Bookkeeping(cfg, p, p5, l);
  }

  lemma Accepted(cfg: Config, from: Part, p: Part, m: Message, l: Lane) returns (q: Part)
    requires Leads(cfg, from, p) && SingleLane(cfg) && OneLane(p, l) && p.poll == Pushing(m)
    requires l.buf.accepting && l.buf.slots < cfg.queueSize
    ensures Leads(cfg, from, q) && OneLane(q, Received(cfg, l, m)) && q.poll.Idle? && q.closed == p.closed
    ensures q.now == p.now
    ensures q.sh == p.sh
  {
    var l1 := Next(cfg, l, Reserve);
    var p1 := Handover(cfg, from, p, l, Reserve);
    var l2 := Next(cfg, l1, Push(m));
    var p2 := Handover(cfg, from, p1, l1, Push(m));
    q := Handover(cfg, from, p2, l2, Notify);
    assert Next(cfg, l2, Notify) == Received(cfg, l, m);
  }

  /** Routing as a whole, from the delivery on. */
  lemma Routes(cfg: Config, p: Part, m: Message, l: Lane) returns (q: Part)
    requires SingleLane(cfg) && OneLane(p, l) && p.poll == Seeding(m) && !p.closed
    requires Seed(p.sh.tracker, m.offset).base <= m.offset && m.offset !in p.sh.pending
    requires l.buf.accepting && l.buf.slots < cfg.queueSize
    ensures Leads(cfg, p, q) && OneLane(q, Received(cfg, l, m)) && q.poll.Idle? && !q.closed && q.now == p.now
    ensures q.sh.n.count == p.sh.n.count + 1 && q.sh.tracker == Seed(p.sh.tracker, m.offset)
    ensures q.sh.pending == p.sh.pending + {m.offset} && q.sh.h.completed == p.sh.h.completed
    ensures q.sh.reported == p.sh.reported && q.sh.h.delivered == p.sh.h.delivered
  {
    var p1 := Announced(cfg, p, m, l);
    q := Accepted(cfg, p, p1, m, l);
  }

  // ---------------------------------------------------------------- and served

  lemma Works(cfg: Config, from: Part, p: Part, l: Lane, e: Event) returns (q: Part)
    requires Leads(cfg, from, p) && OneLane(p, l) && Guard(cfg, l, e)
    requires e.Return? || e.Settle? || (e.Pick? && e.now == p.now)
    ensures Leads(cfg, from, q) && OneLane(q, Next(cfg, l, e)) && q.poll == p.poll && q.closed == p.closed
    ensures q.now == p.now
    ensures q.sh == AgentEffect(p.sh, Passing(l.pc, e))
  {
    LeadsMore(cfg, from, p, AgentStep(0, e));
    q := NextPart(cfg, p, AgentStep(0, e));
  }

  /** The only message of a chain is taken, and its handler succeeds. */
  lemma Succeeds(cfg: Config, from: Part, p: Part, m: Message, l: Lane) returns (q: Part, done: Lane)
    requires Leads(cfg, from, p) && OneLane(p, l) && l.pc == Scanning
    requires KeyOf(cfg, m) in l.buf.chains && l.buf.chains[KeyOf(cfg, m)] == Chain([Work(m, 0)], Never)
    ensures Leads(cfg, from, q) && OneLane(q, done) && q.poll == p.poll && q.closed == p.closed
    ensures q.now == p.now && q.sh == p.sh
    ensures done.pc == Settling(Work(m, 0), Succeeded, Tally)
    ensures done.buf == l.buf.(chains := TakeHead(l.buf.chains, KeyOf(cfg, m)))
  {
    var e := Pick(KeyOf(cfg, m), {}, p.now);
    assert TakeHead(l.buf.chains, KeyOf(cfg, m)) - {} == TakeHead(l.buf.chains, KeyOf(cfg, m));
    var p1 := Works(cfg, from, p, l, e);
    q := Works(cfg, from, p1, Next(cfg, l, e), Return(true));
    done := Next(cfg, Next(cfg, l, e), Return(true));
  }

  /** The message is counted, and about to reach the tracker. */
  lemma Tallies(cfg: Config, from: Part, p: Part, wk: Work, l: Lane) returns (q: Part, tallied: Lane)
    requires Leads(cfg, from, p) && OneLane(p, l) && l.pc == Settling(wk, Succeeded, Tally)
    ensures Leads(cfg, from, q) && OneLane(q, tallied) && q.poll == p.poll && q.closed == p.closed && q.now == p.now
    ensures tallied == l.(pc := Settling(wk, Succeeded, Stage.Complete))
    ensures q.sh == p.sh.(n := q.sh.n) && q.sh.n.count == p.sh.n.count
  {
    q := Works(cfg, from, p, l, Settle);
    tallied := Next(cfg, l, Settle);
  }

  lemma Finishes(cfg: Config, from: Part, p: Part, wk: Work, l: Lane) returns (q: Part, finished: Lane)
    requires Leads(cfg, from, p) && OneLane(p, l) && l.pc == Settling(wk, Succeeded, Tally)
    ensures Leads(cfg, from, q) && OneLane(q, finished) && q.poll == p.poll && q.closed == p.closed && q.now == p.now
    ensures finished == l.(pc := Settling(wk, Succeeded, Advance))
    ensures q.sh.n.count == p.sh.n.count && q.sh.pending == p.sh.pending - {wk.msg.offset}
    ensures q.sh.tracker == TrackerSpec.Complete(p.sh.tracker, wk.msg.offset)
    ensures q.sh.h.completed == p.sh.h.completed + multiset{wk.msg.offset}
    ensures q.sh.reported == p.sh.reported && q.sh.h.delivered == p.sh.h.delivered
  {
    var p1, l1 := Tallies(cfg, from, p, wk, l);
    var p2 := Works(cfg, from, p1, l1, Settle);
    var l2 := Next(cfg, l1, Settle);
    q := Works(cfg, from, p2, l2, Settle);
    finished := Next(cfg, l2, Settle);
  }

  lemma Unlinks(cfg: Config, from: Part, p: Part, wk: Work, l: Lane) returns (q: Part, unlinked: Lane)
    requires Leads(cfg, from, p) && OneLane(p, l) && l.pc == Settling(wk, Succeeded, Advance)
    ensures Leads(cfg, from, q) && OneLane(q, unlinked) && q.poll == p.poll && q.closed == p.closed && q.now == p.now
    ensures unlinked
      == l.(pc := Settling(wk, Succeeded, FreeSlot), buf := l.buf.(chains := Unchain(l.buf.chains, KeyOf(cfg, wk.msg))))
    ensures q.sh == p.sh
  {
    var p1 := Works(cfg, from, p, l, Settle);
    var l1 := Next(cfg, l, Settle);
    q := Works(cfg, from, p1, l1, Settle);
    unlinked := Next(cfg, l1, Settle);
  }

  lemma FreesSlot(cfg: Config, from: Part, p: Part, wk: Work, l: Lane) returns (q: Part, freed: Lane)
    requires Leads(cfg, from, p) && OneLane(p, l) && l.pc == Settling(wk, Succeeded, Advance) && 0 < l.buf.slots
    ensures Leads(cfg, from, q) && OneLane(q, freed) && q.poll == p.poll && q.closed == p.closed && q.now == p.now
    ensures freed.buf == l.buf.(chains := Unchain(l.buf.chains, KeyOf(cfg, wk.msg)), slots := l.buf.slots - 1)
    ensures freed.pc == Settling(wk, Succeeded, DropTotal) && q.sh == p.sh
  {
    var p1, l1 := Unlinks(cfg, from, p, wk, l);
    q := Works(cfg, from, p1, l1, Settle);
    freed := Next(cfg, l1, Settle);
  }

  lemma CountsOut(cfg: Config, from: Part, p: Part, wk: Work, l: Lane) returns (q: Part, counted: Lane)
    requires Leads(cfg, from, p) && OneLane(p, l) && l.pc == Settling(wk, Succeeded, DropTotal)
    ensures Leads(cfg, from, q) && OneLane(q, counted) && q.poll == p.poll && q.closed == p.closed && q.now == p.now
    ensures counted == l.(pc := Settling(wk, Succeeded, DropWait)) && q.sh == p.sh.(n := q.sh.n)
  {
    var p1 := Works(cfg, from, p, l, Settle);
    var l1 := Next(cfg, l, Settle);
    q := Works(cfg, from, p1, l1, Settle);
    counted := Next(cfg, l1, Settle);
  }

  lemma Rests(cfg: Config, from: Part, p: Part, wk: Work, l: Lane) returns (q: Part, rested: Lane)
    requires Leads(cfg, from, p) && OneLane(p, l) && l.pc == Settling(wk, Succeeded, DropTotal)
    ensures Leads(cfg, from, q) && OneLane(q, rested) && q.poll == p.poll && q.closed == p.closed && q.now == p.now
    ensures rested == l.(pc := Scanning, buf := l.buf.(wake := true)) && q.sh == p.sh.(n := q.sh.n)
  {
    var p1, l1 := CountsOut(cfg, from, p, wk, l);
    var p2 := Works(cfg, from, p1, l1, Settle);
    var l2 := Next(cfg, l1, Settle);
    q := Works(cfg, from, p2, l2, Settle);
    rested := Next(cfg, l2, Settle);
  }

  /** The only message of the lane is handled, and the worker goes back to scanning. */
  lemma Handles(cfg: Config, p: Part, m: Message, l: Lane) returns (q: Part, rested: Lane)
    requires OneLane(p, l) && l.pc == Scanning && l.buf.slots == 1
    requires l.buf.chains == map[KeyOf(cfg, m) := Chain([Work(m, 0)], Never)]
    ensures Leads(cfg, p, q) && OneLane(q, rested) && q.poll == p.poll && q.closed == p.closed && q.now == p.now
    ensures rested.pc == Scanning && rested.buf == Buffer(map[], 0, l.buf.closed, l.buf.accepting, true)
    ensures q.sh.tracker == TrackerSpec.Complete(p.sh.tracker, m.offset) && q.sh.pending == p.sh.pending - {m.offset}
    ensures q.sh.reported == p.sh.reported && q.sh.h.delivered == p.sh.h.delivered
  {
    LeadsSelf(cfg, p);
    SingleHead(KeyOf(cfg, m), Work(m, 0));
    var p1, l1 := Succeeds(cfg, p, p, m, l);
    var p2, l2 := Finishes(cfg, p, p1, Work(m, 0), l1);
    var p3, l3 := FreesSlot(cfg, p, p2, Work(m, 0), l2);
    q, rested := Rests(cfg, p, p3, Work(m, 0), l3);
  }

  /** A chain of one message, before and after it is taken. */
  lemma SingleHead(key: Key, wk: Work)
    ensures Enqueue(map[], key, wk) == map[key := Chain([wk], Never)]
    ensures TakeHead(map[key := Chain([wk], Never)], key) == map[key := Chain([], Never)]
    ensures Unchain(map[key := Chain([], Never)], key) == map[]
  {
    assert [] + [wk] == [wk] && [wk][1..] == [];
  }

  // ---------------------------------------------------------------- and the worker is drained

  /** A drain closes the lane and gives up waiting. */
  lemma ShutsDown(cfg: Config, p: Part, l: Lane) returns (q: Part)
    requires SingleLane(cfg) && OneLane(p, l) && p.poll.Idle? && !p.closed
    ensures Leads(cfg, NextPart(cfg, p, StartDrain), q) && q.poll.Drained? && q.sh == p.sh
  {
    var p1 := NextPart(cfg, p, StartDrain);
    LeadsSelf(cfg, p1);
    var p2 := Closes(cfg, p1, p1, l, Close);
    var p3 := Closes(cfg, p1, p2, Next(cfg, l, Close), Notify);
    q := TimesOut(cfg, p1, p3, Next(cfg, Next(cfg, l, Close), Notify));
  }

  /** Every lane is closed, and waiting for the messages times out. */
  lemma TimesOut(cfg: Config, from: Part, p: Part, l: Lane) returns (q: Part)
    requires Leads(cfg, from, p) && SingleLane(cfg) && OneLane(p, l) && p.poll == Closing(1)
    ensures Leads(cfg, from, q) && q.poll.Drained? && q.sh == p.sh
  {
    LeadsMore(cfg, from, p, PollStep(false));
    var p1 := NextPart(cfg, p, PollStep(false));
    LeadsMore(cfg, from, p1, PollStep(true));
    q := NextPart(cfg, p1, PollStep(true));
  }

  lemma Closes(cfg: Config, from: Part, p: Part, l: Lane, e: Event) returns (q: Part)
    requires Leads(cfg, from, p) && SingleLane(cfg) && OneLane(p, l) && Guard(cfg, l, e)
    requires (p.poll == Closing(0) && e == Close) || (p.poll == ClosingSignal(0) && e == Notify)
    ensures Leads(cfg, from, q) && OneLane(q, Next(cfg, l, e)) && q.sh == p.sh
    ensures q.poll == if e == Close then ClosingSignal(0) else Closing(1)
  {
    LeadsMore(cfg, from, p, PollStep(false));
    q := NextPart(cfg, p, PollStep(false));
  }

  // ---------------------------------------------------------------- the trackers of such runs

  lemma SecondCompletes(o: Offset)
    ensures
      var t := TrackerSpec.Complete(TrackerSpec.Complete(Seed(FRESH, o), o), o + 1);
      t.base == o + 2 && t.hasBase && t.baseline == o && t.baselineSet
  {
    CompleteAllTracks(o, [o, o + 1]);
    assert [o, o + 1][..1] == [o] && [o][..0] == [];
    assert CompleteAll(Seed(FRESH, o), [o]) == TrackerSpec.Complete(Seed(FRESH, o), o);
    assert ToSet([o, o + 1]) == {o, o + 1};
    LeastMissingUnique(TrackerSpec.Complete(TrackerSpec.Complete(Seed(FRESH, o), o), o + 1).base, o + 2, o, {o, o + 1});
  }

  lemma FirstCompletes(o: Offset)
    ensures
      var t := TrackerSpec.Complete(Seed(FRESH, o), o);
      t.base == o + 1 && t.hasBase && t.baseline == o && t.baselineSet
  {
    CompleteAllTracks(o, [o]);
    assert CompleteAll(Seed(FRESH, o), [o]) == TrackerSpec.Complete(Seed(FRESH, o), o);
    assert ToSet([o]) == {o};
    LeastMissingUnique(TrackerSpec.Complete(Seed(FRESH, o), o).base, o + 1, o, {o});
  }
}
