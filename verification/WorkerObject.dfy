/**
 * The partition worker as an object: routing up to the hand-over, one attempt on a message, and the
 * whole goroutine of a message in Unordered mode. The contracts speak of the state machine's steps.
 */
module WorkerObject {
  import opened Types
  import opened TrackerSpec
  import opened TrackerObject
  import opened LaneMachine
  import opened LaneOrder
  import LaneObject
  import opened PartitionMachine
  import opened LaneStock
  import opened PartitionSums
  import opened PartitionShared
  import opened PartitionHistory
  import opened PartitionRuns

  // ---------------------------------------------------------------- stages in a row

  /** The stages of an Unordered message from this one up to, not including, the last one named. */
  function PassUntil(s: Shared, m: Message, f: Fate, stage: Stage, last: Stage): Shared
    decreases 12 - Rank(stage)
  {
    if stage == last then s
    else match NextTaskStage(f, stage)
      case Some(next) =>
        if Rank(stage) < Rank(next) then PassUntil(Effect(s, Passage(m, f, stage)), m, f, next, last) else s
      case None => s
  }

  /** How an attempt settles its message; None when it is to be retried. */
  function FateOf(cfg: Config, wk: Work, a: Attempt): Option<Fate> {
    if a.ok then Some(Succeeded)
    else if a.cancelled then Some(Stopped)
    else if wk.attempts + 1 < MaxAttempts(cfg) then None
    else if cfg.hasDiscard && a.discardOk then Some(Discarded)
    else Some(Fatal)
  }

  /**
   * What a fate changes: a completion reaches the tracker and one tally, a stop or a fatal failure
   * only lets the offset go, and a fatal failure is also reported and ends the context.
   */
  function Settled(s: Shared, o: Offset, f: Fate): Shared {
    Shared(if Completes(f) then TrackerSpec.Complete(s.tracker, o) else s.tracker,
           s.pending - {o},
           s.highest,
           match f
           case Succeeded => s.n.(processed := s.n.processed + 1)
           case Discarded => s.n.(discarded := s.n.discarded + 1)
           case Fatal => s.n.(errors := s.n.errors + 1)
           case _ => s.n,
           s.cancelled || f == Fatal,
           s.reported || f == Fatal,
           if Completes(f) then s.h.(completed := s.h.completed + multiset{o})
           else s.h.(dropped := s.h.dropped + multiset{o},
                     fatals := if f == Fatal then s.h.fatals + {o} else s.h.fatals))
  }

  /** These are the stages the state machine takes one by one, when nobody comes in between. */
  lemma SettledInStages(s: Shared, m: Message, f: Fate)
    requires f != Vanished
    ensures PassUntil(s, m, f, FirstStage(f), DropTotal) == Settled(s, m.offset, f)
  {
    if f == Stopped {
      AdvanceStages(Effect(s, Passage(m, f, Forget)), m, f);
    } else if f == Fatal {
      AdvanceStages(Effect(Effect(s, Passage(m, f, Tally)), Passage(m, f, Forget)), m, f);
    } else {
      var t := Effect(Effect(s, Passage(m, f, Tally)), Passage(m, f, Stage.Complete));
      AdvanceStages(Effect(t, Passage(m, f, Forget)), m, f);
    }
  }

  lemma AdvanceStages(s: Shared, m: Message, f: Fate)
    ensures PassUntil(s, m, f, Advance, DropTotal)
      == if f == Fatal then s.(cancelled := true, reported := true) else s
  {
    assert Effect(s, Passage(m, f, Advance)) == s;
  }

  /** The effect of one attempt on the shared state. */
  function AttemptEffect(cfg: Config, s: Shared, wk: Work, a: Attempt): Shared {
    match FateOf(cfg, wk, a)
    case None => s
    case Some(f) => Settled(s, wk.msg.offset, f)
  }

  // ---------------------------------------------------------------- routing in a row

  /** The poll goroutine's steps from here to the end of route, when nobody comes in between. */
  function RouteUntil(mode: Mode, s: Shared, closed: bool, poll: Poll, give: bool, accepts: bool): Shared
    decreases RouteRank(poll)
  {
    if RouteRank(poll) == 0 then s
    else RouteUntil(mode, RouteShared(mode, s, closed, poll, give), closed,
                    RoutePoll(mode, s, closed, poll, give, accepts, 0, 0), give, accepts)
  }

  function RouteRank(poll: Poll): nat {
    match poll
    case Seeding(_) => 13
    case Checking(_) => 12
    case Admitting(_) => 11
    case Marking(_) => 10
    case Joining(_) => 9
    case Counting(_) => 8
    case Pushing(_) => 7
    case Appending(_) => 6
    case Rejected(_) => 5
    case Unadmitting(_) => 4
    case Unjoining(_) => 3
    case Uncounting(_) => 2
    case Untotalling(_) => 1
    case _ => 0
  }

  /** How routing a message ends. */
  datatype Routing =
    | Skipped       // it was taken for a duplicate
    | Refused       // the worker is closed
    | Entered       // a lane or a goroutine has it
    | TurnedAway    // the lane did not take it
    | LeftBehind    // the context ended before there was room; the offset stays in pending

  /** How a message fares that is no duplicate. */
  function PlacedAs(mode: Mode, give: bool, accepts: bool): Routing {
    if mode == Unordered then (if give then LeftBehind else Entered)
    else if !give && accepts then Entered else TurnedAway
  }

  /** give tells that the context ended before there was room, accepts that the home lane takes messages. */
  function RoutingOf(mode: Mode, s: Shared, closed: bool, o: Offset, give: bool, accepts: bool): Routing {
    if o < Seed(s.tracker, o).base then Skipped
    else if closed then Refused
    else if o in s.pending then Skipped
    else PlacedAs(mode, give, accepts)
  }

  /** The message is counted as arrived, and its offset starts the pointer if it is the first. */
  function Arrived(s: Shared, m: Message): Shared {
    s.(tracker := Seed(s.tracker, m.offset),
       n := s.n.(total := s.n.total + 1),
       h := s.h.(delivered := s.h.delivered + [m]))
  }

  /** A message that is no duplicate becomes pending and is counted in flight. */
  function Joined(s: Shared, o: Offset): Shared {
    s.(pending := s.pending + {o},
       highest := if o > s.highest then o else s.highest,
       n := s.n.(waiting := s.n.waiting + 1, count := s.n.count + 1),
       h := s.h.(admitted := s.h.admitted + multiset{o}))
  }

  /** And is taken back when nobody took it; left says that its offset stays in pending. */
  function Withdrawn(s: Shared, o: Offset, left: bool): Shared {
    s.(pending := if left then s.pending else s.pending - {o},
       n := s.n.(waiting := s.n.waiting - 1, count := s.n.count - 1, total := s.n.total - 1),
       h := s.h.(dropped := s.h.dropped + multiset{o}, leaked := if left then s.h.leaked + {o} else s.h.leaked))
  }

  function Admitted(s: Shared, o: Offset, r: Routing): Shared {
    if r.Entered? then Joined(s, o) else Withdrawn(Joined(s, o), o, r.LeftBehind?)
  }

  /** What routing changes in all. */
  function Routed(s: Shared, m: Message, r: Routing): Shared {
    var t := Arrived(s, m);
    match r
    case Skipped => t.(h := t.h.(skipped := t.h.skipped + multiset{m.offset}))
    case Refused => t.(h := t.h.(refused := t.h.refused + multiset{m.offset}), n := s.n)
    case _ => Admitted(t, m.offset, r)
  }

  /**
   * A message that does not enter leaves the counters and pending as they were, with two exceptions:
   * a skipped one stays in the consumer-wide count, and one left behind stays in pending.
   */
  lemma OnlyEntrantsCount(mode: Mode, s: Shared, closed: bool, m: Message, give: bool, accepts: bool)
    ensures
      var r := RoutingOf(mode, s, closed, m.offset, give, accepts);
      var t := Routed(s, m, r);
      && (t.n == s.n <==> r.Refused? || r.TurnedAway? || r.LeftBehind?)
      && (t.n.total - t.n.count == s.n.total - s.n.count <==> !r.Skipped?)
      && (t.pending == s.pending <==> !r.Entered? && !r.LeftBehind?)
  {
    var r := RoutingOf(mode, s, closed, m.offset, give, accepts);
    if r.TurnedAway? {
      assert s.pending + {m.offset} - {m.offset} == s.pending;
    } else if r.Entered? || r.LeftBehind? {
      assert m.offset in Routed(s, m, r).pending;
    }
  }

  /** These are the steps the state machine takes one by one, when nobody comes in between. */
  lemma RoutedInSteps(mode: Mode, s: Shared, closed: bool, m: Message, give: bool, accepts: bool)
    ensures
      var delivered := s.(n := s.n.(total := s.n.total + 1), h := s.h.(delivered := s.h.delivered + [m]));
      RouteUntil(mode, delivered, closed, Seeding(m), give, accepts)
        == Routed(s, m, RoutingOf(mode, s, closed, m.offset, give, accepts))
  {
    var t, r := Arrived(s, m), RoutingOf(mode, s, closed, m.offset, give, accepts);
    assert RouteUntil(mode, t, closed, Checking(m), give, accepts) ==
      if m.offset < t.tracker.base then Routed(s, m, Skipped)
        else RouteUntil(mode, t, closed, Admitting(m), give, accepts)
    by {
      assert m.offset >= t.tracker.base ==> RouteShared(mode, t, closed, Checking(m), give) == t;
    }
    if m.offset >= t.tracker.base {
      CheckedInSteps(mode, t, closed, m, give, accepts, r);
    }
  }

  lemma CheckedInSteps(mode: Mode, s: Shared, closed: bool, m: Message, give: bool, accepts: bool, r: Routing)
    requires m.offset >= s.tracker.base && s.tracker.hasBase && r == RoutingOf(mode, s, closed, m.offset, give, accepts)
    ensures RouteUntil(mode, s, closed, Admitting(m), give, accepts)
      == match r
         case Skipped => s.(h := s.h.(skipped := s.h.skipped + multiset{m.offset}))
         case Refused => s.(n := s.n.(total := s.n.total - 1), h := s.h.(refused := s.h.refused + multiset{m.offset}))
         case _ => Admitted(s, m.offset, r)
  {
    if r.Refused? {
      RefusedInSteps(mode, s, m, give, accepts);
    } else if r.Skipped? {
      assert s.pending + {m.offset} == s.pending;
    } else {
      AdmittedInSteps(mode, s, m, give, accepts, r);
    }
  }

  lemma RefusedInSteps(mode: Mode, s: Shared, m: Message, give: bool, accepts: bool)
    ensures RouteUntil(mode, s, true, Admitting(m), give, accepts)
      == s.(n := s.n.(total := s.n.total - 1), h := s.h.(refused := s.h.refused + multiset{m.offset}))
  {
    var s1 := RouteShared(mode, s, true, Admitting(m), give);
    assert RouteUntil(mode, s1, true, Untotalling(m), give, accepts)
      == RouteShared(mode, s1, true, Untotalling(m), give);
  }

  lemma AdmittedInSteps(mode: Mode, s: Shared, m: Message, give: bool, accepts: bool, r: Routing)
    requires m.offset !in s.pending
    requires r == PlacedAs(mode, give, accepts)
    ensures RouteUntil(mode, s, false, Admitting(m), give, accepts) == Admitted(s, m.offset, r)
  {
    var s1 := RouteShared(mode, s, false, Admitting(m), give);
    var s2 := RouteShared(mode, s1, false, Marking(m), give);
    var s3 := RouteShared(mode, s2, false, Joining(m), give);
    var s4 := RouteShared(mode, s3, false, Counting(m), give);
    assert RouteUntil(mode, s1, false, Marking(m), give, accepts)
      == RouteUntil(mode, s2, false, Joining(m), give, accepts);
    assert RouteUntil(mode, s3, false, Counting(m), give, accepts)
      == RouteUntil(mode, s4, false, Pushing(m), give, accepts);
    PushedInSteps(mode, s4, m, give, accepts, r);
  }

  lemma PushedInSteps(mode: Mode, s: Shared, m: Message, give: bool, accepts: bool, r: Routing)
    requires r == PlacedAs(mode, give, accepts)
    ensures RouteUntil(mode, s, false, Pushing(m), give, accepts)
      == if r.Entered? then s else Withdrawn(s, m.offset, r.LeftBehind?)
  {
    var pushed := RouteShared(mode, s, false, Pushing(m), give);
    if r.LeftBehind? {
      TurnedAwayInSteps(mode, pushed, m, give, accepts);
    } else {
      assert pushed == s;
      AppendedInSteps(mode, s, m, give, accepts);
    }
  }

  lemma RemovedInSteps(mode: Mode, s: Shared, m: Message, give: bool, accepts: bool)
    ensures RouteUntil(mode, s, false, Unadmitting(m), give, accepts) == Withdrawn(s, m.offset, false)
  {
    TurnedAwayInSteps(mode, RouteShared(mode, s, false, Unadmitting(m), give), m, give, accepts);
  }

  lemma AppendedInSteps(mode: Mode, s: Shared, m: Message, give: bool, accepts: bool)
    ensures RouteUntil(mode, s, false, Appending(m), give, accepts)
      == if accepts then s else Withdrawn(s, m.offset, false)
    ensures RouteUntil(mode, s, false, Unadmitting(m), give, accepts) == Withdrawn(s, m.offset, false)
  {
    assert RouteShared(mode, s, false, Appending(m), give) == s && RouteShared(mode, s, false, Rejected(m), give) == s;
    RemovedInSteps(mode, s, m, give, accepts);
    assert RouteUntil(mode, s, false, Rejected(m), give, accepts)
      == RouteUntil(mode, s, false, Unadmitting(m), give, accepts);
  }

  lemma TurnedAwayInSteps(mode: Mode, s: Shared, m: Message, give: bool, accepts: bool)
    ensures RouteUntil(mode, s, false, Unjoining(m), give, accepts)
      == s.(n := s.n.(waiting := s.n.waiting - 1, count := s.n.count - 1, total := s.n.total - 1))
  {
    var s1 := RouteShared(mode, s, false, Unjoining(m), give);
    var s2 := RouteShared(mode, s1, false, Uncounting(m), give);
    var s3 := RouteShared(mode, s2, false, Untotalling(m), give);
    assert RouteUntil(mode, s2, false, Untotalling(m), give, accepts) == s3;
    assert RouteUntil(mode, s1, false, Uncounting(m), give, accepts) == s3;
    assert s3 == s.(n := s.n.(waiting := s.n.waiting - 1, count := s.n.count - 1, total := s.n.total - 1));
  }

  /**
   * Only part of the duplicates are caught: an offset that has completed is skipped when it comes
   * again exactly unless it waits in the done set beyond the pointer. There it is handled again.
   */
  lemma DuplicatesRunAgain(cfg: Config, ps: seq<Part>, evs: seq<PartEvent>, i: nat, o: Offset, give: bool,
                           accepts: bool)
    requires ValidConfig(cfg) && PartRun(cfg, ps, evs) && i < |ps|
    requires o in ps[i].sh.h.completed && o !in ps[i].sh.pending && !ps[i].closed
    ensures RoutingOf(cfg.mode, ps[i].sh, false, o, give, accepts).Skipped? <==> o !in ps[i].sh.tracker.done
  {
    PartRunInv(cfg, ps, evs, i);
    CompletedBehindOrDone(ps[i], o);
  }

  lemma CompletedBehindOrDone(p: Part, o: Offset)
    requires FateOk(p) && TrackerOk(p.sh, p.poll) && o in p.sh.h.completed
    ensures p.sh.tracker.hasBase && (o < p.sh.tracker.base <==> o !in p.sh.tracker.done)
  {
    assert Total(p, AtOffset(o), OPEN) + p.sh.h.completed[o] + p.sh.h.dropped[o] == p.sh.h.admitted[o];
    assert o in DoneSet(p.sh.h.completed);
  }

  /** A lane's buffer once it accepted a message. */
  function WithMessage(cfg: Config, b: Buffer, m: Message): Buffer {
    Buffer(Enqueue(b.chains, KeyOf(cfg, m), Work(m, 0)), b.slots + 1, b.closed, b.accepting, true)
  }

  class PartitionWorker {
    const cfg: Config
    const tp: TopicPartition
    const tracker: OffsetTracker
    const lanes: seq<LaneObject.Lane>
    var sem: nat
    var closed: bool
    var pending: set<Offset>
    var highestSeen: Offset
    var n: Counters
    var cancelled: bool
    var reported: bool
    ghost var h: History

    ghost predicate Valid()
      reads this, tracker
    {
      && tracker.Valid()
      && 1 <= cfg.lanes
      && (cfg.mode == KeyOrdered ==> |lanes| == cfg.lanes)
      && (forall i :: 0 <= i < |lanes| ==> lanes[i].cfg == cfg)
      && (forall i, j :: 0 <= i < j < |lanes| ==> lanes[i] != lanes[j])
    }

    /** The lane a message goes to. */
    ghost function Home(m: Message): set<LaneObject.Lane>
      reads this, tracker
      requires Valid()
    {
      if cfg.mode == KeyOrdered then {lanes[HomeOf(cfg, m)]} else {}
    }

    ghost predicate Accepts(m: Message)
      reads this, tracker, lanes
      requires Valid()
    {
      cfg.mode == KeyOrdered ==> lanes[HomeOf(cfg, m)].accepting
    }

    /** A slot, or a place in the semaphore. */
    ghost predicate HasRoom(m: Message)
      reads this, tracker, lanes
      requires Valid()
    {
      match cfg.mode
      case KeyOrdered => lanes[HomeOf(cfg, m)].slots < cfg.queueSize
      case Unordered => sem < cfg.concurrency
    }

    ghost function State(): Shared
      reads this, tracker
    {
      Shared(tracker.State(), pending, highestSeen, n, cancelled, reported, h)
    }

    constructor (cfg: Config, tp: TopicPartition)
      requires ValidConfig(cfg)
      ensures Valid() && State() == NEW_SHARED && !closed && sem == 0 && this.cfg == cfg && this.tp == tp
      ensures fresh(tracker) && forall l :: l in lanes ==> fresh(l) && l.Buf() == EMPTY_BUFFER
    {
      this.cfg, this.tp := cfg, tp;
      closed, pending, highestSeen, n := false, {}, 0, Counters(0, 0, 0, 0, 0, 0);
      sem, cancelled, reported, h := 0, false, false, NEW_SHARED.h;
      var ls: seq<LaneObject.Lane> := [];
      if cfg.mode == KeyOrdered {
        while |ls| < cfg.lanes
          invariant |ls| <= cfg.lanes
          invariant forall l :: l in ls ==> fresh(l) && l.cfg == cfg && l.Buf() == EMPTY_BUFFER
          invariant forall i, j :: 0 <= i < j < |ls| ==> ls[i] != ls[j]
        {
          var l := new LaneObject.Lane(cfg);
          ls := ls + [l];
        }
      }
      lanes := ls;
      tracker := new OffsetTracker();
    }

    // -------------------------------------------------------------- routing and draining

    /**
     * Routes one message; the consumer's own count of it is part of this. The call blocks until there
     * is room or the context ends; give says that it saw the context end.
     */
    method Route(m: Message, give: bool) returns (ok: bool)
      requires Valid()
      requires
        var r := RoutingOf(cfg.mode, State(), closed, m.offset, give, Accepts(m));
        r.Skipped? || r.Refused? || if give then cancelled else HasRoom(m)
      modifies this, tracker, Home(m)
      ensures Valid() && closed == old(closed)
      ensures
        var r := RoutingOf(cfg.mode, old(State()), closed, m.offset, give, old(Accepts(m)));
        && State() == Routed(old(State()), m, r)
        && ok == (r.Skipped? || r.Entered?)
        && sem == old(sem) + (if r.Entered? && cfg.mode == Unordered then 1 else 0)
        && forall l :: l in Home(m) ==>
             l.Buf() == if r.Entered? then WithMessage(cfg, old(l.Buf()), m) else old(l.Buf())
    {
      Arrive(m);
      if m.offset < tracker.base {
        h := h.(skipped := h.skipped + multiset{m.offset});
        return true;
      }
      if closed {
        h := h.(refused := h.refused + multiset{m.offset});
        n := n.(total := n.total - 1);
        return false;
      }
      if m.offset in pending {
        h := h.(skipped := h.skipped + multiset{m.offset});
        return true;
      }
      ok := Enter(m, give);
    }

    method Arrive(m: Message)
      requires Valid()
      modifies this`n, this`h, tracker
      ensures Valid() && State() == Arrived(old(State()), m)
    {
      h := h.(delivered := h.delivered + [m]);
      n := n.(total := n.total + 1);
      tracker.Seed(m.offset);
    }

    /** The rest of route, for a message that is no duplicate. */
    method Enter(m: Message, give: bool) returns (ok: bool)
      requires Valid() && m.offset !in pending
      requires if give then cancelled else HasRoom(m)
      modifies this`pending, this`highestSeen, this`n, this`h, this`sem, Home(m)
      ensures Valid()
      ensures ok == (!give && old(Accepts(m)))
      ensures
        var r := if ok then Entered else if cfg.mode == Unordered then LeftBehind else TurnedAway;
        State() == Admitted(old(State()), m.offset, r)
      ensures sem == old(sem) + (if ok && cfg.mode == Unordered then 1 else 0)
      ensures forall l :: l in Home(m) ==>
        l.Buf() == if ok then WithMessage(cfg, old(l.Buf()), m) else old(l.Buf())
    {
      Join(m.offset);
      ok := Place(m, give);
      if !ok {
        Withdraw(m.offset, cfg.mode == Unordered);
      }
    }

    method Join(o: Offset)
      modifies this`pending, this`highestSeen, this`n, this`h
      ensures State() == Joined(old(State()), o)
    {
      h := h.(admitted := h.admitted + multiset{o});
      pending := pending + {o};
      if o > highestSeen {
        highestSeen := o;
      }
      n := n.(waiting := n.waiting + 1, count := n.count + 1);
    }

    /** Offers the message to its lane, or waits for a place in the semaphore. */
    method Place(m: Message, give: bool) returns (ok: bool)
      requires Valid()
      requires if give then cancelled else HasRoom(m)
      modifies this`sem, Home(m)
      ensures Valid()
      ensures ok == (!give && old(Accepts(m)))
      ensures sem == old(sem) + (if ok && cfg.mode == Unordered then 1 else 0)
      ensures forall l :: l in Home(m) ==>
        l.Buf() == if ok then WithMessage(cfg, old(l.Buf()), m) else old(l.Buf())
    {
      if cfg.mode == Unordered {
        ok := !give;
        if ok {
          sem := sem + 1;
        }
      } else {
        ok := lanes[HomeOf(cfg, m)].Push(cancelled, !give, m);
      }
    }

    method Withdraw(o: Offset, left: bool)
      modifies this`pending, this`n, this`h
      ensures State() == Withdrawn(old(State()), o, left)
    {
      if left {
        h := h.(dropped := h.dropped + multiset{o}, leaked := h.leaked + {o});
      } else {
        Forget(o, Stopped);
      }
      n := n.(waiting := n.waiting - 1, count := n.count - 1, total := n.total - 1);
    }

    /** Closes every lane, once; what is queued stays queued. Waiting for it is the caller's. */
    method CloseLanes()
      requires Valid()
      modifies this`closed, lanes
      ensures Valid() && State() == old(State()) && closed
      ensures forall l :: l in lanes ==>
        l.Buf() == if old(closed) then old(l.Buf()) else Buffer(old(l.chains), old(l.slots), true, false, true)
    {
      if closed {
        return;
      }
      closed := true;
      for i := 0 to |lanes|
        invariant Valid() && State() == old(State()) && closed
        invariant forall j :: 0 <= j < i ==>
          lanes[j].Buf() == Buffer(old(lanes[j].chains), old(lanes[j].slots), true, false, true)
        invariant forall j :: i <= j < |lanes| ==> lanes[j].Buf() == old(lanes[j].Buf())
      {
        lanes[i].CloseLane();
      }
    }

    // -------------------------------------------------------------- attempts

    /** Removes an offset from pending; that it was let go unless it completed is history. */
    method Forget(o: Offset, ghost f: Fate)
      modifies this`pending, this`h
      ensures pending == old(pending) - {o}
      ensures h == if Completes(f) then old(h)
        else old(h).(dropped := old(h).dropped + multiset{o},
                     fatals := if f == Fatal then old(h).fatals + {o} else old(h).fatals)
    {
      pending := pending - {o};
      if !Completes(f) {
        h := h.(dropped := h.dropped + multiset{o}, fatals := if f == Fatal then h.fatals + {o} else h.fatals);
      }
    }

    /** The fatal error goes to the poll loop, and the work context is cancelled. */
    method ReportFatal()
      modifies this`reported, this`cancelled
      ensures reported && cancelled
    {
      reported := true;
      cancelled := true;
    }

    /** The tracker takes a completion in, once its tally is counted, and the offset leaves pending. */
    method Finish(o: Offset, discarded: bool)
      requires Valid()
      modifies this`n, this`pending, this`h, tracker
      ensures Valid() && State() == Settled(old(State()), o, if discarded then Discarded else Succeeded)
    {
      n := if discarded then n.(discarded := n.discarded + 1) else n.(processed := n.processed + 1);
      var base := tracker.Complete(o);
      h := h.(completed := h.completed + multiset{o});
      Forget(o, if discarded then Discarded else Succeeded);
    }

    /** A failure nobody handles: counted, let go and reported. */
    method Fail(o: Offset)
      requires Valid()
      modifies this`n, this`pending, this`h, this`reported, this`cancelled
      ensures Valid() && State() == Settled(old(State()), o, Fatal)
    {
      n := n.(errors := n.errors + 1);
      Forget(o, Fatal);
      ReportFatal();
    }

    /** One attempt on a message, and what follows from how it ended. */
    method RunMessage(wk: Work, a: Attempt) returns (r: WorkResult)
      requires Valid()
      modifies this`n, this`pending, this`h, this`reported, this`cancelled, tracker
      ensures Valid()
      ensures State() == AttemptEffect(cfg, old(State()), wk, a)
      ensures r == ResultOf(cfg, wk, a)
    {
      if a.ok {
        Finish(wk.msg.offset, false);
        return WorkDone;
      }
      if a.cancelled {
        Forget(wk.msg.offset, Stopped);
        return WorkStop;
      }
      if wk.attempts + 1 < MaxAttempts(cfg) {
        return WorkRetry(a.backoff);
      }
      if cfg.hasDiscard && a.discardOk {
        Finish(wk.msg.offset, true);
        return WorkDone;
      }
      Fail(wk.msg.offset);
      return WorkStop;
    }

    /**
     * The goroutine of one message in Unordered mode. Attempt k ends as w(k) tells; ends(k) tells
     * whether the context ended during the wait that follows it. The handler is called at most the
     * allowed number of times, every attempt but the last only asked for a retry, and the message
     * leaves with exactly one fate.
     */
    method RunUnordered(msg: Message, w: nat -> Attempt, ends: nat -> bool) returns (calls: nat, f: Fate)
      requires Valid()
      modifies this`n, this`pending, this`h, this`reported, this`cancelled, tracker
      ensures Valid()
      ensures 1 <= calls <= MaxAttempts(cfg)
      ensures forall k :: 0 <= k < calls - 1 ==> FateOf(cfg, Work(msg, k), w(k)).None? && !ends(k)
      ensures match FateOf(cfg, Work(msg, calls - 1), w(calls - 1))
        case Some(fate) => f == fate
        case None => f == Stopped && ends(calls - 1)
      ensures State() == Settled(old(State()), msg.offset, f)
    {
      calls := 0;
      while true
        invariant Valid() && State() == old(State()) && calls < MaxAttempts(cfg)
        invariant forall k :: 0 <= k < calls ==> FateOf(cfg, Work(msg, k), w(k)).None? && !ends(k)
        decreases MaxAttempts(cfg) - calls
      {
        var wk := Work(msg, calls);
        var a := w(calls);
        var r := RunMessage(wk, a);
        calls := calls + 1;
        match r
        case WorkRetry(_) =>
          if ends(calls - 1) {
            Forget(msg.offset, Stopped);
            return calls, Stopped;
          }
        case _ =>
          return calls, FateOf(cfg, wk, a).value;
      }
    }
  }
}
