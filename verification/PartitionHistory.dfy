/** What a partition worker's tracker and counters say about what was delivered to it. */
module PartitionHistory {
  import opened Types
  import opened Sums
  import opened TrackerSpec
  import opened LaneMachine
  import opened LaneStock
  import opened PartitionMachine
  import opened PartitionSums
  import opened PartitionInvariant
  import opened PartitionShared

  function DoneSet(c: multiset<Offset>): set<Offset> {
    set o | o in c
  }

  /** How often an offset was delivered. */
  ghost function Deliveries(s: Shared, o: Offset): nat {
    SumSeq(s.h.delivered, AtOffset(o))
  }

  // ---------------------------------------------------------------- the tracker

  /** Where the tracker started: the first offset delivered in this ownership period. */
  function SeedOf(s: Shared): Offset
    requires s.h.delivered != []
  {
    s.h.delivered[0].offset
  }

  /** The tracker holds the least offset from the first delivered one on that has not completed. */
  ghost predicate TrackerOk(s: Shared, poll: Poll) {
    && (s.tracker.hasBase ==> s.h.delivered != [] && Tracks(s.tracker, SeedOf(s), DoneSet(s.h.completed)))
    && (!s.tracker.hasBase ==>
          && s.tracker.done == {} && s.h.completed == multiset{} && s.h.admitted == multiset{}
          && (if poll.Seeding? then s.h.delivered == [poll.m] else s.h.delivered == [] && PollRank(poll) == 0))
    && (poll.Admitting? ==> SeedOf(s) <= poll.m.offset)
    && (forall o :: o in s.h.admitted ==> SeedOf(s) <= o)
  }

  lemma TrackerEffect(s: Shared, poll: Poll, x: Option<Passage>)
    requires TrackerOk(s, poll)
    requires Completing(x) ==> x.value.m.offset in s.h.admitted
    ensures TrackerOk(AgentEffect(s, x), poll)
    ensures s.tracker.hasBase ==> s.tracker.base <= AgentEffect(s, x).tracker.base
  {
    var t := AgentEffect(s, x);
    assert t.h.admitted == s.h.admitted && t.h.delivered == s.h.delivered;
    if Completing(x) {
      var o := x.value.m.offset;
      CompleteTracks(s.tracker, SeedOf(s), DoneSet(s.h.completed), o);
      assert DoneSet(t.h.completed) == DoneSet(s.h.completed) + {o};
    } else {
      assert t.tracker == s.tracker && t.h.completed == s.h.completed;
    }
  }

  /** Only an admitted message completes. */
  lemma CompletesAdmitted(cfg: Config, p: Part, i: nat, e: Event)
    requires AgentsOk(cfg, p.agents) && PartGuard(cfg, p, AgentStep(i, e)) && FateOk(p)
    ensures
      var x := Passing(p.agents[i].Pc(), e);
      Completing(x) ==> x.value.m.offset in p.sh.h.admitted
  {
    var x := Passing(p.agents[i].Pc(), e);
    AgentOnTrack(cfg, p.agents[i], i, e);
    if Completing(x) {
      var o := x.value.m.offset;
      AgentMoves(cfg, p, i, e, AtOffset(o), OPEN);
      assert Total(p, AtOffset(o), OPEN) + p.sh.h.completed[o] + p.sh.h.dropped[o] == p.sh.h.admitted[o];
    }
  }

  lemma TrackerAgent(cfg: Config, p: Part, i: nat, e: Event)
    requires AgentsOk(cfg, p.agents) && PartGuard(cfg, p, AgentStep(i, e)) && FateOk(p) && TrackerOk(p.sh, p.poll)
    ensures TrackerOk(Stepped(cfg, p, i, e).sh, p.poll)
    ensures p.sh.tracker.hasBase ==> p.sh.tracker.base <= Stepped(cfg, p, i, e).sh.tracker.base
  {
    CompletesAdmitted(cfg, p, i, e);
    TrackerEffect(p.sh, p.poll, Passing(p.agents[i].Pc(), e));
  }

  /** The decision on a message comes after the seed, and only for offsets at or above the pointer. */
  lemma RouteOrder(mode: Mode, s: Shared, closed: bool, poll: Poll, give: bool, accepts: bool, home: nat, lanes: nat)
    ensures
      var next := RoutePoll(mode, s, closed, poll, give, accepts, home, lanes);
      && !next.Seeding?
      && (next.Admitting? ==> poll.Checking? && next.m == poll.m && s.tracker.base <= next.m.offset)
      && (PollRank(poll) == 0 ==> PollRank(next) == 0)
  {
  }

  lemma TrackerRoute(mode: Mode, s: Shared, closed: bool, poll: Poll, give: bool, accepts: bool, home: nat, lanes: nat)
    requires TrackerOk(s, poll)
    ensures TrackerOk(RouteShared(mode, s, closed, poll, give),
      RoutePoll(mode, s, closed, poll, give, accepts, home, lanes))
    ensures s.tracker.hasBase ==> s.tracker == RouteShared(mode, s, closed, poll, give).tracker
  {
    var t := RouteShared(mode, s, closed, poll, give);
    RouteOrder(mode, s, closed, poll, give, accepts, home, lanes);
    assert t.h.delivered == s.h.delivered && t.h.completed == s.h.completed;
    if poll.Seeding? {
      if !s.tracker.hasBase {
        SeedTracks(s.tracker, poll.m.offset);
        assert DoneSet(multiset{}) == {};
      }
    } else {
      assert t.tracker == s.tracker;
    }
  }

  // ---------------------------------------------------------------- deliveries

  /** Every delivery is accounted for: admitted, skipped, refused, or still before that decision. */
  ghost predicate DeliveryOk(s: Shared, poll: Poll) {
    forall o :: Deliveries(s, o) == s.h.admitted[o] + s.h.skipped[o] + s.h.refused[o] + Undecided(poll, o)
  }

  function Undecided(poll: Poll, o: Offset): nat {
    Bit(1 <= PollRank(poll) <= 3 && poll.m.offset == o)
  }

  lemma DeliveryEffect(s: Shared, poll: Poll, x: Option<Passage>)
    requires DeliveryOk(s, poll)
    ensures DeliveryOk(AgentEffect(s, x), poll)
  {
    var t := AgentEffect(s, x);
    assert t.h.delivered == s.h.delivered && t.h.admitted == s.h.admitted && t.h.skipped == s.h.skipped
      && t.h.refused == s.h.refused;
    forall o ensures Deliveries(t, o) == t.h.admitted[o] + t.h.skipped[o] + t.h.refused[o] + Undecided(poll, o) {
      assert Deliveries(s, o) == Deliveries(t, o);
    }
  }

  lemma DeliveryRoute(mode: Mode, s: Shared, closed: bool, poll: Poll, give: bool, accepts: bool, home: nat, lanes: nat)
    requires DeliveryOk(s, poll)
    ensures DeliveryOk(RouteShared(mode, s, closed, poll, give),
      RoutePoll(mode, s, closed, poll, give, accepts, home, lanes))
  {
    var t := RouteShared(mode, s, closed, poll, give);
    var next := RoutePoll(mode, s, closed, poll, give, accepts, home, lanes);
    assert t.h.delivered == s.h.delivered;
    forall o ensures Deliveries(t, o) == t.h.admitted[o] + t.h.skipped[o] + t.h.refused[o] + Undecided(next, o) {
      assert Deliveries(s, o) == s.h.admitted[o] + s.h.skipped[o] + s.h.refused[o] + Undecided(poll, o);
      DeliveryDecided(mode, s, closed, poll, give, accepts, home, lanes, o);
    }
  }

  lemma DeliveryDecided(mode: Mode, s: Shared, closed: bool, poll: Poll, give: bool, accepts: bool, home: nat,
                        lanes: nat, o: Offset)
    ensures
      var t := RouteShared(mode, s, closed, poll, give);
      t.h.admitted[o] + t.h.skipped[o] + t.h.refused[o]
        + Undecided(RoutePoll(mode, s, closed, poll, give, accepts, home, lanes), o)
      == s.h.admitted[o] + s.h.skipped[o] + s.h.refused[o] + Undecided(poll, o)
  {
  }

  lemma DeliverMore(s: Shared, m: Message, o: Offset)
    ensures SumSeq(s.h.delivered + [m], AtOffset(o)) == Deliveries(s, o) + Bit(m.offset == o)
  {
    SumSeqConcat(s.h.delivered, [m], AtOffset(o));
    assert SumSeq([m], AtOffset(o)) == AtOffset(o)(m) + SumSeq([], AtOffset(o));
  }

  // ---------------------------------------------------------------- skips, leaks, fatal failures

  /** Only an offset delivered twice, or below the first one delivered, is ever skipped. */
  ghost predicate SkipsOk(s: Shared) {
    forall o :: o in s.h.skipped ==> s.h.delivered != [] && (2 <= Deliveries(s, o) || o < SeedOf(s))
  }

  /** Pending offsets were admitted; leaked and fatal ones were let go. */
  predicate LedgerOk(s: Shared) {
    && (forall o :: o in s.pending ==> o in s.h.admitted)
    && (forall o :: o in s.h.leaked ==> o in s.h.dropped)
    && (forall o :: o in s.h.fatals ==> o in s.h.dropped)
  }

  lemma SkipsEffect(s: Shared, x: Option<Passage>)
    requires SkipsOk(s) && LedgerOk(s)
    ensures SkipsOk(AgentEffect(s, x)) && LedgerOk(AgentEffect(s, x))
  {
    var t := AgentEffect(s, x);
    assert t.h.delivered == s.h.delivered && t.h.skipped == s.h.skipped && t.h.leaked == s.h.leaked;
    forall o | o in t.h.skipped ensures t.h.delivered != [] && (2 <= Deliveries(t, o) || o < SeedOf(t)) {
      assert 2 <= Deliveries(s, o) || o < SeedOf(s);
    }
  }

  /** An offset that is skipped now was admitted before, or lies below the seed. */
  lemma SkippedTwice(p: Part, o: Offset)
    requires FateOk(p) && TrackerOk(p.sh, p.poll) && DeliveryOk(p.sh, p.poll) && SkipsOk(p.sh) && LedgerOk(p.sh)
    requires 1 <= PollRank(p.poll) <= 3 && p.poll.m.offset == o && p.sh.tracker.hasBase
    requires o < p.sh.tracker.base || o in p.sh.pending
    ensures 2 <= Deliveries(p.sh, o) || o < SeedOf(p.sh)
  {
    assert Total(p, AtOffset(o), OPEN) + p.sh.h.completed[o] + p.sh.h.dropped[o] == p.sh.h.admitted[o];
    assert Deliveries(p.sh, o) == p.sh.h.admitted[o] + p.sh.h.skipped[o] + p.sh.h.refused[o] + Undecided(p.poll, o);
    if SeedOf(p.sh) <= o < p.sh.tracker.base {
      assert o in DoneSet(p.sh.h.completed);
    }
  }

  lemma SkippedNow(mode: Mode, s: Shared, closed: bool, poll: Poll, give: bool, o: Offset)
    requires o in RouteShared(mode, s, closed, poll, give).h.skipped && o !in s.h.skipped
    ensures 1 <= PollRank(poll) <= 3 && poll.m.offset == o && !poll.Seeding?
    ensures o < s.tracker.base || o in s.pending
  {
  }

  lemma SkipsRoute(cfg: Config, p: Part, give: bool)
    requires FateOk(p) && TrackerOk(p.sh, p.poll) && DeliveryOk(p.sh, p.poll) && SkipsOk(p.sh) && LedgerOk(p.sh)
    ensures SkipsOk(RouteShared(cfg.mode, p.sh, p.closed, p.poll, give))
  {
    var t := RouteShared(cfg.mode, p.sh, p.closed, p.poll, give);
    assert t.h.delivered == p.sh.h.delivered;
    forall o | o in t.h.skipped ensures t.h.delivered != [] && (2 <= Deliveries(t, o) || o < SeedOf(t)) {
      assert Deliveries(t, o) == Deliveries(p.sh, o);
      if o !in p.sh.h.skipped {
        SkippedNow(cfg.mode, p.sh, p.closed, p.poll, give, o);
        SkippedTwice(p, o);
      }
    }
  }

  lemma LedgerRoute(mode: Mode, s: Shared, closed: bool, poll: Poll, give: bool)
    requires LedgerOk(s)
    ensures LedgerOk(RouteShared(mode, s, closed, poll, give))
  {
  }
}
