/** What a partition worker promises, over every run. */
module PartitionTheorems {
  import opened Types
  import opened Sums
  import opened TrackerSpec
  import opened LaneMachine
  import opened LaneStock
  import opened LaneInvariant
  import opened LaneSerial
  import opened LaneTheorems
  import opened PartitionMachine
  import opened PartitionSums
  import opened PartitionInvariant
  import opened PartitionShared
  import opened PartitionHistory
  import opened PartitionOrder
  import opened PartitionRuns

  /** No offset was delivered twice in this ownership period. */
  ghost predicate DupFree(s: Shared) {
    forall o :: Deliveries(s, o) <= 1
  }

  // ---------------------------------------------------------------- fates

  /**
   * Exactly one fate. Whatever is delivered, admissions are conserved: each is queued or running,
   * or was completed, or was let go. Without repeated deliveries an admitted offset is in exactly
   * one of the three, and what was let go stays at or above the committed pointer.
   */
  lemma OneFate(cfg: Config, ps: seq<Part>, evs: seq<PartEvent>, i: nat, o: Offset)
    requires ValidConfig(cfg) && PartRun(cfg, ps, evs) && i < |ps|
    ensures
      var p := ps[i];
      var open, completed, dropped := Total(p, AtOffset(o), OPEN), p.sh.h.completed[o], p.sh.h.dropped[o];
      && open + completed + dropped == p.sh.h.admitted[o]
      && (DupFree(p.sh) && o in p.sh.h.admitted ==>
            || (open == 1 && completed == 0 && dropped == 0)
            || (open == 0 && completed == 1 && dropped == 0)
            || (open == 0 && completed == 0 && dropped == 1))
      && (DupFree(p.sh) && o in p.sh.h.dropped ==> p.sh.tracker.base <= o)
  {
    PartRunInv(cfg, ps, evs, i);
    FateAccount(ps[i], o);
  }

  lemma FateAccount(p: Part, o: Offset)
    requires FateOk(p) && TrackerOk(p.sh, p.poll) && DeliveryOk(p.sh, p.poll)
    ensures
      var open, completed, dropped := Total(p, AtOffset(o), OPEN), p.sh.h.completed[o], p.sh.h.dropped[o];
      && open + completed + dropped == p.sh.h.admitted[o]
      && (DupFree(p.sh) ==> p.sh.h.admitted[o] <= 1)
      && (DupFree(p.sh) && o in p.sh.h.dropped ==> p.sh.tracker.base <= o)
  {
    assert Total(p, AtOffset(o), OPEN) + p.sh.h.completed[o] + p.sh.h.dropped[o] == p.sh.h.admitted[o];
    assert Deliveries(p.sh, o) == p.sh.h.admitted[o] + p.sh.h.skipped[o] + p.sh.h.refused[o] + Undecided(p.poll, o);
    if DupFree(p.sh) && o in p.sh.h.dropped {
      assert Deliveries(p.sh, o) <= 1;
      assert o !in DoneSet(p.sh.h.completed);
    }
  }

  /**
   * Fatal containment: the pointer, and with it every value committed for this worker, never passes
   * a message that failed fatally.
   */
  lemma FatalContainment(cfg: Config, ps: seq<Part>, evs: seq<PartEvent>, i: nat, j: nat, o: Offset)
    requires ValidConfig(cfg) && PartRun(cfg, ps, evs) && i <= j < |ps|
    requires o in ps[i].sh.h.fatals && DupFree(ps[j].sh)
    ensures ps[j].sh.tracker.base <= o
  {
    FatalsStay(cfg, ps, evs, i, j, o);
    PartRunInv(cfg, ps, evs, j);
    assert o in ps[j].sh.h.dropped;
    OneFate(cfg, ps, evs, j, o);
  }

  lemma EffectFatals(s: Shared, x: Option<Passage>)
    ensures s.h.fatals <= AgentEffect(s, x).h.fatals
  {
  }

  lemma FatalsStep(cfg: Config, p: Part, ev: PartEvent)
    requires PartGuard(cfg, p, ev)
    ensures p.sh.h.fatals <= NextPart(cfg, p, ev).sh.h.fatals
  {
    if ev.AgentStep? {
      EffectFatals(p.sh, Passing(p.agents[ev.i].Pc(), ev.e));
    }
  }

  lemma {:induction false} FatalsStay(cfg: Config, ps: seq<Part>, evs: seq<PartEvent>, i: nat, j: nat, o: Offset)
    requires PartRun(cfg, ps, evs) && i <= j < |ps| && o in ps[i].sh.h.fatals
    ensures o in ps[j].sh.h.fatals
  {
    if i < j {
      FatalsStay(cfg, ps, evs, i, j - 1, o);
      assert PartStep(cfg, ps, evs, j - 1);
      FatalsStep(cfg, ps[j - 1], evs[j - 1]);
    }
  }

  // ---------------------------------------------------------------- the pointer

  lemma PointerStep(cfg: Config, p: Part, ev: PartEvent)
    requires AgentsOk(cfg, p.agents) && FateOk(p) && TrackerOk(p.sh, p.poll) && PartGuard(cfg, p, ev)
    requires p.sh.tracker.hasBase
    ensures NextPart(cfg, p, ev).sh.tracker.hasBase
    ensures p.sh.tracker.base <= NextPart(cfg, p, ev).sh.tracker.base
  {
    match ev
    case AgentStep(i, e) => TrackerAgent(cfg, p, i, e);
    case _ =>
  }

  lemma PointerNext(cfg: Config, ps: seq<Part>, evs: seq<PartEvent>, i: nat)
    requires ValidConfig(cfg) && PartRun(cfg, ps, evs) && i < |evs| && ps[i].sh.tracker.hasBase
    ensures ps[i + 1].sh.tracker.hasBase && ps[i].sh.tracker.base <= ps[i + 1].sh.tracker.base
  {
    PartRunInv(cfg, ps, evs, i);
    assert PartStep(cfg, ps, evs, i);
    PointerStep(cfg, ps[i], evs[i]);
  }

  lemma {:induction false} PointerAdvances(cfg: Config, ps: seq<Part>, evs: seq<PartEvent>, i: nat, j: nat)
    requires ValidConfig(cfg) && PartRun(cfg, ps, evs) && i <= j < |ps| && ps[i].sh.tracker.hasBase
    ensures ps[j].sh.tracker.hasBase && ps[i].sh.tracker.base <= ps[j].sh.tracker.base
  {
    if i < j {
      PointerAdvances(cfg, ps, evs, i, j - 1);
      PointerNext(cfg, ps, evs, j - 1);
    }
  }

  /**
   * Once anything was routed, the pointer is the least offset from the first delivered one on that
   * has not completed, and it never goes back.
   */
  lemma PointerRuns(cfg: Config, ps: seq<Part>, evs: seq<PartEvent>, i: nat, j: nat)
    requires ValidConfig(cfg) && PartRun(cfg, ps, evs) && i <= j < |ps| && ps[i].sh.tracker.hasBase
    ensures ps[j].sh.tracker.hasBase && ps[i].sh.tracker.base <= ps[j].sh.tracker.base
    ensures ps[j].sh.h.delivered != []
    ensures LeastMissing(ps[j].sh.tracker.base, SeedOf(ps[j].sh), DoneSet(ps[j].sh.h.completed))
  {
    PointerAdvances(cfg, ps, evs, i, j);
    PartRunInv(cfg, ps, evs, j);
  }

  // ---------------------------------------------------------------- counters

  /** No goroutine is between two steps of the same update. */
  predicate Calm(p: Part) {
    && PollRank(p.poll) == 0
    && forall a :: a in p.agents ==> Steady(a.Pc())
  }

  predicate Steady(pc: Pc) {
    match pc
    case Settling(_, _, s) => s != Complete && s != DropCount
    case Abandoning(_, s) => s != DropCount
    case _ => true
  }

  lemma SteadyWeights(cfg: Config, a: Agent, i: nat)
    requires AgentOk(cfg, a, i) && Steady(a.Pc())
    ensures WeightOf(One(), TOTALLED)(a) == WeightOf(One(), COUNTED)(a)
    ensures Tallied()(a) == 0
  {
  }

  lemma CalmSums(cfg: Config, p: Part)
    requires AgentsOk(cfg, p.agents) && Calm(p)
    ensures Total(p, One(), TOTALLED) == Total(p, One(), COUNTED)
    ensures SumSeq(p.agents, Tallied()) == 0
  {
    forall a | a in p.agents
      ensures WeightOf(One(), TOTALLED)(a) == WeightOf(One(), COUNTED)(a) && Tallied()(a) == 0
    {
      var i :| 0 <= i < |p.agents| && p.agents[i] == a;
      SteadyWeights(cfg, a, i);
    }
    SumSeqMonotone(p.agents, WeightOf(One(), TOTALLED), WeightOf(One(), COUNTED));
    SumSeqMonotone(p.agents, WeightOf(One(), COUNTED), WeightOf(One(), TOTALLED));
    SumSeqBound(p.agents, Tallied(), 0);
  }

  lemma DistinctSize(c: multiset<Offset>)
    requires forall o :: c[o] <= 1
    ensures |c| == |DoneSet(c)|
    decreases |c|
  {
    if o :| o in c {
      var rest := c - multiset{o};
      DistinctSize(rest);
      assert DoneSet(c) == DoneSet(rest) + {o};
      assert c == rest + multiset{o};
    } else {
      forall o ensures c[o] == 0 {
        assert o !in c;
      }
      assert c == multiset{};
      assert DoneSet(c) == {};
    }
  }

  /**
   * Counter conservation. The tallies equal the completions, and without repeated deliveries the
   * offsets behind the pointer and in the done set. The consumer-wide counter exceeds the in-flight
   * count by exactly the duplicates that were skipped, so it returns to it only if there were none.
   */
  lemma CounterConservation(cfg: Config, ps: seq<Part>, evs: seq<PartEvent>, i: nat)
    requires ValidConfig(cfg) && PartRun(cfg, ps, evs) && i < |ps| && Calm(ps[i])
    ensures
      var s := ps[i].sh;
      && s.n.processed + s.n.discarded == |s.h.completed|
      && (DupFree(s) ==> s.n.processed + s.n.discarded == Progress(s))
      && s.n.total == s.n.count + |s.h.skipped|
      && (s.n.total == s.n.count <==> s.h.skipped == multiset{})
  {
    PartRunInv(cfg, ps, evs, i);
    CalmCounters(cfg, ps[i]);
  }

  /** How far the tracker got: the steps of its pointer, and the offsets that wait beyond it. */
  function Progress(s: Shared): int {
    if s.h.delivered == [] then 0 else s.tracker.base - SeedOf(s) + |s.tracker.done|
  }

  lemma CalmCounters(cfg: Config, p: Part)
    requires PartInv(cfg, p) && Calm(p)
    ensures p.sh.n.processed + p.sh.n.discarded == |p.sh.h.completed|
    ensures DupFree(p.sh) ==> p.sh.n.processed + p.sh.n.discarded == Progress(p.sh)
    ensures p.sh.n.total == p.sh.n.count + |p.sh.h.skipped|
  {
    CalmSums(cfg, p);
    var s := p.sh;
    if DupFree(s) {
      CompletedOnce(p);
      DistinctSize(s.h.completed);
      if s.h.delivered == [] {
        assert DoneSet(s.h.completed) == {};
      } else {
        TracksConserves(s.tracker, SeedOf(s), DoneSet(s.h.completed));
        assert AtOrAbove(DoneSet(s.h.completed), SeedOf(s)) == DoneSet(s.h.completed);
      }
    }
  }

  lemma CompletedOnce(p: Part)
    requires FateOk(p) && TrackerOk(p.sh, p.poll) && DeliveryOk(p.sh, p.poll) && DupFree(p.sh)
    ensures forall o :: p.sh.h.completed[o] <= 1
    ensures forall o :: o in p.sh.h.completed ==> p.sh.h.delivered != [] && SeedOf(p.sh) <= o
  {
    forall o ensures p.sh.h.completed[o] <= 1
      && (o in p.sh.h.completed ==> p.sh.h.delivered != [] && SeedOf(p.sh) <= o) {
      assert Total(p, AtOffset(o), OPEN) + p.sh.h.completed[o] + p.sh.h.dropped[o] == p.sh.h.admitted[o];
      assert Deliveries(p.sh, o) == p.sh.h.admitted[o] + p.sh.h.skipped[o] + p.sh.h.refused[o] + Undecided(p.poll, o);
      assert Deliveries(p.sh, o) <= 1;
    }
  }

  /** The wait group and the counters never go negative. */
  lemma CountersNonNegative(cfg: Config, ps: seq<Part>, evs: seq<PartEvent>, i: nat)
    requires ValidConfig(cfg) && PartRun(cfg, ps, evs) && i < |ps|
    ensures 0 <= ps[i].sh.n.waiting && 0 <= ps[i].sh.n.count && 0 <= ps[i].sh.n.total
  {
    PartRunInv(cfg, ps, evs, i);
  }

  // ---------------------------------------------------------------- in flight

  /** A lane frees the slot before it drops the count, so one message may count beyond the slots. */
  lemma LaneInFlight(cfg: Config, l: Lane)
    requires Structure(cfg, l) && SlotsOk(cfg, l)
    ensures Weight(l, One(), COUNTED) == Weight(l, One(), SLOTTED) + Bit(Freed(l.pc))
    ensures Weight(l, One(), SLOTTED) <= cfg.queueSize
  {
    assert PcWeight(l.pc, One(), COUNTED) == PcWeight(l.pc, One(), SLOTTED) + Bit(Freed(l.pc)) by {
      PcInFlight(cfg, l.pc);
    }
  }

  lemma PcInFlight(cfg: Config, pc: Pc)
    requires PcOk(cfg, pc)
    ensures PcWeight(pc, One(), COUNTED) == PcWeight(pc, One(), SLOTTED) + Bit(Freed(pc))
  {
  }

  /** The slot is free, and the message still counts. */
  predicate Freed(pc: Pc) {
    match pc
    case Settling(_, _, s) => s == DropTotal || s == DropCount
    case Abandoning(_, s) => s == DropTotal || s == DropCount
    case _ => false
  }

  /** A goroutine drops the count before it releases the semaphore. */
  lemma TaskInFlight(cfg: Config, t: Task)
    requires TaskInv(cfg, t)
    ensures PcWeight(t.pc, One(), COUNTED) <= HoldingSem()(TaskAgent(t))
  {
  }

  /** The most messages that can be in flight while the poll goroutine is not inside route. */
  function InFlightCap(cfg: Config): nat {
    match cfg.mode
    case KeyOrdered => cfg.lanes * (cfg.queueSize + 1)
    case Unordered => cfg.concurrency
  }

  /** No worker is between freeing a slot and dropping the count. */
  predicate NoneFreed(p: Part) {
    forall a :: a in p.agents ==> !Freed(a.Pc())
  }

  /** The slots of a lane that messages hold, and those that none does. */
  ghost function SlotsHeld(): Agent -> nat {
    (a: Agent) => if a.LaneAgent? then Weight(a.lane, One(), SLOTTED) else 0
  }

  ghost function SlotsFree(cfg: Config): Agent -> nat {
    (a: Agent) => if SlotsHeld()(a) <= cfg.queueSize then cfg.queueSize - SlotsHeld()(a) else 0
  }

  ghost function FreedBit(): Agent -> nat {
    (a: Agent) => Bit(Freed(a.Pc()))
  }

  function Full(cfg: Config): Agent -> nat {
    (a: Agent) => cfg.queueSize
  }

  lemma {:induction false} SumFull(cfg: Config, agents: seq<Agent>)
    ensures SumSeq(agents, Full(cfg)) == |agents| * cfg.queueSize
  {
    if agents != [] {
      SumFull(cfg, agents[1..]);
      assert |agents| * cfg.queueSize == cfg.queueSize + (|agents| - 1) * cfg.queueSize;
    }
  }

  /** In the lanes the messages in flight are those that hold a slot and those that just freed one. */
  lemma LanesInFlight(cfg: Config, p: Part)
    requires AgentsOk(cfg, p.agents) && cfg.mode == KeyOrdered
    ensures SumSeq(p.agents, WeightOf(One(), COUNTED)) == SumSeq(p.agents, SlotsHeld()) + SumSeq(p.agents, FreedBit())
    ensures SumSeq(p.agents, SlotsHeld()) + SumSeq(p.agents, SlotsFree(cfg)) == NaturalCap(cfg)
  {
    forall a | a in p.agents
      ensures WeightOf(One(), COUNTED)(a) == SlotsHeld()(a) + FreedBit()(a)
      ensures Full(cfg)(a) == SlotsHeld()(a) + SlotsFree(cfg)(a)
    {
      var i :| 0 <= i < |p.agents| && p.agents[i] == a;
      assert AgentOk(cfg, a, i);
      LaneInFlight(cfg, a.lane);
    }
    SumSeqAdd(p.agents, WeightOf(One(), COUNTED), SlotsHeld(), FreedBit());
    SumSeqAdd(p.agents, Full(cfg), SlotsHeld(), SlotsFree(cfg));
    SumFull(cfg, p.agents);
  }

  lemma TasksInFlight(cfg: Config, p: Part)
    requires AgentsOk(cfg, p.agents) && SemOk(cfg, p) && cfg.mode == Unordered
    ensures SumSeq(p.agents, WeightOf(One(), COUNTED)) <= cfg.concurrency
  {
    forall a | a in p.agents ensures WeightOf(One(), COUNTED)(a) <= HoldingSem()(a) {
      var i :| 0 <= i < |p.agents| && p.agents[i] == a;
      assert AgentOk(cfg, a, i);
      TaskInFlight(cfg, a.task);
    }
    SumSeqMonotone(p.agents, WeightOf(One(), COUNTED), HoldingSem());
  }

  lemma FreedBound(p: Part)
    ensures SumSeq(p.agents, FreedBit()) <= if NoneFreed(p) then 0 else |p.agents|
  {
    SumSeqBound(p.agents, FreedBit(), if NoneFreed(p) then 0 else 1);
  }

  lemma AgentsInFlight(cfg: Config, p: Part)
    requires AgentsOk(cfg, p.agents) && SemOk(cfg, p)
    ensures SumSeq(p.agents, WeightOf(One(), COUNTED)) <= if NoneFreed(p) then NaturalCap(cfg) else InFlightCap(cfg)
  {
    match cfg.mode
    case KeyOrdered =>
      LanesInFlight(cfg, p);
      FreedBound(p);
      CapsOrdered(cfg);
    case Unordered =>
      TasksInFlight(cfg, p);
  }

  /**
   * In-flight bound: Lanes times QueueSize plus one per lane, or Concurrency, and one more only
   * while a route is under way. The one per lane is for workers that freed a slot and have not yet
   * dropped the count; without such a worker the natural cap holds. So the engine never pauses a
   * partition whose MaxInFlight is above the bound.
   */
  lemma InFlightBound(cfg: Config, ps: seq<Part>, evs: seq<PartEvent>, i: nat)
    requires ValidConfig(cfg) && PartRun(cfg, ps, evs) && i < |ps|
    ensures ps[i].sh.n.count <= InFlightCap(cfg) + Bit(0 < PollRank(ps[i].poll))
    ensures NoneFreed(ps[i]) ==> ps[i].sh.n.count <= NaturalCap(cfg) + Bit(0 < PollRank(ps[i].poll))
    ensures PollRank(ps[i].poll) == 0 && InFlightCap(cfg) < cfg.maxInFlight ==> ps[i].sh.n.count < cfg.maxInFlight
  {
    PartRunInv(cfg, ps, evs, i);
    CountInFlight(cfg, ps[i]);
    CapsOrdered(cfg);
  }

  lemma CapsOrdered(cfg: Config)
    ensures NaturalCap(cfg) <= InFlightCap(cfg)
    ensures cfg.mode == KeyOrdered ==> NaturalCap(cfg) + cfg.lanes == InFlightCap(cfg)
  {
    assert cfg.lanes * (cfg.queueSize + 1) == cfg.lanes * cfg.queueSize + cfg.lanes;
  }

  /**
   * Outside route the messages in flight in KeyOrdered mode are exactly those that hold a slot and
   * those that freed theirs and still count. So the natural cap is passed exactly when more of the
   * latter are about than there are slots that no message holds.
   */
  lemma CapPassedExactly(cfg: Config, ps: seq<Part>, evs: seq<PartEvent>, i: nat)
    requires ValidConfig(cfg) && cfg.mode == KeyOrdered && PartRun(cfg, ps, evs) && i < |ps|
    requires PollRank(ps[i].poll) == 0
    ensures ps[i].sh.n.count == SumSeq(ps[i].agents, SlotsHeld()) + SumSeq(ps[i].agents, FreedBit())
    ensures NaturalCap(cfg) < ps[i].sh.n.count
      <==> SumSeq(ps[i].agents, SlotsFree(cfg)) < SumSeq(ps[i].agents, FreedBit())
  {
    PartRunInv(cfg, ps, evs, i);
    LanesInFlight(cfg, ps[i]);
  }

  lemma CountInFlight(cfg: Config, p: Part)
    requires AgentsOk(cfg, p.agents) && SemOk(cfg, p) && CountersOk(p)
    ensures p.sh.n.count <= (if NoneFreed(p) then NaturalCap(cfg) else InFlightCap(cfg)) + Bit(0 < PollRank(p.poll))
  {
    AgentsInFlight(cfg, p);
  }

  // ---------------------------------------------------------------- order

  /**
   * Per-key order across all lanes and retries: the attempts on the messages of one key are a
   * history of the processor that serves them one at a time, in the order in which they were
   * accepted, which is the order of delivery when deliveries increase.
   */
  lemma PerKeyOrder(cfg: Config, ps: seq<Part>, evs: seq<PartEvent>, i: nat, key: Key)
    requires ValidConfig(cfg) && cfg.mode == KeyOrdered && PartRun(cfg, ps, evs) && i < |ps|
    ensures SerialRun(EntriesOf(cfg, key, ps[i].log), MessagesOf(cfg, key, ps[i].appended))
    ensures Increasing(ps[i].sh.h.delivered) ==> Increasing(MessagesOf(cfg, key, ps[i].appended))
  {
    PartRunInv(cfg, ps, evs, i);
    var home := LaneIndex(cfg, key);
    assert KeyAtHome(cfg, ps[i], key);
    assert AgentOk(cfg, ps[i].agents[home], home);
    assert KeySerial(cfg, ps[i].agents[home].lane, key);
    if Increasing(ps[i].sh.h.delivered) {
      ProjectionIncreasing(cfg, key, ps[i].appended);
    }
  }

  /**
   * So no message of a key is attempted before every earlier one of that key succeeded or was
   * discarded: when an attempt begins, exactly the messages before it are done.
   */
  lemma NeverAhead(cfg: Config, ps: seq<Part>, evs: seq<PartEvent>, i: nat, key: Key, x: nat) returns (n: nat)
    requires ValidConfig(cfg) && cfg.mode == KeyOrdered && PartRun(cfg, ps, evs) && i < |ps|
    requires x < |EntriesOf(cfg, key, ps[i].log)| && EntriesOf(cfg, key, ps[i].log)[x].Begin?
    ensures
      var log, accepted := EntriesOf(cfg, key, ps[i].log), MessagesOf(cfg, key, ps[i].appended);
      n < |accepted| && log[x].msg == accepted[n] && DoneIn(log[..x]) == accepted[..n]
  {
    PerKeyOrder(cfg, ps, evs, i, key);
    var log, accepted := EntriesOf(cfg, key, ps[i].log), MessagesOf(cfg, key, ps[i].appended);
    SerialOrder(log, accepted, x);
    n := ServeAll(log[..x], accepted).next;
  }

  /** Each accepted message gets at most the allowed number of handler calls, over all retries. */
  lemma CallsPerMessage(cfg: Config, ps: seq<Part>, evs: seq<PartEvent>, i: nat, key: Key, n: nat)
    requires ValidConfig(cfg) && cfg.mode == KeyOrdered && PartRun(cfg, ps, evs) && i < |ps|
    ensures CallsOn(EntriesOf(cfg, key, ps[i].log), MessagesOf(cfg, key, ps[i].appended), n) <= MaxAttempts(cfg)
  {
    PerKeyOrder(cfg, ps, evs, i, key);
    KeyEntriesAllowed(cfg, ps, evs, i, key);
    CallsBound(EntriesOf(cfg, key, ps[i].log), MessagesOf(cfg, key, ps[i].appended), n, MaxAttempts(cfg));
  }

  lemma KeyEntriesAllowed(cfg: Config, ps: seq<Part>, evs: seq<PartEvent>, i: nat, key: Key)
    requires ValidConfig(cfg) && PartRun(cfg, ps, evs) && i < |ps|
    ensures AttemptsBelow(EntriesOf(cfg, key, ps[i].log), MaxAttempts(cfg))
  {
    PartRunInv(cfg, ps, evs, i);
    EntriesAllowed(cfg, key, ps[i].log);
  }

  lemma {:induction false} EntriesAllowed(cfg: Config, key: Key, log: seq<Entry>)
    requires AttemptsBelow(log, MaxAttempts(cfg))
    ensures AttemptsBelow(EntriesOf(cfg, key, log), MaxAttempts(cfg))
  {
    if log != [] {
      var init, e := log[..|log| - 1], log[|log| - 1];
      EntriesAllowed(cfg, key, init);
      assert e.attempt < MaxAttempts(cfg);
      assert EntriesOf(cfg, key, log) == EntriesOf(cfg, key, init) + if KeyOf(cfg, e.msg) == key then [e] else [];
    }
  }

  lemma {:induction false} ProjectionIncreasing(cfg: Config, key: Key, ms: seq<Message>)
    requires Increasing(ms)
    ensures Increasing(MessagesOf(cfg, key, ms))
    ensures forall m :: m in MessagesOf(cfg, key, ms) ==> m in ms
  {
    if ms != [] {
      var init := ms[..|ms| - 1];
      ProjectionIncreasing(cfg, key, init);
      forall m | m in MessagesOf(cfg, key, init) ensures m.offset < ms[|ms| - 1].offset {
        assert m in init;
      }
    }
  }

  /** An Unordered goroutine calls the handler at most the allowed number of times. */
  lemma UnorderedAttempts(cfg: Config, ps: seq<Part>, evs: seq<PartEvent>, i: nat, k: nat)
    requires ValidConfig(cfg) && cfg.mode == Unordered && PartRun(cfg, ps, evs) && i < |ps| && k < |ps[i].agents|
    ensures Calls(ps[i].agents[k].Log()) <= MaxAttempts(cfg)
    ensures ps[i].agents[k].Pc().Discarding? ==> Calls(ps[i].agents[k].Log()) == MaxAttempts(cfg)
  {
    PartRunInv(cfg, ps, evs, i);
    assert AgentOk(cfg, ps[i].agents[k], k);
  }

  /** In both modes OnDiscard is only ever called for a message that has used up its attempts. */
  lemma DiscardsLast(cfg: Config, ps: seq<Part>, evs: seq<PartEvent>, i: nat, k: nat)
    requires ValidConfig(cfg) && PartRun(cfg, ps, evs) && i < |ps| && k < |ps[i].agents|
    requires ps[i].agents[k].Pc().Discarding?
    ensures ps[i].agents[k].Pc().wk.attempts + 1 == MaxAttempts(cfg)
  {
    PartRunInv(cfg, ps, evs, i);
    assert AgentOk(cfg, ps[i].agents[k], k);
  }

  // ---------------------------------------------------------------- draining

  /** Consecutive offsets, each delivered once. */
  predicate GapFree(ms: seq<Message>) {
    forall i :: 0 <= i < |ms| ==> ms[i].offset == ms[0].offset + i
  }

  lemma {:induction false} GapFreeCount(ms: seq<Message>, o: Offset)
    requires GapFree(ms) && ms != []
    ensures SumSeq(ms, AtOffset(o)) == Bit(ms[0].offset <= o < ms[0].offset + |ms|)
  {
    if |ms| == 1 {
      assert SumSeq(ms[1..], AtOffset(o)) == 0;
    } else {
      var rest := ms[1..];
      assert forall i :: 0 <= i < |rest| ==> rest[i] == ms[i + 1];
      GapFreeCount(rest, o);
    }
  }

  lemma OpenBelowAwaited(a: Agent, o: Offset)
    ensures WeightOf(AtOffset(o), OPEN)(a) <= WeightOf(One(), AWAITED)(a)
  {
    if a.LaneAgent? {
      StockBelow(a.lane.buf.chains, OfMessage(AtOffset(o)), OfMessage(One()));
    }
    PcOpenBelowAwaited(a.Pc(), o);
  }

  lemma PcOpenBelowAwaited(pc: Pc, o: Offset)
    ensures PcWeight(pc, AtOffset(o), OPEN) <= PcWeight(pc, One(), AWAITED)
  {
    if pc.Abandoning? && pc.rest != [] {
      SumSeqMonotone(pc.rest[1..], OfMessage(AtOffset(o)), OfMessage(One()));
    }
  }

  /** When the wait group is empty outside route, nothing is queued or running. */
  lemma NothingOpen(p: Part, o: Offset)
    requires CountersOk(p) && p.sh.n.waiting == 0 && PollRank(p.poll) == 0
    ensures Total(p, AtOffset(o), OPEN) == 0
  {
    forall a | a in p.agents ensures WeightOf(AtOffset(o), OPEN)(a) <= WeightOf(One(), AWAITED)(a) {
      OpenBelowAwaited(a, o);
    }
    SumSeqMonotone(p.agents, WeightOf(AtOffset(o), OPEN), WeightOf(One(), AWAITED));
  }

  /**
   * Drain completeness. With consecutive deliveries, when the wait group reaches zero the pointer is
   * one past the last message exactly when no message was let go and none was refused; then it is
   * also one past the highest offset seen. This is the value that revoke and shutdown commit.
   */
  lemma DrainComplete(cfg: Config, ps: seq<Part>, evs: seq<PartEvent>, i: nat)
    requires ValidConfig(cfg) && PartRun(cfg, ps, evs) && i < |ps| && Emptied(ps[i])
    ensures
      var s := ps[i].sh;
      && s.tracker.hasBase
      && LeastMissing(s.tracker.base, SeedOf(s), DoneSet(s.h.completed))
      && (s.tracker.base == Last(s) + 1 <==> s.h.dropped == multiset{} && s.h.refused == multiset{})
      && (s.tracker.base == Last(s) + 1 ==> s.highest == Last(s))
  {
    PartRunInv(cfg, ps, evs, i);
    EmptiedPointer(cfg, ps[i]);
  }

  /** Something was delivered, with consecutive offsets, and nothing is in flight any more. */
  ghost predicate Emptied(p: Part) {
    && PollRank(p.poll) == 0 && p.sh.n.waiting == 0
    && p.sh.h.delivered != [] && GapFree(p.sh.h.delivered) && 0 <= SeedOf(p.sh)
  }

  /** The offset of the last message delivered. */
  function Last(s: Shared): Offset
    requires s.h.delivered != []
  {
    s.h.delivered[|s.h.delivered| - 1].offset
  }

  lemma EmptiedPointer(cfg: Config, p: Part)
    requires PartInv(cfg, p) && Emptied(p)
    ensures
      var s := p.sh;
      && s.tracker.hasBase
      && (s.tracker.base == Last(s) + 1 <==> s.h.dropped == multiset{} && s.h.refused == multiset{})
      && (s.tracker.base == Last(s) + 1 ==> s.highest == Last(s))
  {
    var s := p.sh;
    var first, last := SeedOf(s), Last(s);
    assert last == first + |s.h.delivered| - 1;
    forall o ensures s.h.completed[o] + s.h.dropped[o] + s.h.refused[o] == Bit(first <= o <= last) {
      DrainAccount(cfg, p, o);
    }
    DrainedIff(s.h, s.tracker.base, first, last);
    if s.tracker.base == last + 1 {
      assert last in DoneSet(s.h.completed);
      DrainHighest(p, last);
    }
  }

  /** When every offset from first to last has exactly one fate, the pointer passes all if all completed. */
  lemma DrainedIff(h: History, base: Offset, first: Offset, last: Offset)
    requires first <= last && LeastMissing(base, first, DoneSet(h.completed))
    requires forall o :: h.completed[o] + h.dropped[o] + h.refused[o] == Bit(first <= o <= last)
    ensures base == last + 1 <==> h.dropped == multiset{} && h.refused == multiset{}
  {
    if base == last + 1 {
      forall o ensures h.dropped[o] == 0 && h.refused[o] == 0 {
        assert h.completed[o] + h.dropped[o] + h.refused[o] == Bit(first <= o <= last);
        assert first <= o <= last ==> o in DoneSet(h.completed);
      }
    }
    if h.dropped == multiset{} && h.refused == multiset{} {
      assert last + 1 !in DoneSet(h.completed) by {
        assert h.completed[last + 1] + h.dropped[last + 1] + h.refused[last + 1] == 0;
      }
      forall o | first <= o < last + 1 ensures o in DoneSet(h.completed) {
        assert h.completed[o] + h.dropped[o] + h.refused[o] == 1;
      }
      LeastMissingUnique(base, last + 1, first, DoneSet(h.completed));
    }
  }

  lemma DrainAccount(cfg: Config, p: Part, o: Offset)
    requires CountersOk(p) && FateOk(p) && DeliveryOk(p.sh, p.poll) && SkipsOk(p.sh)
    requires PollRank(p.poll) == 0 && p.sh.n.waiting == 0
    requires p.sh.h.delivered != [] && GapFree(p.sh.h.delivered)
    ensures p.sh.h.completed[o] + p.sh.h.dropped[o] + p.sh.h.refused[o]
         == Bit(SeedOf(p.sh) <= o < SeedOf(p.sh) + |p.sh.h.delivered|)
  {
    NothingOpen(p, o);
    GapFreeCount(p.sh.h.delivered, o);
    assert Total(p, AtOffset(o), OPEN) + p.sh.h.completed[o] + p.sh.h.dropped[o] == p.sh.h.admitted[o];
    assert Deliveries(p.sh, o) == p.sh.h.admitted[o] + p.sh.h.skipped[o] + p.sh.h.refused[o] + Undecided(p.poll, o);
    if o in p.sh.h.skipped {
      assert false;
    }
  }

  lemma DrainHighest(p: Part, last: Offset)
    requires FateOk(p) && DeliveryOk(p.sh, p.poll) && HighestOk(p.sh, p.poll) && PollRank(p.poll) == 0
    requires p.sh.h.delivered != [] && GapFree(p.sh.h.delivered) && 0 <= SeedOf(p.sh)
    requires last == SeedOf(p.sh) + |p.sh.h.delivered| - 1 && last in p.sh.h.completed
    ensures p.sh.highest == last
  {
    assert Total(p, AtOffset(last), OPEN) + p.sh.h.completed[last] + p.sh.h.dropped[last] == p.sh.h.admitted[last];
    var o := p.sh.highest;
    assert Deliveries(p.sh, o) == p.sh.h.admitted[o] + p.sh.h.skipped[o] + p.sh.h.refused[o] + Undecided(p.poll, o);
    GapFreeCount(p.sh.h.delivered, o);
  }
}
