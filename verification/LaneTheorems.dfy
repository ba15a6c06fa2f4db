/** Whole runs of a lane. */
module LaneTheorems {
  import opened Types
  import opened Sums
  import opened LaneMachine
  import opened LaneStock
  import opened LaneInvariant
  import opened LaneSerial

  ghost predicate LaneInv(cfg: Config, l: Lane) {
    && Structure(cfg, l)
    && SlotsOk(cfg, l)
    && Awake(l)
    && Attended(l)
    && Timed(l)
    && AllSerial(cfg, l)
  }

  lemma NewLaneInv(cfg: Config)
    ensures LaneInv(cfg, NEW_LANE)
  {
    NewStructure(cfg);
    NewSlots(cfg);
    NewSerial(cfg);
  }

  lemma NewStructure(cfg: Config)
    ensures Structure(cfg, NEW_LANE)
  {
  }

  lemma NewSlots(cfg: Config)
    ensures SlotsOk(cfg, NEW_LANE)
  {
    assert Stock(map[], OfMessage(One())) == 0;
  }

  lemma NewSerial(cfg: Config)
    ensures AllSerial(cfg, NEW_LANE)
  {
    forall key ensures KeySerial(cfg, NEW_LANE, key) {
      assert Messages([]) == [];
    }
  }

  lemma LaneInvStep(cfg: Config, l: Lane, e: Event)
    requires LaneInv(cfg, l) && Guard(cfg, l, e)
    ensures LaneInv(cfg, Next(cfg, l, e))
  {
    StructureStep(cfg, l, e);
    SlotsStep(cfg, l, e);
    AwakeStep(cfg, l, e);
    TimedStep(cfg, l, e);
    SerialStep(cfg, l, e);
  }

  /** ls are the states of a run from the new lane, es the events between them. */
  ghost predicate LaneRun(cfg: Config, ls: seq<Lane>, es: seq<Event>) {
    && |ls| == |es| + 1
    && ls[0] == NEW_LANE
    && forall i :: 0 <= i < |es| ==> LaneStep(cfg, ls, es, i)
  }

  ghost predicate LaneStep(cfg: Config, ls: seq<Lane>, es: seq<Event>, i: nat)
    requires |ls| == |es| + 1 && i < |es|
  {
    Guard(cfg, ls[i], es[i]) && ls[i + 1] == Next(cfg, ls[i], es[i])
  }

  lemma {:induction false} RunInv(cfg: Config, ls: seq<Lane>, es: seq<Event>, i: nat)
    requires LaneRun(cfg, ls, es) && i < |ls|
    ensures LaneInv(cfg, ls[i])
  {
    if i == 0 {
      NewLaneInv(cfg);
    } else {
      RunInv(cfg, ls, es, i - 1);
      assert LaneStep(cfg, ls, es, i - 1);
      LaneInvStep(cfg, ls[i - 1], es[i - 1]);
    }
  }

  // ---------------------------------------------------------------- wakeups

  /**
   * No lost wakeup: for a parked worker the token is there, or a push or close has yet to send its
   * signal, or it has a reason to wait. The lane is then not closed and empty, and every head waits
   * for a deadline no sooner than the timer; so once some head is due, the timer has fired.
   */
  lemma NoLostWakeup(cfg: Config, ls: seq<Lane>, es: seq<Event>, i: nat)
    requires LaneRun(cfg, ls, es) && i < |ls| && ls[i].pc.Parked?
    ensures
      var l := ls[i];
      || Guard(cfg, l, Wake) || Guard(cfg, l, Notify)
      || ((l.buf.closed ==> HasQueued(l.buf.chains)) && WaitsFor(l.buf.chains, l.pc.timer))
    ensures forall k, now :: k in ls[i].buf.chains && Due(ls[i].buf.chains[k], now) ==>
      Guard(cfg, ls[i], Wake) || Guard(cfg, ls[i], Notify) || Guard(cfg, ls[i], Expire(now))
  {
    RunInv(cfg, ls, es, i);
  }

  /** Every head cools down, and the timer fires no later than the first of them is due. */
  predicate WaitsFor(chains: Chains, timer: Deadline) {
    forall k :: k in chains && chains[k].queue != [] ==>
      timer.At? && chains[k].retryAt.At? && timer.when <= chains[k].retryAt.when
  }

  /** The worker parks only when nothing is due, and always arms the timer while anything is queued. */
  lemma ParksArmed(cfg: Config, ls: seq<Lane>, es: seq<Event>, i: nat, timer: Deadline, now: int)
    requires LaneRun(cfg, ls, es) && i < |ls| && Guard(cfg, ls[i], Park(timer, now))
    requires HasQueued(ls[i].buf.chains)
    ensures timer.At? && now < timer.when
    ensures Next(cfg, ls[i], Park(timer, now)).pc == Parked(timer)
  {
    RunInv(cfg, ls, es, i);
    var k :| k in ls[i].buf.chains && ls[i].buf.chains[k].queue != [];
    assert !Due(ls[i].buf.chains[k], now);
    var j :| j in ls[i].buf.chains && ls[i].buf.chains[j].queue != [] && ls[i].buf.chains[j].retryAt == timer;
    assert !Due(ls[i].buf.chains[j], now);
  }

  // ---------------------------------------------------------------- conservation

  lemma {:induction false} FullChains(chains: Chains)
    requires forall k :: k in chains ==> chains[k].queue != []
    ensures |chains| <= Stock(chains, OfMessage(One()))
    decreases |chains|
  {
    if chains != map[] {
      var k :| k in chains;
      SumMapTake(chains, k, QueueSum(OfMessage(One())));
      var queue := chains[k].queue;
      assert SumSeq(queue, OfMessage(One())) == 1 + SumSeq(queue[1..], OfMessage(One()));
      FullChains(chains - {k});
      assert |chains| == |chains - {k}| + 1 by {
        assert chains.Keys == (chains - {k}).Keys + {k};
      }
    }
  }

  /**
   * The slots taken are the queued messages, the one the worker has in hand, the abandoned ones
   * and the pushes under way. They never exceed the queue size, and neither do the chains.
   */
  lemma Conservation(cfg: Config, ls: seq<Lane>, es: seq<Event>, i: nat)
    requires LaneRun(cfg, ls, es) && i < |ls|
    ensures
      var l := ls[i];
      && l.buf.slots
        == Stock(l.buf.chains, OfMessage(One())) + PcWeight(l.pc, One(), SLOTTED) + l.reserved + l.returning
      && l.buf.slots <= cfg.queueSize
      && |l.buf.chains| <= l.buf.slots
  {
    RunInv(cfg, ls, es, i);
    ChainCount(cfg, ls[i]);
  }

  lemma ChainCount(cfg: Config, l: Lane)
    requires NoIdleChain(cfg, l) && HeldChain(cfg, l)
    ensures |l.buf.chains| <= Weight(l, One(), SLOTTED)
  {
    var full := NonEmpty(l.buf.chains);
    FullChains(full);
    StockNonEmpty(l.buf.chains, OfMessage(One()));
    if Holds(l.pc) {
      var key := KeyOf(cfg, l.pc.wk.msg);
      SizeWithin(l.buf.chains.Keys, full.Keys + {key});
      assert PcWeight(l.pc, One(), SLOTTED) == 1;
    } else {
      assert full == l.buf.chains;
    }
  }

  lemma SizeWithin<T>(a: set<T>, b: set<T>)
    requires a <= b
    ensures |a| <= |b|
  {
    assert b == a + (b - a);
  }

  /** Releasing or giving back a slot never blocks. */
  lemma SlotsNeverBlock(cfg: Config, ls: seq<Lane>, es: seq<Event>, i: nat)
    requires LaneRun(cfg, ls, es) && i < |ls|
    ensures 0 < ls[i].returning ==> Guard(cfg, ls[i], GiveBack)
    ensures ls[i].pc.Settling? ==> Guard(cfg, ls[i], Settle)
    ensures ls[i].pc.Abandoning? ==> Guard(cfg, ls[i], Abandon)
  {
    RunInv(cfg, ls, es, i);
  }

  // ---------------------------------------------------------------- cooldown

  /**
   * A chain cools down exactly while its head has failed before, nothing behind a head has, and no
   * chain is empty while the worker holds nothing. So a scan never finds an empty chain to delete,
   * a failed head always finds its chain again, and no message leaves by the defensive branch.
   */
  lemma CooldownStructure(cfg: Config, ls: seq<Lane>, es: seq<Event>, i: nat)
    requires LaneRun(cfg, ls, es) && i < |ls|
    ensures
      var l := ls[i];
      && (forall k :: k in l.buf.chains ==>
           var c := l.buf.chains[k];
           && (c.retryAt.At? <==> c.queue != [] && 0 < c.queue[0].attempts)
           && forall j :: 1 <= j < |c.queue| ==> c.queue[j].attempts == 0)
      && (!Holds(l.pc) ==> forall k :: k in l.buf.chains ==> l.buf.chains[k].queue != [])
      && (forall key, purged, now :: Guard(cfg, l, Pick(key, purged, now)) ==> purged == {})
      && (l.pc.Cooling? ==> KeyOf(cfg, l.pc.wk.msg) in l.buf.chains)
      && (l.pc.Settling? ==> l.pc.fate != Vanished)
  {
    RunInv(cfg, ls, es, i);
    var l := ls[i];
    forall k | k in l.buf.chains
      ensures var c := l.buf.chains[k];
        && (c.retryAt.At? <==> c.queue != [] && 0 < c.queue[0].attempts)
        && forall j :: 1 <= j < |c.queue| ==> c.queue[j].attempts == 0
    {
      assert ChainOk(cfg, k, l.buf.chains[k]);
    }
    forall key, purged: set<Key>, now | Guard(cfg, l, Pick(key, purged, now))
      ensures purged == {}
    {
      PurgesNothing(cfg, l, key, purged, now);
    }
  }

  lemma PurgesNothing(cfg: Config, l: Lane, key: Key, purged: set<Key>, now: int)
    requires NoIdleChain(cfg, l) && MayPick(l, key, purged, now)
    ensures purged == {}
  {
    if k :| k in purged {
      assert false;
    }
  }

  // ---------------------------------------------------------------- order and attempts

  /** What a lane did to the messages of one key is a history of the one-at-a-time processor. */
  lemma PerKeySerial(cfg: Config, ls: seq<Lane>, es: seq<Event>, i: nat, key: Key)
    requires LaneRun(cfg, ls, es) && i < |ls|
    ensures SerialRun(EntriesOf(cfg, key, ls[i].log), MessagesOf(cfg, key, ls[i].arrived))
  {
    RunInv(cfg, ls, es, i);
    assert KeySerial(cfg, ls[i], key);
  }

  // ---------------------------------------------------------------- draining

  ghost function Left(cfg: Config): Work -> nat {
    (wk: Work) => if wk.attempts < MaxAttempts(cfg) then MaxAttempts(cfg) - wk.attempts else 0
  }

  function Minus1(n: nat): nat {
    if n == 0 then 0 else n - 1
  }

  /** The handler calls the messages in the lane may still ask for; a call under way is spent. */
  ghost function CallsLeft(cfg: Config, l: Lane): nat {
    Stock(l.buf.chains, Left(cfg)) +
    match l.pc
    case Handling(wk) => Minus1(Left(cfg)(wk))
    case Failing(wk) => Minus1(Left(cfg)(wk))
    case Discarding(_) => 0
    case Cooling(wk, _) => Left(cfg)(wk)
    case _ => 0
  }

  function Calls(log: seq<Entry>): nat {
    if log == [] then 0 else Calls(log[..|log| - 1]) + if log[|log| - 1].Begin? then 1 else 0
  }

  /** Calls made and calls left. */
  ghost function Potential(cfg: Config, l: Lane): nat {
    Calls(l.log) + CallsLeft(cfg, l)
  }

  lemma CallsMore(log: seq<Entry>, e: Entry)
    ensures Calls(log + [e]) == Calls(log) + if e.Begin? then 1 else 0
  {
    assert (log + [e])[..|log|] == log;
  }

  lemma ScanBudget(cfg: Config, l: Lane, e: Event)
    requires Shape(cfg, l.buf.chains) && Guard(cfg, l, e) && (e.Pick? || e.Park?)
    ensures Potential(cfg, Next(cfg, l, e)) <= Potential(cfg, l)
  {
    if e.Pick? {
      var wk := l.buf.chains[e.key].queue[0];
      assert ChainOk(cfg, e.key, l.buf.chains[e.key]);
      StockTakeHead(l.buf.chains, e.key, Left(cfg));
      assert e.key !in e.purged;
      StockPurge(TakeHead(l.buf.chains, e.key), e.purged, Left(cfg));
      CallsMore(l.log, Begin(wk.msg, wk.attempts));
    } else {
      StockNonEmpty(l.buf.chains, Left(cfg));
    }
  }

  lemma EndBudget(cfg: Config, l: Lane, wk: Work, verdict: Verdict, pc: Pc)
    requires Running(l.pc) && l.pc.wk == wk && wk.attempts < MaxAttempts(cfg)
    requires pc.Settling? || (pc.Cooling? && pc.wk.attempts == wk.attempts + 1)
    requires l.pc.Discarding? ==> pc.Settling?
    ensures Potential(cfg, Ended(l, wk, verdict, pc)) <= Potential(cfg, l)
  {
    CallsMore(l.log, End(wk.msg, wk.attempts, verdict));
  }

  lemma AttemptBudget(cfg: Config, l: Lane, e: Event)
    requires PcOk(cfg, l.pc) && Guard(cfg, l, e)
    requires e.Return? || e.Decide? || e.DiscardReturn?
    ensures Potential(cfg, Next(cfg, l, e)) <= Potential(cfg, l)
  {
    var next, wk := Next(cfg, l, e), l.pc.wk;
    match e
    case Return(ok) =>
      if ok { EndBudget(cfg, l, wk, Done, next.pc); }
    case Decide(_, _) =>
      if !next.pc.Discarding? { EndBudget(cfg, l, wk, if next.pc.Cooling? then Retry else Stop, next.pc); }
    case DiscardReturn(ok) => EndBudget(cfg, l, wk, if ok then Done else Stop, next.pc);
  }

  /** A handler call uses up one of the calls left, and only a push adds any. */
  lemma BudgetStep(cfg: Config, l: Lane, e: Event)
    requires PcOk(cfg, l.pc) && Shape(cfg, l.buf.chains) && HeldChain(cfg, l) && Guard(cfg, l, e) && !e.Push?
    ensures Potential(cfg, Next(cfg, l, e)) <= Potential(cfg, l)
  {
    match e
    case Pick(_, _, _) => ScanBudget(cfg, l, e);
    case Park(_, _) => ScanBudget(cfg, l, e);
    case Return(_) => AttemptBudget(cfg, l, e);
    case Decide(_, _) => AttemptBudget(cfg, l, e);
    case DiscardReturn(_) => AttemptBudget(cfg, l, e);
    case Cool(now) => CoolBudget(cfg, l, now + l.pc.backoff);
    case Settle => SettleBudget(cfg, l);
    case Gather(all) => GatherBudget(cfg, l, all);
    case _ => IdleBudget(cfg, l, e);
  }

  lemma IdleBudget(cfg: Config, l: Lane, e: Event)
    requires Guard(cfg, l, e)
    requires e.Reserve? || e.Reject? || e.GiveBack? || e.Notify? || e.Close? || e.Wake? || e.Expire? || e.Quit?
      || e.Abandon?
    ensures Potential(cfg, Next(cfg, l, e)) == Potential(cfg, l)
  {
  }

  lemma CoolBudget(cfg: Config, l: Lane, at: int)
    requires l.pc.Cooling? && HeldChain(cfg, l)
    ensures Potential(cfg, AfterCool(cfg, l, l.pc.wk, at)) == Potential(cfg, l)
  {
    StockPutBack(l.buf.chains, KeyOf(cfg, l.pc.wk.msg), l.pc.wk, at, Left(cfg));
  }

  lemma SettleBudget(cfg: Config, l: Lane)
    requires Guard(cfg, l, Settle)
    ensures Potential(cfg, AfterSettle(cfg, l, l.pc.wk, l.pc.fate, l.pc.stage)) == Potential(cfg, l)
  {
    StockUnchain(l.buf.chains, KeyOf(cfg, l.pc.wk.msg), Left(cfg));
  }

  lemma GatherBudget(cfg: Config, l: Lane, all: seq<Work>)
    requires l.pc.Leaving?
    ensures Potential(cfg, AfterGather(l, all)) <= Potential(cfg, l)
  {
    assert Stock(map[], Left(cfg)) == 0;
  }

  /** Once a lane is closed, the rest of the run calls the handler at most as often as was left then. */
  lemma {:induction false} ClosedLaneBudget(cfg: Config, ls: seq<Lane>, es: seq<Event>, i: nat, j: nat)
    requires LaneRun(cfg, ls, es) && i <= j < |ls| && ls[i].buf.closed
    ensures ls[j].buf.closed
    ensures Potential(cfg, ls[j]) <= Potential(cfg, ls[i])
  {
    if i < j {
      ClosedLaneBudget(cfg, ls, es, i, j - 1);
      ClosedLaneStep(cfg, ls, es, j - 1);
    }
  }

  lemma ClosedLaneStep(cfg: Config, ls: seq<Lane>, es: seq<Event>, i: nat)
    requires LaneRun(cfg, ls, es) && i < |es| && ls[i].buf.closed
    ensures ls[i + 1].buf.closed
    ensures Potential(cfg, ls[i + 1]) <= Potential(cfg, ls[i])
  {
    RunInv(cfg, ls, es, i);
    assert LaneStep(cfg, ls, es, i) && !es[i].Push?;
    BudgetStep(cfg, ls[i], es[i]);
  }

  // ---------------------------------------------------------------- a lane without a worker

  /** The message is queued in an open lane whose worker is gone. */
  predicate Stranded(cfg: Config, l: Lane, msg: Message) {
    l.pc == Exited && l.buf.accepting && QueueOf(l.buf.chains, KeyOf(cfg, msg)) == [Work(msg, 0)]
  }

  /** Some run leads to this state. */
  ghost predicate LaneReached(cfg: Config, l: Lane) {
    exists ls: seq<Lane>, es: seq<Event> :: LaneRun(cfg, ls, es) && ls[|es|] == l
  }

  lemma LaneReachedMore(cfg: Config, l: Lane, e: Event)
    requires LaneReached(cfg, l) && Guard(cfg, l, e)
    ensures LaneReached(cfg, Next(cfg, l, e))
  {
    var ls: seq<Lane>, es: seq<Event> :| LaneRun(cfg, ls, es) && ls[|es|] == l;
    var ms, fs := ls + [Next(cfg, l, e)], es + [e];
    forall i | 0 <= i < |fs| ensures LaneStep(cfg, ms, fs, i) {
      if i < |es| {
        assert LaneStep(cfg, ls, es, i);
      }
    }
    assert LaneRun(cfg, ms, fs);
    assert ms[|fs|] == Next(cfg, l, e);
  }

  /** The worker of a new lane leaves when its context ends. */
  lemma LeavesAtOnce(cfg: Config) returns (l: Lane)
    ensures LaneReached(cfg, l) && l.pc == Exited && l.buf == EMPTY_BUFFER && l.reserved == 0
  {
    var ls: seq<Lane>, es: seq<Event> := [NEW_LANE], [];
    assert LaneRun(cfg, ls, es) && ls[|es|] == NEW_LANE;
    LaneReachedMore(cfg, NEW_LANE, Park(Never, 0));
    var l1 := Next(cfg, NEW_LANE, Park(Never, 0));
    assert NonEmpty(map[]) == map[];
    LaneReachedMore(cfg, l1, Quit);
    var l2 := Next(cfg, l1, Quit);
    LaneReachedMore(cfg, l2, Gather([]));
    l := Next(cfg, l2, Gather([]));
  }

  /**
   * A worker that leaves because the context ended does not close its lane: a push that races with
   * it lands in a lane that nobody serves.
   */
  lemma PushAfterExit(cfg: Config, msg: Message)
    requires 1 <= cfg.queueSize
    ensures exists l :: LaneReached(cfg, l) && Stranded(cfg, l, msg)
  {
    var l := LeavesAtOnce(cfg);
    LaneReachedMore(cfg, l, Reserve);
    var l1 := Next(cfg, l, Reserve);
    LaneReachedMore(cfg, l1, Push(msg));
    assert Stranded(cfg, Next(cfg, l1, Push(msg)), msg);
  }

  /** What the events add to a lane. */
  ghost function Gains(es: seq<Event>, g: Message -> nat): nat {
    if es == [] then 0 else Gains(es[..|es| - 1], g) + Gain(es[|es| - 1], g)
  }

  /** The worker has taken what was queued for the last time. */
  predicate Gone(pc: Pc) {
    pc.Abandoning? || pc.Exited?
  }

  lemma GoneStep(cfg: Config, l: Lane, e: Event, g: Message -> nat)
    requires Guard(cfg, l, e) && Gone(l.pc)
    ensures Gone(Next(cfg, l, e).pc)
    ensures Stock(Next(cfg, l, e).buf.chains, OfMessage(g)) == Stock(l.buf.chains, OfMessage(g)) + Gain(e, g)
  {
    if e.Push? {
      StockEnqueue(l.buf.chains, KeyOf(cfg, e.msg), Work(e.msg, 0), OfMessage(g));
    }
  }

  /**
   * Exactly the messages pushed after the worker gathered what was queued are stranded: from then on
   * the chains hold them and nothing else, whatever happens.
   */
  lemma {:induction false} StrandedExactly(cfg: Config, ls: seq<Lane>, es: seq<Event>, k: nat, i: nat,
                                           g: Message -> nat)
    requires LaneRun(cfg, ls, es) && k < i < |ls| && es[k].Gather?
    ensures Gone(ls[i].pc)
    ensures Stock(ls[i].buf.chains, OfMessage(g)) == Gains(es[k + 1..i], g)
  {
    assert LaneStep(cfg, ls, es, i - 1);
    if i == k + 1 {
      assert Stock(map[], OfMessage(g)) == 0;
    } else {
      StrandedExactly(cfg, ls, es, k, i - 1, g);
      GoneStep(cfg, ls[i - 1], es[i - 1], g);
      assert es[k + 1..i][..i - k - 2] == es[k + 1..i - 1];
    }
  }

  /** So a lane that was closed before is empty from then on. */
  lemma {:induction false} ClosedStrandsNothing(cfg: Config, ls: seq<Lane>, es: seq<Event>, k: nat, i: nat)
    requires LaneRun(cfg, ls, es) && k < i < |ls| && es[k].Gather? && ls[k].buf.closed
    ensures Gone(ls[i].pc) && ls[i].buf.closed && ls[i].buf.chains == map[]
  {
    RunInv(cfg, ls, es, i - 1);
    assert LaneStep(cfg, ls, es, i - 1);
    if k + 1 < i {
      ClosedStrandsNothing(cfg, ls, es, k, i - 1);
      ClosedGoneStep(cfg, ls[i - 1], es[i - 1]);
    }
  }

  lemma ClosedGoneStep(cfg: Config, l: Lane, e: Event)
    requires Guard(cfg, l, e) && Gone(l.pc) && l.buf.closed && !l.buf.accepting && l.buf.chains == map[]
    ensures Gone(Next(cfg, l, e).pc) && Next(cfg, l, e).buf.closed && Next(cfg, l, e).buf.chains == map[]
  {
  }
}
