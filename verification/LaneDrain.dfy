/** A lane that takes no more messages comes to its end. */
module LaneDrain {
  import opened Types
  import opened Sums
  import opened LaneMachine
  import opened LaneStock
  import opened LaneInvariant
  import opened LaneTheorems

  // ---------------------------------------------------------------- the measure

  predicate SomeDue(chains: Chains, now: int) {
    exists k :: k in chains && Due(chains[k], now)
  }

  function AbandonRank(s: Stage): nat {
    match s
    case Forget => 0
    case FreeSlot => 1
    case DropTotal => 2
    case DropCount => 3
    case _ => 4
  }

  function SettleRank(s: Stage): nat {
    20 - Rank(s)
  }

  /** How far the worker is from scanning, from parking, or from its exit. */
  function PcRank(l: Lane, now: int): nat {
    match l.pc
    case Scanning => if SomeDue(l.buf.chains, now) then 1 else 3
    case Parked(_) => 2
    case Handling(_) => 27
    case Failing(_) => 26
    case Discarding(_) => 25
    case Cooling(_, _) => 4
    case Settling(_, _, s) => SettleRank(s)
    case Leaving => 1
    case Abandoning(rest, s) => if rest == [] then 0 else 5 * |rest| - AbandonRank(s)
    case Exited => 0
  }

  function Tokens(l: Lane): nat {
    l.owed + if l.buf.wake then 1 else 0
  }

  /** What the worker may still do: handler calls with all that follows them, and wakeups. */
  ghost function Measure(cfg: Config, l: Lane, now: int): nat {
    30 * CallsLeft(cfg, l) + 4 * Tokens(l) + PcRank(l, now)
  }

  // ---------------------------------------------------------------- calls left

  lemma CallsStep(cfg: Config, l: Lane, e: Event)
    requires Guard(cfg, l, e)
    ensures Calls(Next(cfg, l, e).log) == Calls(l.log) + if e.Pick? then 1 else 0
  {
    var next := Next(cfg, l, e);
    if next.log != l.log {
      CallsMore(l.log, next.log[|l.log|]);
      assert next.log == l.log + [next.log[|l.log|]];
    }
  }

  /** No event but a push adds calls, and each call uses one up. */
  lemma CallsLeftStep(cfg: Config, l: Lane, e: Event)
    requires Structure(cfg, l) && Guard(cfg, l, e) && !e.Push?
    ensures CallsLeft(cfg, Next(cfg, l, e)) + (if e.Pick? then 1 else 0) <= CallsLeft(cfg, l)
  {
    BudgetStep(cfg, l, e);
    CallsStep(cfg, l, e);
  }

  lemma {:induction false} QueueLeft(cfg: Config, queue: seq<Work>)
    requires forall x :: 0 <= x < |queue| ==> queue[x].attempts < MaxAttempts(cfg)
    ensures |queue| <= SumSeq(queue, Left(cfg))
  {
    if queue != [] {
      assert forall x :: 0 <= x < |queue[1..]| ==> queue[1..][x] == queue[x + 1];
      QueueLeft(cfg, queue[1..]);
    }
  }

  lemma ChainLeft(cfg: Config, key: Key, c: Chain)
    requires ChainOk(cfg, key, c)
    ensures |c.queue| <= SumSeq(c.queue, Left(cfg))
  {
    forall x | 0 <= x < |c.queue| ensures c.queue[x].attempts < MaxAttempts(cfg) {
      assert x == 0 || c.queue[x].attempts == 0;
    }
    QueueLeft(cfg, c.queue);
  }

  /** Every queued message may still be called for at least once. */
  lemma {:induction false} GathersLeft(cfg: Config, chains: Chains, all: seq<Work>)
    requires Shape(cfg, chains) && Gathers(chains, all)
    ensures |all| <= SumSeq(all, Left(cfg))
    decreases |chains|
  {
    if chains != map[] {
      var k, rest :| k in chains && all == chains[k].queue + rest && Gathers(chains - {k}, rest);
      GathersLeft(cfg, chains - {k}, rest);
      ChainLeft(cfg, k, chains[k]);
      SumSeqConcat(chains[k].queue, rest, Left(cfg));
    }
  }

  // ---------------------------------------------------------------- the measure goes down

  lemma GatherLowers(cfg: Config, l: Lane, all: seq<Work>, now: int)
    requires Structure(cfg, l) && l.pc.Leaving? && Gathers(l.buf.chains, all)
    ensures Measure(cfg, AfterGather(l, all), now) < Measure(cfg, l, now)
  {
    GathersLeft(cfg, l.buf.chains, all);
    StockGathers(l.buf.chains, all, Left(cfg));
    assert Stock(map[], Left(cfg)) == 0;
  }

  lemma ExpireLowers(cfg: Config, l: Lane, now: int)
    requires Timed(l) && Guard(cfg, l, Expire(now))
    ensures PcRank(Next(cfg, l, Expire(now)), now) < PcRank(l, now)
  {
    var k :| k in l.buf.chains && l.buf.chains[k].queue != [] && l.buf.chains[k].retryAt == l.pc.timer;
    assert Due(l.buf.chains[k], now);
  }

  /** The rank alone goes down with every event that calls nobody and consumes no token. */
  lemma RankLowers(cfg: Config, l: Lane, e: Event, now: int)
    requires Structure(cfg, l) && Timed(l) && Guard(cfg, l, e) && OwnEvent(e) && Timely(e, now)
    requires !e.Pick? && !e.Wake? && !e.Gather?
    ensures PcRank(Next(cfg, l, e), now) + 4 * Tokens(Next(cfg, l, e)) < PcRank(l, now) + 4 * Tokens(l)
  {
    match e
    case Park(timer, _) => assert !SomeDue(l.buf.chains, now);
    case Expire(_) => ExpireLowers(cfg, l, now);
    case Settle => SettleLowers(cfg, l, now);
    case Abandon =>
    case Cool(_) =>
    case Return(_) =>
    case Decide(_, _) =>
    case DiscardReturn(_) =>
    case Quit =>
  }

  lemma SettleLowers(cfg: Config, l: Lane, now: int)
    requires PcOk(cfg, l.pc) && Guard(cfg, l, Settle)
    ensures PcRank(Next(cfg, l, Settle), now) + 4 * Tokens(Next(cfg, l, Settle)) < PcRank(l, now) + 4 * Tokens(l)
  {
    var next := SettlePc(l.pc.wk, l.pc.fate, l.pc.stage);
    assert next.Settling? ==> Rank(l.pc.stage) < Rank(next.stage);
  }

  /** Every event of the worker strictly lowers the measure. */
  lemma OwnEventLowers(cfg: Config, l: Lane, e: Event, now: int)
    requires Structure(cfg, l) && Timed(l) && Guard(cfg, l, e) && OwnEvent(e) && Timely(e, now)
    ensures Measure(cfg, Next(cfg, l, e), now) < Measure(cfg, l, now)
  {
    match e
    case Gather(all) => GatherLowers(cfg, l, all, now);
    case Pick(_, _, _) => PickLowers(cfg, l, e, now);
    case Wake => CallsLeftStep(cfg, l, e);
    case _ =>
      CallsLeftStep(cfg, l, e);
      RankLowers(cfg, l, e, now);
  }

  lemma PickLowers(cfg: Config, l: Lane, e: Event, now: int)
    requires Structure(cfg, l) && Guard(cfg, l, e) && e.Pick? && e.now == now
    ensures Measure(cfg, Next(cfg, l, e), now) < Measure(cfg, l, now)
  {
    CallsLeftStep(cfg, l, e);
    assert Due(l.buf.chains[e.key], now);
  }

  /** A push that is turned away, a signal, and a later clock never raise it. */
  lemma OthersKeep(cfg: Config, l: Lane, e: Event, now: int)
    requires Structure(cfg, l) && Guard(cfg, l, e) && !OwnEvent(e) && !e.Push? && !e.Close?
    ensures Measure(cfg, Next(cfg, l, e), now) <= Measure(cfg, l, now)
  {
    CallsLeftStep(cfg, l, e);
  }

  lemma LaterKeeps(cfg: Config, l: Lane, now: int, later: int)
    requires now <= later
    ensures Measure(cfg, l, later) <= Measure(cfg, l, now)
  {
    if l.pc.Scanning? && SomeDue(l.buf.chains, now) {
      var k :| k in l.buf.chains && Due(l.buf.chains[k], now);
      assert Due(l.buf.chains[k], later);
    }
  }

  // ---------------------------------------------------------------- and the worker can always go on

  lemma {:induction false} SomeEarliest(chains: Chains) returns (d: Deadline)
    ensures Earliest(chains, d)
    decreases |chains|
  {
    if chains == map[] {
      d := Never;
    } else {
      var k :| k in chains;
      var rest := chains - {k};
      d := SomeEarliest(rest);
      var c := chains[k];
      if c.queue != [] && c.retryAt.At? && (d.Never? || c.retryAt.when < d.when) {
        d := c.retryAt;
      }
      assert forall j :: j in chains && j != k ==> j in rest && rest[j] == chains[j];
    }
  }

  lemma {:induction false} SomeGathers(chains: Chains) returns (all: seq<Work>)
    ensures Gathers(chains, all)
    decreases |chains|
  {
    if chains == map[] {
      all := [];
    } else {
      var k :| k in chains;
      var rest := SomeGathers(chains - {k});
      all := chains[k].queue + rest;
    }
  }

  /**
   * Until it is gone, the worker of a closed lane has an event of its own to do now, or a signal is on
   * its way to it, or it waits for a deadline to come.
   */
  lemma ClosedLaneMoves(cfg: Config, l: Lane, now: int, cancelled: bool)
    requires LaneInv(cfg, l) && l.buf.closed && l.pc != Exited
    ensures
      || (exists e :: OwnEvent(e) && Guard(cfg, l, e) && MayDo(e, now, cancelled))
      || Guard(cfg, l, Notify)
      || (l.pc.Parked? && l.pc.timer.At? && now < l.pc.timer.when)
  {
    if l.pc.Scanning? {
      ScanMoves(cfg, l, now);
    } else if l.pc.Parked? {
      assert l.buf.wake ==> Guard(cfg, l, Wake);
      assert l.pc.timer.At? && l.pc.timer.when <= now ==> Guard(cfg, l, Expire(now));
    } else {
      var e := StageMoves(cfg, l, now, cancelled);
    }
  }

  /** The clock and the context let it happen, and it does not wait for the context to end. */
  predicate MayDo(e: Event, now: int, cancelled: bool) {
    Timely(e, now) && !e.Quit? && (e.Decide? ==> e.cancelled == cancelled)
  }

  lemma ScanMoves(cfg: Config, l: Lane, now: int)
    requires l.pc.Scanning?
    ensures exists e :: OwnEvent(e) && Guard(cfg, l, e) && Timely(e, now) && !e.Quit? && !e.Decide?
  {
    if k :| k in l.buf.chains && Due(l.buf.chains[k], now) {
      assert Guard(cfg, l, Pick(k, {}, now));
    } else {
      var timer := SomeEarliest(l.buf.chains);
      assert Guard(cfg, l, Park(timer, now));
    }
  }

  lemma StageMoves(cfg: Config, l: Lane, now: int, cancelled: bool) returns (e: Event)
    requires Structure(cfg, l) && SlotsOk(cfg, l) && !l.pc.Scanning? && !l.pc.Parked? && l.pc != Exited
    ensures OwnEvent(e) && Guard(cfg, l, e) && MayDo(e, now, cancelled)
  {
    match l.pc
    case Handling(_) => e := Return(true);
    case Failing(_) => e := Decide(cancelled, 0);
    case Discarding(_) => e := DiscardReturn(true);
    case Cooling(_, _) => e := Cool(now);
    case Settling(_, _, _) => e := Settle;
    case Leaving =>
      var all := SomeGathers(l.buf.chains);
      e := Gather(all);
    case Abandoning(_, _) => e := Abandon;
  }
}
