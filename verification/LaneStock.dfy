/** What a lane holds, weighed: over its chains, and with the message its worker has in hand. */
module LaneStock {
  import opened Types
  import opened Sums
  import opened LaneMachine

  ghost function QueueSum(g: Work -> nat): Chain -> nat {
    (c: Chain) => SumSeq(c.queue, g)
  }

  /** The weight of everything queued on the chains. */
  ghost function Stock(chains: Chains, g: Work -> nat): nat {
    SumMap(chains, QueueSum(g))
  }

  lemma StockPut(chains: Chains, key: Key, c: Chain, g: Work -> nat)
    ensures Stock(chains[key := c], g) + SumSeq(QueueOf(chains, key), g) == Stock(chains, g) + SumSeq(c.queue, g)
  {
    SumMapPut(chains, key, c, QueueSum(g));
    if key in chains {
      SumMapTake(chains, key, QueueSum(g));
    }
  }

  lemma StockEnqueue(chains: Chains, key: Key, wk: Work, g: Work -> nat)
    ensures Stock(Enqueue(chains, key, wk), g) == Stock(chains, g) + g(wk)
  {
    var queue := QueueOf(chains, key);
    StockPut(chains, key, Enqueue(chains, key, wk)[key], g);
    SumSeqConcat(queue, [wk], g);
    assert SumSeq([wk], g) == g(wk) + SumSeq([], g);
  }

  lemma StockPutBack(chains: Chains, key: Key, wk: Work, at: int, g: Work -> nat)
    ensures Stock(PutBack(chains, key, wk, at), g) == Stock(chains, g) + g(wk)
  {
    var queue := QueueOf(chains, key);
    StockPut(chains, key, PutBack(chains, key, wk, at)[key], g);
    SumSeqConcat([wk], queue, g);
    assert SumSeq([wk], g) == g(wk) + SumSeq([], g);
  }

  lemma StockTakeHead(chains: Chains, key: Key, g: Work -> nat)
    requires key in chains && chains[key].queue != []
    ensures Stock(TakeHead(chains, key), g) + g(chains[key].queue[0]) == Stock(chains, g)
  {
    StockPut(chains, key, TakeHead(chains, key)[key], g);
  }

  lemma {:induction false} StockPurge(chains: Chains, purged: set<Key>, g: Work -> nat)
    requires forall k :: k in purged && k in chains ==> chains[k].queue == []
    ensures Stock(chains - purged, g) == Stock(chains, g)
    decreases purged
  {
    if purged == {} {
      assert chains - purged == chains;
    } else {
      var k :| k in purged;
      StockPurge(chains, purged - {k}, g);
      var rest := chains - (purged - {k});
      if k in chains {
        SumMapTake(rest, k, QueueSum(g));
      }
      assert chains - purged == rest - {k};
      assert k !in chains ==> rest - {k} == rest;
    }
  }

  lemma StockNonEmpty(chains: Chains, g: Work -> nat)
    ensures Stock(NonEmpty(chains), g) == Stock(chains, g)
  {
    var empties := set k | k in chains && chains[k].queue == [];
    StockPurge(chains, empties, g);
    assert NonEmpty(chains) == chains - empties;
  }

  lemma StockUnchain(chains: Chains, key: Key, g: Work -> nat)
    ensures Stock(Unchain(chains, key), g) == Stock(chains, g)
  {
    if key in chains && chains[key].queue == [] {
      StockPurge(chains, {key}, g);
    }
  }

  lemma {:induction false} StockGathers(chains: Chains, all: seq<Work>, g: Work -> nat)
    requires Gathers(chains, all)
    ensures SumSeq(all, g) == Stock(chains, g)
    decreases |chains|
  {
    if chains != map[] {
      var k, rest :| k in chains && all == chains[k].queue + rest && Gathers(chains - {k}, rest);
      StockGathers(chains - {k}, rest, g);
      SumSeqConcat(chains[k].queue, rest, g);
      SumMapTake(chains, k, QueueSum(g));
    }
  }

  lemma {:induction false} StockBelow(chains: Chains, f: Work -> nat, g: Work -> nat)
    requires forall wk :: f(wk) <= g(wk)
    ensures Stock(chains, f) <= Stock(chains, g)
    decreases |chains|
  {
    if chains != map[] {
      var k :| k in chains;
      SumMapTake(chains, k, QueueSum(f));
      SumMapTake(chains, k, QueueSum(g));
      SumSeqMonotone(chains[k].queue, f, g);
      StockBelow(chains - {k}, f, g);
    }
  }

  // ---------------------------------------------------------------- messages in a lane

  ghost function OfMessage(g: Message -> nat): Work -> nat {
    (wk: Work) => g(wk.msg)
  }

  ghost function One(): Message -> nat {
    (m: Message) => 1
  }

  ghost function AtOffset(o: Offset): Message -> nat {
    (m: Message) => if m.offset == o then 1 else 0
  }

  /**
   * Until when a message counts: through stage done if its offset completes, through stage dropped
   * if it is let go.
   */
  datatype Until = Until(done: Stage, dropped: Stage)

  function Through(s: Stage): Until {
    Until(s, s)
  }

  const LIVE := Through(Forget)
  const OPEN := Until(Complete, Forget)
  const SLOTTED := Through(FreeSlot)
  const TOTALLED := Through(DropTotal)
  const COUNTED := Through(DropCount)
  const AWAITED := Through(DropWait)

  function LimitOf(u: Until, f: Fate): Stage {
    if Completes(f) then u.done else u.dropped
  }

  ghost function PcWeight(pc: Pc, g: Message -> nat, u: Until): nat {
    match pc
    case Handling(wk) => g(wk.msg)
    case Failing(wk) => g(wk.msg)
    case Discarding(wk) => g(wk.msg)
    case Cooling(wk, _) => g(wk.msg)
    case Settling(wk, f, s) => if Rank(s) <= Rank(LimitOf(u, f)) then g(wk.msg) else 0
    case Abandoning(rest, s) =>
      if rest == [] then 0 else
        SumSeq(rest[1..], OfMessage(g)) + if Rank(s) <= Rank(u.dropped) then g(rest[0].msg) else 0
    case _ => 0
  }

  /** The weight of the messages in the lane that still count. */
  ghost function Weight(l: Lane, g: Message -> nat, u: Until): nat {
    Stock(l.buf.chains, OfMessage(g)) + PcWeight(l.pc, g, u)
  }

  /** What an event adds. */
  ghost function Gain(e: Event, g: Message -> nat): nat {
    if e.Push? then g(e.msg) else 0
  }

  /** The weight that a passage takes away: it is the last stage through which the message counts. */
  ghost function Loss(x: Option<Passage>, g: Message -> nat, u: Until): nat {
    match x
    case Some(Passage(m, f, s)) => if s == LimitOf(u, f) then g(m) else 0
    case None => 0
  }

  /** Stages a message passes on every way out that Until may name. */
  predicate Counts(u: Until) {
    u in {LIVE, OPEN, SLOTTED, TOTALLED, COUNTED, AWAITED}
  }

  /** The stages a message with this fate goes through. */
  predicate OnPath(f: Fate, s: Stage) {
    match s
    case Tally => f != Stopped && f != Vanished
    case Complete => Completes(f)
    case Report => f == Fatal
    case Cancel => f == Fatal
    case Forget => f != Vanished
    case Advance => f != Vanished
    case FreeSem => false
    case _ => true
  }

  /** What the worker's program counter always satisfies. */
  ghost predicate PcOk(cfg: Config, pc: Pc) {
    match pc
    case Handling(wk) => wk.attempts < MaxAttempts(cfg)
    case Failing(wk) => wk.attempts < MaxAttempts(cfg)
    case Discarding(wk) => wk.attempts + 1 == MaxAttempts(cfg)
    case Cooling(wk, _) => 0 < wk.attempts < MaxAttempts(cfg)
    case Settling(_, f, s) => f != Vanished && OnPath(f, s)
    case Abandoning(rest, s) => rest != [] && s in {Forget, FreeSlot, DropTotal, DropCount, DropWait}
    case _ => true
  }

  /** The chain of a message the worker holds exists until it is unlinked. */
  predicate Holds(pc: Pc) {
    match pc
    case Handling(_) => true
    case Failing(_) => true
    case Discarding(_) => true
    case Cooling(_, _) => true
    case Settling(_, _, s) => Rank(s) <= Rank(Unlink)
    case _ => false
  }

  ghost predicate HeldChain(cfg: Config, l: Lane) {
    Holds(l.pc) ==>
      var key := KeyOf(cfg, l.pc.wk.msg);
      key in l.buf.chains && l.buf.chains[key].retryAt == Never
  }

  lemma PushWeight(cfg: Config, l: Lane, msg: Message, g: Message -> nat, u: Until)
    requires 0 < l.reserved
    ensures Weight(AfterPush(cfg, l, msg), g, u) == Weight(l, g, u) + g(msg)
  {
    StockEnqueue(l.buf.chains, KeyOf(cfg, msg), Work(msg, 0), OfMessage(g));
  }

  lemma PickWeight(l: Lane, key: Key, purged: set<Key>, now: int, g: Message -> nat, u: Until)
    requires MayPick(l, key, purged, now)
    ensures Weight(AfterPick(l, key, purged), g, u) == Weight(l, g, u)
  {
    StockTakeHead(l.buf.chains, key, OfMessage(g));
    assert key !in purged;
    StockPurge(TakeHead(l.buf.chains, key), purged, OfMessage(g));
  }

  lemma ParkWeight(l: Lane, timer: Deadline, g: Message -> nat, u: Until)
    requires l.pc.Scanning?
    ensures Weight(AfterPark(l, timer), g, u) == Weight(l, g, u)
  {
    StockNonEmpty(l.buf.chains, OfMessage(g));
  }

  lemma CoolWeight(cfg: Config, l: Lane, at: int, g: Message -> nat, u: Until)
    requires l.pc.Cooling? && HeldChain(cfg, l)
    ensures Weight(AfterCool(cfg, l, l.pc.wk, at), g, u) == Weight(l, g, u)
  {
    StockPutBack(l.buf.chains, KeyOf(cfg, l.pc.wk.msg), l.pc.wk, at, OfMessage(g));
  }

  /** Stages are passed in the order of their rank, and every limit of interest is passed. */
  lemma SettlePcWeight(wk: Work, f: Fate, s: Stage, g: Message -> nat, u: Until)
    requires f != Vanished && OnPath(f, s) && Counts(u)
    ensures PcWeight(SettlePc(wk, f, s), g, u) + (if s == LimitOf(u, f) then g(wk.msg) else 0)
         == PcWeight(Settling(wk, f, s), g, u)
  {
    var limit := LimitOf(u, f);
    assert limit in {Complete, Forget, FreeSlot, DropTotal, DropCount, DropWait};
    assert limit == Complete ==> Completes(f);
  }

  lemma SettleWeight(cfg: Config, l: Lane, g: Message -> nat, u: Until)
    requires Guard(cfg, l, Settle) && PcOk(cfg, l.pc) && Counts(u)
    ensures Weight(AfterSettle(cfg, l, l.pc.wk, l.pc.fate, l.pc.stage), g, u) + Loss(Passing(l.pc, Settle), g, u)
      == Weight(l, g, u)
  {
    StockUnchain(l.buf.chains, KeyOf(cfg, l.pc.wk.msg), OfMessage(g));
    SettlePcWeight(l.pc.wk, l.pc.fate, l.pc.stage, g, u);
  }

  lemma GatherWeight(l: Lane, all: seq<Work>, g: Message -> nat, u: Until)
    requires l.pc.Leaving? && Gathers(l.buf.chains, all) && Counts(u)
    ensures Weight(AfterGather(l, all), g, u) == Weight(l, g, u)
  {
    StockGathers(l.buf.chains, all, OfMessage(g));
    GatherPcWeight(all, g, u);
    assert Stock(map[], OfMessage(g)) == 0;
  }

  lemma GatherPcWeight(all: seq<Work>, g: Message -> nat, u: Until)
    requires Counts(u)
    ensures PcWeight(if all == [] then Exited else Abandoning(all, Forget), g, u) == SumSeq(all, OfMessage(g))
  {
    CountsFrom(u);
    assert all != [] ==> SumSeq(all, OfMessage(g)) == OfMessage(g)(all[0]) + SumSeq(all[1..], OfMessage(g));
  }

  /** No message is let go before it is forgotten. */
  lemma CountsFrom(u: Until)
    requires Counts(u)
    ensures Rank(Forget) <= Rank(u.dropped)
  {
  }

  lemma AbandonWeight(cfg: Config, l: Lane, g: Message -> nat, u: Until)
    requires Guard(cfg, l, Abandon) && PcOk(cfg, l.pc) && Counts(u)
    ensures Weight(AfterAbandon(l, l.pc.rest, l.pc.stage), g, u) + Loss(Passing(l.pc, Abandon), g, u) == Weight(l, g, u)
  {
    AbandonPcWeight(l.pc.rest, l.pc.stage, g, u);
  }

  lemma AbandonPcWeight(rest: seq<Work>, s: Stage, g: Message -> nat, u: Until)
    requires rest != [] && s in {Forget, FreeSlot, DropTotal, DropCount, DropWait} && Counts(u)
    ensures PcWeight(AbandonPc(rest, s), g, u) + (if s == u.dropped then g(rest[0].msg) else 0)
         == PcWeight(Abandoning(rest, s), g, u)
  {
    assert |rest| == 1 ==> SumSeq(rest[1..], OfMessage(g)) == 0;
  }

  /** No event creates, loses or duplicates a message: the weight moves exactly by gain and loss. */
  lemma WeightStep(cfg: Config, l: Lane, e: Event, g: Message -> nat, u: Until)
    requires Guard(cfg, l, e) && PcOk(cfg, l.pc) && HeldChain(cfg, l) && Counts(u)
    ensures Weight(Next(cfg, l, e), g, u) + Loss(Passing(l.pc, e), g, u) == Weight(l, g, u) + Gain(e, g)
  {
    match e
    case Push(msg) => PushWeight(cfg, l, msg, g, u);
    case Pick(key, purged, now) => PickWeight(l, key, purged, now, g, u);
    case Park(timer, _) => ParkWeight(l, timer, g, u);
    case Cool(now) => CoolWeight(cfg, l, now + l.pc.backoff, g, u);
    case Settle => SettleWeight(cfg, l, g, u);
    case Gather(all) => GatherWeight(l, all, g, u);
    case Abandon => AbandonWeight(cfg, l, g, u);
    case _ => IdleWeight(cfg, l, e, g, u);
  }

  /** The other events leave the chains alone, and what the worker has in hand. */
  lemma IdleWeight(cfg: Config, l: Lane, e: Event, g: Message -> nat, u: Until)
    requires Guard(cfg, l, e) && PcOk(cfg, l.pc) && Counts(u)
    requires !e.Push? && !e.Pick? && !e.Park? && !e.Cool? && !e.Settle? && !e.Gather? && !e.Abandon?
    ensures Weight(Next(cfg, l, e), g, u) == Weight(l, g, u) && Loss(Passing(l.pc, e), g, u) == 0
  {
  }
}
