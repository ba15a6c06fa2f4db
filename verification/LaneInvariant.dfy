/** What every reachable state of a lane satisfies, and what follows from it. */
module LaneInvariant {
  import opened Types
  import opened LaneMachine
  import opened LaneStock

  // ---------------------------------------------------------------- chains and cooldown

  /** Only a head has failed before, and a chain cools down exactly when its head has. */
  ghost predicate ChainOk(cfg: Config, key: Key, c: Chain) {
    && (forall i :: 0 <= i < |c.queue| ==> KeyOf(cfg, c.queue[i].msg) == key)
    && (forall i :: 1 <= i < |c.queue| ==> c.queue[i].attempts == 0)
    && (c.retryAt.At? <==> c.queue != [] && 0 < c.queue[0].attempts)
    && (c.queue != [] ==> c.queue[0].attempts < MaxAttempts(cfg))
  }

  ghost predicate Shape(cfg: Config, chains: Chains) {
    forall k :: k in chains ==> ChainOk(cfg, k, chains[k])
  }

  /** A chain is empty only while the worker holds the message that was its last. */
  ghost predicate NoIdleChain(cfg: Config, l: Lane) {
    forall k :: k in l.buf.chains && l.buf.chains[k].queue == [] ==> Holds(l.pc) && k == KeyOf(cfg, l.pc.wk.msg)
  }

  ghost predicate Structure(cfg: Config, l: Lane) {
    && PcOk(cfg, l.pc)
    && Shape(cfg, l.buf.chains)
    && HeldChain(cfg, l)
    && NoIdleChain(cfg, l)
    && (l.buf.closed <==> !l.buf.accepting)
  }

  lemma StructureSettle(cfg: Config, l: Lane)
    requires Structure(cfg, l) && Guard(cfg, l, Settle)
    ensures Structure(cfg, AfterSettle(cfg, l, l.pc.wk, l.pc.fate, l.pc.stage))
  {
    var wk, f, s := l.pc.wk, l.pc.fate, l.pc.stage;
    var pc := SettlePc(wk, f, s);
    assert PcOk(cfg, pc);
    if s == Unlink {
      assert !Holds(pc);
    } else {
      assert SettleBuffer(cfg, l.buf, wk, s).chains == l.buf.chains;
      assert Holds(pc) ==> pc.wk == wk && Holds(l.pc);
    }
  }

  lemma StructurePick(cfg: Config, l: Lane, key: Key, purged: set<Key>, now: int)
    requires Structure(cfg, l) && MayPick(l, key, purged, now)
    ensures Structure(cfg, AfterPick(l, key, purged))
  {
    var chains := TakeHead(l.buf.chains, key);
    assert ChainOk(cfg, key, l.buf.chains[key]);
    assert ChainOk(cfg, key, chains[key]);
    assert key !in purged;
  }

  lemma StructurePush(cfg: Config, l: Lane, msg: Message)
    requires Structure(cfg, l) && 0 < l.reserved
    ensures Structure(cfg, AfterPush(cfg, l, msg))
  {
    var key := KeyOf(cfg, msg);
    var chains := Enqueue(l.buf.chains, key, Work(msg, 0));
    assert ChainOk(cfg, key, chains[key]);
  }

  lemma StructureCool(cfg: Config, l: Lane, at: int)
    requires Structure(cfg, l) && l.pc.Cooling?
    ensures Structure(cfg, AfterCool(cfg, l, l.pc.wk, at))
  {
    var key := KeyOf(cfg, l.pc.wk.msg);
    var chains := PutBack(l.buf.chains, key, l.pc.wk, at);
    assert ChainOk(cfg, key, l.buf.chains[key]);
    assert ChainOk(cfg, key, chains[key]);
  }

  lemma StructureAttempt(cfg: Config, l: Lane, e: Event)
    requires Structure(cfg, l) && Guard(cfg, l, e)
    requires e.Return? || e.Decide? || e.DiscardReturn?
    ensures Structure(cfg, Next(cfg, l, e))
  {
    var next := Next(cfg, l, e);
    assert next.buf == l.buf && PcOk(cfg, next.pc) && Holds(next.pc) && next.pc.wk.msg == l.pc.wk.msg;
  }

  lemma StructureStep(cfg: Config, l: Lane, e: Event)
    requires Structure(cfg, l) && Guard(cfg, l, e)
    ensures Structure(cfg, Next(cfg, l, e))
  {
    match e
    case Push(msg) => StructurePush(cfg, l, msg);
    case Cool(now) => StructureCool(cfg, l, now + l.pc.backoff);
    case Pick(key, purged, now) => StructurePick(cfg, l, key, purged, now);
    case Settle => StructureSettle(cfg, l);
    case Return(_) => StructureAttempt(cfg, l, e);
    case Decide(_, _) => StructureAttempt(cfg, l, e);
    case DiscardReturn(_) => StructureAttempt(cfg, l, e);
    case _ =>
  }

  // ---------------------------------------------------------------- slots

  /** Every slot taken is accounted for, and there are never more than the queue size. */
  ghost predicate SlotsOk(cfg: Config, l: Lane) {
    && l.buf.slots == Weight(l, One(), SLOTTED) + l.reserved + l.returning
    && l.buf.slots <= cfg.queueSize
  }

  lemma SlotsStep(cfg: Config, l: Lane, e: Event)
    requires Structure(cfg, l) && SlotsOk(cfg, l) && Guard(cfg, l, e)
    ensures SlotsOk(cfg, Next(cfg, l, e))
  {
    WeightStep(cfg, l, e, One(), SLOTTED);
  }

  // ---------------------------------------------------------------- wakeups

  /** A parked worker with no wakeup on its way has nothing it should be doing yet. */
  ghost predicate Awake(l: Lane) {
    l.pc.Parked? && !l.buf.wake && l.owed == 0 ==>
      && forall k :: k in l.buf.chains && l.buf.chains[k].queue != [] ==>
           l.pc.timer.At? && l.buf.chains[k].retryAt.At? && l.pc.timer.when <= l.buf.chains[k].retryAt.when
  }

  /** It waits for good only while the lane is open. */
  ghost predicate Attended(l: Lane) {
    l.pc.Parked? && !l.buf.wake && l.owed == 0 && l.buf.closed ==> HasQueued(l.buf.chains)
  }

  /** Its timer is the deadline of some head, which is therefore due once the timer fires. */
  ghost predicate Timed(l: Lane) {
    l.pc.Parked? && l.pc.timer.At? ==> Deadlined(l.buf.chains, l.pc.timer)
  }

  ghost predicate Deadlined(chains: Chains, d: Deadline) {
    exists k :: k in chains && chains[k].queue != [] && chains[k].retryAt == d
  }

  lemma TimedStep(cfg: Config, l: Lane, e: Event)
    requires Structure(cfg, l) && Timed(l) && Guard(cfg, l, e)
    ensures Timed(Next(cfg, l, e))
  {
    if e.Park? {
      TimedPark(l, e.timer, e.now);
    } else if e.Push? && l.pc.Parked? && l.pc.timer.At? {
      var k :| k in l.buf.chains && l.buf.chains[k].queue != [] && l.buf.chains[k].retryAt == l.pc.timer;
      assert k in AfterPush(cfg, l, e.msg).buf.chains;
    }
  }

  lemma TimedPark(l: Lane, timer: Deadline, now: int)
    requires MayPark(l, timer, now)
    ensures Timed(AfterPark(l, timer))
  {
    if timer.At? {
      var k :| k in l.buf.chains && l.buf.chains[k].queue != [] && l.buf.chains[k].retryAt == timer;
      assert k in NonEmpty(l.buf.chains);
    }
  }

  lemma AwakeStep(cfg: Config, l: Lane, e: Event)
    requires Structure(cfg, l) && Awake(l) && Attended(l) && Guard(cfg, l, e)
    ensures Awake(Next(cfg, l, e)) && Attended(Next(cfg, l, e))
  {
    if e.Park? && HasQueued(l.buf.chains) {
      var k :| k in l.buf.chains && l.buf.chains[k].queue != [];
      assert k in NonEmpty(l.buf.chains);
    }
  }
}
