/**
 * The lane as an object. Each method is one of the lane's, proved against the functions that the
 * state machine uses for the same step; Run is the worker's loop, with others that come in
 * whenever it lets go of the mutex.
 */
module LaneObject {
  import opened Types
  import opened Sums
  import opened LaneMachine
  import opened LaneStock
  import opened LaneInvariant
  import opened LaneSerial
  import opened LaneTheorems
  import opened LaneOrder

  class Lane {
    const cfg: Config
    var chains: Chains
    var slots: nat
    var closed: bool
    var accepting: bool
    var wake: bool
    var acct: Account

    ghost function Buf(): Buffer
      reads this
    {
      Buffer(chains, slots, closed, accepting, wake)
    }

    constructor (cfg: Config)
      ensures Buf() == EMPTY_BUFFER && this.cfg == cfg && acct == Account(0, 0, 0, {})
    {
      this.cfg := cfg;
      chains, slots, closed, accepting, wake := map[], 0, false, true, false;
      acct := Account(0, 0, 0, {});
    }

    // -------------------------------------------------------------- pushing and closing

    /**
     * Queues a message, or returns false when the context ended or the lane is closed. The call
     * blocks until it gets a slot or the context ends; take says which of the two it saw.
     */
    method Push(cancelled: bool, take: bool, msg: Message) returns (ok: bool)
      requires if take then slots < cfg.queueSize else cancelled
      modifies this
      ensures acct == old(acct)
      ensures ok == (take && old(accepting))
      ensures Buf() == if ok
        then Buffer(Enqueue(old(chains), KeyOf(cfg, msg), Work(msg, 0)), old(slots) + 1, old(closed), true, true)
        else old(Buf())
    {
      if !take {
        return false;
      }
      slots := slots + 1;
      if !accepting {
        slots := slots - 1;
        return false;
      }
      var key := KeyOf(cfg, msg);
      var c := if key in chains then chains[key] else Chain([], Never);
      chains := chains[key := Chain(c.queue + [Work(msg, 0)], c.retryAt)];
      Signal();
      return true;
    }

    method Signal()
      modifies `wake
      ensures wake
    {
      wake := true;
    }

    method CloseLane()
      modifies this
      ensures Buf() == Buffer(old(chains), old(slots), true, false, true) && acct == old(acct)
    {
      accepting := false;
      closed := true;
      Signal();
    }

    // -------------------------------------------------------------- scanning

    method HasQueuedLocked() returns (r: bool)
      ensures r == HasQueued(chains)
    {
      var keys := chains.Keys;
      while keys != {}
        invariant keys <= chains.Keys
        invariant forall k :: k in chains && k !in keys ==> chains[k].queue == []
        decreases |keys|
      {
        var k :| k in keys;
        if chains[k].queue != [] {
          return true;
        }
        keys := keys - {k};
      }
      return false;
    }

    /**
     * Takes the head of some chain that is due, looking at the chains in any order and deleting
     * empty ones on the way; None only when no chain is due, and then no empty chain is left.
     */
    method PickLocked(now: int) returns (r: Option<Work>)
      modifies `chains
      ensures r.Some? ==> exists key, purged: set<Key> :: TookHead(old(chains), chains, r.value, key, purged, now)
      ensures r.None? ==> chains == NonEmpty(old(chains)) && NoneDue(old(chains), now)
    {
      var keys := chains.Keys;
      ghost var purged: set<Key> := {};
      ghost var start := chains;
      while keys != {}
        invariant Scanned(start, chains, keys, purged, now)
        decreases |keys|
      {
        var key :| key in keys;
        var c := chains[key];
        if c.queue == [] {
          chains := chains - {key};
          purged := purged + {key};
        } else if c.retryAt.At? && c.retryAt.when > now {
          // still cooling down
        } else {
          chains := chains[key := Chain(c.queue[1..], Never)];
          HeadTaken(start, keys, purged, key, now);
          return Some(c.queue[0]);
        }
        keys := keys - {key};
      }
      NothingTaken(start, chains, purged, now);
      return None;
    }

    method EarliestRetryLocked() returns (e: Deadline)
      ensures Earliest(chains, e)
    {
      e := Never;
      var keys := chains.Keys;
      while keys != {}
        invariant keys <= chains.Keys
        invariant e.At? ==> exists k :: k in chains && chains[k].queue != [] && chains[k].retryAt == e
        invariant forall k :: k in chains && k !in keys && chains[k].queue != [] && chains[k].retryAt.At? ==>
          e.At? && e.when <= chains[k].retryAt.when
        decreases |keys|
      {
        var k :| k in keys;
        var c := chains[k];
        if c.queue != [] && c.retryAt.At? && (e.Never? || c.retryAt.when < e.when) {
          e := c.retryAt;
        }
        keys := keys - {k};
      }
    }

    // -------------------------------------------------------------- after an attempt

    method RemoveChainIfEmpty(wk: Work)
      modifies `chains
      ensures chains == Unchain(old(chains), KeyOf(cfg, wk.msg))
    {
      var key := KeyOf(cfg, wk.msg);
      if key in chains && chains[key].queue == [] {
        chains := chains - {key};
      }
    }

    /** A message leaves for good, after success or after a terminal failure. */
    method FinishHead(wk: Work)
      requires 0 < slots
      modifies this
      ensures Buf()
        == Buffer(Unchain(old(chains), KeyOf(cfg, wk.msg)), old(slots) - 1, old(closed), old(accepting), true)
      ensures acct == Finalized(old(acct), 1)
    {
      RemoveChainIfEmpty(wk);
      slots := slots - 1;
      MarkFinalized();
      Signal();
    }

    /** One message fewer is in flight, for the consumer, the worker, and whoever waits for it. */
    method MarkFinalized()
      modifies `acct
      ensures acct == Finalized(old(acct), 1)
    {
      acct := acct.(total := acct.total - 1);
      acct := acct.(count := acct.count - 1);
      acct := acct.(waiting := acct.waiting - 1);
    }

    method Forget(o: Offset)
      modifies `acct
      ensures acct == old(acct).(pending := old(acct).pending - {o})
    {
      acct := acct.(pending := acct.pending - {o});
    }

    /** After a failed attempt the message heads its chain again, not to be tried before now plus the backoff. */
    method CooldownHead(wk: Work, backoff: nat, now: int)
      requires 0 < slots
      modifies this
      ensures KeyOf(cfg, wk.msg) in old(chains) ==>
        Buf() == old(Buf()).(chains := PutBack(old(chains), KeyOf(cfg, wk.msg), wk, now + backoff)) && acct == old(acct)
      ensures KeyOf(cfg, wk.msg) !in old(chains) ==>
        Buf() == old(Buf()).(slots := old(slots) - 1, wake := true) && acct == Finalized(old(acct), 1)
    {
      var key := KeyOf(cfg, wk.msg);
      if key !in chains {
        FinishHead(wk);
        return;
      }
      chains := chains[key := Chain([wk] + chains[key].queue, At(now + backoff))];
    }

    /**
     * Drops everything queued: each message is forgotten and counted out once, and frees its slot. All
     * lists them chain by chain.
     */
    method AbandonAll() returns (all: seq<Work>)
      requires Stock(chains, OfMessage(One())) <= slots
      modifies this
      ensures Gathers(old(chains), all) && |all| == old(Stock(chains, OfMessage(One())))
      ensures Buf()
        == Buffer(map[], old(slots) - old(Stock(chains, OfMessage(One()))), old(closed), old(accepting), old(wake))
      ensures acct == Finalized(old(acct), |all|).(pending := old(acct).pending - Offsets(Messages(all)))
    {
      all := TakeAll();
      StockGathers(old(chains), all, OfMessage(One()));
      SumOnes(all);
      for i := 0 to |all|
        invariant slots == old(slots) - i && chains == map[]
        invariant closed == old(closed) && accepting == old(accepting) && wake == old(wake)
        invariant acct == Finalized(old(acct), i).(pending := old(acct).pending - Offsets(Messages(all[..i])))
      {
        Forget(all[i].msg.offset);
        slots := slots - 1;
        MarkFinalized();
        AbandonedMore(all, i);
      }
      assert all[..|all|] == all;
    }

    static lemma AbandonedMore(all: seq<Work>, i: nat)
      requires i < |all|
      ensures Offsets(Messages(all[..i + 1])) == Offsets(Messages(all[..i])) + {all[i].msg.offset}
    {
      MessagesSplit(all[..i + 1]);
      assert all[..i + 1][..i] == all[..i];
      OffsetsMore(Messages(all[..i]), all[i].msg);
    }

    method TakeAll() returns (all: seq<Work>)
      modifies `chains
      ensures Gathers(old(chains), all) && chains == map[]
    {
      all := [];
      ghost var start := chains;
      ghost var taken: seq<Key> := [];
      while chains != map[]
        invariant forall rest :: Gathers(chains, rest) ==> Gathers(start, all + rest)
        decreases |chains|
      {
        var key :| key in chains;
        ghost var before, sofar := chains, all;
        all := all + chains[key].queue;
        chains := chains - {key};
        forall rest | Gathers(chains, rest) ensures Gathers(start, all + rest) {
          assert Gathers(before, before[key].queue + rest);
          assert all + rest == sofar + (before[key].queue + rest);
        }
      }
      assert Gathers(chains, []);
      assert all + [] == all;
    }

    static lemma SumOnes(all: seq<Work>)
      ensures SumSeq(all, OfMessage(One())) == |all|
    {
      if all != [] {
        SumOnes(all[1..]);
      }
    }

    // -------------------------------------------------------------- the worker

    /** The chains of a lane whose worker holds nothing, while pushes hold so many slots. */
    ghost predicate AtRest(pushes: nat)
      reads this
    {
      && Shape(cfg, chains)
      && (forall k :: k in chains ==> chains[k].queue != [])
      && slots == Stock(chains, OfMessage(One())) + pushes
      && closed == !accepting
    }

    /** The worker holds this message, or nothing. */
    ghost predicate Kept(held: Option<Work>, pushes: nat)
      reads this
    {
      match held
      case Some(wk) => Holding(wk, pushes)
      case None => AtRest(pushes)
    }

    /**
     * The worker has let go of the mutex, and others come in. Of the messages pushed, those arrive that
     * find room in an open lane; the others are not accepted, or still wait.
     */
    method Visited(v: Visit, ghost held: Option<Work>, ghost pushes: nat) returns (arrived: seq<Message>)
      requires Kept(held, pushes)
      modifies this
      ensures Kept(held, pushes) && acct == old(acct)
      ensures chains == EnqueueAll(cfg, old(chains), arrived)
      ensures closed == (old(closed) || v.closes) && (old(closed) ==> arrived == []) && |arrived| <= |v.pushed|
    {
      arrived := [];
      for i := 0 to |v.pushed|
        invariant Kept(held, pushes) && acct == old(acct) && closed == old(closed)
        invariant chains == EnqueueAll(cfg, old(chains), arrived) && (closed ==> arrived == []) && |arrived| <= i
      {
        if accepting && slots < cfg.queueSize {
          Accept(v.pushed[i], held, pushes);
          EnqueueAllMore(cfg, old(chains), arrived, v.pushed[i]);
          arrived := arrived + [v.pushed[i]];
        }
      }
      if v.closes {
        CloseLane();
      }
    }

    method Accept(m: Message, ghost held: Option<Work>, ghost pushes: nat)
      requires Kept(held, pushes) && accepting && slots < cfg.queueSize
      modifies this
      ensures Kept(held, pushes) && acct == old(acct) && closed == old(closed) && accepting
      ensures chains == Enqueue(old(chains), KeyOf(cfg, m), Work(m, 0))
    {
      EnqueueShape(cfg, chains, m);
      StockEnqueue(chains, KeyOf(cfg, m), Work(m, 0), OfMessage(One()));
      var ok := Push(false, true, m);
    }

    /**
     * Takes a due head. While there is none the worker waits, and each wait ends when others come in,
     * as the visits tell one after the other; without any more it waits for the soonest deadline, or
     * for good if nothing is queued in an open lane. It gets nothing once nothing is queued in a closed
     * lane, or when the context ends during a wait.
     */
    method TakeNext(now: int, visits: seq<Visit>, ghost pushes: nat)
      returns (r: Taken, later: int, rest: seq<Visit>, arrived: seq<Message>)
      requires AtRest(pushes)
      modifies this
      ensures now <= later && StillToCome(rest, visits) && acct == old(acct) && (old(closed) ==> closed)
      ensures visits == [] ==> arrived == []
      ensures
        var all := EnqueueAll(cfg, old(chains), arrived);
        match r
        case Got(wk) =>
          && Holding(wk, pushes) && Heads(cfg, all, wk) && Due(all[KeyOf(cfg, wk.msg)], later)
          && chains == TakeHead(all, KeyOf(cfg, wk.msg)) && 0 < Left(cfg)(wk)
        case Gone =>
          AtRest(pushes) && chains == all && ((closed && chains == map[]) || SomeQuits(visits))
        case Waiting => AtRest(pushes) && chains == all == map[] && !closed && rest == []
    {
      later, rest, arrived := now, visits, [];
      while true
        invariant AtRest(pushes) && chains == EnqueueAll(cfg, old(chains), arrived)
        invariant now <= later && StillToCome(rest, visits) && acct == old(acct) && (old(closed) ==> closed)
        invariant visits == [] ==> arrived == []
        decreases |rest|, NoneDue(chains, later)
      {
        var picked := Pick(later, pushes);
        if picked.Some? {
          return Got(picked.value), later, rest, arrived;
        }
        var queued := HasQueuedLocked();
        if !queued {
          NothingQueued(pushes);
        }
        if !queued && closed {
          return Gone, later, rest, arrived;
        }
        if rest != [] {
          var v := rest[0];
          var more := Visited(v, None, pushes);
          EnqueueAllJoin(cfg, old(chains), arrived, more);
          arrived, rest := arrived + more, rest[1..];
          if v.quits {
            assert v in visits;
            return Gone, later, rest, arrived;
          }
        } else if !queued {
          return Waiting, later, rest, arrived;
        } else {
          var next := EarliestRetryLocked();
          ghost var due := SoonestDue(next, later);
          later := next.when;
        }
      }
    }

    /** One scan: some due head, or nothing, and then nothing changes. */
    method Pick(now: int, ghost pushes: nat) returns (r: Option<Work>)
      requires AtRest(pushes)
      modifies `chains
      ensures r.None? ==> chains == old(chains) && NoneDue(chains, now)
      ensures r.Some? ==>
        && Holding(r.value, pushes) && Heads(cfg, old(chains), r.value)
        && Due(old(chains)[KeyOf(cfg, r.value.msg)], now)
        && chains == TakeHead(old(chains), KeyOf(cfg, r.value.msg)) && 0 < Left(cfg)(r.value)
    {
      r := PickLocked(now);
      if r.Some? {
        ghost var key, purged: set<Key> :| TookHead(old(chains), chains, r.value, key, purged, now);
        NothingPurged(old(chains), purged);
        TakenHead(old(chains), r.value, key, now, pushes);
      } else {
        assert chains == old(chains);
      }
    }

    /** With work queued and nothing due, the soonest deadline is set, later than now, and makes a head due. */
    lemma SoonestDue(next: Deadline, now: int) returns (later: int)
      requires HasQueued(chains) && NoneDue(chains, now) && Earliest(chains, next)
      ensures next.At? && now < later == next.when && !NoneDue(chains, later)
    {
      var k :| k in chains && chains[k].queue != [];
      assert !Due(chains[k], now);
      later := next.when;
      var j :| j in chains && chains[j].queue != [] && chains[j].retryAt == next;
      assert !Due(chains[j], now) && Due(chains[j], later);
    }

    static lemma NothingPurged(chains: Chains, purged: set<Key>)
      requires forall k :: k in chains ==> chains[k].queue != []
      requires forall k :: k in purged ==> k in chains && chains[k].queue == []
      ensures purged == {}
    {
      if k :| k in purged {
        assert false;
      }
    }

    lemma NothingQueued(pushes: nat)
      requires AtRest(pushes) && !HasQueued(chains)
      ensures chains == map[]
    {
      if k :| k in chains {
        assert false;
      }
    }

    /** The worker holds wk, the former head of its chain; its slot is still taken. */
    ghost predicate Holding(wk: Work, pushes: nat)
      reads this
    {
      var key := KeyOf(cfg, wk.msg);
      && Shape(cfg, chains)
      && key in chains && chains[key].retryAt == Never
      && (forall k :: k in chains && k != key ==> chains[k].queue != [])
      && slots == Stock(chains, OfMessage(One())) + 1 + pushes
      && wk.attempts < MaxAttempts(cfg)
      && closed == !accepting
    }

    /**
     * Runs the handler once, while others come in, and settles the message: it is done, put back, or
     * dropped. If it leaves it is forgotten and counted out.
     */
    method RunWork(wk: Work, a: Attempt, v: Visit, now: int, ghost pushes: nat)
      returns (stop: bool, arrived: seq<Message>)
      requires Holding(wk, pushes)
      modifies this
      ensures stop == ResultOf(cfg, wk, a).WorkStop?
      ensures AtRest(pushes) && closed == (old(closed) || v.closes) && |arrived| <= |v.pushed|
      ensures chains == AfterWork(cfg, EnqueueAll(cfg, old(chains), arrived), wk, ResultOf(cfg, wk, a), now)
      ensures acct == AcctAfter(old(acct), wk, ResultOf(cfg, wk, a))
    {
      arrived := Visited(v, Some(wk), pushes);
      stop := SettleWork(wk, a, now, pushes);
    }

    /** What follows from the result of the call. */
    method SettleWork(wk: Work, a: Attempt, now: int, ghost pushes: nat) returns (stop: bool)
      requires Holding(wk, pushes)
      modifies this
      ensures stop == ResultOf(cfg, wk, a).WorkStop?
      ensures AtRest(pushes) && closed == old(closed)
      ensures chains == AfterWork(cfg, old(chains), wk, ResultOf(cfg, wk, a), now)
      ensures acct == AcctAfter(old(acct), wk, ResultOf(cfg, wk, a))
    {
      match ResultOf(cfg, wk, a)
      case WorkRetry(backoff) =>
        CoolDown(wk, backoff, now, pushes);
        stop := false;
      case WorkDone =>
        Release(wk, pushes);
        stop := false;
      case WorkStop =>
        Release(wk, pushes);
        stop := true;
    }

    /** The message in hand goes back to its chain for one more attempt. */
    method CoolDown(wk: Work, backoff: nat, now: int, ghost pushes: nat)
      requires Holding(wk, pushes) && wk.attempts + 1 < MaxAttempts(cfg)
      modifies this
      ensures AtRest(pushes) && closed == old(closed) && acct == old(acct)
      ensures chains == PutBack(old(chains), KeyOf(cfg, wk.msg), Work(wk.msg, wk.attempts + 1), now + backoff)
    {
      var again := Work(wk.msg, wk.attempts + 1);
      PutBackRests(wk, again, now + backoff, pushes);
      CooldownHead(again, backoff, now);
    }

    lemma PutBackRests(wk: Work, again: Work, at: int, pushes: nat)
      requires Holding(wk, pushes) && wk.attempts + 1 < MaxAttempts(cfg) && again == Work(wk.msg, wk.attempts + 1)
      ensures
        var after := PutBack(chains, KeyOf(cfg, again.msg), again, at);
        && Shape(cfg, after)
        && (forall k :: k in after ==> after[k].queue != [])
        && slots == Stock(after, OfMessage(One())) + pushes
    {
      StockPutBack(chains, KeyOf(cfg, wk.msg), again, at, OfMessage(One()));
      PutBackShape(cfg, chains, again, at);
    }

    /** The message in hand leaves for good. */
    method Release(wk: Work, ghost pushes: nat)
      requires Holding(wk, pushes)
      modifies this
      ensures AtRest(pushes) && closed == old(closed) && chains == Unchain(old(chains), KeyOf(cfg, wk.msg))
      ensures acct == AcctAfter(old(acct), wk, WorkDone)
    {
      StockUnchain(chains, KeyOf(cfg, wk.msg), OfMessage(One()));
      Forget(wk.msg.offset);
      FinishHead(wk);
    }

    /** Taking a head leaves the worker holding it. */
    lemma TakenHead(before: Chains, wk: Work, key: Key, now: int, pushes: nat)
      requires Shape(cfg, before) && (forall k :: k in before ==> before[k].queue != [])
      requires slots == Stock(before, OfMessage(One())) + pushes
      requires TookHead(before, chains, wk, key, {}, now) && closed == !accepting
      ensures Holding(wk, pushes) && KeyOf(cfg, wk.msg) == key
      ensures chains == TakeHead(before, key)
      ensures 0 < Left(cfg)(wk)
    {
      assert ChainOk(cfg, key, before[key]);
      assert chains == TakeHead(before, key);
      StockTakeHead(before, key, OfMessage(One()));
      assert ChainOk(cfg, key, chains[key]);
    }

    /**
     * One turn of the worker: the next message, if there is one, and one handler call on it. Start and
     * out are the chains and the messages out since then, to say that the turn keeps each key's order.
     */
    method Turn(a: Attempt, now: int, visits: seq<Visit>, ghost pushes: nat, ghost start: Chains,
                ghost out: seq<Message>)
      returns (r: Taken, later: int, rest: seq<Visit>, arrived: seq<Message>)
      requires AtRest(pushes) && InOrder(cfg, start, chains, out)
      modifies this
      ensures AtRest(pushes) && StillToCome(rest, visits) && (old(closed) ==> closed)
      ensures TurnEnds(old(chains), old(acct), a, visits, rest, arrived, r)
      ensures InOrder(cfg, EnqueueAll(cfg, start, arrived), chains,
                      if r.Got? then OutAfter(out, r.wk, ResultOf(cfg, r.wk, a)) else out)
    {
      ghost var before := chains;
      r, later, rest, arrived := TakeNext(now, visits, pushes);
      ghost var all := EnqueueAll(cfg, before, arrived);
      ArrivalsOrder(cfg, start, before, out, arrived);
      ArrivalsLeft(cfg, before, arrived);
      if r.Got? {
        later := later + a.took;
        var v := if rest == [] then Visit([], false, false) else rest[0];
        var more := WorkOn(r.wk, a, v, later, pushes, start, before, out, arrived);
        rest := if rest == [] then [] else rest[1..];
        arrived := arrived + more;
      }
    }

    /** The handler call of a turn, on the head taken from what was queued before and what arrived since. */
    method WorkOn(wk: Work, a: Attempt, v: Visit, now: int, ghost pushes: nat, ghost start: Chains,
                  ghost before: Chains, ghost out: seq<Message>, ghost arrived: seq<Message>)
      returns (more: seq<Message>)
      requires Holding(wk, pushes) && 0 < Left(cfg)(wk)
      requires
        var all := EnqueueAll(cfg, before, arrived);
        && Heads(cfg, all, wk) && chains == TakeHead(all, KeyOf(cfg, wk.msg))
        && InOrder(cfg, EnqueueAll(cfg, start, arrived), all, out)
      modifies this
      ensures AtRest(pushes) && closed == (old(closed) || v.closes) && (v == Visit([], false, false) ==> more == [])
      ensures acct == AcctAfter(old(acct), wk, ResultOf(cfg, wk, a))
      ensures InOrder(cfg, EnqueueAll(cfg, start, arrived + more), chains, OutAfter(out, wk, ResultOf(cfg, wk, a)))
      ensures Stock(chains, Left(cfg)) < Stock(before, Left(cfg)) + CallsFor(cfg, |arrived + more|)
    {
      ghost var all := EnqueueAll(cfg, before, arrived);
      var stop;
      stop, more := RunWork(wk, a, v, now, pushes);
      HeadThenArrivals(cfg, all, wk, more);
      Worked(start, before, out, wk, ResultOf(cfg, wk, a), now, arrived, more);
    }

    /** How a turn may end, and what it leaves. */
    ghost predicate TurnEnds(before: Chains, was: Account, a: Attempt, visits: seq<Visit>, rest: seq<Visit>,
                             arrived: seq<Message>, r: Taken)
      reads this
    {
      match r
      case Got(wk) =>
        && acct == AcctAfter(was, wk, ResultOf(cfg, wk, a)) && (visits != [] ==> |rest| < |visits|)
        && Stock(chains, Left(cfg)) < Stock(before, Left(cfg)) + CallsFor(cfg, |arrived|)
        && (visits == [] ==> arrived == [])
      case Gone =>
        && acct == was && ((closed && chains == map[]) || SomeQuits(visits))
        && Stock(chains, Left(cfg)) == Stock(before, Left(cfg)) + CallsFor(cfg, |arrived|)
      case Waiting =>
        && acct == was && !closed && chains == map[] && rest == []
        && Stock(chains, Left(cfg)) == Stock(before, Left(cfg)) + CallsFor(cfg, |arrived|)
    }

    /** The order and the calls left after a handler call, with the messages that came before and during it. */
    lemma Worked(start: Chains, before: Chains, out: seq<Message>, wk: Work, r: WorkResult, now: int,
                 arrived: seq<Message>, more: seq<Message>)
      requires InOrder(cfg, EnqueueAll(cfg, start, arrived), EnqueueAll(cfg, before, arrived), out)
      requires
        var all := EnqueueAll(cfg, EnqueueAll(cfg, before, arrived), more);
        && Heads(cfg, all, wk) && 0 < Left(cfg)(wk) && (r.WorkRetry? ==> wk.attempts + 1 < MaxAttempts(cfg))
        && chains == AfterWork(cfg, TakeHead(all, KeyOf(cfg, wk.msg)), wk, r, now)
      ensures InOrder(cfg, EnqueueAll(cfg, start, arrived + more), chains, OutAfter(out, wk, r))
      ensures Stock(chains, Left(cfg)) < Stock(before, Left(cfg)) + CallsFor(cfg, |arrived + more|)
    {
      ArrivalsOrder(cfg, EnqueueAll(cfg, start, arrived), EnqueueAll(cfg, before, arrived), out, more);
      EnqueueAllJoin(cfg, start, arrived, more);
      EnqueueAllJoin(cfg, before, arrived, more);
      ArrivalsLeft(cfg, before, arrived + more);
      var all := EnqueueAll(cfg, before, arrived + more);
      TurnOrder(cfg, EnqueueAll(cfg, start, arrived + more), all, out, wk, KeyOf(cfg, wk.msg), r, now);
      TurnCalls(cfg, all, wk, KeyOf(cfg, wk.msg), r, now);
    }

    /** The worker leaves: everything still queued is dropped. */
    method DropRest(ghost pushes: nat, ghost start: Chains, ghost out: seq<Message>) returns (dropped: seq<Message>)
      requires AtRest(pushes) && InOrder(cfg, start, chains, out)
      modifies this
      ensures chains == map[] && slots == pushes && (old(chains) == map[] ==> dropped == []) && closed == old(closed)
      ensures OutInOrder(cfg, start, out + dropped)
      ensures acct == OutOf(old(acct), dropped)
    {
      ghost var rest := chains;
      var all := AbandonAll();
      dropped := Messages(all);
      DroppedOrder(cfg, start, rest, out, all);
    }

    /**
     * The worker of a lane, open or closed. Handler calls end as w tells, in the order in which they are
     * made. While a call runs, and whenever the worker waits, others come in as the visits tell, one
     * after the other, and the context may end during a wait. All that arrives counts as arrived. The
     * worker is gone in the end, or, when the visits are over, waits in an open lane. Either way every
     * chain is empty, no slot is taken but those of pushes under way, and each message is counted out
     * and forgotten once. It makes at most as many calls as the messages queued at first and those that
     * arrived may ask for, and each key's messages leave in order: first those that were finished, then,
     * if the worker had to stop, those it dropped.
     */
    method Run(w: nat -> Attempt, visits: seq<Visit>, start: int, ghost pushes: nat)
      returns (calls: nat, finished: seq<Message>, dropped: seq<Message>, arrived: seq<Message>, waits: bool)
      requires AtRest(pushes)
      modifies this
      ensures chains == map[] && slots == pushes && (waits ==> !closed && dropped == [])
      ensures acct == OutOf(old(acct), finished + dropped)
      ensures calls <= old(Stock(chains, Left(cfg))) + CallsFor(cfg, |arrived|)
      ensures OutInOrder(cfg, EnqueueAll(cfg, old(chains), arrived), finished + dropped)
      ensures dropped != [] ==> SomeQuits(visits) || (0 < calls && !w(calls - 1).ok)
      ensures cfg.hasDiscard && (forall n :: !w(n).cancelled && w(n).discardOk) && !SomeQuits(visits) ==> dropped == []
    {
      calls, finished, dropped, arrived, waits := 0, [], [], [], false;
      var now, rest := start, visits;
      ghost var first, was := chains, acct;
      OutOfNone(acct);
      CallsForMore(cfg, 0, 0);
      while true
        invariant Underway(first, was, calls, finished, arrived, pushes) && StillToCome(rest, visits)
        decreases |rest|, Stock(chains, Left(cfg))
      {
        var r;
        r, now, rest, arrived := Round(w(calls), now, rest, pushes, first, was, calls, finished, arrived);
        if !r.Got? || ResultOf(cfg, r.wk, w(calls)).WorkStop? {
          assert finished + [] == finished;
          dropped := Leave(finished, if r.Got? then [r.wk.msg] else [], was, pushes, EnqueueAll(cfg, first, arrived));
          return if r.Got? then calls + 1 else calls, finished, dropped, arrived, r.Waiting?;
        }
        finished := OutAfter(finished, r.wk, ResultOf(cfg, r.wk, w(calls)));
        calls := calls + 1;
      }
    }

    /**
     * The worker is between two turns: out left in order of what was queued first and what arrived,
     * is counted out, and the calls made and still left are within what those messages may ask for.
     */
    ghost predicate Underway(first: Chains, was: Account, calls: nat, out: seq<Message>, arrived: seq<Message>,
                             pushes: nat)
      reads this
    {
      && AtRest(pushes) && acct == OutOf(was, out)
      && calls + Stock(chains, Left(cfg)) <= Stock(first, Left(cfg)) + CallsFor(cfg, |arrived|)
      && InOrder(cfg, EnqueueAll(cfg, first, arrived), chains, out)
    }

    /** One turn, with the books of the whole run. */
    method Round(a: Attempt, now: int, visits: seq<Visit>, ghost pushes: nat, ghost first: Chains, ghost was: Account,
                 ghost calls: nat, ghost out: seq<Message>, arrived: seq<Message>)
      returns (r: Taken, later: int, rest: seq<Visit>, all: seq<Message>)
      requires Underway(first, was, calls, out, arrived, pushes)
      modifies this
      ensures StillToCome(rest, visits)
      ensures match r
        case Got(wk) =>
          && Underway(first, was, calls + 1, OutAfter(out, wk, ResultOf(cfg, wk, a)), all, pushes)
          && (|rest| < |visits| || (rest == visits && Stock(chains, Left(cfg)) < old(Stock(chains, Left(cfg)))))
        case Gone => Underway(first, was, calls, out, all, pushes) && ((closed && chains == map[]) || SomeQuits(visits))
        case Waiting => Underway(first, was, calls, out, all, pushes) && !closed && chains == map[]
    {
      var more;
      r, later, rest, more := Turn(a, now, visits, pushes, EnqueueAll(cfg, first, arrived), out);
      EnqueueAllJoin(cfg, first, arrived, more);
      CallsForMore(cfg, |arrived|, |more|);
      CallsForMore(cfg, 0, 0);
      all := arrived + more;
      if r.Got? {
        OutOfMore(was, out, r.wk, ResultOf(cfg, r.wk, a));
      }
    }

    /** The worker leaves with the message it stopped at, if it did, and with all that is queued. */
    method Leave(ghost finished: seq<Message>, stopped: seq<Message>, ghost was: Account, ghost pushes: nat,
                 ghost start: Chains)
      returns (dropped: seq<Message>)
      requires AtRest(pushes) && InOrder(cfg, start, chains, finished + stopped)
      requires acct == OutOf(was, finished + stopped)
      modifies this
      ensures chains == map[] && slots == pushes && closed == old(closed)
      ensures acct == OutOf(was, finished + dropped)
      ensures OutInOrder(cfg, start, finished + dropped)
      ensures old(chains) == map[] && stopped == [] ==> dropped == []
    {
      var rest := DropRest(pushes, start, finished + stopped);
      dropped := stopped + rest;
      assert finished + dropped == (finished + stopped) + rest;
      OutOfJoin(was, finished + stopped, rest);
    }
  }
}
