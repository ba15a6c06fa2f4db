/** What a lane does to the order of its messages, and to their accounts, step by step. */
module LaneOrder {
  import opened Types
  import opened LaneMachine
  import opened LaneStock
  import opened LaneInvariant
  import opened LaneSerial
  import opened LaneTheorems

  /** What one handler call meets: its result, the context, OnDiscard, the backoff, and its duration. */
  datatype Attempt = Attempt(ok: bool, cancelled: bool, discardOk: bool, backoff: nat, took: nat)

  /** What the worker gets when it asks for work; Gone when it shall leave, Waiting when it waits for good. */
  datatype Taken = Got(wk: Work) | Gone | Waiting

  /** What runMessage says about one attempt. */
  datatype WorkResult = WorkDone | WorkRetry(backoff: nat) | WorkStop

  function ResultOf(cfg: Config, wk: Work, a: Attempt): WorkResult {
    if a.ok then WorkDone
    else if a.cancelled then WorkStop
    else if wk.attempts + 1 < MaxAttempts(cfg) then WorkRetry(a.backoff)
    else if cfg.hasDiscard && a.discardOk then WorkDone
    else WorkStop
  }

  /** wk was the head of the chain of key, which was due; purged are empty chains deleted on the way. */
  ghost predicate TookHead(before: Chains, after: Chains, wk: Work, key: Key, purged: set<Key>, now: int) {
    && key in before && Due(before[key], now)
    && (forall k :: k in purged ==> k in before && before[k].queue == [])
    && wk == before[key].queue[0]
    && after == TakeHead(before, key) - purged
  }

  ghost predicate NoneDue(chains: Chains, now: int) {
    forall k :: k in chains ==> !Due(chains[k], now)
  }

  // ---------------------------------------------------------------- order of what leaves

  /** Each key's messages of before: those that are out, in order, and then those queued after. */
  ghost predicate KeyInOrder(cfg: Config, before: Chains, after: Chains, out: seq<Message>, key: Key) {
    MessagesOf(cfg, key, out) + Messages(QueueOf(after, key)) == Messages(QueueOf(before, key))
  }

  ghost predicate InOrder(cfg: Config, before: Chains, after: Chains, out: seq<Message>) {
    forall key :: KeyInOrder(cfg, before, after, out, key)
  }

  /** Each key's messages of before are out, in order. */
  ghost predicate OutInOrder(cfg: Config, before: Chains, out: seq<Message>) {
    forall key :: KeyInOrder(cfg, before, map[], out, key)
  }

  lemma {:induction false} MessagesOfConcat(cfg: Config, key: Key, a: seq<Message>, b: seq<Message>)
    ensures MessagesOf(cfg, key, a + b) == MessagesOf(cfg, key, a) + MessagesOf(cfg, key, b)
  {
    if b == [] {
      assert a + b == a;
    } else {
      var init := b[..|b| - 1];
      MessagesOfConcat(cfg, key, a, init);
      assert (a + b)[..|a + b| - 1] == a + init;
    }
  }

  lemma {:induction false} MessagesOfQueue(cfg: Config, key: Key, queue: seq<Work>, home: Key)
    requires forall i :: 0 <= i < |queue| ==> KeyOf(cfg, queue[i].msg) == home
    ensures MessagesOf(cfg, key, Messages(queue)) == if key == home then Messages(queue) else []
  {
    if queue != [] {
      var init, last := queue[..|queue| - 1], queue[|queue| - 1];
      MessagesOfQueue(cfg, key, init, home);
      MessagesSplit(queue);
      MessagesOfMore(cfg, key, Messages(init), last.msg);
    }
  }

  lemma MessagesSplit(queue: seq<Work>)
    requires queue != []
    ensures Messages(queue) == Messages(queue[..|queue| - 1]) + [queue[|queue| - 1].msg]
  {
  }

  /** Gathering keeps each key's messages in order. */
  lemma {:induction false} GathersOrder(cfg: Config, chains: Chains, all: seq<Work>, key: Key)
    requires Shape(cfg, chains) && Gathers(chains, all)
    ensures MessagesOf(cfg, key, Messages(all)) == Messages(QueueOf(chains, key))
    decreases |chains|
  {
    if chains == map[] {
      assert Messages(all) == [];
    } else {
      var k, rest :| k in chains && all == chains[k].queue + rest && Gathers(chains - {k}, rest);
      GathersOrder(cfg, chains - {k}, rest, key);
      ChainFirst(cfg, chains, k, rest, key);
    }
  }

  lemma ChainFirst(cfg: Config, chains: Chains, k: Key, rest: seq<Work>, key: Key)
    requires Shape(cfg, chains) && k in chains
    requires MessagesOf(cfg, key, Messages(rest)) == Messages(QueueOf(chains - {k}, key))
    ensures MessagesOf(cfg, key, Messages(chains[k].queue + rest)) == Messages(QueueOf(chains, key))
  {
    var queue := chains[k].queue;
    assert ChainOk(cfg, k, chains[k]);
    MessagesOfQueue(cfg, key, queue, k);
    MessagesJoin(queue, rest);
    MessagesOfConcat(cfg, key, Messages(queue), Messages(rest));
    WithoutChain(chains, k, key);
  }

  lemma MessagesJoin(a: seq<Work>, b: seq<Work>)
    ensures Messages(a + b) == Messages(a) + Messages(b)
  {
  }

  lemma WithoutChain(chains: Chains, k: Key, key: Key)
    requires k in chains
    ensures Messages(QueueOf(chains - {k}, key)) == if key == k then [] else Messages(QueueOf(chains, key))
  {
  }

  lemma RetryOrder(cfg: Config, before: Chains, now: Chains, out: seq<Message>, wk: Work, key: Key, at: int)
    requires InOrder(cfg, before, now, out)
    requires key in now && now[key].queue != [] && now[key].queue[0] == wk && KeyOf(cfg, wk.msg) == key
    ensures InOrder(cfg, before, PutBack(TakeHead(now, key), key, Work(wk.msg, wk.attempts + 1), at), out)
  {
    var after := PutBack(TakeHead(now, key), key, Work(wk.msg, wk.attempts + 1), at);
    forall k ensures KeyInOrder(cfg, before, after, out, k) {
      assert KeyInOrder(cfg, before, now, out, k);
      RetryQueue(now, wk, key, at, k);
    }
  }

  lemma RetryQueue(chains: Chains, wk: Work, key: Key, at: int, k: Key)
    requires key in chains && chains[key].queue != [] && chains[key].queue[0] == wk
    ensures Messages(QueueOf(PutBack(TakeHead(chains, key), key, Work(wk.msg, wk.attempts + 1), at), k))
      == Messages(QueueOf(chains, k))
  {
  }

  lemma DoneQueue(chains: Chains, wk: Work, key: Key, k: Key)
    requires key in chains && chains[key].queue != [] && chains[key].queue[0] == wk
    ensures
      var after := Messages(QueueOf(Unchain(TakeHead(chains, key), key), k));
      Messages(QueueOf(chains, k)) == if k == key then [wk.msg] + after else after
  {
    var after := Unchain(TakeHead(chains, key), key);
    assert QueueOf(after, key) == chains[key].queue[1..];
    assert k != key ==> QueueOf(after, k) == QueueOf(chains, k);
  }

  lemma DoneOrder(cfg: Config, before: Chains, now: Chains, out: seq<Message>, wk: Work, key: Key)
    requires InOrder(cfg, before, now, out)
    requires key in now && now[key].queue != [] && now[key].queue[0] == wk && KeyOf(cfg, wk.msg) == key
    ensures InOrder(cfg, before, Unchain(TakeHead(now, key), key), out + [wk.msg])
  {
    var after := Unchain(TakeHead(now, key), key);
    forall k ensures KeyInOrder(cfg, before, after, out + [wk.msg], k) {
      assert KeyInOrder(cfg, before, now, out, k);
      DoneKey(cfg, before, now, out, wk, key, k);
    }
  }

  lemma DoneKey(cfg: Config, before: Chains, now: Chains, out: seq<Message>, wk: Work, key: Key, k: Key)
    requires KeyInOrder(cfg, before, now, out, k)
    requires key in now && now[key].queue != [] && now[key].queue[0] == wk && KeyOf(cfg, wk.msg) == key
    ensures KeyInOrder(cfg, before, Unchain(TakeHead(now, key), key), out + [wk.msg], k)
  {
    MessagesOfMore(cfg, k, out, wk.msg);
    DoneQueue(now, wk, key, k);
  }

  lemma PutBackShape(cfg: Config, chains: Chains, wk: Work, at: int)
    requires Shape(cfg, chains) && 0 < wk.attempts < MaxAttempts(cfg)
    requires KeyOf(cfg, wk.msg) in chains && chains[KeyOf(cfg, wk.msg)].retryAt == Never
    ensures Shape(cfg, PutBack(chains, KeyOf(cfg, wk.msg), wk, at))
  {
    var key := KeyOf(cfg, wk.msg);
    assert ChainOk(cfg, key, chains[key]);
    assert ChainOk(cfg, key, PutBack(chains, key, wk, at)[key]);
  }

  /** What one handler call on the message in hand does to the chains. */
  function AfterWork(cfg: Config, chains: Chains, wk: Work, r: WorkResult, now: int): Chains {
    match r
    case WorkRetry(backoff) => PutBack(chains, KeyOf(cfg, wk.msg), Work(wk.msg, wk.attempts + 1), now + backoff)
    case _ => Unchain(chains, KeyOf(cfg, wk.msg))
  }

  function OutAfter(out: seq<Message>, wk: Work, r: WorkResult): seq<Message> {
    if r.WorkRetry? then out else out + [wk.msg]
  }

  /** One turn keeps each key's order. */
  lemma TurnOrder(cfg: Config, start: Chains, before: Chains, out: seq<Message>, wk: Work, key: Key, r: WorkResult,
                  now: int)
    requires InOrder(cfg, start, before, out)
    requires key in before && before[key].queue != [] && before[key].queue[0] == wk && KeyOf(cfg, wk.msg) == key
    ensures InOrder(cfg, start, AfterWork(cfg, TakeHead(before, key), wk, r, now), OutAfter(out, wk, r))
  {
    match r
    case WorkRetry(backoff) => RetryOrder(cfg, start, before, out, wk, key, now + backoff);
    case _ => DoneOrder(cfg, start, before, out, wk, key);
  }

  /** And uses up one of the calls left. */
  lemma TurnCalls(cfg: Config, before: Chains, wk: Work, key: Key, r: WorkResult, now: int)
    requires key in before && before[key].queue != [] && before[key].queue[0] == wk && KeyOf(cfg, wk.msg) == key
    requires 0 < Left(cfg)(wk) && (r.WorkRetry? ==> wk.attempts + 1 < MaxAttempts(cfg))
    ensures Stock(AfterWork(cfg, TakeHead(before, key), wk, r, now), Left(cfg)) < Stock(before, Left(cfg))
  {
    StockTakeHead(before, key, Left(cfg));
    match r
    case WorkRetry(backoff) =>
      StockPutBack(TakeHead(before, key), key, Work(wk.msg, wk.attempts + 1), now + backoff, Left(cfg));
    case _ => StockUnchain(TakeHead(before, key), key, Left(cfg));
  }

  lemma DroppedOrder(cfg: Config, before: Chains, rest: Chains, out: seq<Message>, all: seq<Work>)
    requires Shape(cfg, rest) && Gathers(rest, all) && InOrder(cfg, before, rest, out)
    ensures OutInOrder(cfg, before, out + Messages(all))
  {
    forall key ensures KeyInOrder(cfg, before, map[], out + Messages(all), key) {
      assert KeyInOrder(cfg, before, rest, out, key);
      DroppedKey(cfg, before, rest, out, all, key);
    }
  }

  lemma DroppedKey(cfg: Config, before: Chains, rest: Chains, out: seq<Message>, all: seq<Work>, key: Key)
    requires Shape(cfg, rest) && Gathers(rest, all) && KeyInOrder(cfg, before, rest, out, key)
    ensures KeyInOrder(cfg, before, map[], out + Messages(all), key)
  {
    MessagesOfConcat(cfg, key, out, Messages(all));
    GathersOrder(cfg, rest, all, key);
    NothingQueuedThere(key);
    assert MessagesOf(cfg, key, out + Messages(all)) + [] == MessagesOf(cfg, key, out) + Messages(QueueOf(rest, key));
  }

  lemma NothingQueuedThere(key: Key)
    ensures Messages(QueueOf(map[], key)) == []
  {
  }

  // ---------------------------------------------------------------- arrivals

  /**
   * What happens while the worker has let go of the mutex: messages are pushed, the lane is closed, the
   * context ends.
   */
  datatype Visit = Visit(pushed: seq<Message>, closes: bool, quits: bool)

  ghost predicate SomeQuits(visits: seq<Visit>) {
    exists v :: v in visits && v.quits
  }

  /** These are visits still to come. */
  ghost predicate StillToCome(rest: seq<Visit>, visits: seq<Visit>) {
    |rest| <= |visits| && forall v :: v in rest ==> v in visits
  }

  function EnqueueAll(cfg: Config, chains: Chains, ms: seq<Message>): Chains {
    if ms == [] then chains else
      var m := ms[|ms| - 1];
      Enqueue(EnqueueAll(cfg, chains, ms[..|ms| - 1]), KeyOf(cfg, m), Work(m, 0))
  }

  lemma EnqueueAllMore(cfg: Config, chains: Chains, ms: seq<Message>, m: Message)
    ensures EnqueueAll(cfg, chains, ms + [m]) == Enqueue(EnqueueAll(cfg, chains, ms), KeyOf(cfg, m), Work(m, 0))
  {
    assert (ms + [m])[..|ms|] == ms;
  }

  lemma {:induction false} EnqueueAllJoin(cfg: Config, chains: Chains, a: seq<Message>, b: seq<Message>)
    ensures EnqueueAll(cfg, EnqueueAll(cfg, chains, a), b) == EnqueueAll(cfg, chains, a + b)
  {
    if b == [] {
      assert a + b == a;
    } else {
      var init, m := b[..|b| - 1], b[|b| - 1];
      EnqueueAllJoin(cfg, chains, a, init);
      assert a + b == (a + init) + [m];
      EnqueueAllMore(cfg, chains, a + init, m);
    }
  }

  /** The calls that so many new messages may ask for. */
  function CallsFor(cfg: Config, n: nat): nat {
    n * MaxAttempts(cfg)
  }

  lemma CallsForMore(cfg: Config, a: nat, b: nat)
    ensures CallsFor(cfg, a + b) == CallsFor(cfg, a) + CallsFor(cfg, b)
    ensures CallsFor(cfg, 0) == 0 && CallsFor(cfg, 1) == MaxAttempts(cfg)
  {
    var max := MaxAttempts(cfg);
    assert (a + b) * max == a * max + b * max;
  }

  /** Each arrival may be called for as often as the configuration allows. */
  lemma {:induction false} ArrivalsLeft(cfg: Config, chains: Chains, ms: seq<Message>)
    ensures Stock(EnqueueAll(cfg, chains, ms), Left(cfg)) == Stock(chains, Left(cfg)) + CallsFor(cfg, |ms|)
  {
    CallsForMore(cfg, 0, 0);
    if ms != [] {
      var init, m := ms[..|ms| - 1], ms[|ms| - 1];
      ArrivalsLeft(cfg, chains, init);
      ArrivalLeft(cfg, EnqueueAll(cfg, chains, init), m);
      CallsForMore(cfg, |init|, 1);
    }
  }

  lemma ArrivalLeft(cfg: Config, chains: Chains, m: Message)
    ensures Stock(Enqueue(chains, KeyOf(cfg, m), Work(m, 0)), Left(cfg)) == Stock(chains, Left(cfg)) + MaxAttempts(cfg)
  {
    StockEnqueue(chains, KeyOf(cfg, m), Work(m, 0), Left(cfg));
  }

  lemma ArrivalQueue(cfg: Config, chains: Chains, m: Message, key: Key)
    ensures Messages(QueueOf(Enqueue(chains, KeyOf(cfg, m), Work(m, 0)), key))
      == Messages(QueueOf(chains, key)) + if KeyOf(cfg, m) == key then [m] else []
  {
    var queue := QueueOf(chains, key);
    if KeyOf(cfg, m) == key {
      MessagesSplit(queue + [Work(m, 0)]);
      assert (queue + [Work(m, 0)])[..|queue|] == queue;
    } else {
      assert Messages(queue) + [] == Messages(queue);
    }
  }

  /** An arrival comes last in its key, behind what is out and what is queued. */
  lemma ArrivalOrder(cfg: Config, before: Chains, now: Chains, out: seq<Message>, m: Message)
    requires InOrder(cfg, before, now, out)
    ensures
      var key, wk := KeyOf(cfg, m), Work(m, 0);
      InOrder(cfg, Enqueue(before, key, wk), Enqueue(now, key, wk), out)
  {
    var home, wk := KeyOf(cfg, m), Work(m, 0);
    forall key ensures KeyInOrder(cfg, Enqueue(before, home, wk), Enqueue(now, home, wk), out, key) {
      assert KeyInOrder(cfg, before, now, out, key);
      ArrivalKey(cfg, before, now, out, m, key);
    }
  }

  lemma ArrivalKey(cfg: Config, before: Chains, now: Chains, out: seq<Message>, m: Message, key: Key)
    requires KeyInOrder(cfg, before, now, out, key)
    ensures
      var home, wk := KeyOf(cfg, m), Work(m, 0);
      KeyInOrder(cfg, Enqueue(before, home, wk), Enqueue(now, home, wk), out, key)
  {
    ArrivalQueue(cfg, before, m, key);
    ArrivalQueue(cfg, now, m, key);
    var more := if KeyOf(cfg, m) == key then [m] else [];
    assert MessagesOf(cfg, key, out) + (Messages(QueueOf(now, key)) + more)
      == (MessagesOf(cfg, key, out) + Messages(QueueOf(now, key))) + more;
  }

  lemma {:induction false} ArrivalsOrder(cfg: Config, before: Chains, now: Chains, out: seq<Message>, ms: seq<Message>)
    requires InOrder(cfg, before, now, out)
    ensures InOrder(cfg, EnqueueAll(cfg, before, ms), EnqueueAll(cfg, now, ms), out)
  {
    if ms != [] {
      var init, m := ms[..|ms| - 1], ms[|ms| - 1];
      ArrivalsOrder(cfg, before, now, out, init);
      ArrivalOrder(cfg, EnqueueAll(cfg, before, init), EnqueueAll(cfg, now, init), out, m);
    }
  }

  /** wk heads the chain of its key. */
  predicate Heads(cfg: Config, chains: Chains, wk: Work) {
    var key := KeyOf(cfg, wk.msg);
    key in chains && chains[key].queue != [] && chains[key].queue[0] == wk
  }

  /** Messages that arrive while the head is out arrive behind it. */
  lemma {:induction false} HeadThenArrivals(cfg: Config, chains: Chains, wk: Work, ms: seq<Message>)
    requires Heads(cfg, chains, wk)
    ensures Heads(cfg, EnqueueAll(cfg, chains, ms), wk)
    ensures
      var key := KeyOf(cfg, wk.msg);
      EnqueueAll(cfg, TakeHead(chains, key), ms) == TakeHead(EnqueueAll(cfg, chains, ms), key)
  {
    if ms != [] {
      var init, m := ms[..|ms| - 1], ms[|ms| - 1];
      HeadThenArrivals(cfg, chains, wk, init);
      HeadThenArrival(cfg, EnqueueAll(cfg, chains, init), wk, m);
    }
  }

  lemma HeadThenArrival(cfg: Config, chains: Chains, wk: Work, m: Message)
    requires Heads(cfg, chains, wk)
    ensures
      var key, home, more := KeyOf(cfg, wk.msg), KeyOf(cfg, m), Work(m, 0);
      && Heads(cfg, Enqueue(chains, home, more), wk)
      && Enqueue(TakeHead(chains, key), home, more) == TakeHead(Enqueue(chains, home, more), key)
  {
    var key, queue := KeyOf(cfg, wk.msg), chains[KeyOf(cfg, wk.msg)].queue;
    if KeyOf(cfg, m) == key {
      assert queue[1..] + [Work(m, 0)] == (queue + [Work(m, 0)])[1..];
    }
  }

  lemma EnqueueShape(cfg: Config, chains: Chains, m: Message)
    requires Shape(cfg, chains)
    ensures Shape(cfg, Enqueue(chains, KeyOf(cfg, m), Work(m, 0)))
  {
    var key := KeyOf(cfg, m);
    if key in chains {
      assert ChainOk(cfg, key, chains[key]);
    }
    assert ChainOk(cfg, key, Enqueue(chains, key, Work(m, 0))[key]);
  }

  // ---------------------------------------------------------------- accounting

  /** What the partition worker keeps about its messages, as far as a lane touches it. */
  datatype Account = Account(total: int, count: int, waiting: int, pending: set<Offset>)

  /** The account after so many messages have left. */
  function Finalized(a: Account, n: int): Account {
    a.(total := a.total - n, count := a.count - n, waiting := a.waiting - n)
  }

  function Offsets(ms: seq<Message>): set<Offset> {
    set m | m in ms :: m.offset
  }

  lemma OffsetsMore(ms: seq<Message>, m: Message)
    ensures Offsets(ms + [m]) == Offsets(ms) + {m.offset}
  {
    assert m in ms + [m];
    assert forall x :: x in ms ==> x in ms + [m];
  }

  lemma OffsetsJoin(a: seq<Message>, b: seq<Message>)
    ensures Offsets(a + b) == Offsets(a) + Offsets(b)
  {
    assert forall x :: x in a ==> x in a + b;
    assert forall x :: x in b ==> x in a + b;
  }

  /** The account once these messages are out. */
  function OutOf(a: Account, out: seq<Message>): Account {
    Finalized(a, |out|).(pending := a.pending - Offsets(out))
  }

  /** The account after one handler call. */
  function AcctAfter(a: Account, wk: Work, r: WorkResult): Account {
    if r.WorkRetry? then a else Finalized(a, 1).(pending := a.pending - {wk.msg.offset})
  }

  lemma OutOfNone(a: Account)
    ensures OutOf(a, []) == a
  {
    assert a.pending - {} == a.pending;
  }

  lemma OutOfMore(a: Account, out: seq<Message>, wk: Work, r: WorkResult)
    ensures AcctAfter(OutOf(a, out), wk, r) == OutOf(a, OutAfter(out, wk, r))
  {
    OffsetsMore(out, wk.msg);
  }

  lemma OutOfJoin(a: Account, out: seq<Message>, more: seq<Message>)
    ensures OutOf(OutOf(a, out), more) == OutOf(a, out + more)
  {
    OffsetsJoin(out, more);
  }

  /** The scan has looked at all but these keys, found none due, and deleted the empty ones. */
  ghost predicate Scanned(start: Chains, chains: Chains, keys: set<Key>, purged: set<Key>, now: int) {
    && keys <= start.Keys && purged <= start.Keys - keys
    && chains == start - purged
    && forall k :: k in start && k !in keys ==> !Due(start[k], now) && (k in purged <==> start[k].queue == [])
  }

  lemma HeadTaken(start: Chains, keys: set<Key>, purged: set<Key>, key: Key, now: int)
    requires Scanned(start, start - purged, keys, purged, now) && key in keys && Due(start[key], now)
    ensures TookHead(start, (start - purged)[key := Chain(start[key].queue[1..], Never)], start[key].queue[0], key,
      purged, now)
  {
    assert (start - purged)[key := Chain(start[key].queue[1..], Never)] == TakeHead(start, key) - purged;
  }

  lemma NothingTaken(start: Chains, chains: Chains, purged: set<Key>, now: int)
    requires Scanned(start, chains, {}, purged, now)
    ensures chains == NonEmpty(start) && NoneDue(start, now)
  {
  }
}
