/**
 * One lane as a state machine: every mutex section, channel operation and atomic add of the lane,
 * of its worker, and of the goroutines that push into it or close it is one event.
 */
module LaneMachine {
  import opened Types

  // ---------------------------------------------------------------- the lane's fields

  datatype Work = Work(msg: Message, attempts: nat)

  /** A retry deadline; Never is the zero time. */
  datatype Deadline = Never | At(when: int)

  datatype Chain = Chain(queue: seq<Work>, retryAt: Deadline)

  type Chains = map<Key, Chain>

  /** The fields of a lane. Slots is the number of slots taken, wake whether a token is present. */
  datatype Buffer = Buffer(chains: Chains, slots: nat, closed: bool, accepting: bool, wake: bool)

  const EMPTY_BUFFER := Buffer(map[], 0, false, true, false)

  function QueueOf(chains: Chains, key: Key): seq<Work> {
    if key in chains then chains[key].queue else []
  }

  function Enqueue(chains: Chains, key: Key, wk: Work): Chains {
    chains[key := Chain(QueueOf(chains, key) + [wk], if key in chains then chains[key].retryAt else Never)]
  }

  function PutBack(chains: Chains, key: Key, wk: Work, at: int): Chains {
    chains[key := Chain([wk] + QueueOf(chains, key), At(at))]
  }

  function TakeHead(chains: Chains, key: Key): Chains
    requires key in chains && chains[key].queue != []
  {
    chains[key := Chain(chains[key].queue[1..], Never)]
  }

  function Unchain(chains: Chains, key: Key): Chains {
    if key in chains && chains[key].queue == [] then chains - {key} else chains
  }

  function NonEmpty(chains: Chains): Chains {
    map k | k in chains && chains[k].queue != [] :: chains[k]
  }

  predicate HasQueued(chains: Chains) {
    exists k :: k in chains && chains[k].queue != []
  }

  predicate Due(c: Chain, now: int) {
    c.queue != [] && (c.retryAt.At? ==> c.retryAt.when <= now)
  }

  /** d is the soonest deadline of a chain with work, or Never when no such chain has one. */
  ghost predicate Earliest(chains: Chains, d: Deadline) {
    && (d.At? ==> exists k :: k in chains && chains[k].queue != [] && chains[k].retryAt == d)
    && forall k :: k in chains && chains[k].queue != [] && chains[k].retryAt.At? ==>
         d.At? && d.when <= chains[k].retryAt.when
  }

  /** all is the queues of the chains one after the other, in some order of the keys. */
  ghost predicate Gathers(chains: Chains, all: seq<Work>)
    decreases |chains|
  {
    if chains == map[] then all == [] else
      exists k, rest :: k in chains && all == chains[k].queue + rest && Gathers(chains - {k}, rest)
  }

  // ---------------------------------------------------------------- the worker

  /** How a message leaves the worker for good. Vanished is the defensive branch of a lost chain. */
  datatype Fate = Succeeded | Discarded | Stopped | Fatal | Vanished

  /** The single steps that take a message out, in the order in which they happen. */
  datatype Stage =
    | Tally | Complete | Forget | Advance | Report | Cancel
    | Unlink | FreeSlot | DropTotal | DropCount | DropWait | Signal | FreeSem

  function Rank(s: Stage): nat {
    match s
    case Tally => 0
    case Complete => 1
    case Forget => 2
    case Advance => 3
    case Report => 4
    case Cancel => 5
    case Unlink => 6
    case FreeSlot => 7
    case DropTotal => 8
    case DropCount => 9
    case DropWait => 10
    case Signal => 11
    case FreeSem => 12
  }

  datatype Pc =
    | Scanning                              // holds the mutex of takeNext next
    | Parked(timer: Deadline)               // waits for the token, the timer or the context
    | Handling(wk: Work)                    // inside the handler
    | Failing(wk: Work)                     // the handler returned an error
    | Discarding(wk: Work)                  // inside OnDiscard
    | Cooling(wk: Work, backoff: nat)       // about to put the message back
    | Settling(wk: Work, fate: Fate, stage: Stage)
    | Leaving                               // about to abandon what is queued
    | Abandoning(rest: seq<Work>, stage: Stage)
    | Exited

  predicate Completes(f: Fate) {
    f == Succeeded || f == Discarded
  }

  function FirstStage(f: Fate): Stage {
    match f
    case Stopped => Forget
    case Vanished => Unlink
    case _ => Tally
  }

  /** The stage after s of a lane worker, None after the last one. */
  function NextStage(f: Fate, s: Stage): Option<Stage> {
    match s
    case Tally => Some(if Completes(f) then Complete else Forget)
    case Complete => Some(Forget)
    case Forget => Some(Advance)
    case Advance => Some(if f == Fatal then Report else Unlink)
    case Report => Some(Cancel)
    case Cancel => Some(Unlink)
    case Unlink => Some(FreeSlot)
    case FreeSlot => Some(DropTotal)
    case DropTotal => Some(DropCount)
    case DropCount => Some(DropWait)
    case DropWait => Some(Signal)
    case Signal => None
    case FreeSem => None
  }

  /** The stages of abandoning one queued message. */
  function NextAbandon(s: Stage): Option<Stage> {
    match s
    case Forget => Some(FreeSlot)
    case FreeSlot => Some(DropTotal)
    case DropTotal => Some(DropCount)
    case DropCount => Some(DropWait)
    case _ => None
  }

  /** One message passes one stage on its way out. */
  datatype Passage = Passage(m: Message, fate: Fate, stage: Stage)

  // ---------------------------------------------------------------- history

  datatype Verdict = Done | Retry | Stop

  /** Entries of the attempt history: a handler call begins, and what became of it. */
  datatype Entry =
    | Begin(msg: Message, attempt: nat)
    | End(msg: Message, attempt: nat, verdict: Verdict)

  /**
   * The lane with its worker. Of the goroutines that push, reserved took a slot and have not looked
   * at the accepting flag yet, returning were turned away and still hold the slot, and owed will
   * send a wake signal next; closing the lane owes one too. Arrived and log are history.
   */
  datatype Lane = Lane(
    buf: Buffer,
    pc: Pc,
    reserved: nat,
    returning: nat,
    owed: nat,
    arrived: seq<Message>,
    log: seq<Entry>)

  const NEW_LANE := Lane(EMPTY_BUFFER, Scanning, 0, 0, 0, [], [])

  // ---------------------------------------------------------------- events

  datatype Event =
    | Reserve                                       // push: a slot is taken
    | Push(msg: Message)                            // push: appended under the mutex
    | Reject                                        // push: the lane no longer accepts
    | GiveBack                                      // push: the slot is returned
    | Notify                                        // push or close: the wake signal
    | Close                                         // closeLane
    | Pick(key: Key, purged: set<Key>, now: int)    // takeNext: a due head is taken
    | Park(timer: Deadline, now: int)               // takeNext: nothing is due
    | Wake                                          // the worker consumes the token
    | Expire(now: int)                              // the cooldown timer fires
    | Quit                                          // the worker sees the context end
    | Return(ok: bool)                              // the handler returns
    | Decide(cancelled: bool, backoff: nat)         // what follows a failed attempt
    | DiscardReturn(ok: bool)                       // OnDiscard returns, or panics
    | Cool(now: int)                                // cooldownHead
    | Settle                                        // the next stage of a message that leaves
    | Gather(all: seq<Work>)                        // abandonAll empties the chains
    | Abandon                                       // the next stage of an abandoned message

  /** The worker's own events, as against those of a push or a close. */
  predicate OwnEvent(e: Event) {
    match e
    case Reserve => false
    case Push(_) => false
    case Reject => false
    case GiveBack => false
    case Notify => false
    case Close => false
    case _ => true
  }

  /** An event that looks at the clock sees this time. */
  predicate Timely(e: Event, now: int) {
    match e
    case Pick(_, _, at) => at == now
    case Park(_, at) => at == now
    case Expire(at) => at == now
    case Cool(at) => at == now
    case _ => true
  }

  /** The stage that an event completes, when it is such an event. An abandoned message was stopped. */
  function Passing(pc: Pc, e: Event): Option<Passage> {
    if e.Settle? && pc.Settling? then Some(Passage(pc.wk.msg, pc.fate, pc.stage))
    else if e.Abandon? && pc.Abandoning? && pc.rest != [] then Some(Passage(pc.rest[0].msg, Stopped, pc.stage))
    else None
  }

  /** Where the worker goes once nothing is due in the chains it scanned. */
  function AfterScan(b: Buffer, timer: Deadline): Pc {
    if HasQueued(b.chains) then Parked(timer)
    else if b.closed then Leaving
    else Parked(Never)
  }

  /** What the worker decides about a failed attempt. */
  function Decision(cfg: Config, wk: Work, cancelled: bool, backoff: nat): Pc {
    if cancelled then Settling(wk, Stopped, FirstStage(Stopped))
    else if wk.attempts + 1 < MaxAttempts(cfg) then Cooling(Work(wk.msg, wk.attempts + 1), backoff)
    else if cfg.hasDiscard then Discarding(wk)
    else Settling(wk, Fatal, FirstStage(Fatal))
  }

  function SettleBuffer(cfg: Config, b: Buffer, wk: Work, s: Stage): Buffer
    requires s == FreeSlot ==> 0 < b.slots
  {
    match s
    case Unlink => b.(chains := Unchain(b.chains, KeyOf(cfg, wk.msg)))
    case FreeSlot => b.(slots := b.slots - 1)
    case Signal => b.(wake := true)
    case _ => b
  }

  function SettlePc(wk: Work, f: Fate, s: Stage): Pc {
    match NextStage(f, s)
    case Some(next) => Settling(wk, f, next)
    case None => if f == Stopped || f == Fatal then Leaving else Scanning
  }

  function AbandonPc(rest: seq<Work>, s: Stage): Pc
    requires rest != []
  {
    match NextAbandon(s)
    case Some(next) => Abandoning(rest, next)
    case None => if |rest| == 1 then Exited else Abandoning(rest[1..], Forget)
  }

  // One function per event that does more than set a field.

  function AfterPush(cfg: Config, l: Lane, msg: Message): Lane
    requires 0 < l.reserved
  {
    l.(buf := l.buf.(chains := Enqueue(l.buf.chains, KeyOf(cfg, msg), Work(msg, 0))),
       reserved := l.reserved - 1, owed := l.owed + 1, arrived := l.arrived + [msg])
  }

  predicate MayPick(l: Lane, key: Key, purged: set<Key>, now: int) {
    && l.pc.Scanning?
    && key in l.buf.chains && Due(l.buf.chains[key], now)
    && forall k :: k in purged ==> k in l.buf.chains && l.buf.chains[k].queue == []
  }

  function AfterPick(l: Lane, key: Key, purged: set<Key>): Lane
    requires key in l.buf.chains && l.buf.chains[key].queue != []
  {
    var wk := l.buf.chains[key].queue[0];
    l.(buf := l.buf.(chains := TakeHead(l.buf.chains, key) - purged), pc := Handling(wk),
       log := l.log + [Begin(wk.msg, wk.attempts)])
  }

  ghost predicate MayPark(l: Lane, timer: Deadline, now: int) {
    && l.pc.Scanning?
    && (forall k :: k in l.buf.chains ==> !Due(l.buf.chains[k], now))
    && Earliest(l.buf.chains, timer)
  }

  function AfterPark(l: Lane, timer: Deadline): Lane {
    l.(buf := l.buf.(chains := NonEmpty(l.buf.chains)), pc := AfterScan(l.buf, timer))
  }

  /** A handler call has ended with this verdict. */
  function Ended(l: Lane, wk: Work, verdict: Verdict, pc: Pc): Lane {
    l.(pc := pc, log := l.log + [End(wk.msg, wk.attempts, verdict)])
  }

  function AfterReturn(l: Lane, wk: Work, ok: bool): Lane {
    if ok then Ended(l, wk, Done, Settling(wk, Succeeded, FirstStage(Succeeded))) else l.(pc := Failing(wk))
  }

  function AfterDecide(cfg: Config, l: Lane, wk: Work, cancelled: bool, backoff: nat): Lane {
    var pc := Decision(cfg, wk, cancelled, backoff);
    if pc.Discarding? then l.(pc := pc) else Ended(l, wk, if pc.Cooling? then Retry else Stop, pc)
  }

  function AfterDiscard(l: Lane, wk: Work, ok: bool): Lane {
    var fate := if ok then Discarded else Fatal;
    Ended(l, wk, if ok then Done else Stop, Settling(wk, fate, FirstStage(fate)))
  }

  function AfterCool(cfg: Config, l: Lane, wk: Work, at: int): Lane {
    var key := KeyOf(cfg, wk.msg);
    if key in l.buf.chains then l.(buf := l.buf.(chains := PutBack(l.buf.chains, key, wk, at)), pc := Scanning)
    else l.(pc := Settling(wk, Vanished, FirstStage(Vanished)))
  }

  function AfterSettle(cfg: Config, l: Lane, wk: Work, f: Fate, s: Stage): Lane
    requires s == FreeSlot ==> 0 < l.buf.slots
  {
    l.(buf := SettleBuffer(cfg, l.buf, wk, s), pc := SettlePc(wk, f, s))
  }

  function AfterGather(l: Lane, all: seq<Work>): Lane {
    l.(buf := l.buf.(chains := map[]), pc := if all == [] then Exited else Abandoning(all, Forget))
  }

  function AfterAbandon(l: Lane, rest: seq<Work>, s: Stage): Lane
    requires rest != [] && (s == FreeSlot ==> 0 < l.buf.slots)
  {
    l.(buf := if s == FreeSlot then l.buf.(slots := l.buf.slots - 1) else l.buf, pc := AbandonPc(rest, s))
  }

  ghost predicate Guard(cfg: Config, l: Lane, e: Event) {
    match e
    case Reserve => l.buf.slots < cfg.queueSize
    case Push(_) => 0 < l.reserved && l.buf.accepting
    case Reject => 0 < l.reserved && !l.buf.accepting
    case GiveBack => 0 < l.returning && 0 < l.buf.slots
    case Notify => 0 < l.owed
    case Close => true
    case Pick(key, purged, now) => MayPick(l, key, purged, now)
    case Park(timer, now) => MayPark(l, timer, now)
    case Wake => l.pc.Parked? && l.buf.wake
    case Expire(now) => l.pc.Parked? && l.pc.timer.At? && l.pc.timer.when <= now
    case Quit => l.pc.Parked?
    case Return(_) => l.pc.Handling?
    case Decide(_, _) => l.pc.Failing?
    case DiscardReturn(_) => l.pc.Discarding?
    case Cool(_) => l.pc.Cooling?
    case Settle => l.pc.Settling? && (l.pc.stage == FreeSlot ==> 0 < l.buf.slots)
    case Gather(all) => l.pc.Leaving? && Gathers(l.buf.chains, all)
    case Abandon => l.pc.Abandoning? && l.pc.rest != [] && (l.pc.stage == FreeSlot ==> 0 < l.buf.slots)
  }

  ghost function Next(cfg: Config, l: Lane, e: Event): Lane
    requires Guard(cfg, l, e)
  {
    match e
    case Reserve => l.(buf := l.buf.(slots := l.buf.slots + 1), reserved := l.reserved + 1)
    case Push(msg) => AfterPush(cfg, l, msg)
    case Reject => l.(reserved := l.reserved - 1, returning := l.returning + 1)
    case GiveBack => l.(buf := l.buf.(slots := l.buf.slots - 1), returning := l.returning - 1)
    case Notify => l.(buf := l.buf.(wake := true), owed := l.owed - 1)
    case Close => l.(buf := l.buf.(accepting := false, closed := true), owed := l.owed + 1)
    case Pick(key, purged, _) => AfterPick(l, key, purged)
    case Park(timer, _) => AfterPark(l, timer)
    case Wake => l.(buf := l.buf.(wake := false), pc := Scanning)
    case Expire(_) => l.(pc := Scanning)
    case Quit => l.(pc := Leaving)
    case Return(ok) => AfterReturn(l, l.pc.wk, ok)
    case Decide(cancelled, backoff) => AfterDecide(cfg, l, l.pc.wk, cancelled, backoff)
    case DiscardReturn(ok) => AfterDiscard(l, l.pc.wk, ok)
    case Cool(now) => AfterCool(cfg, l, l.pc.wk, now + l.pc.backoff)
    case Settle => AfterSettle(cfg, l, l.pc.wk, l.pc.fate, l.pc.stage)
    case Gather(all) => AfterGather(l, all)
    case Abandon => AfterAbandon(l, l.pc.rest, l.pc.stage)
  }
}
