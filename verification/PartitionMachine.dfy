/**
 * One partition worker as a state machine. The poll goroutine routes messages and drains; lane
 * workers, or in Unordered mode one goroutine per message, run the handler. Every mutex section,
 * channel operation and atomic add is one event.
 */
module PartitionMachine {
  import opened Types
  import opened TrackerSpec
  import opened LaneMachine

  // ---------------------------------------------------------------- Unordered goroutines

  /** The goroutine of one message: it retries in place, so its retries delay nobody. */
  datatype Task = Task(pc: Pc, log: seq<Entry>)

  function NewTask(m: Message): Task {
    Task(Handling(Work(m, 0)), [Begin(m, 0)])
  }

  /** The stage after s: there is no chain and no slot, and the semaphore is released last. */
  function NextTaskStage(f: Fate, s: Stage): Option<Stage> {
    match s
    case Advance => Some(if f == Fatal then Report else DropTotal)
    case Cancel => Some(DropTotal)
    case DropWait => Some(FreeSem)
    case _ => NextStage(f, s)
  }

  predicate TaskGuard(t: Task, e: Event) {
    match e
    case Return(_) => t.pc.Handling?
    case Decide(_, _) => t.pc.Failing?
    case DiscardReturn(_) => t.pc.Discarding?
    case Expire(_) => t.pc.Cooling?
    case Quit => t.pc.Cooling?
    case Settle => t.pc.Settling?
    case _ => false
  }

  function TaskEnded(t: Task, wk: Work, verdict: Verdict, pc: Pc): Task {
    Task(pc, t.log + [End(wk.msg, wk.attempts, verdict)])
  }

  function NextTask(cfg: Config, t: Task, e: Event): Task
    requires TaskGuard(t, e)
  {
    var wk := t.pc.wk;
    match e
    case Return(ok) =>
      if ok then TaskEnded(t, wk, Done, Settling(wk, Succeeded, FirstStage(Succeeded))) else t.(pc := Failing(wk))
    case Decide(cancelled, backoff) =>
      var pc := Decision(cfg, wk, cancelled, backoff);
      if pc.Discarding? then t.(pc := pc) else TaskEnded(t, wk, if pc.Cooling? then Retry else Stop, pc)
    case DiscardReturn(ok) =>
      var fate := if ok then Discarded else Fatal;
      TaskEnded(t, wk, if ok then Done else Stop, Settling(wk, fate, FirstStage(fate)))
    case Expire(_) => Task(Handling(wk), t.log + [Begin(wk.msg, wk.attempts)])
    case Quit => t.(pc := Settling(wk, Stopped, FirstStage(Stopped)))
    case Settle =>
      match NextTaskStage(t.pc.fate, t.pc.stage)
      case Some(next) => t.(pc := Settling(wk, t.pc.fate, next))
      case None => t.(pc := Exited)
  }

  // ---------------------------------------------------------------- agents

  /** Whoever runs handlers: the worker of a lane, or the goroutine of one message. */
  datatype Agent = LaneAgent(lane: Lane) | TaskAgent(task: Task) {
    function Pc(): Pc {
      match this
      case LaneAgent(l) => l.pc
      case TaskAgent(t) => t.pc
    }

    function Log(): seq<Entry> {
      match this
      case LaneAgent(l) => l.log
      case TaskAgent(t) => t.log
    }
  }

  ghost predicate AgentGuard(cfg: Config, a: Agent, e: Event) {
    match a
    case LaneAgent(l) => Guard(cfg, l, e)
    case TaskAgent(t) => TaskGuard(t, e)
  }

  ghost function NextAgent(cfg: Config, a: Agent, e: Event): Agent
    requires AgentGuard(cfg, a, e)
  {
    match a
    case LaneAgent(l) => LaneAgent(Next(cfg, l, e))
    case TaskAgent(t) => TaskAgent(NextTask(cfg, t, e))
  }

  // ---------------------------------------------------------------- shared state

  /**
   * The counters. Count and waiting are the in-flight counter and the wait group, total is this
   * worker's share of the consumer-wide counter.
   */
  datatype Counters = Counters(count: int, waiting: int, total: int, processed: nat, discarded: nat, errors: nat)

  /**
   * What happened: the messages delivered, and the offsets admitted past the duplicate checks,
   * completed, let go, skipped as a duplicate, refused because the worker was closed, left behind in
   * pending, and failed fatally.
   */
  datatype History = History(
    delivered: seq<Message>,
    admitted: multiset<Offset>,
    completed: multiset<Offset>,
    dropped: multiset<Offset>,
    skipped: multiset<Offset>,
    refused: multiset<Offset>,
    leaked: set<Offset>,
    fatals: set<Offset>)

  /** What the goroutines of a worker share, with its history. */
  datatype Shared = Shared(
    tracker: Tracker,
    pending: set<Offset>,
    highest: Offset,
    n: Counters,
    cancelled: bool,
    reported: bool,
    h: History)

  const NEW_SHARED := Shared(FRESH, {}, 0, Counters(0, 0, 0, 0, 0, 0), false, false,
                            History([], multiset{}, multiset{}, multiset{}, multiset{}, multiset{}, {}, {}))

  /** A stage of a message that leaves, on the counters. */
  function CounterEffect(n: Counters, x: Passage): Counters {
    match x.stage
    case Tally =>
      (match x.fate
       case Succeeded => n.(processed := n.processed + 1)
       case Discarded => n.(discarded := n.discarded + 1)
       case _ => n.(errors := n.errors + 1))
    case DropTotal => n.(total := n.total - 1)
    case DropCount => n.(count := n.count - 1)
    case DropWait => n.(waiting := n.waiting - 1)
    case _ => n
  }

  /** And in the history: it completes, or it is let go. */
  function HistoryEffect(h: History, x: Passage): History {
    match x.stage
    case Complete => h.(completed := h.completed + multiset{x.m.offset})
    case Forget =>
      if Completes(x.fate) then h
      else h.(dropped := h.dropped + multiset{x.m.offset},
              fatals := if x.fate == Fatal then h.fatals + {x.m.offset} else h.fatals)
    case _ => h
  }

  function Effect(s: Shared, x: Passage): Shared {
    Shared(if x.stage == Complete then TrackerSpec.Complete(s.tracker, x.m.offset) else s.tracker,
           if x.stage == Forget then s.pending - {x.m.offset} else s.pending,
           s.highest,
           CounterEffect(s.n, x),
           s.cancelled || x.stage == Cancel,
           s.reported || x.stage == Report,
           HistoryEffect(s.h, x))
  }

  /** What an agent's event does to the shared state. */
  function AgentEffect(s: Shared, x: Option<Passage>): Shared {
    match x
    case Some(passage) => Effect(s, passage)
    case None => s
  }

  // ---------------------------------------------------------------- the poll goroutine

  /** Where the poll goroutine is in route or drain for this worker. */
  datatype Poll =
    | Idle
    | Seeding(m: Message)
    | Checking(m: Message)
    | Admitting(m: Message)
    | Marking(m: Message)
    | Joining(m: Message)
    | Counting(m: Message)
    | Pushing(m: Message)
    | Appending(m: Message)
    | Rejected(m: Message)
    | Unadmitting(m: Message)
    | Unjoining(m: Message)
    | Uncounting(m: Message)
    | Untotalling(m: Message)
    | Signalling(lane: nat)
    | Closing(lane: nat)
    | ClosingSignal(lane: nat)
    | AwaitingDrain
    | Drained(clean: bool)

  /** A partition worker. Appended and log are history: what the lanes accepted, and every attempt. */
  datatype Part = Part(
    sh: Shared,
    closed: bool,
    sem: nat,
    agents: seq<Agent>,
    poll: Poll,
    now: int,
    appended: seq<Message>,
    log: seq<Entry>)

  function NewPart(cfg: Config, now: int): Part {
    Part(NEW_SHARED, false, 0,
         if cfg.mode == KeyOrdered then seq(cfg.lanes, _ => LaneAgent(NEW_LANE)) else [],
         Idle, now, [], [])
  }

  datatype PartEvent =
    | Deliver(m: Message)           // the consumer routes a polled message
    | PollStep(give: bool)          // the next step of the poll goroutine; give chooses the way out of a wait
    | StartDrain
    | AgentStep(i: nat, e: Event)
    | Tick(later: int)
    | CancelContext
    | MarkCommit                    // the committer marks the pointer as committed

  /** The lane a message goes to. */
  function HomeOf(cfg: Config, m: Message): nat {
    LaneIndex(cfg, KeyOf(cfg, m))
  }

  predicate Accepting(p: Part, i: nat) {
    i < |p.agents| && p.agents[i].LaneAgent? && p.agents[i].lane.buf.accepting
  }

  /** Unordered mode starts the message's goroutine in the same step in which it gets room. */
  predicate Spawns(mode: Mode, poll: Poll, give: bool) {
    poll.Pushing? && !give && mode == Unordered
  }

  /** The lane event that the poll goroutine's next step performs, if it performs one. */
  function LaneEventOf(cfg: Config, p: Part, give: bool): Option<(nat, Event)> {
    match p.poll
    case Pushing(m) => if give || cfg.mode == Unordered then None else Some((HomeOf(cfg, m), Reserve))
    case Appending(m) => Some((HomeOf(cfg, m), if Accepting(p, HomeOf(cfg, m)) then Push(m) else Reject))
    case Rejected(m) => Some((HomeOf(cfg, m), GiveBack))
    case Signalling(i) => Some((i, Notify))
    case Closing(i) => if i < |p.agents| then Some((i, Close)) else None
    case ClosingSignal(i) => Some((i, Notify))
    case _ => None
  }

  ghost predicate PollGuard(cfg: Config, p: Part, give: bool) {
    && !p.poll.Idle? && !p.poll.Drained?
    && (p.poll.Pushing? && give ==> p.sh.cancelled)
    && (Spawns(cfg.mode, p.poll, give) ==> p.sem < cfg.concurrency)
    && (p.poll.AwaitingDrain? ==> give || p.sh.n.waiting == 0)
    && match LaneEventOf(cfg, p, give)
       case Some((i, e)) => i < |p.agents| && p.agents[i].LaneAgent? && Guard(cfg, p.agents[i].lane, e)
       case None => true
  }

  /** The poll goroutine's next step on the counters. */
  function RouteCounters(n: Counters, poll: Poll): Counters {
    match poll
    case Joining(_) => n.(waiting := n.waiting + 1)
    case Counting(_) => n.(count := n.count + 1)
    case Unjoining(_) => n.(waiting := n.waiting - 1)
    case Uncounting(_) => n.(count := n.count - 1)
    case Untotalling(_) => n.(total := n.total - 1)
    case _ => n
  }

  /** In Unordered mode a message that finds no room before the context ends is left in pending. */
  predicate Leaks(mode: Mode, poll: Poll, give: bool) {
    poll.Pushing? && give && mode == Unordered
  }

  /** The decision on a delivered message, and its end when no lane or goroutine took it. */
  function RouteHistory(mode: Mode, s: Shared, closed: bool, poll: Poll, give: bool): History {
    match poll
    case Checking(m) =>
      if m.offset < s.tracker.base then s.h.(skipped := s.h.skipped + multiset{m.offset}) else s.h
    case Admitting(m) =>
      if closed then s.h.(refused := s.h.refused + multiset{m.offset})
      else if m.offset in s.pending then s.h.(skipped := s.h.skipped + multiset{m.offset})
      else s.h.(admitted := s.h.admitted + multiset{m.offset})
    case Pushing(m) =>
      if Leaks(mode, poll, give)
      then s.h.(dropped := s.h.dropped + multiset{m.offset}, leaked := s.h.leaked + {m.offset})
      else s.h
    case Unadmitting(m) => s.h.(dropped := s.h.dropped + multiset{m.offset})
    case _ => s.h
  }

  function RoutePending(s: Shared, closed: bool, poll: Poll): set<Offset> {
    match poll
    case Admitting(m) => if closed then s.pending else s.pending + {m.offset}
    case Unadmitting(m) => s.pending - {m.offset}
    case _ => s.pending
  }

  function RouteShared(mode: Mode, s: Shared, closed: bool, poll: Poll, give: bool): Shared {
    Shared(if poll.Seeding? then Seed(s.tracker, poll.m.offset) else s.tracker,
           RoutePending(s, closed, poll),
           if poll.Marking? && poll.m.offset > s.highest then poll.m.offset else s.highest,
           RouteCounters(s.n, poll),
           s.cancelled,
           s.reported,
           RouteHistory(mode, s, closed, poll, give))
  }

  /** Where that step leads; accepts tells whether the home lane still takes messages. */
  function RoutePoll(mode: Mode, s: Shared, closed: bool, poll: Poll, give: bool, accepts: bool, home: nat,
                     lanes: nat): Poll {
    match poll
    case Seeding(m) => Checking(m)
    case Checking(m) => if m.offset < s.tracker.base then Idle else Admitting(m)
    case Admitting(m) => if closed then Untotalling(m) else if m.offset in s.pending then Idle else Marking(m)
    case Marking(m) => Joining(m)
    case Joining(m) => Counting(m)
    case Counting(m) => Pushing(m)
    case Pushing(m) =>
      if mode == Unordered then (if give then Unjoining(m) else Idle)
      else if give then Unadmitting(m) else Appending(m)
    case Appending(m) => if accepts then Signalling(home) else Rejected(m)
    case Rejected(m) => Unadmitting(m)
    case Unadmitting(m) => Unjoining(m)
    case Unjoining(m) => Uncounting(m)
    case Uncounting(m) => Untotalling(m)
    case Untotalling(_) => Idle
    case Signalling(_) => Idle
    case Closing(i) => if i < lanes then ClosingSignal(i) else AwaitingDrain
    case ClosingSignal(i) => Closing(i + 1)
    case AwaitingDrain => Drained(s.n.waiting == 0)
    case Idle => Idle
    case Drained(clean) => Drained(clean)
  }

  /** Whether the next step appends the message to its home lane. */
  predicate Appends(cfg: Config, p: Part) {
    p.poll.Appending? && Accepting(p, HomeOf(cfg, p.poll.m))
  }

  function NextPoll(cfg: Config, p: Part, give: bool): Poll {
    var home := if p.poll.Appending? then HomeOf(cfg, p.poll.m) else 0;
    RoutePoll(cfg.mode, p.sh, p.closed, p.poll, give, Appends(cfg, p), home, |p.agents|)
  }

  /** And what it does to the agents. */
  ghost function RouteAgents(cfg: Config, p: Part, give: bool): seq<Agent>
    requires PollGuard(cfg, p, give)
  {
    match LaneEventOf(cfg, p, give)
    case Some((i, e)) => p.agents[i := NextAgent(cfg, p.agents[i], e)]
    case None => if Spawns(cfg.mode, p.poll, give) then p.agents + [TaskAgent(NewTask(p.poll.m))] else p.agents
  }

  ghost function Polled(cfg: Config, p: Part, give: bool): Part
    requires PollGuard(cfg, p, give)
  {
    var spawns := Spawns(cfg.mode, p.poll, give);
    Part(RouteShared(cfg.mode, p.sh, p.closed, p.poll, give),
         p.closed,
         if spawns then p.sem + 1 else p.sem,
         RouteAgents(cfg, p, give),
         NextPoll(cfg, p, give),
         p.now,
         if Appends(cfg, p) then p.appended + [p.poll.m] else p.appended,
         if spawns then p.log + [Begin(p.poll.m, 0)] else p.log)
  }

  ghost predicate PartGuard(cfg: Config, p: Part, ev: PartEvent) {
    match ev
    case Deliver(_) => p.poll.Idle? || p.poll.Drained?
    case PollStep(give) => PollGuard(cfg, p, give)
    case StartDrain => p.poll.Idle? || p.poll.Drained?
    case AgentStep(i, e) =>
      && i < |p.agents| && OwnEvent(e) && AgentGuard(cfg, p.agents[i], e) && Timely(e, p.now)
      && (match e
          case Quit => p.sh.cancelled
          case Decide(cancelled, _) => cancelled == p.sh.cancelled
          case _ => true)
    case Tick(later) => p.now <= later
    case CancelContext => true
    case MarkCommit => true
  }

  ghost function Stepped(cfg: Config, p: Part, i: nat, e: Event): Part
    requires i < |p.agents| && AgentGuard(cfg, p.agents[i], e)
  {
    var a := p.agents[i];
    var b := NextAgent(cfg, a, e);
    p.(sh := AgentEffect(p.sh, Passing(a.Pc(), e)),
       agents := p.agents[i := b],
       sem := if a.TaskAgent? && e.Settle? && a.task.pc.stage == FreeSem && 0 < p.sem then p.sem - 1 else p.sem,
       log := if |a.Log()| < |b.Log()| then p.log + b.Log()[|a.Log()|..] else p.log)
  }

  ghost function NextPart(cfg: Config, p: Part, ev: PartEvent): Part
    requires PartGuard(cfg, p, ev)
  {
    match ev
    case Deliver(m) =>
      p.(sh := p.sh.(h := p.sh.h.(delivered := p.sh.h.delivered + [m]), n := p.sh.n.(total := p.sh.n.total + 1)),
         poll := Seeding(m))
    case PollStep(give) => Polled(cfg, p, give)
    case StartDrain =>
      if p.closed then p.(poll := Drained(false))
      else if cfg.mode == Unordered then p.(closed := true, poll := AwaitingDrain)
      else p.(closed := true, poll := Closing(0))
    case AgentStep(i, e) => Stepped(cfg, p, i, e)
    case Tick(later) => p.(now := later)
    case CancelContext => p.(sh := p.sh.(cancelled := true))
    case MarkCommit => p.(sh := p.sh.(tracker := MarkCommitted(p.sh.tracker)))
  }
}
