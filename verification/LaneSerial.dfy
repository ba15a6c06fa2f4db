/**
 * Per-key order: the attempts on the messages of one key are those of a processor that takes the
 * key's messages one at a time, in arrival order, and retries each until it is settled.
 */
module LaneSerial {
  import opened Types
  import opened LaneMachine
  import opened LaneStock
  import opened LaneInvariant

  // ---------------------------------------------------------------- the simple processor

  /** It is on message number next, has failed it attempts times, and may be inside a handler call. */
  datatype Serial = Serial(next: nat, attempts: nat, busy: bool, halted: bool) | Broken

  const START := Serial(0, 0, false, false)

  /** One entry of its history over the arrivals; Broken when it would not do that. */
  function Serve(s: Serial, arrivals: seq<Message>, e: Entry): Serial {
    if s.Broken? || s.halted || |arrivals| <= s.next || arrivals[s.next] != e.msg || s.attempts != e.attempt then Broken
    else match e
      case Begin(_, _) => if s.busy then Broken else s.(busy := true)
      case End(_, _, verdict) =>
        if !s.busy then Broken
        else match verdict
          case Done => Serial(s.next + 1, 0, false, false)
          case Retry => s.(attempts := s.attempts + 1, busy := false)
          case Stop => s.(busy := false, halted := true)
  }

  function ServeAll(log: seq<Entry>, arrivals: seq<Message>): Serial {
    if log == [] then START else Serve(ServeAll(log[..|log| - 1], arrivals), arrivals, log[|log| - 1])
  }

  /** log is a history of the simple processor over these arrivals. */
  predicate SerialRun(log: seq<Entry>, arrivals: seq<Message>) {
    ServeAll(log, arrivals).Serial?
  }

  lemma ServeMore(log: seq<Entry>, e: Entry, arrivals: seq<Message>)
    ensures ServeAll(log + [e], arrivals) == Serve(ServeAll(log, arrivals), arrivals, e)
  {
    assert (log + [e])[..|log|] == log;
  }

  /** Messages that arrive later do not change what was done before. */
  lemma {:induction false} ServeExtended(log: seq<Entry>, arrivals: seq<Message>, more: seq<Message>)
    requires SerialRun(log, arrivals)
    ensures ServeAll(log, arrivals + more) == ServeAll(log, arrivals)
  {
    if log != [] {
      ServeExtended(log[..|log| - 1], arrivals, more);
    }
  }

  /**
   * In such a history a handler call on a later message only begins after every earlier message
   * was done, and no call begins while another is running.
   */
  lemma {:induction false} SerialOrder(log: seq<Entry>, arrivals: seq<Message>, i: nat)
    requires SerialRun(log, arrivals) && i < |log| && log[i].Begin?
    ensures
      var s := ServeAll(log[..i], arrivals);
      && s.Serial? && !s.busy && s.next < |arrivals| && log[i].msg == arrivals[s.next]
      && DoneIn(log[..i]) == arrivals[..s.next]
    decreases |log|
  {
    var init := log[..|log| - 1];
    if i < |log| - 1 {
      SerialOrder(init, arrivals, i);
      assert init[..i] == log[..i];
    } else {
      assert log[..i] == init;
      DoneInOrder(init, arrivals);
    }
  }

  /** The messages that were done, in the order in which they were. */
  function DoneIn(log: seq<Entry>): seq<Message> {
    if log == [] then [] else
      var e := log[|log| - 1];
      DoneIn(log[..|log| - 1]) + if e.End? && e.verdict == Done then [e.msg] else []
  }

  lemma {:induction false} DoneInOrder(log: seq<Entry>, arrivals: seq<Message>)
    requires SerialRun(log, arrivals)
    ensures
      var s := ServeAll(log, arrivals);
      s.next <= |arrivals| && DoneIn(log) == arrivals[..s.next]
  {
    if log != [] {
      DoneInOrder(log[..|log| - 1], arrivals);
    }
  }

  /** How many calls the history makes on arrival number n. */
  function CallsOn(log: seq<Entry>, arrivals: seq<Message>, n: nat): nat {
    if log == [] then 0 else
      var init := log[..|log| - 1];
      var s := ServeAll(init, arrivals);
      CallsOn(init, arrivals, n) + if log[|log| - 1].Begin? && s.Serial? && s.next == n then 1 else 0
  }

  /** What the processor's state says about the calls made on arrival number n. */
  predicate CallsTell(s: Serial, n: nat, calls: nat, max: nat) {
    && s.Serial?
    && (s.next < n ==> calls == 0)
    && (s.next == n ==> calls == s.attempts + if s.busy || s.halted then 1 else 0)
    && calls <= max
  }

  predicate AttemptsBelow(log: seq<Entry>, max: nat) {
    forall x :: 0 <= x < |log| ==> log[x].attempt < max
  }

  /** When no attempt has a number above the allowed ones, no message is called for more often. */
  lemma {:induction false} CallsBound(log: seq<Entry>, arrivals: seq<Message>, n: nat, max: nat)
    requires SerialRun(log, arrivals)
    requires AttemptsBelow(log, max)
    ensures CallsTell(ServeAll(log, arrivals), n, CallsOn(log, arrivals, n), max)
  {
    if log != [] {
      CallsBound(log[..|log| - 1], arrivals, n, max);
    }
  }

  // ---------------------------------------------------------------- projections to a key

  function MessagesOf(cfg: Config, key: Key, ms: seq<Message>): seq<Message> {
    if ms == [] then [] else
      var m := ms[|ms| - 1];
      MessagesOf(cfg, key, ms[..|ms| - 1]) + if KeyOf(cfg, m) == key then [m] else []
  }

  function EntriesOf(cfg: Config, key: Key, log: seq<Entry>): seq<Entry> {
    if log == [] then [] else
      var e := log[|log| - 1];
      EntriesOf(cfg, key, log[..|log| - 1]) + if KeyOf(cfg, e.msg) == key then [e] else []
  }

  lemma MessagesOfMore(cfg: Config, key: Key, ms: seq<Message>, m: Message)
    ensures KeyOf(cfg, m) == key ==> MessagesOf(cfg, key, ms + [m]) == MessagesOf(cfg, key, ms) + [m]
    ensures KeyOf(cfg, m) != key ==> MessagesOf(cfg, key, ms + [m]) == MessagesOf(cfg, key, ms)
  {
    assert (ms + [m])[..|ms|] == ms;
    assert MessagesOf(cfg, key, ms) + [] == MessagesOf(cfg, key, ms);
  }

  lemma EntriesOfMore(cfg: Config, key: Key, log: seq<Entry>, e: Entry)
    ensures KeyOf(cfg, e.msg) == key ==> EntriesOf(cfg, key, log + [e]) == EntriesOf(cfg, key, log) + [e]
    ensures KeyOf(cfg, e.msg) != key ==> EntriesOf(cfg, key, log + [e]) == EntriesOf(cfg, key, log)
  {
    assert (log + [e])[..|log|] == log;
    assert EntriesOf(cfg, key, log) + [] == EntriesOf(cfg, key, log);
  }

  // ---------------------------------------------------------------- the lane does the same

  predicate Running(pc: Pc) {
    pc.Handling? || pc.Failing? || pc.Discarding?
  }

  /** The worker has not stopped. */
  predicate Engaged(pc: Pc) {
    match pc
    case Settling(_, f, _) => Completes(f)
    case Leaving => false
    case Abandoning(_, _) => false
    case Exited => false
    case _ => true
  }

  predicate InHand(cfg: Config, pc: Pc, key: Key) {
    (Running(pc) || pc.Cooling?) && KeyOf(cfg, pc.wk.msg) == key
  }

  function Messages(queue: seq<Work>): (ms: seq<Message>)
    ensures |ms| == |queue|
    ensures forall i :: 0 <= i < |ms| ==> ms[i] == queue[i].msg
  {
    seq(|queue|, i requires 0 <= i < |queue| => queue[i].msg)
  }

  /** The messages of a key that arrived and are not done, in order. */
  function Unserved(cfg: Config, l: Lane, key: Key): seq<Message> {
    (if InHand(cfg, l.pc, key) then [l.pc.wk.msg] else []) + Messages(QueueOf(l.buf.chains, key))
  }

  function AttemptsOn(cfg: Config, l: Lane, key: Key): nat {
    if InHand(cfg, l.pc, key) then l.pc.wk.attempts
    else if QueueOf(l.buf.chains, key) != [] then QueueOf(l.buf.chains, key)[0].attempts
    else 0
  }

  predicate Serving(cfg: Config, l: Lane, key: Key) {
    Running(l.pc) && InHand(cfg, l.pc, key)
  }

  /** The processor over these arrivals has exactly these messages left, and is at this attempt. */
  ghost predicate Faces(s: Serial, arrivals: seq<Message>, left: seq<Message>, attempts: nat, busy: bool) {
    && s.Serial? && !s.halted && s.next <= |arrivals|
    && arrivals[s.next..] == left
    && s.attempts == attempts
    && s.busy == busy
  }

  ghost predicate Matches(cfg: Config, l: Lane, key: Key, s: Serial, arrivals: seq<Message>) {
    && s.Serial?
    && (Engaged(l.pc) ==> Faces(s, arrivals, Unserved(cfg, l, key), AttemptsOn(cfg, l, key), Serving(cfg, l, key)))
  }

  /** The history of the key is serial, and its processor waits for exactly what the lane holds. */
  ghost predicate KeySerial(cfg: Config, l: Lane, key: Key) {
    Matches(cfg, l, key, ServeAll(EntriesOf(cfg, key, l.log), MessagesOf(cfg, key, l.arrived)),
            MessagesOf(cfg, key, l.arrived))
  }

  // The processor's state s and the lane, side by side.

  lemma PushMatches(cfg: Config, l: Lane, msg: Message, key: Key, s: Serial, arrivals: seq<Message>)
    requires 0 < l.reserved && Matches(cfg, l, key, s, arrivals)
    ensures KeyOf(cfg, msg) == key ==> Matches(cfg, AfterPush(cfg, l, msg), key, s, arrivals + [msg])
    ensures KeyOf(cfg, msg) != key ==> Matches(cfg, AfterPush(cfg, l, msg), key, s, arrivals)
  {
    var next := AfterPush(cfg, l, msg);
    if KeyOf(cfg, msg) == key {
      assert Unserved(cfg, next, key) == Unserved(cfg, l, key) + [msg];
      assert Engaged(l.pc) ==> (arrivals + [msg])[s.next..] == arrivals[s.next..] + [msg];
    } else {
      assert QueueOf(next.buf.chains, key) == QueueOf(l.buf.chains, key);
    }
  }

  lemma PickMatches(cfg: Config, l: Lane, picked: Key, purged: set<Key>, now: int, key: Key, s: Serial,
                    arrivals: seq<Message>)
    requires Shape(cfg, l.buf.chains) && MayPick(l, picked, purged, now) && Matches(cfg, l, key, s, arrivals)
    ensures
      var wk := l.buf.chains[picked].queue[0];
      && (key == picked <==> KeyOf(cfg, wk.msg) == key)
      && Matches(cfg, AfterPick(l, picked, purged), key,
                 if key == picked then Serve(s, arrivals, Begin(wk.msg, wk.attempts)) else s, arrivals)
  {
    var next := AfterPick(l, picked, purged);
    assert picked !in purged;
    assert ChainOk(cfg, picked, l.buf.chains[picked]);
    if key == picked {
      assert Unserved(cfg, next, key) == Unserved(cfg, l, key);
      assert Unserved(cfg, l, key)[0] == l.buf.chains[picked].queue[0].msg;
    } else {
      assert QueueOf(next.buf.chains, key) == QueueOf(l.buf.chains, key);
    }
  }

  lemma EndMatches(cfg: Config, l: Lane, verdict: Verdict, pc: Pc, key: Key, s: Serial, arrivals: seq<Message>)
    requires Shape(cfg, l.buf.chains) && HeldChain(cfg, l) && Matches(cfg, l, key, s, arrivals)
    requires Running(l.pc)
    requires match verdict
      case Done => pc.Settling? && Completes(pc.fate)
      case Retry => pc.Cooling? && pc.wk == Work(l.pc.wk.msg, l.pc.wk.attempts + 1)
      case Stop => !Engaged(pc)
    ensures Matches(cfg, Ended(l, l.pc.wk, verdict, pc), key,
                    if KeyOf(cfg, l.pc.wk.msg) != key then s
                    else Serve(s, arrivals, End(l.pc.wk.msg, l.pc.wk.attempts, verdict)),
                    arrivals)
  {
    if KeyOf(cfg, l.pc.wk.msg) == key {
      var left := Unserved(cfg, l, key);
      assert left[0] == l.pc.wk.msg && left[1..] == Messages(QueueOf(l.buf.chains, key));
      assert arrivals[s.next + 1..] == arrivals[s.next..][1..];
      assert ChainOk(cfg, key, l.buf.chains[key]);
    }
  }

  lemma CoolMatches(cfg: Config, l: Lane, at: int, key: Key, s: Serial, arrivals: seq<Message>)
    requires l.pc.Cooling? && HeldChain(cfg, l) && Matches(cfg, l, key, s, arrivals)
    ensures Matches(cfg, AfterCool(cfg, l, l.pc.wk, at), key, s, arrivals)
  {
    var next := AfterCool(cfg, l, l.pc.wk, at);
    if KeyOf(cfg, l.pc.wk.msg) == key {
      assert Unserved(cfg, next, key) == Unserved(cfg, l, key);
    } else {
      assert QueueOf(next.buf.chains, key) == QueueOf(l.buf.chains, key);
    }
  }

  /** What events without history do: they leave the key as it is, or stop the worker. */
  ghost predicate Quiet(cfg: Config, l: Lane, next: Lane, key: Key) {
    && next.log == l.log
    && next.arrived == l.arrived
    && (Engaged(next.pc) ==>
          && Engaged(l.pc)
          && QueueOf(next.buf.chains, key) == QueueOf(l.buf.chains, key)
          && InHand(cfg, next.pc, key) == InHand(cfg, l.pc, key)
          && Running(next.pc) == Running(l.pc)
          && (InHand(cfg, l.pc, key) ==> next.pc.wk == l.pc.wk))
  }

  lemma QuietMatches(cfg: Config, l: Lane, next: Lane, key: Key, s: Serial, arrivals: seq<Message>)
    requires Matches(cfg, l, key, s, arrivals)
    requires Quiet(cfg, l, next, key)
    ensures Matches(cfg, next, key, s, arrivals)
  {
  }

  lemma LogSerial(cfg: Config, l: Lane, e: Entry, key: Key)
    ensures
      var log, arrivals := EntriesOf(cfg, key, l.log), MessagesOf(cfg, key, l.arrived);
      ServeAll(EntriesOf(cfg, key, l.log + [e]), arrivals)
      == if KeyOf(cfg, e.msg) == key then Serve(ServeAll(log, arrivals), arrivals, e) else ServeAll(log, arrivals)
  {
    EntriesOfMore(cfg, key, l.log, e);
    ServeMore(EntriesOf(cfg, key, l.log), e, MessagesOf(cfg, key, l.arrived));
  }

  lemma EndSerial(cfg: Config, l: Lane, verdict: Verdict, pc: Pc, key: Key)
    requires Shape(cfg, l.buf.chains) && HeldChain(cfg, l) && KeySerial(cfg, l, key)
    requires Running(l.pc)
    requires match verdict
      case Done => pc.Settling? && Completes(pc.fate)
      case Retry => pc.Cooling? && pc.wk == Work(l.pc.wk.msg, l.pc.wk.attempts + 1)
      case Stop => !Engaged(pc)
    ensures KeySerial(cfg, Ended(l, l.pc.wk, verdict, pc), key)
  {
    var log, arrivals := EntriesOf(cfg, key, l.log), MessagesOf(cfg, key, l.arrived);
    EndMatches(cfg, l, verdict, pc, key, ServeAll(log, arrivals), arrivals);
    LogSerial(cfg, l, End(l.pc.wk.msg, l.pc.wk.attempts, verdict), key);
  }

  lemma PushSerial(cfg: Config, l: Lane, msg: Message, key: Key)
    requires 0 < l.reserved && KeySerial(cfg, l, key)
    ensures KeySerial(cfg, AfterPush(cfg, l, msg), key)
  {
    var log, arrivals := EntriesOf(cfg, key, l.log), MessagesOf(cfg, key, l.arrived);
    PushMatches(cfg, l, msg, key, ServeAll(log, arrivals), arrivals);
    MessagesOfMore(cfg, key, l.arrived, msg);
    ServeExtended(log, arrivals, [msg]);
  }

  lemma PickSerial(cfg: Config, l: Lane, picked: Key, purged: set<Key>, now: int, key: Key)
    requires Shape(cfg, l.buf.chains) && MayPick(l, picked, purged, now) && KeySerial(cfg, l, key)
    ensures KeySerial(cfg, AfterPick(l, picked, purged), key)
  {
    var log, arrivals := EntriesOf(cfg, key, l.log), MessagesOf(cfg, key, l.arrived);
    var wk := l.buf.chains[picked].queue[0];
    PickMatches(cfg, l, picked, purged, now, key, ServeAll(log, arrivals), arrivals);
    LogSerial(cfg, l, Begin(wk.msg, wk.attempts), key);
  }

  lemma CoolSerial(cfg: Config, l: Lane, at: int, key: Key)
    requires l.pc.Cooling? && HeldChain(cfg, l) && KeySerial(cfg, l, key)
    ensures KeySerial(cfg, AfterCool(cfg, l, l.pc.wk, at), key)
  {
    var log, arrivals := EntriesOf(cfg, key, l.log), MessagesOf(cfg, key, l.arrived);
    CoolMatches(cfg, l, at, key, ServeAll(log, arrivals), arrivals);
  }

  lemma QuietSerial(cfg: Config, l: Lane, next: Lane, key: Key)
    requires KeySerial(cfg, l, key)
    requires Quiet(cfg, l, next, key)
    ensures KeySerial(cfg, next, key)
  {
    var log, arrivals := EntriesOf(cfg, key, l.log), MessagesOf(cfg, key, l.arrived);
    QuietMatches(cfg, l, next, key, ServeAll(log, arrivals), arrivals);
  }

  lemma ReturnSerial(cfg: Config, l: Lane, ok: bool, key: Key)
    requires Shape(cfg, l.buf.chains) && HeldChain(cfg, l) && KeySerial(cfg, l, key) && l.pc.Handling?
    ensures KeySerial(cfg, AfterReturn(l, l.pc.wk, ok), key)
  {
    if ok {
      EndSerial(cfg, l, Done, Settling(l.pc.wk, Succeeded, FirstStage(Succeeded)), key);
    } else {
      QuietSerial(cfg, l, l.(pc := Failing(l.pc.wk)), key);
    }
  }

  lemma DecideSerial(cfg: Config, l: Lane, cancelled: bool, backoff: nat, key: Key)
    requires Shape(cfg, l.buf.chains) && HeldChain(cfg, l) && KeySerial(cfg, l, key) && l.pc.Failing?
    ensures KeySerial(cfg, AfterDecide(cfg, l, l.pc.wk, cancelled, backoff), key)
  {
    var pc := Decision(cfg, l.pc.wk, cancelled, backoff);
    if pc.Discarding? {
      QuietSerial(cfg, l, l.(pc := pc), key);
    } else {
      EndSerial(cfg, l, if pc.Cooling? then Retry else Stop, pc, key);
    }
  }

  lemma DiscardSerial(cfg: Config, l: Lane, ok: bool, key: Key)
    requires Shape(cfg, l.buf.chains) && HeldChain(cfg, l) && KeySerial(cfg, l, key) && l.pc.Discarding?
    ensures KeySerial(cfg, AfterDiscard(l, l.pc.wk, ok), key)
  {
    var fate := if ok then Discarded else Fatal;
    EndSerial(cfg, l, if ok then Done else Stop, Settling(l.pc.wk, fate, FirstStage(fate)), key);
  }

  lemma OtherQuiet(cfg: Config, l: Lane, e: Event, key: Key)
    requires PcOk(cfg, l.pc) && Guard(cfg, l, e)
    requires !e.Push? && !e.Pick? && !e.Return? && !e.Decide? && !e.DiscardReturn? && !e.Cool?
    ensures Quiet(cfg, l, Next(cfg, l, e), key)
  {
  }

  lemma AttemptSerial(cfg: Config, l: Lane, e: Event, key: Key)
    requires Shape(cfg, l.buf.chains) && HeldChain(cfg, l) && Guard(cfg, l, e) && KeySerial(cfg, l, key)
    requires e.Return? || e.Decide? || e.DiscardReturn?
    ensures KeySerial(cfg, Next(cfg, l, e), key)
  {
    match e
    case Return(ok) => ReturnSerial(cfg, l, ok, key);
    case Decide(cancelled, backoff) => DecideSerial(cfg, l, cancelled, backoff, key);
    case DiscardReturn(ok) => DiscardSerial(cfg, l, ok, key);
  }

  lemma OtherSerial(cfg: Config, l: Lane, e: Event, key: Key)
    requires PcOk(cfg, l.pc) && Guard(cfg, l, e) && KeySerial(cfg, l, key)
    requires !e.Push? && !e.Pick? && !e.Return? && !e.Decide? && !e.DiscardReturn? && !e.Cool?
    ensures KeySerial(cfg, Next(cfg, l, e), key)
  {
    var next := Next(cfg, l, e);
    OtherQuiet(cfg, l, e, key);
    QuietSerial(cfg, l, next, key);
  }

  /** The history of every key is serial. */
  ghost predicate AllSerial(cfg: Config, l: Lane) {
    forall key :: KeySerial(cfg, l, key)
  }

  lemma PushAll(cfg: Config, l: Lane, msg: Message)
    requires 0 < l.reserved && AllSerial(cfg, l)
    ensures AllSerial(cfg, AfterPush(cfg, l, msg))
  {
    forall key ensures KeySerial(cfg, AfterPush(cfg, l, msg), key) {
      PushSerial(cfg, l, msg, key);
    }
  }

  lemma PickAll(cfg: Config, l: Lane, picked: Key, purged: set<Key>, now: int)
    requires Shape(cfg, l.buf.chains) && MayPick(l, picked, purged, now) && AllSerial(cfg, l)
    ensures AllSerial(cfg, AfterPick(l, picked, purged))
  {
    forall key ensures KeySerial(cfg, AfterPick(l, picked, purged), key) {
      PickSerial(cfg, l, picked, purged, now, key);
    }
  }

  lemma CoolAll(cfg: Config, l: Lane, at: int)
    requires l.pc.Cooling? && HeldChain(cfg, l) && AllSerial(cfg, l)
    ensures AllSerial(cfg, AfterCool(cfg, l, l.pc.wk, at))
  {
    forall key ensures KeySerial(cfg, AfterCool(cfg, l, l.pc.wk, at), key) {
      CoolSerial(cfg, l, at, key);
    }
  }

  lemma AttemptAll(cfg: Config, l: Lane, e: Event)
    requires Shape(cfg, l.buf.chains) && HeldChain(cfg, l) && Guard(cfg, l, e) && AllSerial(cfg, l)
    requires e.Return? || e.Decide? || e.DiscardReturn?
    ensures AllSerial(cfg, Next(cfg, l, e))
  {
    forall key ensures KeySerial(cfg, Next(cfg, l, e), key) {
      AttemptSerial(cfg, l, e, key);
    }
  }

  lemma OtherAll(cfg: Config, l: Lane, e: Event)
    requires PcOk(cfg, l.pc) && Guard(cfg, l, e) && AllSerial(cfg, l)
    requires !e.Push? && !e.Pick? && !e.Return? && !e.Decide? && !e.DiscardReturn? && !e.Cool?
    ensures AllSerial(cfg, Next(cfg, l, e))
  {
    forall key ensures KeySerial(cfg, Next(cfg, l, e), key) {
      OtherSerial(cfg, l, e, key);
    }
  }

  /** Every event of the lane keeps the history of every key serial. */
  lemma SerialStep(cfg: Config, l: Lane, e: Event)
    requires Structure(cfg, l) && Guard(cfg, l, e) && AllSerial(cfg, l)
    ensures AllSerial(cfg, Next(cfg, l, e))
  {
    match e
    case Push(msg) => PushAll(cfg, l, msg);
    case Pick(picked, purged, now) => PickAll(cfg, l, picked, purged, now);
    case Cool(now) => CoolAll(cfg, l, now + l.pc.backoff);
    case Return(ok) => AttemptAll(cfg, l, e);
    case Decide(_, _) => AttemptAll(cfg, l, e);
    case DiscardReturn(_) => AttemptAll(cfg, l, e);
    case _ => OtherAll(cfg, l, e);
  }
}
