/** The order of attempts across all the lanes of a partition worker. */
module PartitionOrder {
  import opened Types
  import opened LaneMachine
  import opened LaneStock
  import opened LaneInvariant
  import opened LaneSerial
  import opened PartitionMachine
  import opened PartitionSums
  import opened PartitionInvariant

  // ---------------------------------------------------------------- one key, one lane

  /** The history of a key in its lane is its history in the whole worker. */
  ghost predicate KeyAtHome(cfg: Config, p: Part, key: Key) {
    var i := LaneIndex(cfg, key);
    && i < |p.agents| && p.agents[i].LaneAgent?
    && EntriesOf(cfg, key, p.log) == EntriesOf(cfg, key, p.agents[i].lane.log)
    && MessagesOf(cfg, key, p.appended) == MessagesOf(cfg, key, p.agents[i].lane.arrived)
  }

  ghost predicate AllAtHome(cfg: Config, p: Part) {
    cfg.mode == KeyOrdered ==> forall key :: KeyAtHome(cfg, p, key)
  }

  /** An event adds at most one entry to the history of a lane, about a message whose home it is. */
  lemma EntryStep(cfg: Config, l: Lane, e: Event, i: nat)
    requires Structure(cfg, l) && Home(cfg, l, i) && Guard(cfg, l, e)
    ensures
      var next := Next(cfg, l, e);
      || next.log == l.log
      || (exists entry :: next.log == l.log + [entry] && HomeOf(cfg, entry.msg) == i)
  {
    var next := Next(cfg, l, e);
    if e.Pick? {
      var wk := l.buf.chains[e.key].queue[0];
      assert ChainOk(cfg, e.key, l.buf.chains[e.key]);
      assert next.log == l.log + [Begin(wk.msg, wk.attempts)];
      assert HomeOf(cfg, Begin(wk.msg, wk.attempts).msg) == i;
    } else if e.Return? || e.Decide? || e.DiscardReturn? {
      AttemptLog(cfg, l, e, i);
    }
  }

  lemma AttemptLog(cfg: Config, l: Lane, e: Event, i: nat)
    requires HeldChain(cfg, l) && Home(cfg, l, i) && Guard(cfg, l, e)
    requires e.Return? || e.Decide? || e.DiscardReturn?
    ensures
      var next := Next(cfg, l, e);
      || next.log == l.log
      || (exists entry :: next.log == l.log + [entry] && HomeOf(cfg, entry.msg) == i)
  {
    var next, wk := Next(cfg, l, e), l.pc.wk;
    if next.log != l.log {
      var entry := next.log[|l.log|];
      assert next.log == l.log + [entry] && entry.msg == wk.msg;
      assert HomeOf(cfg, entry.msg) == i;
    }
  }

  lemma ArrivedStep(cfg: Config, l: Lane, e: Event)
    requires Guard(cfg, l, e)
    ensures Next(cfg, l, e).arrived == if e.Push? then l.arrived + [e.msg] else l.arrived
  {
  }

  /** The same entry added to two histories that agree on a key. */
  lemma EntriesKept(cfg: Config, key: Key, log: seq<Entry>, home: seq<Entry>, entries: seq<Entry>)
    requires |entries| <= 1 && EntriesOf(cfg, key, log) == EntriesOf(cfg, key, home)
    ensures EntriesOf(cfg, key, log + entries) == EntriesOf(cfg, key, home + entries)
  {
    if entries == [] {
      assert log + entries == log && home + entries == home;
    } else {
      assert entries == [entries[0]];
      EntriesOfMore(cfg, key, log, entries[0]);
      EntriesOfMore(cfg, key, home, entries[0]);
    }
  }

  /** An entry of another key added to one of them. */
  lemma EntriesElsewhere(cfg: Config, key: Key, log: seq<Entry>, entries: seq<Entry>)
    requires |entries| <= 1 && forall x :: 0 <= x < |entries| ==> KeyOf(cfg, entries[x].msg) != key
    ensures EntriesOf(cfg, key, log + entries) == EntriesOf(cfg, key, log)
  {
    if entries == [] {
      assert log + entries == log;
    } else {
      assert entries == [entries[0]];
      EntriesOfMore(cfg, key, log, entries[0]);
    }
  }

  lemma MessagesKept(cfg: Config, key: Key, all: seq<Message>, home: seq<Message>, ms: seq<Message>)
    requires |ms| <= 1 && MessagesOf(cfg, key, all) == MessagesOf(cfg, key, home)
    ensures MessagesOf(cfg, key, all + ms) == MessagesOf(cfg, key, home + ms)
  {
    if ms == [] {
      assert all + ms == all && home + ms == home;
    } else {
      assert ms == [ms[0]];
      MessagesOfMore(cfg, key, all, ms[0]);
      MessagesOfMore(cfg, key, home, ms[0]);
    }
  }

  lemma MessagesElsewhere(cfg: Config, key: Key, all: seq<Message>, ms: seq<Message>)
    requires |ms| <= 1 && forall x :: 0 <= x < |ms| ==> KeyOf(cfg, ms[x]) != key
    ensures MessagesOf(cfg, key, all + ms) == MessagesOf(cfg, key, all)
  {
    if ms == [] {
      assert all + ms == all;
    } else {
      assert ms == [ms[0]];
      MessagesOfMore(cfg, key, all, ms[0]);
    }
  }

  /** An event of lane i that adds this to the history of the lane and of the worker keeps keys at home. */
  lemma HomeKept(cfg: Config, p: Part, q: Part, i: nat, entries: seq<Entry>, ms: seq<Message>, key: Key)
    requires KeyAtHome(cfg, p, key) && i < |p.agents| && p.agents[i].LaneAgent?
    requires |q.agents| == |p.agents| && q.agents == p.agents[i := q.agents[i]] && q.agents[i].LaneAgent?
    requires |entries| <= 1 && |ms| <= 1
    requires forall x :: 0 <= x < |entries| ==> HomeOf(cfg, entries[x].msg) == i
    requires forall x :: 0 <= x < |ms| ==> HomeOf(cfg, ms[x]) == i
    requires q.log == p.log + entries && q.agents[i].lane.log == p.agents[i].lane.log + entries
    requires q.appended == p.appended + ms && q.agents[i].lane.arrived == p.agents[i].lane.arrived + ms
    ensures KeyAtHome(cfg, q, key)
  {
    var home := LaneIndex(cfg, key);
    if home == i {
      EntriesKept(cfg, key, p.log, p.agents[i].lane.log, entries);
      MessagesKept(cfg, key, p.appended, p.agents[i].lane.arrived, ms);
    } else {
      assert q.agents[home] == p.agents[home];
      EntriesElsewhere(cfg, key, p.log, entries);
      MessagesElsewhere(cfg, key, p.appended, ms);
    }
  }

  /** What an agent's event adds to the history. */
  lemma LaneEntries(cfg: Config, l: Lane, e: Event, i: nat) returns (entries: seq<Entry>)
    requires Structure(cfg, l) && Home(cfg, l, i) && Guard(cfg, l, e)
    ensures Next(cfg, l, e).log == l.log + entries && |entries| <= 1
    ensures entries == if |l.log| < |Next(cfg, l, e).log| then Next(cfg, l, e).log[|l.log|..] else []
    ensures forall x :: 0 <= x < |entries| ==> HomeOf(cfg, entries[x].msg) == i
  {
    EntryStep(cfg, l, e, i);
    var log := Next(cfg, l, e).log;
    entries := if |l.log| < |log| then log[|l.log|..] else [];
  }

  lemma OrderAgent(cfg: Config, p: Part, i: nat, e: Event)
    requires AgentsOk(cfg, p.agents) && PartGuard(cfg, p, AgentStep(i, e)) && AllAtHome(cfg, p)
    ensures AllAtHome(cfg, Stepped(cfg, p, i, e))
  {
    if cfg.mode == KeyOrdered {
      assert AgentOk(cfg, p.agents[i], i);
      var l := p.agents[i].lane;
      var entries := LaneEntries(cfg, l, e, i);
      ArrivedStep(cfg, l, e);
      assert Stepped(cfg, p, i, e).log == p.log + entries;
      LaneMoved(cfg, p, Stepped(cfg, p, i, e), i, Next(cfg, l, e), entries, []);
    }
  }

  lemma LaneMoved(cfg: Config, p: Part, q: Part, i: nat, next: Lane, entries: seq<Entry>, ms: seq<Message>)
    requires cfg.mode == KeyOrdered && AllAtHome(cfg, p) && i < |p.agents| && p.agents[i].LaneAgent?
    requires q.agents == p.agents[i := LaneAgent(next)]
    requires |entries| <= 1 && |ms| <= 1
    requires forall x :: 0 <= x < |entries| ==> HomeOf(cfg, entries[x].msg) == i
    requires forall x :: 0 <= x < |ms| ==> HomeOf(cfg, ms[x]) == i
    requires q.log == p.log + entries && next.log == p.agents[i].lane.log + entries
    requires q.appended == p.appended + ms && next.arrived == p.agents[i].lane.arrived + ms
    ensures AllAtHome(cfg, q)
  {
    forall key ensures KeyAtHome(cfg, q, key) {
      HomeKept(cfg, p, q, i, entries, ms, key);
    }
  }

  lemma OrderPoll(cfg: Config, p: Part, give: bool)
    requires PollGuard(cfg, p, give) && AllAtHome(cfg, p)
    ensures AllAtHome(cfg, Polled(cfg, p, give))
  {
    if cfg.mode == KeyOrdered {
      match LaneEventOf(cfg, p, give)
      case Some((i, e)) =>
        LaneEventGain(cfg, p, give, One());
        var l := p.agents[i].lane;
        ArrivedStep(cfg, l, e);
        PollLog(cfg, l, e);
        AppendsIff(cfg, p, give);
        LaneMoved(cfg, p, Polled(cfg, p, give), i, Next(cfg, l, e), [], if e.Push? then [e.msg] else []);
      case None =>
        NothingMoved(cfg, p, Polled(cfg, p, give));
    }
  }

  lemma AppendsIff(cfg: Config, p: Part, give: bool)
    ensures Appends(cfg, p) <==> LaneEventOf(cfg, p, give).Some? && LaneEventOf(cfg, p, give).value.1.Push?
    ensures Appends(cfg, p) ==> LaneEventOf(cfg, p, give).value.1.msg == p.poll.m
  {
  }

  lemma NothingMoved(cfg: Config, p: Part, q: Part)
    requires AllAtHome(cfg, p) && q.agents == p.agents && q.log == p.log && q.appended == p.appended
    ensures AllAtHome(cfg, q)
  {
    if cfg.mode == KeyOrdered {
      forall key ensures KeyAtHome(cfg, q, key) {
        assert KeyAtHome(cfg, p, key);
      }
    }
  }

  lemma PollLog(cfg: Config, l: Lane, e: Event)
    requires Guard(cfg, l, e) && !OwnEvent(e)
    ensures Next(cfg, l, e).log == l.log
  {
  }

  // ---------------------------------------------------------------- arrival order

  predicate Increasing(ms: seq<Message>) {
    forall i, j :: 0 <= i < j < |ms| ==> ms[i].offset < ms[j].offset
  }

  predicate CarriesLast(p: Part) {
    1 <= PollRank(p.poll) <= 8 ==>
      && p.sh.h.delivered != [] && p.poll.m == p.sh.h.delivered[|p.sh.h.delivered| - 1]
      && forall m :: m in p.appended && Increasing(p.sh.h.delivered) ==> m.offset < p.poll.m.offset
  }

  /** When messages are delivered in increasing order, the lanes accept them in that order. */
  predicate ArrivalOk(p: Part) {
    && (Increasing(p.sh.h.delivered) ==> Increasing(p.appended))
    && (forall m :: m in p.appended && Increasing(p.sh.h.delivered) ==>
          p.sh.h.delivered != [] && m.offset <= p.sh.h.delivered[|p.sh.h.delivered| - 1].offset)
    && CarriesLast(p)
  }

  lemma ArrivalPoll(cfg: Config, p: Part, give: bool)
    requires PollGuard(cfg, p, give) && ArrivalOk(p)
    ensures ArrivalOk(Polled(cfg, p, give))
  {
    var q := Polled(cfg, p, give);
    assert q.sh.h.delivered == p.sh.h.delivered;
    RouteCarries(cfg.mode, p.sh, p.closed, p.poll, give, Appends(cfg, p),
      if p.poll.Appending? then HomeOf(cfg, p.poll.m) else 0, |p.agents|);
    if Appends(cfg, p) {
      assert q.appended == p.appended + [p.poll.m];
      assert PollRank(q.poll) == 0;
    }
  }

  lemma RouteCarries(mode: Mode, s: Shared, closed: bool, poll: Poll, give: bool, accepts: bool, home: nat, lanes: nat)
    ensures
      var next := RoutePoll(mode, s, closed, poll, give, accepts, home, lanes);
      && (1 <= PollRank(next) <= 8 ==> 1 <= PollRank(poll) <= 8 && next.m == poll.m)
      && (poll.Appending? && accepts ==> PollRank(next) == 0)
  {
  }

  lemma ArrivalDeliver(p: Part, m: Message)
    requires ArrivalOk(p) && PollRank(p.poll) == 0
    ensures ArrivalOk(p.(sh := p.sh.(h := p.sh.h.(delivered := p.sh.h.delivered + [m]),
      n := p.sh.n.(total := p.sh.n.total + 1)),
                         poll := Seeding(m)))
  {
    var was, more := p.sh.h.delivered, p.sh.h.delivered + [m];
    if Increasing(more) {
      assert forall i :: 0 <= i < |was| ==> more[i] == was[i];
      assert Increasing(was);
      assert was != [] ==> was[|was| - 1] == more[|was| - 1];
      assert more[|more| - 1] == m;
    }
  }

  // ---------------------------------------------------------------- the highest offset

  /** The highest offset seen is that of the highest admission, or still zero. */
  predicate HighestOk(s: Shared, poll: Poll) {
    && (forall o :: o in s.h.admitted ==> o <= s.highest || (poll.Marking? && poll.m.offset == o))
    && (poll.Marking? ==> poll.m.offset in s.h.admitted)
    && (0 < s.highest ==> s.highest in s.h.admitted)
    && 0 <= s.highest
  }

  lemma HighestRoute(mode: Mode, s: Shared, closed: bool, poll: Poll, give: bool, accepts: bool, home: nat, lanes: nat)
    requires HighestOk(s, poll)
    ensures HighestOk(RouteShared(mode, s, closed, poll, give),
      RoutePoll(mode, s, closed, poll, give, accepts, home, lanes))
  {
  }

  lemma HighestEffect(s: Shared, poll: Poll, x: Option<Passage>)
    requires HighestOk(s, poll)
    ensures HighestOk(AgentEffect(s, x), poll)
  {
  }
}
