/**
 * The consumer as an object: pausing, the worker table, and commits. Each method is one call of the
 * consumer, proved against the pause flags' steps and against what the trackers have seen complete.
 */
module ConsumerObject {
  import opened Types
  import opened TrackerSpec
  import opened TrackerObject
  import opened PartitionMachine
  import opened WorkerObject
  import opened Pausing
  import EngineMachine

  type Commits = EngineMachine.Commits

  class Consumer {
    const cfg: Config
    var workers: map<TopicPartition, PartitionWorker>
    var paused: set<TopicPartition>
    var manualPaused: set<TopicPartition>
    var rebalanceErr: bool

    /** The backend: what it has paused, and the positions committed to it. */
    var transport: set<TopicPartition>
    var committed: Commits

    ghost predicate Valid()
      reads this`workers, workers.Values, Trackers()
    {
      && ValidConfig(cfg)
      && (forall tp :: tp in workers ==> WorkerOk(tp))
      && (forall a, b :: a in workers && b in workers && a != b ==> workers[a].tracker != workers[b].tracker)
    }

    ghost predicate WorkerOk(tp: TopicPartition)
      reads this`workers, workers.Values, Trackers()
      requires tp in workers
    {
      workers[tp].Valid() && workers[tp].tp == tp && workers[tp].cfg == cfg
    }

    ghost function Trackers(): set<OffsetTracker>
      reads this`workers
    {
      set tp | tp in workers :: workers[tp].tracker
    }

    ghost function State(): Flags
      reads this
    {
      Flags(workers.Keys, paused, manualPaused, transport)
    }

    ghost function InFlight(): InFlightCounts
      reads this`workers, workers.Values
    {
      map tp | tp in workers :: workers[tp].n.count
    }

    constructor (cfg: Config)
      requires ValidConfig(cfg)
      ensures Valid() && this.cfg == cfg && workers == map[] && committed == map[]
      ensures State() == Flags({}, {}, {}, {})
    {
      this.cfg := cfg;
      workers, paused, manualPaused, transport := map[], {}, {}, {};
      rebalanceErr, committed := false, map[];
    }

    // -------------------------------------------------------------- pausing

    method Pause(parts: seq<TopicPartition>)
      modifies this`manualPaused, this`transport
      ensures State() == NextFlags(cfg, old(State()), PauseCall(Named(parts)))
    {
      var targets := parts;
      if parts == [] {
        assert Named(parts) == {};
        targets := Listed(workers.Keys);
      } else {
        assert parts[0] in Named(parts);
      }
      for i := 0 to |targets|
        invariant manualPaused == old(manualPaused) + Named(targets[..i]) && transport == old(transport)
      {
        manualPaused := manualPaused + {targets[i]};
        NamedMore(targets, i);
      }
      NamedAll(targets);
      transport := transport + Named(targets);
    }

    method Resume(parts: seq<TopicPartition>)
      modifies this`manualPaused, this`transport
      ensures State() == NextFlags(cfg, old(State()), ResumeCall(Named(parts)))
    {
      var targets := parts;
      if parts == [] {
        assert Named(parts) == {};
        targets := Listed(manualPaused);
      } else {
        assert parts[0] in Named(parts);
      }
      for i := 0 to |targets|
        invariant manualPaused == old(manualPaused) - Named(targets[..i]) && transport == old(transport)
      {
        manualPaused := manualPaused - {targets[i]};
        NamedMore(targets, i);
      }
      NamedAll(targets);
      transport := transport - Named(targets);
    }

    /** Decides on every partition first, and then tells the transport. */
    method ApplyBackpressure()
      modifies this`paused, this`transport
      ensures State() == NextFlags(cfg, old(State()), Backpressure(old(InFlight())))
    {
      ghost var toPause, toResume := ToPause(cfg, State(), InFlight()), ToResume(cfg, State(), InFlight());
      forall tp | tp in workers
        ensures tp in toPause <==> TurnOf(cfg, tp in manualPaused, workers[tp].n.count, tp in paused).PauseIt?
        ensures tp in toResume <==> TurnOf(cfg, tp in manualPaused, workers[tp].n.count, tp in paused).ResumeIt?
      {
        TurnDecides(cfg, State(), InFlight(), tp);
      }
      var pause, resume := LookAtAll(toPause, toResume);
      transport := transport + pause;
      transport := transport - resume;
    }

    /** Looks at every worker once, in any order. */
    method LookAtAll(ghost toPause: Parts, ghost toResume: Parts) returns (pause: Parts, resume: Parts)
      requires toPause <= workers.Keys && toResume <= workers.Keys
      requires forall tp :: tp in workers ==>
        && (tp in toPause <==> TurnOf(cfg, tp in manualPaused, workers[tp].n.count, tp in paused).PauseIt?)
        && (tp in toResume <==> TurnOf(cfg, tp in manualPaused, workers[tp].n.count, tp in paused).ResumeIt?)
      modifies this`paused
      ensures pause == toPause && resume == toResume
      ensures paused == old(paused) + pause - resume
    {
      pause, resume := {}, {};
      var keys := workers.Keys;
      ghost var auto := paused;
      while keys != {}
        invariant keys <= workers.Keys
        invariant forall tp :: Seen(auto, toPause, toResume, keys, pause, resume, paused, tp)
        decreases |keys|
      {
        var tp :| tp in keys;
        assert Seen(auto, toPause, toResume, keys, pause, resume, paused, tp);
        ghost var before := (keys, pause, resume, paused);
        keys := keys - {tp};
        var turn := Look(tp);
        pause := if turn.PauseIt? then pause + {tp} else pause;
        resume := if turn.ResumeIt? then resume + {tp} else resume;
        forall k ensures Seen(auto, toPause, toResume, keys, pause, resume, paused, k) {
          assert Seen(auto, toPause, toResume, before.0, before.1, before.2, before.3, k);
        }
      }
      AllSeen(auto, toPause, toResume, pause, resume, paused);
    }

    /** The decision on one worker. */
    method Look(tp: TopicPartition) returns (turn: Turn)
      requires tp in workers
      modifies this`paused
      ensures paused == match turn
        case PauseIt => old(paused) + {tp}
        case ResumeIt => old(paused) - {tp}
        case LeaveIt => old(paused)
      ensures turn == TurnOf(cfg, tp in manualPaused, workers[tp].n.count, tp in old(paused))
    {
      if tp in manualPaused || cfg.maxInFlight == NaturalCap(cfg) {
        return LeaveIt;
      }
      var count := workers[tp].n.count;
      if count >= cfg.maxInFlight && tp !in paused {
        paused := paused + {tp};
        return PauseIt;
      } else if count <= 4 * cfg.maxInFlight / 5 && tp in paused {
        paused := paused - {tp};
        return ResumeIt;
      }
      return LeaveIt;
    }

    // -------------------------------------------------------------- rebalances

    /** A partition that is new gets a worker; one that already has a worker keeps it. */
    method OnAssigned(parts: seq<TopicPartition>)
      requires Valid()
      modifies this`workers
      ensures Valid() && State() == NextFlags(cfg, old(State()), Assigned(Named(parts)))
      ensures forall tp :: tp in old(workers) ==> workers[tp] == old(workers[tp])
      ensures forall tp :: tp in workers && tp !in old(workers) ==> NewWorker(workers[tp])
    {
      for i := 0 to |parts|
        invariant Valid() && workers.Keys == old(workers).Keys + Named(parts[..i])
        invariant forall tp :: tp in old(workers) ==> workers[tp] == old(workers[tp])
        invariant forall tp :: tp in workers && tp !in old(workers) ==> NewWorker(workers[tp])
      {
        if parts[i] !in workers {
          AddWorker(parts[i]);
        }
        NamedMore(parts, i);
      }
      NamedAll(parts);
    }

    method AddWorker(tp: TopicPartition)
      requires Valid() && tp !in workers
      modifies this`workers
      ensures Valid() && workers.Keys == old(workers).Keys + {tp} && NewWorker(workers[tp])
      ensures fresh(workers[tp]) && fresh(workers[tp].tracker)
      ensures forall k :: k in old(workers) ==> workers[k] == old(workers[k])
    {
      var w := new PartitionWorker(cfg, tp);
      ghost var before := workers;
      assert forall k :: k in before ==>
        before[k].Valid() && before[k].tp == k && before[k].cfg == cfg && before[k].tracker != w.tracker by {
        forall k | k in before ensures before[k].Valid() && before[k].tp == k && before[k].cfg == cfg {
          assert old(WorkerOk(k));
        }
      }
      workers := workers[tp := w];
      forall k | k in workers ensures WorkerOk(k) {
      }
    }

    /**
     * Forgets the revoked partitions and their pauses. Their workers are the caller's to drain, each
     * of them once.
     */
    method TakeVictims(revoked: seq<TopicPartition>) returns (victims: seq<PartitionWorker>)
      requires Valid()
      modifies this`workers, this`paused, this`manualPaused
      ensures Valid() && workers == old(workers) - Named(revoked)
      ensures paused == old(paused) - Named(revoked) && manualPaused == old(manualPaused) - Named(revoked)
      ensures VictimsOf(victims, old(workers), Named(revoked))
    {
      victims := [];
      for i := 0 to |revoked|
        invariant Valid() && workers == old(workers) - Named(revoked[..i])
        invariant paused == old(paused) - Named(revoked[..i]) && manualPaused == old(manualPaused) - Named(revoked[..i])
        invariant VictimsOf(victims, old(workers), Named(revoked[..i]))
      {
        var w := TakeVictim(revoked[i]);
        VictimsMore(victims, old(workers), Named(revoked[..i]), revoked[i]);
        if w.Some? {
          victims := victims + [w.value];
        }
        NamedMore(revoked, i);
      }
      NamedAll(revoked);
    }

    method TakeVictim(tp: TopicPartition) returns (w: Option<PartitionWorker>)
      requires Valid()
      modifies this`workers, this`paused, this`manualPaused
      ensures Valid() && workers == old(workers) - {tp}
      ensures paused == old(paused) - {tp} && manualPaused == old(manualPaused) - {tp}
      ensures w == if tp in old(workers) then Some(old(workers)[tp]) else None
      ensures w.Some? ==> w.value.tp == tp
    {
      paused := paused - {tp};
      manualPaused := manualPaused - {tp};
      if tp !in workers {
        return None;
      }
      w := Some(workers[tp]);
      assert WorkerOk(tp);
      ghost var before := workers;
      assert forall k :: k in before ==> before[k].Valid() && before[k].tp == k && before[k].cfg == cfg by {
        forall k | k in before ensures before[k].Valid() && before[k].tp == k && before[k].cfg == cfg {
          assert WorkerOk(k);
        }
      }
      workers := workers - {tp};
      forall k | k in workers ensures WorkerOk(k) {
      }
    }

    // -------------------------------------------------------------- commits

    /**
     * The end of a revoke, after its victims were drained: the transport forgets the pauses, and each
     * victim's pointer is committed. A failure is kept for the run loop.
     */
    method FinishRevoke(revoked: seq<TopicPartition>, victims: seq<PartitionWorker>, ok: bool) returns (err: bool)
      requires Drainable(victims)
      modifies this`transport, this`committed, this`rebalanceErr
      ensures transport == old(transport) - Named(revoked)
      ensures err <==> !ok && exists w :: w in victims && w.tracker.hasBase
      ensures rebalanceErr == (old(rebalanceErr) || err)
      ensures !ok ==> committed == old(committed)
      ensures ok ==> forall w :: w in victims && w.tracker.hasBase ==>
        w.tp in committed && LeastMissing(committed[w.tp], w.tracker.origin, w.tracker.completed)
      ensures forall tp :: (forall w :: w in victims ==> w.tp != tp) ==>
        (tp in committed <==> tp in old(committed)) && (tp in committed ==> committed[tp] == old(committed)[tp])
    {
      var acc := ReadPointers(victims);
      transport := transport - Named(revoked);
      err := acc != map[] && !ok;
      if ok {
        committed := committed + acc;
      }
      rebalanceErr := rebalanceErr || err;
    }

    /** Reads the pointers that have one, under the mutex. */
    method Snapshot(advanceOnly: bool) returns (acc: Commits)
      requires Valid()
      ensures forall tp :: tp in acc <==> tp in workers && Committable(advanceOnly, tp)
      ensures forall tp :: tp in acc ==> PointerOf(workers[tp], acc[tp])
    {
      acc := map[];
      var keys := workers.Keys;
      while keys != {}
        invariant keys <= workers.Keys
        invariant forall tp :: Taken(advanceOnly, workers.Keys - keys, acc, tp)
        decreases |keys|
      {
        var tp :| tp in keys;
        assert WorkerOk(tp);
        var t := workers[tp].tracker;
        ghost var before := (workers.Keys - keys, acc);
        keys := keys - {tp};
        if t.Seeded() && (!advanceOnly || t.AdvancedSinceCommit()) {
          acc := acc[tp := t.BaseOffset()];
        }
        forall k ensures Taken(advanceOnly, workers.Keys - keys, acc, k) {
          assert Taken(advanceOnly, before.0, before.1, k);
        }
      }
      forall tp ensures (tp in acc <==> tp in workers && Committable(advanceOnly, tp))
        && (tp in acc ==> PointerOf(workers[tp], acc[tp])) {
        assert Taken(advanceOnly, workers.Keys - keys, acc, tp);
      }
    }

    /** The pointer of this partition is among those read if it was looked at. */
    ghost predicate Taken(advanceOnly: bool, seen: Parts, acc: Commits, tp: TopicPartition)
      reads this`workers, workers.Values, Trackers()
      requires seen <= workers.Keys
    {
      && (tp in acc <==> tp in seen && Committable(advanceOnly, tp))
      && (tp in acc ==> PointerOf(workers[tp], acc[tp]))
    }

    ghost predicate Committable(advanceOnly: bool, tp: TopicPartition)
      reads this`workers, workers.Values, Trackers()
      requires tp in workers
    {
      EngineMachine.Collects(advanceOnly, workers[tp].tracker.State())
    }

    /**
     * Commits every pointer, or those that moved since the last successful commit. While the commit is
     * under way the others do as meanwhile tells. A commit that succeeds puts what was read at first at
     * the backend, and then no worker of those partitions reports progress, be it the one that was read
     * or one that came since. That hides something from the worker that was read exactly when the
     * offset sent for it has completed since. When nobody else runs, nothing is hidden.
     */
    method CommitAll(advanceOnly: bool, ok: bool, meanwhile: seq<Meanwhile>) returns (sent: Commits)
      requires Valid()
      modifies this`committed, this`workers, this`paused, this`manualPaused, Trackers()
      ensures Valid() && committed == if ok then old(committed) + sent else old(committed)
      ensures forall tp :: tp in sent <==> tp in old(workers) && old(Committable(advanceOnly, tp))
      ensures forall tp :: tp in sent ==> old(PointerOf(workers[tp], sent[tp]))
      ensures forall tp :: tp in workers && tp in sent ==>
        Left(tp, sent[tp], ok, workers[tp] == old(workers[tp]), meanwhile == [])
    {
      sent := Snapshot(advanceOnly);
      if sent != map[] {
        SendAndMark(sent, ok, meanwhile);
      }
    }

    /** From the snapshot on. */
    method SendAndMark(sent: Commits, ok: bool, meanwhile: seq<Meanwhile>)
      requires Valid() && forall tp :: tp in sent ==> tp in workers && PointerOf(workers[tp], sent[tp])
      modifies this`committed, this`workers, this`paused, this`manualPaused, Trackers()
      ensures Valid() && committed == if ok then old(committed) + sent else old(committed)
      ensures forall tp :: tp in workers && tp in sent ==>
        Left(tp, sent[tp], ok, workers[tp] == old(workers[tp]), meanwhile == [])
    {
      Await(sent, meanwhile);
      label Answered:
      FinishCommit(sent, ok);
      forall tp | tp in workers && tp in sent
        ensures Left(tp, sent[tp], ok, workers[tp] == old(workers[tp]), meanwhile == [])
      {
        assert MarkedAs(tp, old@Answered(View(tp)), ok);
      }
    }

    /** The backend takes its time, and the others go on. */
    method Await(sent: Commits, meanwhile: seq<Meanwhile>)
      requires Valid() && forall tp :: tp in sent ==> tp in workers && PointerOf(workers[tp], sent[tp])
      modifies this`workers, this`paused, this`manualPaused, Trackers()
      ensures Valid()
      ensures forall tp :: tp in workers ==> workers[tp].tracker in old(Trackers()) || fresh(workers[tp].tracker)
      ensures forall tp :: tp in workers && tp in sent && workers[tp] == old(workers[tp]) ==>
        Read(View(tp), sent[tp], meanwhile == [])
    {
      Interfere(meanwhile);
    }

    /** What the commit leaves: no report of progress, and the pointer of the worker that was read. */
    ghost predicate Left(tp: TopicPartition, v: Offset, ok: bool, same: bool, idle: bool)
      reads this`workers, workers.Values, Trackers()
      requires tp in workers
    {
      (ok ==> !Committable(true, tp)) && (same ==> Read(View(tp), v, idle))
    }

    /** What the other goroutines do, one after the other. */
    method Interfere(meanwhile: seq<Meanwhile>)
      requires Valid()
      modifies this`workers, this`paused, this`manualPaused, Trackers()
      ensures Valid()
      ensures forall tp :: tp in workers ==>
        || (tp in old(workers) && workers[tp] == old(workers[tp]) && Grew(old(View(tp)), View(tp)))
        || (fresh(workers[tp]) && fresh(workers[tp].tracker))
      ensures meanwhile == [] ==> workers == old(workers) && forall tp :: tp in workers ==> View(tp) == old(View(tp))
    {
      for i := 0 to |meanwhile|
        invariant Valid()
        invariant forall tp :: tp in workers ==>
          || (tp in old(workers) && workers[tp] == old(workers[tp]) && Grew(old(View(tp)), View(tp)))
          || (fresh(workers[tp]) && fresh(workers[tp].tracker))
        invariant i == 0 ==> workers == old(workers) && forall tp :: tp in workers ==> View(tp) == old(View(tp))
      {
        InterfereOnce(meanwhile[i]);
      }
    }

    method InterfereOnce(m: Meanwhile)
      requires Valid()
      modifies this`workers, this`paused, this`manualPaused, Trackers()
      ensures Valid()
      ensures forall tp :: tp in workers ==>
        || (tp in old(workers) && workers[tp] == old(workers[tp]) && Grew(old(View(tp)), View(tp)))
        || (fresh(workers[tp]) && fresh(workers[tp].tracker))
    {
      match m
      case Completes(tp, o) =>
        if tp in workers {
          CompleteOne(tp, o);
        }
      case Revokes(tp) => var w := TakeVictim(tp);
      case Assigns(tp) =>
        if tp !in workers {
          AddWorker(tp);
        }
    }

    method CompleteOne(tp: TopicPartition, o: Offset)
      requires Valid() && tp in workers
      modifies workers[tp].tracker
      ensures Valid() && forall k :: k in workers ==> Grew(old(View(k)), View(k))
    {
      assert WorkerOk(tp);
      var base := workers[tp].tracker.Complete(o);
      forall k | k in workers ensures WorkerOk(k) && Grew(old(View(k)), View(k)) {
        assert old(WorkerOk(k));
      }
    }

    /**
     * The rest of a commit, after the snapshot. Whatever happened to the workers since, a commit that
     * succeeds puts the values of the snapshot at the backend, and marks the workers that are now
     * assigned to its partitions with their pointers as they are now; one that fails changes nothing.
     */
    method FinishCommit(acc: Commits, ok: bool)
      requires Valid()
      modifies this`committed, Trackers()
      ensures Valid() && committed == if ok then old(committed) + acc else old(committed)
      ensures forall tp :: tp in workers ==> MarkedAs(tp, old(View(tp)), ok && tp in acc)
    {
      if ok {
        committed := committed + acc;
        MarkAll(acc.Keys);
      }
    }

    /** Marks the partitions of a commit that succeeded, if they still have a worker. */
    method MarkAll(parts: set<TopicPartition>)
      requires Valid()
      modifies Trackers()
      ensures Valid()
      ensures forall tp :: tp in workers ==> MarkedAs(tp, old(View(tp)), tp in parts)
    {
      var left := parts;
      while left != {}
        invariant Valid() && left <= parts
        invariant forall tp :: tp in workers ==> MarkedAs(tp, old(View(tp)), tp in parts - left)
        decreases |left|
      {
        var tp :| tp in left;
        left := left - {tp};
        if tp in workers {
          MarkOne(tp);
        }
      }
    }

    /** A worker's tracker, the first offset it saw, and what completed since. */
    ghost function View(tp: TopicPartition): (Tracker, Offset, set<Offset>)
      reads this`workers, workers.Values, Trackers()
      requires tp in workers
    {
      var t := workers[tp].tracker;
      (t.State(), t.origin, t.completed)
    }

    ghost predicate MarkedAs(tp: TopicPartition, before: (Tracker, Offset, set<Offset>), marked: bool)
      reads this`workers, workers.Values, Trackers()
      requires tp in workers
    {
      View(tp) == if marked then (MarkCommitted(before.0), before.1, before.2) else before
    }

    method MarkOne(tp: TopicPartition)
      requires Valid() && tp in workers
      modifies workers[tp].tracker
      ensures Valid() && forall k :: k in workers ==> MarkedAs(k, old(View(k)), k == tp)
    {
      assert WorkerOk(tp);
      workers[tp].tracker.MarkCommitted();
      forall k | k in workers ensures WorkerOk(k) && MarkedAs(k, old(View(k)), k == tp) {
        assert old(WorkerOk(k));
      }
    }
  }

  /** What may happen to the workers while a commit is under way. */
  datatype Meanwhile =
    | Completes(tp: TopicPartition, o: Offset)
    | Revokes(tp: TopicPartition)
    | Assigns(tp: TopicPartition)

  /** Of the worker that was read: its pointer is beyond v exactly if v itself has completed since. */
  ghost predicate Read(view: (Tracker, Offset, set<Offset>), v: Offset, idle: bool) {
    && view.0.hasBase && v <= view.0.base
    && (v < view.0.base <==> v in view.2) && (idle ==> v == view.0.base)
  }

  /** A tracker after more completions: if it had a pointer it still counts from the same offset, and only gained. */
  ghost predicate Grew(before: (Tracker, Offset, set<Offset>), after: (Tracker, Offset, set<Offset>)) {
    before.0.hasBase ==>
      after.0.hasBase && after.1 == before.1 && before.2 <= after.2 && before.0.base <= after.0.base
  }

  /** v is the least offset that has not completed, of those from the worker's first on. */
  ghost predicate PointerOf(w: PartitionWorker, v: Offset)
    reads w, w.tracker
  {
    w.tracker.hasBase && v == w.tracker.base && LeastMissing(v, w.tracker.origin, w.tracker.completed)
  }

  ghost predicate Drainable(victims: seq<PartitionWorker>)
    reads victims, set w | w in victims :: w.tracker
  {
    && (forall i :: 0 <= i < |victims| ==> victims[i].Valid())
    && (forall i, j :: 0 <= i < j < |victims| ==> victims[i].tp != victims[j].tp)
  }

  /** The pointer of every worker that has one. */
  method ReadPointers(ws: seq<PartitionWorker>) returns (acc: Commits)
    requires Drainable(ws)
    ensures forall tp :: tp in acc <==> exists w :: w in ws && w.tp == tp && w.tracker.hasBase
    ensures forall w :: w in ws && w.tracker.hasBase ==> PointerOf(w, acc[w.tp])
    ensures acc != map[] <==> exists w :: w in ws && w.tracker.hasBase
  {
    acc := map[];
    for i := 0 to |ws|
      invariant forall tp :: tp in acc ==> exists j :: 0 <= j < i && ws[j].tp == tp && ws[j].tracker.hasBase
      invariant forall j :: 0 <= j < i && ws[j].tracker.hasBase ==> ws[j].tp in acc && PointerOf(ws[j], acc[ws[j].tp])
    {
      if ws[i].tracker.Seeded() {
        acc := acc[ws[i].tp := ws[i].tracker.BaseOffset()];
      }
    }
    if tp :| tp in acc {
      assert acc != map[];
    }
  }

  ghost predicate NewWorker(w: PartitionWorker)
    reads w, w.tracker
  {
    w.State() == NEW_SHARED
  }

  /** victims are the workers of these partitions, each once. */
  ghost predicate VictimsOf(victims: seq<PartitionWorker>, workers: map<TopicPartition, PartitionWorker>,
                            parts: set<TopicPartition>) {
    && (forall tp :: tp in parts && tp in workers ==> workers[tp] in victims)
    && (forall i :: 0 <= i < |victims| ==>
      victims[i].tp in parts && victims[i].tp in workers && workers[victims[i].tp] == victims[i])
    && (forall i, j :: 0 <= i < j < |victims| ==> victims[i].tp != victims[j].tp)
  }

  lemma VictimsMore(victims: seq<PartitionWorker>, workers: map<TopicPartition, PartitionWorker>,
                    parts: set<TopicPartition>, tp: TopicPartition)
    requires VictimsOf(victims, workers, parts)
    ensures tp !in workers || tp in parts ==> VictimsOf(victims, workers, parts + {tp})
    ensures tp in workers && tp !in parts && workers[tp].tp == tp ==>
      VictimsOf(victims + [workers[tp]], workers, parts + {tp})
  {
  }

  datatype Turn = PauseIt | ResumeIt | LeaveIt

  function TurnOf(cfg: Config, manual: bool, count: int, paused: bool): Turn {
    if manual || !Pausable(cfg) then LeaveIt
    else if count >= High(cfg) && !paused then PauseIt
    else if count <= Low(cfg) && paused then ResumeIt
    else LeaveIt
  }

  /** Deciding partition by partition is deciding on all at once. */
  lemma TurnDecides(cfg: Config, s: Flags, n: InFlightCounts, tp: TopicPartition)
    requires tp in s.held && tp in n
    ensures TurnOf(cfg, tp in s.manual, n[tp], tp in s.auto).PauseIt? <==> tp in ToPause(cfg, s, n)
    ensures TurnOf(cfg, tp in s.manual, n[tp], tp in s.auto).ResumeIt? <==> tp in ToResume(cfg, s, n)
  {
  }

  /** The partitions no longer among the keys are dealt with. */
  predicate Seen(auto: Parts, toPause: Parts, toResume: Parts, keys: Parts, pause: Parts, resume: Parts,
                 paused: Parts, tp: TopicPartition) {
    && (tp in pause <==> tp in toPause && tp !in keys)
    && (tp in resume <==> tp in toResume && tp !in keys)
    && (tp in paused <==> (tp in auto || tp in pause) && tp !in resume)
  }

  lemma AllSeen(auto: Parts, toPause: Parts, toResume: Parts, pause: Parts, resume: Parts, paused: Parts)
    requires forall tp :: Seen(auto, toPause, toResume, {}, pause, resume, paused, tp)
    ensures pause == toPause && resume == toResume && paused == auto + pause - resume
  {
    forall tp ensures (tp in pause <==> tp in toPause) && (tp in resume <==> tp in toResume)
      && (tp in paused <==> tp in auto + pause - resume) {
      assert Seen(auto, toPause, toResume, {}, pause, resume, paused, tp);
    }
  }

  function Named(parts: seq<TopicPartition>): set<TopicPartition> {
    set tp | tp in parts
  }

  lemma NamedMore(parts: seq<TopicPartition>, i: nat)
    requires i < |parts|
    ensures Named(parts[..i + 1]) == Named(parts[..i]) + {parts[i]}
  {
  }

  lemma NamedAll(parts: seq<TopicPartition>)
    ensures Named(parts[..|parts|]) == Named(parts)
  {
    assert parts[..|parts|] == parts;
  }

  method Listed(parts: set<TopicPartition>) returns (list: seq<TopicPartition>)
    ensures Named(list) == parts
    ensures list == [] <==> parts == {}
  {
    list := [];
    var left := parts;
    while left != {}
      invariant left <= parts && Named(list) == parts - left
      invariant list == [] <==> left == parts
      decreases |left|
    {
      var tp :| tp in left;
      assert Named(list + [tp]) == Named(list) + {tp};
      list := list + [tp];
      left := left - {tp};
    }
  }
}
