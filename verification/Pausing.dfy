/**
 * Who pauses a partition: the user, through Pause and Resume, or the engine, through backpressure.
 * The flags of both and the pause set of the transport, over every history of complete calls.
 */
module Pausing {
  import opened Types

  type Parts = set<TopicPartition>

  /** The assigned partitions, those paused by the engine, those paused by the user, and the transport's own set. */
  datatype Flags = Flags(held: Parts, auto: Parts, manual: Parts, transport: Parts)

  type InFlightCounts = map<TopicPartition, int>

  datatype PauseEvent =
    | PauseCall(parts: Parts)      // no partition named means every assigned one
    | ResumeCall(parts: Parts)     // and here every one the user paused
    | Backpressure(n: InFlightCounts)      // n is what is in flight per assigned partition
    | Assigned(parts: Parts)
    | Revoked(parts: Parts)

  /** Where the route itself blocks at MaxInFlight, pausing on top of it is pointless. */
  predicate Pausable(cfg: Config) {
    cfg.maxInFlight != NaturalCap(cfg)
  }

  function High(cfg: Config): int {
    cfg.maxInFlight
  }

  function Low(cfg: Config): int {
    4 * cfg.maxInFlight / 5
  }

  /** Backpressure looks at the partitions that the user does not own. */
  predicate InCharge(cfg: Config, s: Flags, n: InFlightCounts, tp: TopicPartition) {
    tp in s.held && tp in n && tp !in s.manual && Pausable(cfg)
  }

  function ToPause(cfg: Config, s: Flags, n: InFlightCounts): Parts {
    set tp | tp in s.held && InCharge(cfg, s, n, tp) && n[tp] >= High(cfg) && tp !in s.auto
  }

  function ToResume(cfg: Config, s: Flags, n: InFlightCounts): Parts {
    set tp | tp in s.held && InCharge(cfg, s, n, tp) && n[tp] <= Low(cfg) && tp in s.auto
  }

  function PauseTargets(s: Flags, parts: Parts): Parts {
    if parts == {} then s.held else parts
  }

  function ResumeTargets(s: Flags, parts: Parts): Parts {
    if parts == {} then s.manual else parts
  }

  /** The part of a Pause call under the mutex, and the part at the transport. */
  function FlagPause(s: Flags, parts: Parts): Flags {
    s.(manual := s.manual + parts)
  }

  function TransportPause(s: Flags, parts: Parts): Flags {
    s.(transport := s.transport + parts)
  }

  function TransportResume(s: Flags, parts: Parts): Flags {
    s.(transport := s.transport - parts)
  }

  function FlagBackpressure(cfg: Config, s: Flags, n: InFlightCounts): Flags {
    s.(auto := s.auto + ToPause(cfg, s, n) - ToResume(cfg, s, n))
  }

  function NextFlags(cfg: Config, s: Flags, ev: PauseEvent): Flags {
    match ev
    case PauseCall(parts) =>
      TransportPause(FlagPause(s, PauseTargets(s, parts)), PauseTargets(s, parts))
    case ResumeCall(parts) =>
      var targets := ResumeTargets(s, parts);
      TransportResume(s.(manual := s.manual - targets), targets)
    case Backpressure(n) =>
      var flagged := TransportPause(FlagBackpressure(cfg, s, n), ToPause(cfg, s, n));
      TransportResume(flagged, ToResume(cfg, s, n))
    case Assigned(parts) => s.(held := s.held + parts)
    case Revoked(parts) => Flags(s.held - parts, s.auto - parts, s.manual - parts, s.transport - parts)
  }

  predicate PauseGuard(s: Flags, ev: PauseEvent) {
    ev.Backpressure? ==> ev.n.Keys == s.held
  }

  ghost predicate PauseRun(cfg: Config, ss: seq<Flags>, evs: seq<PauseEvent>) {
    && |ss| == |evs| + 1
    && ss[0] == Flags({}, {}, {}, {})
    && forall i :: 0 <= i < |evs| ==> PauseGuard(ss[i], evs[i]) && ss[i + 1] == NextFlags(cfg, ss[i], evs[i])
  }

  // ---------------------------------------------------------------- every pause has an owner

  predicate Owned(s: Flags) {
    s.transport <= s.auto + s.manual
  }

  predicate PauseInv(cfg: Config, s: Flags) {
    && s.manual <= s.transport
    && Owned(s)
    && s.auto <= s.held
    && (s.auto != {} ==> Pausable(cfg))
  }

  lemma PauseInvStep(cfg: Config, s: Flags, ev: PauseEvent)
    requires PauseInv(cfg, s)
    ensures PauseInv(cfg, NextFlags(cfg, s, ev))
  {
    if ev.Backpressure? && ToPause(cfg, s, ev.n) != {} {
      var tp :| tp in ToPause(cfg, s, ev.n);
      assert InCharge(cfg, s, ev.n, tp);
    }
  }

  /**
   * Over every history: what the user paused is paused at the transport, and whatever is paused
   * there is owned, by the user or by backpressure, which only ever owns assigned partitions.
   */
  lemma {:induction false} PausesOwned(cfg: Config, ss: seq<Flags>, evs: seq<PauseEvent>, i: nat)
    requires PauseRun(cfg, ss, evs) && i < |ss|
    ensures PauseInv(cfg, ss[i])
  {
    if 0 < i {
      PausesOwned(cfg, ss, evs, i - 1);
      PauseInvStep(cfg, ss[i - 1], evs[i - 1]);
    }
  }

  // ---------------------------------------------------------------- pauses end

  /**
   * What backpressure leaves behind, at any point of any history. A partition the user does not own
   * is paused exactly when it has just reached MaxInFlight, or was paused before and is still above
   * four fifths of it. So no pause outlives its reason: once a partition is down to that, it runs.
   */
  lemma BackpressureDecides(cfg: Config, ss: seq<Flags>, evs: seq<PauseEvent>, i: nat, tp: TopicPartition)
    requires ValidConfig(cfg) && PauseRun(cfg, ss, evs) && i < |evs| && evs[i].Backpressure?
    requires tp !in ss[i].manual
    ensures
      var n := evs[i].n;
      tp in ss[i + 1].transport <==>
        && tp in n && Pausable(cfg)
        && ((n[tp] >= High(cfg) && tp !in ss[i].auto) || (n[tp] > Low(cfg) && tp in ss[i].transport))
  {
    PausesOwned(cfg, ss, evs, i);
  }

  /** With the same counts a second look changes nothing: the thresholds never touch. */
  lemma BackpressureSettles(cfg: Config, s: Flags, n: InFlightCounts)
    requires ValidConfig(cfg)
    ensures
      var t := NextFlags(cfg, s, Backpressure(n));
      NextFlags(cfg, t, Backpressure(n)) == t
  {
    var t := NextFlags(cfg, s, Backpressure(n));
    assert Low(cfg) < High(cfg);
    forall tp ensures tp !in ToPause(cfg, t, n) && tp !in ToResume(cfg, t, n) {
      assert InCharge(cfg, t, n, tp) <==> InCharge(cfg, s, n, tp);
    }
    assert ToPause(cfg, t, n) == {} && ToResume(cfg, t, n) == {};
  }

  // ---------------------------------------------------------------- stale flags

  /**
   * The flag of backpressure agrees with the transport as long as no Resume call names a partition
   * that backpressure has paused: Resume lifts that pause and leaves the flag.
   */
  lemma FlagAgreesStep(cfg: Config, s: Flags, ev: PauseEvent)
    requires s.auto <= s.transport
    ensures
      var t := NextFlags(cfg, s, ev);
      t.auto <= t.transport <==> (ev.ResumeCall? ==> ResumeTargets(s, ev.parts) !! s.auto)
  {
    var t := NextFlags(cfg, s, ev);
    if ev.ResumeCall? {
      if tp :| tp in ResumeTargets(s, ev.parts) && tp in s.auto {
        assert tp in t.auto && tp !in t.transport;
      }
    }
  }

  lemma {:induction false} FlagAgrees(cfg: Config, ss: seq<Flags>, evs: seq<PauseEvent>, i: nat)
    requires PauseRun(cfg, ss, evs) && i < |ss|
    requires forall j :: 0 <= j < i && evs[j].ResumeCall? ==> ResumeTargets(ss[j], evs[j].parts) !! ss[j].auto
    ensures ss[i].auto <= ss[i].transport
  {
    if 0 < i {
      FlagAgrees(cfg, ss, evs, i - 1);
      FlagAgreesStep(cfg, ss[i - 1], evs[i - 1]);
    }
  }

  /**
   * With a stale flag backpressure is blind: a partition at MaxInFlight or above is paused after it
   * exactly when its flag was not stale.
   */
  lemma StaleFlagBlinds(cfg: Config, ss: seq<Flags>, evs: seq<PauseEvent>, i: nat, tp: TopicPartition)
    requires ValidConfig(cfg) && Pausable(cfg) && PauseRun(cfg, ss, evs) && i < |evs| && evs[i].Backpressure?
    requires tp in evs[i].n && tp !in ss[i].manual && evs[i].n[tp] >= High(cfg)
    ensures tp in ss[i + 1].transport <==> !(tp in ss[i].auto && tp !in ss[i].transport)
  {
    BackpressureDecides(cfg, ss, evs, i, tp);
  }

  /** A run that leaves such a flag: backpressure pauses a partition, and the user resumes it. */
  lemma StaleFlagReached(cfg: Config, tp: TopicPartition) returns (ss: seq<Flags>, evs: seq<PauseEvent>)
    requires Pausable(cfg)
    ensures PauseRun(cfg, ss, evs) && tp in ss[|evs|].held && tp in ss[|evs|].auto && tp !in ss[|evs|].transport
  {
    evs := [Assigned({tp}), Backpressure(map[tp := High(cfg)]), ResumeCall({tp})];
    var s0 := Flags({}, {}, {}, {});
    var s1 := NextFlags(cfg, s0, evs[0]);
    var s2 := NextFlags(cfg, s1, evs[1]);
    assert tp in ToPause(cfg, s1, map[tp := High(cfg)]);
    var s3 := NextFlags(cfg, s2, evs[2]);
    ss := [s0, s1, s2, s3];
    assert s1.held == {tp} && map[tp := High(cfg)].Keys == {tp};
  }

  // ---------------------------------------------------------------- calls that overlap

  /**
   * Pause is not one step: a revoke between its flag and its call to the transport leaves a pause
   * that nobody owns, exactly when it takes one of the partitions named.
   */
  lemma PauseRacesRevoke(cfg: Config, s: Flags, parts: Parts, revoked: Parts)
    requires PauseInv(cfg, s)
    ensures
      var t := TransportPause(NextFlags(cfg, FlagPause(s, parts), Revoked(revoked)), parts);
      Owned(t) <==> parts !! revoked
  {
    var t := TransportPause(NextFlags(cfg, FlagPause(s, parts), Revoked(revoked)), parts);
    if tp :| tp in parts && tp in revoked {
      assert tp in t.transport && tp !in t.auto + t.manual;
    }
  }

  /**
   * Neither is backpressure: a Pause call between its flags and its calls to the transport loses its
   * effect there, exactly when backpressure is about to resume one of the partitions named.
   */
  lemma BackpressureRacesPause(cfg: Config, s: Flags, n: InFlightCounts, parts: Parts)
    requires PauseInv(cfg, s) && parts != {}
    ensures
      var paused := NextFlags(cfg, FlagBackpressure(cfg, s, n), PauseCall(parts));
      var t := TransportResume(TransportPause(paused, ToPause(cfg, s, n)), ToResume(cfg, s, n));
      t.manual <= t.transport <==> parts !! ToResume(cfg, s, n)
  {
    var paused := NextFlags(cfg, FlagBackpressure(cfg, s, n), PauseCall(parts));
    var t := TransportResume(TransportPause(paused, ToPause(cfg, s, n)), ToResume(cfg, s, n));
    if tp :| tp in parts && tp in ToResume(cfg, s, n) {
      assert tp in t.manual && tp !in t.transport;
    }
  }

  /**
   * Nor is a revoke: it drops its flags before the drain and resumes the transport after it. A Pause
   * call in between is flagged but not in force exactly when it names a revoked partition.
   */
  lemma RevokeRacesPause(cfg: Config, s: Flags, revoked: Parts, parts: Parts)
    requires PauseInv(cfg, s) && parts != {}
    ensures
      var dropped := Flags(s.held - revoked, s.auto - revoked, s.manual - revoked, s.transport);
      var t := TransportResume(NextFlags(cfg, dropped, PauseCall(parts)), revoked);
      t.manual <= t.transport <==> parts !! revoked
  {
    var dropped := Flags(s.held - revoked, s.auto - revoked, s.manual - revoked, s.transport);
    var t := TransportResume(NextFlags(cfg, dropped, PauseCall(parts)), revoked);
    if tp :| tp in parts && tp in revoked {
      assert tp in t.manual && tp !in t.transport;
    }
  }

  /**
   * A Resume call within a Pause call leaves a pause that nobody owns, exactly unless backpressure
   * owns every partition that both name.
   */
  lemma PauseRacesResume(cfg: Config, s: Flags, parts: Parts, resumed: Parts)
    requires PauseInv(cfg, s) && resumed != {}
    ensures
      var t := TransportPause(NextFlags(cfg, FlagPause(s, parts), ResumeCall(resumed)), parts);
      Owned(t) <==> parts * resumed <= s.auto
  {
    var t := TransportPause(NextFlags(cfg, FlagPause(s, parts), ResumeCall(resumed)), parts);
    if tp :| tp in parts * resumed && tp !in s.auto {
      assert tp in t.transport && tp !in t.auto + t.manual;
    }
  }

  /** And a Pause call within a Resume call is not in force exactly when both name some partition. */
  lemma ResumeRacesPause(cfg: Config, s: Flags, resumed: Parts, parts: Parts)
    requires PauseInv(cfg, s) && parts != {}
    ensures
      var t := TransportResume(NextFlags(cfg, s.(manual := s.manual - resumed), PauseCall(parts)), resumed);
      t.manual <= t.transport <==> parts !! resumed
  {
    var t := TransportResume(NextFlags(cfg, s.(manual := s.manual - resumed), PauseCall(parts)), resumed);
    if tp :| tp in parts && tp in resumed {
      assert tp in t.manual && tp !in t.transport;
    }
  }
}
