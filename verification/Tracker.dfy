/**
 * The offset tracker: a set of completed offsets and a pointer that scans forward over it.
 * The functions give one critical section each; the class is the object that runs them.
 */
module TrackerSpec {
  import opened Types

  datatype Tracker = Tracker(
    hasBase: bool,
    base: Offset,
    done: set<Offset>,
    baseline: Offset,
    baselineSet: bool)

  const FRESH := Tracker(false, 0, {}, 0, false)

  function Seed(t: Tracker, o: Offset): Tracker {
    if t.hasBase then t
    else if t.baselineSet then t.(hasBase := true, base := o)
    else t.(hasBase := true, base := o, baseline := o, baselineSet := true)
  }

  function Advance(t: Tracker): Tracker
    decreases |t.done|
  {
    if t.base in t.done then Advance(t.(done := t.done - {t.base}, base := t.base + 1)) else t
  }

  function Complete(t: Tracker, o: Offset): Tracker {
    var s := if t.hasBase then t else t.(hasBase := true, base := o);
    if o < s.base then s else Advance(s.(done := s.done + {o}))
  }

  function MarkCommitted(t: Tracker): Tracker {
    t.(baseline := t.base, baselineSet := true)
  }

  predicate AdvancedSinceCommit(t: Tracker) {
    t.baselineSet && t.base > t.baseline
  }

  // ---------------------------------------------------------------- the reference definition

  /** b is the least offset at or above seed that is not in c. */
  ghost predicate LeastMissing(b: Offset, seed: Offset, c: set<Offset>) {
    && seed <= b
    && b !in c
    && forall n :: seed <= n < b ==> n in c
  }

  ghost function Above(c: set<Offset>, b: Offset): set<Offset> {
    set o | o in c && b < o
  }

  /** t is what the tracker must be once exactly the offsets c completed, starting from seed. */
  ghost predicate Tracks(t: Tracker, seed: Offset, c: set<Offset>) {
    && t.hasBase
    && LeastMissing(t.base, seed, c)
    && t.done == Above(c, t.base)
  }

  lemma {:induction false} AdvanceTracks(t: Tracker, seed: Offset, c: set<Offset>)
    requires t.hasBase && seed <= t.base
    requires forall n :: seed <= n < t.base ==> n in c
    requires t.done == set o | o in c && t.base <= o
    ensures Tracks(Advance(t), seed, c)
    ensures Advance(t).baseline == t.baseline && Advance(t).baselineSet == t.baselineSet
    ensures t.base <= Advance(t).base
    decreases |t.done|
  {
    if t.base in t.done {
      var next := t.(done := t.done - {t.base}, base := t.base + 1);
      assert next.done == set o | o in c && next.base <= o;
      AdvanceTracks(next, seed, c);
    } else {
      assert t.done == Above(c, t.base);
    }
  }

  /** One completion, whatever its offset: repeated, below the seed, or out of order. */
  lemma CompleteTracks(t: Tracker, seed: Offset, c: set<Offset>, o: Offset)
    requires Tracks(t, seed, c)
    ensures Tracks(Complete(t, o), seed, c + {o})
    ensures t.base <= Complete(t, o).base
    ensures Complete(t, o).baseline == t.baseline && Complete(t, o).baselineSet == t.baselineSet
  {
    if o < t.base {
      assert Above(c + {o}, t.base) == Above(c, t.base);
    } else {
      var s := t.(done := t.done + {o});
      assert s.done == set n | n in c + {o} && s.base <= n;
      AdvanceTracks(s, seed, c + {o});
    }
  }

  /** Completing before any seed makes that offset the seed, but leaves the commit baseline unset. */
  lemma CompleteUnseeded(t: Tracker, o: Offset)
    requires !t.hasBase && t.done == {}
    ensures Tracks(Complete(t, o), o, {o}) && Complete(t, o).base == o + 1
    ensures Complete(t, o).baselineSet == t.baselineSet
  {
    var s := t.(hasBase := true, base := o, done := {o});
    assert t.done + {o} == {o};
    AdvanceTracks(s, o, {o});
  }

  lemma SeedTracks(t: Tracker, o: Offset)
    requires !t.hasBase && t.done == {}
    ensures Tracks(Seed(t, o), o, {})
  {
  }

  lemma LeastMissingUnique(a: Offset, b: Offset, seed: Offset, c: set<Offset>)
    requires LeastMissing(a, seed, c) && LeastMissing(b, seed, c)
    ensures a == b
  {
  }

  // ---------------------------------------------------------------- whole histories

  function CompleteAll(t: Tracker, os: seq<Offset>): Tracker {
    if os == [] then t else Complete(CompleteAll(t, os[..|os| - 1]), os[|os| - 1])
  }

  ghost function ToSet(os: seq<Offset>): set<Offset> {
    set o | o in os
  }

  lemma {:induction false} CompleteAllTracks(seed: Offset, os: seq<Offset>)
    ensures Tracks(CompleteAll(Seed(FRESH, seed), os), seed, ToSet(os))
    ensures CompleteAll(Seed(FRESH, seed), os).baseline == seed
    ensures CompleteAll(Seed(FRESH, seed), os).baselineSet
  {
    if os == [] {
      SeedTracks(FRESH, seed);
      assert ToSet(os) == {};
    } else {
      var init, last := os[..|os| - 1], os[|os| - 1];
      CompleteAllTracks(seed, init);
      CompleteTracks(CompleteAll(Seed(FRESH, seed), init), seed, ToSet(init), last);
      assert os == init + [last];
      assert ToSet(os) == ToSet(init) + {last};
    }
  }

  /** The order and the repetitions of the completions leave no trace in the tracker. */
  lemma Confluence(seed: Offset, os1: seq<Offset>, os2: seq<Offset>)
    requires ToSet(os1) == ToSet(os2)
    ensures CompleteAll(Seed(FRESH, seed), os1) == CompleteAll(Seed(FRESH, seed), os2)
  {
    CompleteAllTracks(seed, os1);
    CompleteAllTracks(seed, os2);
    LeastMissingUnique(CompleteAll(Seed(FRESH, seed), os1).base, CompleteAll(Seed(FRESH, seed), os2).base,
                       seed, ToSet(os1));
  }

  // ---------------------------------------------------------------- conservation and cost

  ghost function AtOrAbove(c: set<Offset>, seed: Offset): set<Offset> {
    set o | o in c && seed <= o
  }

  ghost function Interval(a: Offset, b: Offset): (s: set<Offset>)
    ensures forall n :: n in s <==> a <= n < b
    ensures a <= b ==> |s| == b - a
    decreases b - a
  {
    if b <= a then {} else Interval(a, b - 1) + {b - 1}
  }

  /**
   * Every distinct completion is either behind the pointer or waiting in the done set. The scan
   * loop runs once per step of the pointer, so this also bounds the scanning of a whole run.
   */
  lemma TracksConserves(t: Tracker, seed: Offset, c: set<Offset>)
    requires Tracks(t, seed, c)
    ensures t.base - seed + |t.done| == |AtOrAbove(c, seed)|
  {
    var behind := Interval(seed, t.base);
    assert AtOrAbove(c, seed) == behind + t.done;
    assert behind !! t.done;
  }

  lemma {:induction false} ToSetSize(os: seq<Offset>)
    ensures |ToSet(os)| <= |os|
  {
    if os != [] {
      ToSetSize(os[1..]);
      assert ToSet(os) == ToSet(os[1..]) + {os[0]};
    }
  }

  lemma AdvanceWithin(t: Tracker, seed: Offset, c: set<Offset>, calls: nat)
    requires Tracks(t, seed, c) && |c| <= calls
    ensures t.base - seed <= calls
  {
    TracksConserves(t, seed, c);
    var relevant := AtOrAbove(c, seed);
    assert c == relevant + (c - relevant);
  }

  /**
   * Over any run of completions the pointer moves at most once per call, and exactly as often as
   * offsets were settled that are no longer in the done set.
   */
  lemma ScanCost(seed: Offset, os: seq<Offset>)
    ensures
      var t := CompleteAll(Seed(FRESH, seed), os);
      && 0 <= t.base - seed <= |os|
      && t.base - seed + |t.done| == |AtOrAbove(ToSet(os), seed)|
  {
    CompleteAllTracks(seed, os);
    ToSetSize(os);
    AdvanceWithin(CompleteAll(Seed(FRESH, seed), os), seed, ToSet(os), |os|);
    TracksConserves(CompleteAll(Seed(FRESH, seed), os), seed, ToSet(os));
  }

  // ---------------------------------------------------------------- the commit baseline

  /** The baseline a commit of the value sent would leave behind if it were marked with that value. */
  function MarkCommittedAt(t: Tracker, sent: Offset): Tracker {
    t.(baseline := sent, baselineSet := true)
  }
}

module TrackerObject {
  import opened Types
  import opened TrackerSpec

  class OffsetTracker {
    var hasBase: bool
    var done: set<Offset>
    var base: Offset
    var baseline: Offset
    var baselineSet: bool

    /** The offset the pointer started from, what completed since, and the work spent on it. */
    ghost var origin: Offset
    ghost var completed: set<Offset>
    ghost var calls: nat
    ghost var scans: nat

    ghost predicate Valid()
      reads this
    {
      && (hasBase ==> Tracks(State(), origin, completed))
      && (!hasBase ==> done == {} && completed == {})
      && scans == (if hasBase then base - origin else 0)
      && |completed| <= calls
    }

    ghost function State(): Tracker
      reads this
    {
      Tracker(hasBase, base, done, baseline, baselineSet)
    }

    constructor ()
      ensures Valid() && State() == FRESH && completed == {} && scans == calls == 0
    {
      hasBase, base, done, baseline, baselineSet := false, 0, {}, 0, false;
      origin, completed, calls, scans := 0, {}, 0, 0;
    }

    method Seed(o: Offset)
      requires Valid()
      modifies this
      ensures Valid() && State() == TrackerSpec.Seed(old(State()), o)
      ensures completed == old(completed) && calls == old(calls) && scans == old(scans)
      ensures origin == if old(hasBase) then old(origin) else o
    {
      if !hasBase {
        base := o;
        hasBase := true;
        if !baselineSet {
          baseline := o;
          baselineSet := true;
        }
        origin := o;
        SeedTracks(old(State()), o);
      }
    }

    /**
     * Marks o as completed. The result is the least offset from the origin on that has not
     * completed, and a whole run of calls scans at most once per call.
     */
    method Complete(o: Offset) returns (r: Offset)
      requires Valid()
      modifies this
      ensures Valid() && State() == TrackerSpec.Complete(old(State()), o)
      ensures completed == old(completed) + {o} && calls == old(calls) + 1
      ensures origin == if old(hasBase) then old(origin) else o
      ensures r == base && LeastMissing(r, origin, completed)
      ensures old(hasBase) ==> old(base) <= r
      ensures scans <= calls
    {
      ghost var before, after := State(), TrackerSpec.Complete(State(), o);
      if hasBase {
        CompleteTracks(before, origin, completed, o);
      } else {
        CompleteUnseeded(before, o);
        origin := o;
        assert completed + {o} == {o};
      }
      completed := completed + {o};
      calls := calls + 1;
      AdvanceWithin(after, origin, completed, calls);
      if !hasBase {
        base := o;
        hasBase := true;
      }
      if o >= base {
        done := done + {o};
        Scan();
      }
      assert State() == after;
      r := base;
    }

    /** The forward scan at the end of Complete. */
    method Scan()
      requires hasBase
      modifies `done, `base, `scans
      ensures State() == Advance(old(State()))
      ensures base - scans == old(base - scans)
    {
      while base in done
        invariant Advance(State()) == Advance(old(State()))
        invariant base - scans == old(base - scans)
        decreases |done|
      {
        done := done - {base};
        base := base + 1;
        scans := scans + 1;
      }
    }

    function BaseOffset(): (r: Offset)
      reads this
      ensures Valid() && hasBase ==> LeastMissing(r, origin, completed)
    {
      base
    }

    function Seeded(): bool
      reads this
    {
      hasBase
    }

    function AdvancedSinceCommit(): (r: bool)
      reads this
      ensures r == TrackerSpec.AdvancedSinceCommit(State())
    {
      baselineSet && base > baseline
    }

    method MarkCommitted()
      requires Valid()
      modifies this
      ensures Valid() && State() == TrackerSpec.MarkCommitted(old(State()))
      ensures completed == old(completed) && calls == old(calls) && scans == old(scans) && origin == old(origin)
    {
      baseline := base;
      baselineSet := true;
    }
  }
}
