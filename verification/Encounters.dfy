/**
 * What a track's aggregates mean: each is the fold it claims to be over exactly the sightings that
 * were matched to the track, and matching bounds how far those sightings can have drifted.
 */
module Encounters {
  import opened Common
  import opened Alerts
  import opened Matching
  import opened Tracks
  import opened Runs

  // ---------------------------------------------------------------- folds over sightings

  /** `p` is the greatest of the known values, and unknown only if none is known. */
  ghost predicate IsPeak(values: seq<Option<int>>, p: Option<int>) {
    && (p.None? <==> forall k :: 0 <= k < |values| ==> values[k].None?)
    && (p.Some? ==> p in values && forall k :: 0 <= k < |values| && values[k].Some? ==> values[k].value <= p.value)
  }

  ghost predicate IsHighest(values: seq<Option<real>>, p: Option<real>) {
    && (p.None? <==> forall k :: 0 <= k < |values| ==> values[k].None?)
    && (p.Some? ==> p in values && forall k :: 0 <= k < |values| && values[k].Some? ==> values[k].value <= p.value)
  }

  ghost predicate IsLowest(values: seq<Option<real>>, p: Option<real>) {
    && (p.None? <==> forall k :: 0 <= k < |values| ==> values[k].None?)
    && (p.Some? ==> p in values && forall k :: 0 <= k < |values| && values[k].Some? ==> p.value <= values[k].value)
  }

  lemma {:induction false} PeakAfter(values: seq<Option<int>>, p: Option<int>, v: Option<int>)
    requires IsPeak(values, p)
    ensures IsPeak(values + [v], LargerOf(p, v))
  {
    var more := values + [v];
    assert more[|values|] == v;
    assert forall k :: 0 <= k < |values| ==> more[k] == values[k];
    assert LargerOf(p, v).Some? ==> LargerOf(p, v) in more;
  }

  lemma {:induction false} HighestAfter(values: seq<Option<real>>, p: Option<real>, v: Option<real>)
    requires IsHighest(values, p)
    ensures IsHighest(values + [v], HigherOf(p, v))
  {
    var more := values + [v];
    assert more[|values|] == v;
    assert forall k :: 0 <= k < |values| ==> more[k] == values[k];
    assert HigherOf(p, v).Some? ==> HigherOf(p, v) in more;
  }

  lemma {:induction false} LowestAfter(values: seq<Option<real>>, p: Option<real>, v: Option<real>)
    requires IsLowest(values, p)
    ensures IsLowest(values + [v], LowerOf(p, v))
  {
    var more := values + [v];
    assert more[|values|] == v;
    assert forall k :: 0 <= k < |values| ==> more[k] == values[k];
    assert LowerOf(p, v).Some? ==> LowerOf(p, v) in more;
  }

  function Strengths(obs: seq<Sighting>): seq<Option<int>> {
    seq(|obs|, k requires 0 <= k < |obs| => obs[k].alert.strength)
  }

  function Signals(obs: seq<Sighting>): seq<Option<int>> {
    seq(|obs|, k requires 0 <= k < |obs| => obs[k].alert.signal)
  }

  function Frequencies(obs: seq<Sighting>): seq<Option<real>> {
    seq(|obs|, k requires 0 <= k < |obs| => obs[k].alert.frequency)
  }

  /** The bearings reported, in order, skipping the sightings that reported none. */
  function Bearings(obs: seq<Sighting>): string {
    if |obs| == 0 then ""
    else
      var d := obs[|obs| - 1].alert.direction;
      Bearings(obs[..|obs| - 1]) + (if d.Some? then [d.value] else "")
  }

  /** Each run of one letter reduced to a single letter. */
  function Collapse(s: string): string {
    if |s| <= 1 then s
    else if s[0] == s[1] then Collapse(s[1..])
    else [s[0]] + Collapse(s[1..])
  }

  lemma {:induction false} CollapseEnds(s: string)
    ensures |s| > 0 ==> |Collapse(s)| > 0 && Collapse(s)[0] == s[0] && Collapse(s)[|Collapse(s)| - 1] == s[|s| - 1]
    ensures forall k :: 0 <= k < |Collapse(s)| - 1 ==> Collapse(s)[k] != Collapse(s)[k + 1]
  {
    if |s| <= 1 {
    } else {
      CollapseEnds(s[1..]);
    }
  }

  lemma {:induction false} CollapseAfter(s: string, c: char)
    ensures Collapse(s + [c]) == WithDirection(Collapse(s), Some(c))
  {
    CollapseEnds(s);
    if |s| > 1 {
      assert (s + [c])[1..] == s[1..] + [c];
      CollapseAfter(s[1..], c);
      CollapseEnds(s[1..]);
    } else if |s| == 1 {
      assert (s + [c])[1..] == [c];
    }
  }

  // ---------------------------------------------------------------- one track

  /** Successive sightings of one track were each acceptable to the matcher. */
  ghost predicate Continuous(obs: seq<Sighting>) {
    && |obs| > 0
    && forall k :: 0 <= k < |obs| - 1 ==> MatchCost(obs[k].alert, obs[k + 1].alert).Some?
  }

  ghost predicate Summarises(t: Track, obs: seq<Sighting>) {
    && |obs| > 0
    && t.samples == |obs|
    && t.alert == obs[|obs| - 1].alert
    && t.key == KeyOf(obs[0].alert)
    && t.firstMono == obs[0].mono && t.firstWall == obs[0].wall
    && t.lastMono == obs[|obs| - 1].mono && t.lastWall == obs[|obs| - 1].wall
    && IsPeak(Strengths(obs), t.maxStrength)
    && IsPeak(Signals(obs), t.maxSignal)
    && IsLowest(Frequencies(obs), t.minFrequency)
    && IsHighest(Frequencies(obs), t.maxFrequency)
    && t.directions == Collapse(Bearings(obs))
    && (t.ambiguous <==> SomeClose(obs))
  }

  /** Some sighting could nearly as well have been of another track. */
  ghost predicate SomeClose(obs: seq<Sighting>) {
    exists k :: 0 <= k < |obs| && obs[k].close
  }

  lemma {:induction false} CloseAfter(obs: seq<Sighting>, s: Sighting)
    ensures SomeClose(obs + [s]) <==> SomeClose(obs) || s.close
  {
    var more := obs + [s];
    assert more[|obs|] == s;
    if SomeClose(obs) {
      var k :| 0 <= k < |obs| && obs[k].close;
      assert more[k].close;
    }
  }

  /** An END event reports the folds over the sightings, and the span between first and last. */
  ghost predicate EndSummarises(e: Event, obs: seq<Sighting>) {
    && |obs| > 0
    && e.alert == obs[|obs| - 1].alert
    && e.mono == obs[|obs| - 1].mono
    && (e.correlation == Timeout ==> e.wall == obs[|obs| - 1].wall)
    && (e.correlation == Ambiguous <==> SomeClose(obs))
    && (e.correlation == Ambiguous || e.correlation == Timeout || e.correlation == Closed)
    && e.aggregates.Some?
    && var g := e.aggregates.value;
    && g.samples == |obs|
    && g.durationS == (obs[|obs| - 1].mono - obs[0].mono) as real / 1000000000.0
    && IsPeak(Strengths(obs), g.maxStrength)
    && IsPeak(Signals(obs), g.maxSignal)
    && g.directions == Collapse(Bearings(obs))
  }

  lemma {:induction false} FirstBearing(a: Alert, mono: int, wall: int, stamp: nat)
    ensures Collapse(Bearings([Sighting(a, mono, wall, stamp, false)]))
         == if a.direction.Some? then [a.direction.value] else ""
  {
    var obs := [Sighting(a, mono, wall, stamp, false)];
    assert obs[..0] == [];
    assert Bearings(obs) == if a.direction.Some? then [a.direction.value] else "";
  }

  lemma {:induction false} SummarisesNew(id: nat, a: Alert, mono: int, wall: int, stamp: nat)
    ensures Summarises(NewTrack(id, a, mono, wall), [Sighting(a, mono, wall, stamp, false)])
  {
    var obs := [Sighting(a, mono, wall, stamp, false)];
    var t := NewTrack(id, a, mono, wall);
    assert Strengths(obs) == [] + [a.strength] && Signals(obs) == [] + [a.signal];
    assert Frequencies(obs) == [] + [a.frequency];
    PeakAfter([], None, a.strength);
    PeakAfter([], None, a.signal);
    LowestAfter([], None, a.frequency);
    HighestAfter([], None, a.frequency);
    FirstBearing(a, mono, wall, stamp);
  }

  lemma {:induction false} SummarisesAbsorbed(t: Track, obs: seq<Sighting>, a: Alert, mono: int, wall: int, stamp: nat,
                                              close: bool)
    requires Summarises(t, obs)
    ensures Summarises(Absorbed(t.(ambiguous := t.ambiguous || close), a, mono, wall),
                       obs + [Sighting(a, mono, wall, stamp, close)])
  {
    var more := obs + [Sighting(a, mono, wall, stamp, close)];
    CloseAfter(obs, Sighting(a, mono, wall, stamp, close));
    PeakAfter(Strengths(obs), t.maxStrength, a.strength);
    PeakAfter(Signals(obs), t.maxSignal, a.signal);
    LowestAfter(Frequencies(obs), t.minFrequency, a.frequency);
    HighestAfter(Frequencies(obs), t.maxFrequency, a.frequency);
    assert Strengths(more) == Strengths(obs) + [a.strength];
    assert Signals(more) == Signals(obs) + [a.signal];
    assert Frequencies(more) == Frequencies(obs) + [a.frequency];
    assert more[..|obs|] == obs;
    if a.direction.Some? {
      CollapseAfter(Bearings(obs), a.direction.value);
    } else {
      assert Bearings(more) == Bearings(obs);
    }
  }

  // ---------------------------------------------------------------- drift

  /** A chain of accepted matches keeps one identity and one tolerance. */
  lemma {:induction false} OneIdentity(obs: seq<Sighting>, k: nat)
    requires Continuous(obs) && k < |obs|
    ensures KeyOf(obs[k].alert) == KeyOf(obs[0].alert)
  {
    if k == 0 {
    } else {
      OneIdentity(obs, k - 1);
      MatchCostMeaning(obs[k - 1].alert, obs[k].alert);
    }
  }

  lemma {:induction false} DriftBetween(obs: seq<Sighting>, i: nat, j: nat)
    requires Continuous(obs) && i <= j < |obs|
    requires forall k :: 0 <= k < |obs| ==> obs[k].alert.frequency.Some?
    ensures Distance(obs[i].alert.frequency.value, obs[j].alert.frequency.value)
              <= (j - i) as real * FamilyTolerance(BandFamily(obs[0].alert.band))
    decreases j - i
  {
    if i >= j {
    } else {
      DriftBetween(obs, i, j - 1);
      OneIdentity(obs, j - 1);
      MatchCostMeaning(obs[j - 1].alert, obs[j].alert);
      var tol := FamilyTolerance(BandFamily(obs[0].alert.band));
      OneMore(j - i, tol);
    }
  }

  lemma {:induction false} OneMore(n: nat, x: real)
    requires n > 0
    ensures n as real * x == (n - 1) as real * x + x
  {
  }

  /**
   * The identity of a track is the identity of its latest reading, and its lowest and highest
   * frequency are no further apart than one tolerance for each match made.
   */
  lemma {:induction false} DriftIsBounded(t: Track, obs: seq<Sighting>)
    requires Summarises(t, obs) && Continuous(obs)
    ensures t.key == KeyOf(t.alert)
    ensures (forall k :: 0 <= k < |obs| ==> obs[k].alert.frequency.Some?) ==>
              && t.minFrequency.Some? && t.maxFrequency.Some?
              && t.maxFrequency.value - t.minFrequency.value <= (t.samples - 1) as real * FamilyTolerance(t.key.family)
  {
    OneIdentity(obs, |obs| - 1);
    if forall k :: 0 <= k < |obs| ==> obs[k].alert.frequency.Some? {
      SpreadIsBounded(obs, t.minFrequency, t.maxFrequency);
    }
  }

  lemma {:induction false} SpreadIsBounded(obs: seq<Sighting>, lowest: Option<real>, highest: Option<real>)
    requires Continuous(obs)
    requires forall k :: 0 <= k < |obs| ==> obs[k].alert.frequency.Some?
    requires IsLowest(Frequencies(obs), lowest) && IsHighest(Frequencies(obs), highest)
    ensures lowest.Some? && highest.Some?
    ensures highest.value - lowest.value <= (|obs| - 1) as real * FamilyTolerance(BandFamily(obs[0].alert.band))
  {
    assert Frequencies(obs)[0].Some?;
    var lo: nat :| lo < |obs| && Frequencies(obs)[lo] == lowest;
    var hi: nat :| hi < |obs| && Frequencies(obs)[hi] == highest;
    DriftWithin(obs, lo, hi);
  }

  lemma {:induction false} DriftWithin(obs: seq<Sighting>, lo: nat, hi: nat)
    requires Continuous(obs) && lo < |obs| && hi < |obs|
    requires forall k :: 0 <= k < |obs| ==> obs[k].alert.frequency.Some?
    ensures obs[hi].alert.frequency.value - obs[lo].alert.frequency.value
            <= (|obs| - 1) as real * FamilyTolerance(BandFamily(obs[0].alert.band))
  {
    var i, j := if lo <= hi then lo else hi, if lo <= hi then hi else lo;
    DriftBetween(obs, i, j);
    Scaled(j - i, |obs| - 1, FamilyTolerance(BandFamily(obs[0].alert.band)));
  }

  lemma {:induction false} Scaled(m: nat, n: nat, x: real)
    requires m <= n && x > 0.0
    ensures m as real * x <= n as real * x
  {
  }

  // ---------------------------------------------------------------- the invariant

  ghost predicate EndsMatch(log: seq<Event>, seen: map<nat, seq<Sighting>>) {
    forall j :: 0 <= j < |log| && log[j].kind == End ==>
      log[j].trackId in seen && EndSummarises(log[j], seen[log[j].trackId])
  }

  ghost predicate TracksMatch(tracks: seq<Track>, seen: map<nat, seq<Sighting>>) {
    forall t :: t in tracks ==> t.id in seen && Summarises(t, seen[t.id])
  }

  ghost predicate Booked(w: World) {
    && (forall id :: id in w.seen <==> 1 <= id < w.st.nextId)
    && (forall id :: id in w.seen ==> Continuous(w.seen[id]))
    && TracksMatch(w.st.tracks, w.seen)
    && EndsMatch(w.log, w.seen)
  }

  /** An id whose track has ended is no longer live. */
  lemma {:induction false} EndedIsOver(log: seq<Event>, j: nat)
    requires j < |log| && log[j].kind == End
    ensures PhaseOf(log, log[j].trackId) == Over || PhaseOf(log, log[j].trackId) == Broken
  {
    if j == |log| - 1 {
    } else {
      EndedIsOver(log[..|log| - 1], j);
    }
  }

  lemma {:induction false} BookedStart(w: World, a: Alert, snap: Snapshot, stamp: nat)
    requires Lives(w) && Booked(w)
    ensures Booked(StepStart(w, a, snap, stamp))
  {
    var w' := StepStart(w, a, snap, stamp);
    SummarisesNew(w.st.nextId, a, snap.mono, snap.wall, stamp);
    assert w'.seen[w.st.nextId] == [Sighting(a, snap.mono, snap.wall, stamp, false)];
  }

  lemma {:induction false} EndsMatchMore(log: seq<Event>, seen: map<nat, seq<Sighting>>, id: nat, obs: seq<Sighting>)
    requires EndsMatch(log, seen) && PhaseOf(log, id) == Live
    ensures EndsMatch(log, seen[id := obs])
  {
    forall j | 0 <= j < |log| && log[j].kind == End ensures log[j].trackId != id {
      EndedIsOver(log, j);
    }
  }

  lemma {:induction false} ContinuousMore(obs: seq<Sighting>, s: Sighting)
    requires Continuous(obs) && MatchCost(obs[|obs| - 1].alert, s.alert).Some?
    ensures Continuous(obs + [s])
  {
    var more := obs + [s];
    forall k | 0 <= k < |more| - 1 ensures MatchCost(more[k].alert, more[k + 1].alert).Some? {
      if k < |obs| - 1 {
        assert MatchCost(obs[k].alert, obs[k + 1].alert).Some?;
      }
    }
  }

  lemma {:induction false} TracksMatchMore(st: State, seen: map<nat, seq<Sighting>>, k: nat, t: Track,
                                           obs: seq<Sighting>)
    requires WellFormed(st) && TracksMatch(st.tracks, seen) && k < |st.tracks| && t.id == st.tracks[k].id
    requires Summarises(t, obs)
    ensures TracksMatch(st.tracks[k := t], seen[t.id := obs])
  {
    var tracks := st.tracks[k := t];
    forall u | u in tracks ensures u.id in seen[t.id := obs] && Summarises(u, seen[t.id := obs][u.id]) {
      var j :| 0 <= j < |tracks| && tracks[j] == u;
      if j != k {
        assert st.tracks[j] in st.tracks;
      }
    }
  }

  lemma {:induction false} BookedAbsorb(w: World, k: nat, a: Alert, snap: Snapshot, close: bool, stamp: nat)
    requires Lives(w) && Booked(w) && k < |w.st.tracks|
    requires MatchCost(w.st.tracks[k].alert, a).Some?
    ensures Booked(StepAbsorb(w, k, a, snap, close, stamp))
  {
    var w' := StepAbsorb(w, k, a, snap, close, stamp);
    var t := w.st.tracks[k];
    assert t in w.st.tracks;
    var obs := w.seen[t.id];
    var s := Sighting(a, snap.mono, snap.wall, stamp, close);
    var held := t.(ambiguous := t.ambiguous || close);
    assert w'.seen == w.seen[t.id := obs + [s]];
    SummarisesAbsorbed(t, obs, a, snap.mono, snap.wall, stamp, close);
    TracksMatchMore(w.st, w.seen, k, Absorbed(held, a, snap.mono, snap.wall), obs + [s]);
    ContinuousMore(obs, s);
    assert HasId(w.st.tracks, t.id) && PhaseOf(w.log, t.id) == Live;
    EndsMatchMore(w.log, w.seen, t.id, obs + [s]);
    assert EndsMatch(w'.log, w'.seen);
  }

  lemma {:induction false} BookedMiss(w: World, k: nat)
    requires Booked(w) && k < |w.st.tracks|
    ensures Booked(StepMiss(w, k))
  {
    var w' := StepMiss(w, k);
    forall u | u in w'.st.tracks ensures u.id in w'.seen && Summarises(u, w'.seen[u.id]) {
      var j :| 0 <= j < |w'.st.tracks| && w'.st.tracks[j] == u;
      assert w.st.tracks[j] in w.st.tracks;
    }
  }

  lemma {:induction false} BookedEnd(w: World, k: nat, seqNo: int, wall: int, reason: Correlation)
    requires Booked(w) && k < |w.st.tracks| && (reason == Timeout || reason == Closed)
    ensures Booked(StepEnd(w, k, seqNo, wall, reason))
  {
    var w' := StepEnd(w, k, seqNo, wall, reason);
    assert w.st.tracks[k] in w.st.tracks;
    assert EndSummarises(EndEvent(w.st.tracks[k], seqNo, wall, reason), w.seen[w.st.tracks[k].id]);
    forall u | u in w'.st.tracks ensures u in w.st.tracks {
    }
  }
}
