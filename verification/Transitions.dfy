/**
 * Exactly what one snapshot, and one loss of the link, report: every event of a reachable tracker,
 * field by field, in terms of the tracks that were open before it.
 */
module Transitions {
  import opened Common
  import opened Alerts
  import opened Matching
  import opened Tracks
  import opened Runs
  import opened Encounters
  import opened RunTheorems
  import opened Histories

  // ---------------------------------------------------------------- the events, field by field

  /** The event was caused by slot `i` of the snapshot. */
  ghost predicate FromSlot(e: Event, snap: Snapshot, i: nat)
    requires i < |snap.alerts|
  {
    && e.seqNo == snap.seqNo && e.mono == snap.mono && e.wall == snap.wall
    && e.alert == snap.alerts[i] && e.aggregates == None
  }

  ghost predicate Starts(e: Event, snap: Snapshot, i: nat, id: nat)
    requires i < |snap.alerts|
  {
    FromSlot(e, snap, i) && e.kind == Start && e.trackId == id && e.correlation == New && e.material
  }

  /** A change that matters to a driver: band, bearing, strength or mute code. */
  predicate Matters(before: Alert, after: Alert) {
    !(before.band == after.band && before.direction == after.direction
      && before.strength == after.strength && before.muteCode == after.muteCode)
  }

  ghost predicate Updates(e: Event, snap: Snapshot, i: nat, t: Track, close: bool)
    requires i < |snap.alerts|
  {
    && FromSlot(e, snap, i) && e.kind == Update && e.trackId == t.id
    && (if close then e.correlation == Ambiguous else e.correlation == Matched)
    && (e.material <==> Matters(t.alert, snap.alerts[i]))
  }

  /** The end of a track, at the last moment it was seen; the wall clock is the given one if the link was lost. */
  ghost predicate Ends(e: Event, t: Track, seqNo: int, wall: int, lost: bool) {
    && e.kind == End && e.seqNo == seqNo && e.trackId == t.id && e.alert == t.alert && e.material
    && e.mono == t.lastMono && e.wall == (if lost then wall else t.lastWall)
    && e.correlation == (if t.ambiguous then Ambiguous else if lost then Closed else Timeout)
    && e.aggregates.Some?
    && var g := e.aggregates.value;
    && g.durationS * 1000000000.0 == (t.lastMono - t.firstMono) as real && g.samples == t.samples
    && g.maxStrength == t.maxStrength && g.maxSignal == t.maxSignal && g.directions == t.directions
  }

  // ---------------------------------------------------------------- the slots of a snapshot

  /** How many of the first `n` slots no open track was assigned to. */
  ghost function NewBefore(a: map<nat, nat>, n: nat): nat {
    |set i: nat | i < n && i !in a|
  }

  /**
   * What slot `i` reports: an unassigned one starts a track, under the next id in slot order; an
   * assigned one updates its track if anything published changed, and reports nothing otherwise.
   */
  ghost predicate Reported(st: State, snap: Snapshot, a: map<nat, nat>, close: set<nat>, i: nat, es: seq<Event>)
    requires i < |snap.alerts|
  {
    if i !in a then |es| == 1 && Starts(es[0], snap, i, st.nextId + NewBefore(a, i))
    else
      exists p ::
        && 0 <= p < |st.tracks| && st.tracks[p].id == a[i]
        && UpdatesOrNot(es, snap, i, st.tracks[p], i in close)
  }

  ghost predicate UpdatesOrNot(es: seq<Event>, snap: Snapshot, i: nat, t: Track, close: bool)
    requires i < |snap.alerts|
  {
    if LooksTheSame(t.alert, snap.alerts[i]) then es == [] else |es| == 1 && Updates(es[0], snap, i, t, close)
  }

  function Flatten(parts: seq<seq<Event>>): seq<Event> {
    if |parts| == 0 then [] else Flatten(parts[..|parts| - 1]) + parts[|parts| - 1]
  }

  ghost predicate AllReported(st: State, snap: Snapshot, a: map<nat, nat>, close: set<nat>, parts: seq<seq<Event>>)
    requires |parts| <= |snap.alerts|
  {
    forall i: nat :: i < |parts| ==> Reported(st, snap, a, close, i, parts[i])
  }

  function NewOnes(a: map<nat, nat>, n: nat): nat {
    if n == 0 then 0 else NewOnes(a, n - 1) + (if n - 1 in a then 0 else 1)
  }

  lemma {:induction false} NewBeforeNext(a: map<nat, nat>, n: nat)
    ensures NewBefore(a, n + 1) == NewBefore(a, n) + (if n in a then 0 else 1)
  {
    var before := set i: nat | i < n && i !in a;
    var all := set i: nat | i < n + 1 && i !in a;
    assert all == if n in a then before else before + {n};
  }

  lemma {:induction false} NewOnesAreBefore(a: map<nat, nat>, n: nat)
    ensures NewOnes(a, n) == NewBefore(a, n)
  {
    if n == 0 {
      assert (set i: nat | i < 0 && i !in a) == {};
    } else {
      NewOnesAreBefore(a, n - 1);
      NewBeforeNext(a, n - 1);
    }
  }

  lemma {:induction false} IdNext(st: State, snap: Snapshot, a: map<nat, nat>, close: set<nat>, n: nat)
    requires n < |snap.alerts| && AllHeld(a, st.tracks)
    ensures Slots(st, snap, a, close, n + 1).0.nextId
         == Slots(st, snap, a, close, n).0.nextId + (if n in a then 0 else 1)
  {
    SlotsNext(st, snap, a, close, n);
  }

  lemma {:induction false} IdsInOrder(st: State, snap: Snapshot, a: map<nat, nat>, close: set<nat>, n: nat)
    requires n <= |snap.alerts| && AllHeld(a, st.tracks)
    ensures Slots(st, snap, a, close, n).0.nextId == st.nextId + NewOnes(a, n)
  {
    if n == 0 {
    } else {
      IdsInOrder(st, snap, a, close, n - 1);
      IdNext(st, snap, a, close, n - 1);
    }
  }

  lemma {:induction false} StartIsReported(v: State, snap: Snapshot, i: nat)
    requires i < |snap.alerts|
    ensures var es := StartTrack(v, snap.alerts[i], snap).1; |es| == 1 && Starts(es[0], snap, i, v.nextId)
  {
  }

  lemma {:induction false} UpdateIsReported(v: State, p: nat, snap: Snapshot, i: nat, close: bool)
    requires i < |snap.alerts| && p < |v.tracks|
    ensures UpdatesOrNot(AbsorbAt(v, p, snap.alerts[i], snap, close).1, snap, i, v.tracks[p], close)
  {
    ViewsAreLooks(snap.alerts[i], v.tracks[p].alert);
  }

  /** One more slot, after slots that left every track fresh or as it was. */
  lemma {:induction false} SlotIsReported(w: World, v: World, snap: Snapshot, a: map<nat, nat>, close: set<nat>, n: nat)
    requires n < |snap.alerts| && WellFormed(w.st) && Sound(w, snap, a)
    requires v.st == Slots(w.st, snap, a, close, n).0 && SlotFacts(w, v, snap, a, n)
    ensures Reported(w.st, snap, a, close, n, SlotStep(v.st, snap, a, close, n).1)
  {
    if n in a {
      PositionIsOld(w, v, snap, a, n);
      var p := PositionOf(v.st.tracks, a[n]);
      UpdateIsReported(v.st, p, snap, n, n in close);
    } else {
      IdsInOrder(w.st, snap, a, close, n);
      NewOnesAreBefore(a, n);
      StartIsReported(v.st, snap, n);
    }
  }

  /** `parts` is what the first `n` slots reported, slot by slot. */
  ghost predicate Transcribed(st: State, snap: Snapshot, a: map<nat, nat>, close: set<nat>, n: nat,
                              parts: seq<seq<Event>>)
    requires n <= |snap.alerts| && AllHeld(a, st.tracks)
  {
    |parts| == n && Slots(st, snap, a, close, n).1 == Flatten(parts) && AllReported(st, snap, a, close, parts)
  }

  lemma {:induction false} FlattenOn(parts: seq<seq<Event>>, es: seq<Event>)
    ensures Flatten(parts + [es]) == Flatten(parts) + es
  {
    assert (parts + [es])[..|parts|] == parts;
  }

  lemma {:induction false} ReportedOn(st: State, snap: Snapshot, a: map<nat, nat>, close: set<nat>,
                                      parts: seq<seq<Event>>, es: seq<Event>)
    requires |parts| < |snap.alerts| && AllReported(st, snap, a, close, parts)
    requires Reported(st, snap, a, close, |parts|, es)
    ensures AllReported(st, snap, a, close, parts + [es])
  {
    var more := parts + [es];
    forall i: nat | i < |more| ensures Reported(st, snap, a, close, i, more[i]) {
      if i < |parts| {
        assert Reported(st, snap, a, close, i, parts[i]);
      }
    }
  }

  lemma {:induction false} NextIsReported(w: World, snap: Snapshot, a: map<nat, nat>, close: set<nat>, n: nat,
                                          parts: seq<seq<Event>>)
    returns (more: seq<seq<Event>>)
    requires n < |snap.alerts| && WellFormed(w.st) && Sound(w, snap, a)
    requires Transcribed(w.st, snap, a, close, n, parts)
    ensures Transcribed(w.st, snap, a, close, n + 1, more)
  {
    var ms := SlotsLead(w, snap, a, close, n);
    var v := SlotWorld(w, snap, a, close, n);
    var es := SlotStep(v.st, snap, a, close, n).1;
    SlotIsReported(w, v, snap, a, close, n);
    SlotsNext(w.st, snap, a, close, n);
    FlattenOn(parts, es);
    ReportedOn(w.st, snap, a, close, parts, es);
    more := parts + [es];
  }

  lemma {:induction false} SlotsAreReported(w: World, snap: Snapshot, a: map<nat, nat>, close: set<nat>, n: nat)
    returns (parts: seq<seq<Event>>)
    requires n <= |snap.alerts| && WellFormed(w.st) && Sound(w, snap, a)
    ensures Transcribed(w.st, snap, a, close, n, parts)
  {
    if n == 0 {
      parts := [];
    } else {
      var front := SlotsAreReported(w, snap, a, close, n - 1);
      parts := NextIsReported(w, snap, a, close, n - 1, front);
    }
  }

  // ---------------------------------------------------------------- the end pass

  /** `at` are the positions, in order, of the tracks that the pass over the first `n` ends, reported by `es`. */
  ghost predicate EndsAt(tracks: seq<Track>, a: map<nat, nat>, firstNew: nat, tolerance: int, snap: Snapshot, n: nat,
                         at: seq<nat>, es: seq<Event>) {
    && n <= |tracks| && |at| == |es|
    && (forall i, j :: 0 <= i < j < |at| ==> at[i] < at[j])
    && (forall i :: 0 <= i < |at| ==> at[i] < n && Ends(es[i], tracks[at[i]], snap.seqNo, snap.wall, false))
    && (forall p: nat {:trigger p in at} :: p < n ==> (p in at <==> TimesOut(tracks[p], a, firstNew, tolerance)))
  }

  lemma {:induction false} EndIsReported(t: Track, seqNo: int, wall: int)
    ensures Ends(EndEvent(Missed(t), seqNo, wall, Timeout), t, seqNo, wall, false)
    ensures Ends(EndEvent(t, seqNo, wall, Closed), t, seqNo, wall, true)
  {
  }

  lemma {:induction false} OneMoreEnds(tracks: seq<Track>, a: map<nat, nat>, firstNew: nat, tolerance: int,
                                       snap: Snapshot, n: nat, at: seq<nat>, es: seq<Event>)
    requires n < |tracks| && EndsAt(tracks, a, firstNew, tolerance, snap, n, at, es)
    requires TimesOut(tracks[n], a, firstNew, tolerance)
    ensures EndsAt(tracks, a, firstNew, tolerance, snap, n + 1, at + [n],
                   es + [EndEvent(Missed(tracks[n]), snap.seqNo, snap.wall, Timeout)])
  {
    EndIsReported(tracks[n], snap.seqNo, snap.wall);
    var more := at + [n];
    assert more[|at|] == n;
    forall p: nat | p < n + 1 ensures p in more <==> TimesOut(tracks[p], a, firstNew, tolerance) {
      assert p < n ==> (p in at <==> TimesOut(tracks[p], a, firstNew, tolerance));
    }
  }

  lemma {:induction false} NotAmong(at: seq<nat>, n: nat, p: nat)
    requires (forall i :: 0 <= i < |at| ==> at[i] < n) && p >= n
    ensures p !in at
  {
  }

  lemma {:induction false} OneMoreStays(tracks: seq<Track>, a: map<nat, nat>, firstNew: nat, tolerance: int,
                                        snap: Snapshot, n: nat, at: seq<nat>, es: seq<Event>)
    requires n < |tracks| && EndsAt(tracks, a, firstNew, tolerance, snap, n, at, es)
    requires !TimesOut(tracks[n], a, firstNew, tolerance)
    ensures EndsAt(tracks, a, firstNew, tolerance, snap, n + 1, at, es)
  {
    NotAmong(at, n, n);
  }

  lemma {:induction false} PassReports(tracks: seq<Track>, a: map<nat, nat>, firstNew: nat, tolerance: int,
                                       snap: Snapshot, n: nat)
    returns (at: seq<nat>)
    requires n <= |tracks|
    ensures EndsAt(tracks, a, firstNew, tolerance, snap, n, at, EndPass(tracks, a, firstNew, tolerance, snap, n).1)
  {
    if n == 0 {
      at := [];
    } else {
      at := PassReports(tracks, a, firstNew, tolerance, snap, n - 1);
      var es := EndPass(tracks, a, firstNew, tolerance, snap, n - 1).1;
      if TimesOut(tracks[n - 1], a, firstNew, tolerance) {
        OneMoreEnds(tracks, a, firstNew, tolerance, snap, n - 1, at, es);
        at := at + [n - 1];
      } else {
        OneMoreStays(tracks, a, firstNew, tolerance, snap, n - 1, at, es);
      }
    }
  }

  // ---------------------------------------------------------------- main theorems

  /** A track that was open, was not matched, and has now been missed too often. */
  ghost predicate GoesQuiet(st: State, a: map<nat, nat>, tolerance: int, p: nat) {
    p < |st.tracks| && st.tracks[p].id !in a.Values && st.tracks[p].misses + 1 > tolerance
  }

  /** `ends` reports, in the order the tracks are open, exactly those that go quiet, which are at `at`. */
  ghost predicate QuietReported(st: State, a: map<nat, nat>, tolerance: int, snap: Snapshot, at: seq<nat>,
                                ends: seq<Event>) {
    && |at| == |ends|
    && (forall i, j :: 0 <= i < j < |at| ==> at[i] < at[j])
    && (forall i :: 0 <= i < |at| ==>
          at[i] < |st.tracks| && Ends(ends[i], st.tracks[at[i]], snap.seqNo, snap.wall, false))
    && (forall p: nat :: p in at <==> GoesQuiet(st, a, tolerance, p))
  }

  /** Once the slots are done, only old, unmatched tracks time out, and they are as they were. */
  lemma {:induction false} OnlyOldOnesTimeOut(w: World, v: World, snap: Snapshot, a: map<nat, nat>, tolerance: int,
                                              p: nat)
    requires WellFormed(w.st) && SlotFacts(w, v, snap, a, |snap.alerts|) && p < |v.st.tracks|
    requires forall i :: i in a ==> i < |snap.alerts|
    ensures TimesOut(v.st.tracks[p], a, w.st.nextId, tolerance) <==> GoesQuiet(w.st, a, tolerance, p)
    ensures TimesOut(v.st.tracks[p], a, w.st.nextId, tolerance) ==> v.st.tracks[p] == w.st.tracks[p]
  {
    if p < |w.st.tracks| {
      assert OldFact(w, v, snap, a, |snap.alerts|, p);
      TakenIsAssigned(a, |snap.alerts|, w.st.tracks[p].id);
    } else {
      assert NewFact(w, v, snap, p);
    }
  }

  lemma {:induction false} QuietOnes(w: World, v: World, snap: Snapshot, a: map<nat, nat>, tolerance: int,
                                     at: seq<nat>, es: seq<Event>)
    requires WellFormed(w.st) && SlotFacts(w, v, snap, a, |snap.alerts|)
    requires forall i :: i in a ==> i < |snap.alerts|
    requires EndsAt(v.st.tracks, a, w.st.nextId, tolerance, snap, |v.st.tracks|, at, es)
    ensures QuietReported(w.st, a, tolerance, snap, at, es)
  {
    forall i | 0 <= i < |at|
      ensures at[i] < |w.st.tracks| && Ends(es[i], w.st.tracks[at[i]], snap.seqNo, snap.wall, false)
    {
      assert at[i] in at;
      OnlyOldOnesTimeOut(w, v, snap, a, tolerance, at[i]);
    }
    forall p: nat ensures p in at <==> GoesQuiet(w.st, a, tolerance, p) {
      if p < |v.st.tracks| {
        OnlyOldOnesTimeOut(w, v, snap, a, tolerance, p);
      } else {
        NotAmong(at, |v.st.tracks|, p);
      }
    }
  }

  /**
   * Everything one snapshot reports, in any run: first slot by slot the starts and the updates, then,
   * unless it is held open, the end of every open track that goes quiet.
   */
  lemma {:induction false} SnapshotReports(inputs: seq<Input>, tolerance: int, snap: Snapshot)
    returns (parts: seq<seq<Event>>, at: seq<nat>, ends: seq<Event>)
    ensures var st := RunOf(inputs, tolerance).st;
            var c := Candidates(st.tracks);
            var a, close := Assignment(snap.alerts, c), AmbiguousSlots(snap.alerts, c);
            && Observe(st, snap, tolerance).1 == Flatten(parts) + ends
            && |parts| == |snap.alerts| && AllReported(st, snap, a, close, parts)
            && (if snap.holdOpen then ends == [] else QuietReported(st, a, tolerance, snap, at, ends))
  {
    var w := RunOf(inputs, tolerance);
    parts, at, ends := WorldReports(w, tolerance, snap);
  }

  lemma {:induction false} WorldReports(w: World, tolerance: int, snap: Snapshot)
    returns (parts: seq<seq<Event>>, at: seq<nat>, ends: seq<Event>)
    requires WellFormed(w.st)
    ensures var a := Assignment(snap.alerts, Candidates(w.st.tracks));
            var close := AmbiguousSlots(snap.alerts, Candidates(w.st.tracks));
            && Observe(w.st, snap, tolerance).1 == Flatten(parts) + ends
            && |parts| == |snap.alerts| && AllReported(w.st, snap, a, close, parts)
            && (if snap.holdOpen then ends == [] else QuietReported(w.st, a, tolerance, snap, at, ends))
  {
    var c := Candidates(w.st.tracks);
    var a, close := Assignment(snap.alerts, c), AmbiguousSlots(snap.alerts, c);
    AssignmentIsSound(w, snap);
    parts := SlotsAreReported(w, snap, a, close, |snap.alerts|);
    var v, ms, more := FeedLeads(w, snap, tolerance);
    at, ends := [], [];
    if snap.holdOpen {
      assert Flatten(parts) + [] == Flatten(parts);
    } else {
      at := PassReports(v.st.tracks, a, w.st.nextId, tolerance, snap, |v.st.tracks|);
      ends := EndPass(v.st.tracks, a, w.st.nextId, tolerance, snap, |v.st.tracks|).1;
      QuietOnes(w, v, snap, a, tolerance, at, ends);
    }
  }

  lemma {:induction false} ClosingReports(tracks: seq<Track>, seqNo: int, wall: int, n: nat, k: nat)
    requires k < n <= |tracks|
    ensures var es := Closing(tracks, seqNo, wall, n); |es| == n && Ends(es[k], tracks[k], seqNo, wall, true)
  {
    ClosingLength(tracks, seqNo, wall, n - 1);
    if k == n - 1 {
      EndIsReported(tracks[k], seqNo, wall);
    } else {
      ClosingReports(tracks, seqNo, wall, n - 1, k);
    }
  }

  lemma {:induction false} ClosingLength(tracks: seq<Track>, seqNo: int, wall: int, n: nat)
    requires n <= |tracks|
    ensures |Closing(tracks, seqNo, wall, n)| == n
  {
    if n == 0 {
    } else {
      ClosingLength(tracks, seqNo, wall, n - 1);
    }
  }

  /** A loss of the link reports the end of every open track, in order, and leaves none open; ids go on. */
  lemma {:induction false} CloseReports(st: State, seqNo: int, wall: int)
    ensures var (after, es) := Close(st, seqNo, wall);
            && after.tracks == [] && after.nextId == st.nextId && |es| == |st.tracks|
            && forall k :: 0 <= k < |es| ==> Ends(es[k], st.tracks[k], seqNo, wall, true)
  {
    ClosingLength(st.tracks, seqNo, wall, |st.tracks|);
    forall k | 0 <= k < |st.tracks|
      ensures Ends(Closing(st.tracks, seqNo, wall, |st.tracks|)[k], st.tracks[k], seqNo, wall, true)
    {
      ClosingReports(st.tracks, seqNo, wall, |st.tracks|, k);
    }
  }

  // ---------------------------------------------------------------- which sighting goes to which track

  /** The track a slot belongs to: the one it is assigned, or the next new one in slot order. */
  function IdOf(st: State, a: map<nat, nat>, i: nat): nat {
    if i in a then a[i] else st.nextId + NewOnes(a, i)
  }

  lemma {:induction false} NewOnesGrow(a: map<nat, nat>, i: nat, j: nat)
    requires i < j
    ensures NewOnes(a, j) >= NewOnes(a, i) + (if i in a then 0 else 1)
  {
    if j == i + 1 {
    } else {
      NewOnesGrow(a, i, j - 1);
    }
  }

  lemma {:induction false} HeldIsOld(st: State, a: map<nat, nat>, i: nat)
    requires WellFormed(st) && AllHeld(a, st.tracks) && i in a
    ensures a[i] < st.nextId
  {
    assert HasId(st.tracks, a[i]);
  }

  lemma {:induction false} IdsDiffer(st: State, a: map<nat, nat>, i: nat, j: nat)
    requires WellFormed(st) && Injective(a) && AllHeld(a, st.tracks) && i < j
    ensures IdOf(st, a, i) != IdOf(st, a, j)
  {
    NewOnesGrow(a, i, j);
    if i in a {
      HeldIsOld(st, a, i);
    }
    if j in a {
      HeldIsOld(st, a, j);
    }
  }

  /** What slot `i` adds to the sightings of its track. */
  ghost predicate SightingIs(s: Sighting, snap: Snapshot, i: nat, stamp: nat, close: bool)
    requires i < |snap.alerts|
  {
    s.alert == snap.alerts[i] && s.mono == snap.mono && s.wall == snap.wall && s.stamp == stamp && s.close == close
  }

  /** The track of slot `i` has one sighting more, that slot's. */
  ghost predicate SeenOnce(w: World, v: World, snap: Snapshot, a: map<nat, nat>, close: set<nat>, i: nat)
    requires i < |snap.alerts|
  {
    var before, after := Sightings(w.seen, IdOf(w.st, a, i)), Sightings(v.seen, IdOf(w.st, a, i));
    && |after| == |before| + 1 && after[..|before|] == before
    && SightingIs(after[|before|], snap, i, Stamp(w, snap), i in a && i in close)
  }

  /** No slot before `n` belongs to the track. */
  ghost predicate Unseen(st: State, a: map<nat, nat>, n: nat, id: nat) {
    forall i: nat :: i < n ==> IdOf(st, a, i) != id
  }

  ghost predicate SeenBefore(w: World, v: World, snap: Snapshot, a: map<nat, nat>, close: set<nat>, n: nat)
    requires n <= |snap.alerts|
  {
    && (forall i: nat {:trigger SeenOnce(w, v, snap, a, close, i)} :: i < n ==> SeenOnce(w, v, snap, a, close, i))
    && (forall id: nat {:trigger Unseen(w.st, a, n, id)} :: Unseen(w.st, a, n, id) ==>
          Sightings(v.seen, id) == Sightings(w.seen, id))
  }

  lemma {:induction false} SlotIsSighted(w: World, snap: Snapshot, a: map<nat, nat>, close: set<nat>, n: nat)
    requires n < |snap.alerts| && AllHeld(a, w.st.tracks)
    ensures var v := SlotWorld(w, snap, a, close, n);
            SlotWorld(w, snap, a, close, n + 1).seen
            == Sight(v.seen, if n in a then a[n] else v.st.nextId, snap.alerts[n], snap, Stamp(w, snap),
                     n in a && n in close)
  {
  }

  lemma {:induction false} SlotSees(w: World, snap: Snapshot, a: map<nat, nat>, close: set<nat>, n: nat)
    requires n < |snap.alerts| && AllHeld(a, w.st.tracks)
    ensures SlotWorld(w, snap, a, close, n + 1).seen
         == Sight(SlotWorld(w, snap, a, close, n).seen, IdOf(w.st, a, n), snap.alerts[n], snap, Stamp(w, snap),
                  n in a && n in close)
  {
    SlotIsSighted(w, snap, a, close, n);
    IdsInOrder(w.st, snap, a, close, n);
  }

  lemma {:induction false} OneMoreSeen(w: World, v: World, u: World, snap: Snapshot, a: map<nat, nat>, close: set<nat>,
                                       n: nat)
    requires n < |snap.alerts| && WellFormed(w.st) && Injective(a) && AllHeld(a, w.st.tracks)
    requires SeenBefore(w, v, snap, a, close, n)
    requires u.seen == Sight(v.seen, IdOf(w.st, a, n), snap.alerts[n], snap, Stamp(w, snap), n in a && n in close)
    ensures SeenBefore(w, u, snap, a, close, n + 1)
  {
    forall i: nat | i < n ensures IdOf(w.st, a, i) != IdOf(w.st, a, n) {
      IdsDiffer(w.st, a, i, n);
    }
    assert Unseen(w.st, a, n, IdOf(w.st, a, n));
    forall i: nat | i < n + 1 ensures SeenOnce(w, u, snap, a, close, i) {
      if i < n {
        assert SeenOnce(w, v, snap, a, close, i);
      }
    }
    forall id: nat | Unseen(w.st, a, n + 1, id) ensures Sightings(u.seen, id) == Sightings(w.seen, id) {
      assert Unseen(w.st, a, n, id);
    }
  }

  lemma {:induction false} SlotsSee(w: World, snap: Snapshot, a: map<nat, nat>, close: set<nat>, n: nat)
    requires n <= |snap.alerts| && WellFormed(w.st) && Injective(a) && AllHeld(a, w.st.tracks)
    ensures SeenBefore(w, SlotWorld(w, snap, a, close, n), snap, a, close, n)
  {
    if n == 0 {
    } else {
      var v, u := SlotWorld(w, snap, a, close, n - 1), SlotWorld(w, snap, a, close, n);
      SlotsSee(w, snap, a, close, n - 1);
      SlotSees(w, snap, a, close, n - 1);
      OneMoreSeen(w, v, u, snap, a, close, n - 1);
    }
  }

  /**
   * In any run a snapshot adds to the track of each slot exactly that slot's alert, stamped with the
   * snapshot's clocks, and nothing to any other track. So whatever a track summarises is what its
   * slots reported, in order.
   */
  lemma {:induction false} SnapshotIsSeen(inputs: seq<Input>, tolerance: int, snap: Snapshot)
    ensures var w, v := RunOf(inputs, tolerance), RunOf(inputs + [Observed(snap)], tolerance);
            var c := Candidates(w.st.tracks);
            SeenBefore(w, v, snap, Assignment(snap.alerts, c), AmbiguousSlots(snap.alerts, c), |snap.alerts|)
  {
    var w := RunOf(inputs, tolerance);
    var c := Candidates(w.st.tracks);
    assert (inputs + [Observed(snap)])[..|inputs|] == inputs;
    AssignmentIsSound(w, snap);
    SlotsSee(w, snap, Assignment(snap.alerts, c), AmbiguousSlots(snap.alerts, c), |snap.alerts|);
    SameSeen(w, Feed(w, snap, tolerance), snap, Assignment(snap.alerts, c), AmbiguousSlots(snap.alerts, c));
  }

  lemma {:induction false} SameSeen(w: World, v: World, snap: Snapshot, a: map<nat, nat>, close: set<nat>)
    requires AllHeld(a, w.st.tracks) && v.seen == SlotWorld(w, snap, a, close, |snap.alerts|).seen
    requires SeenBefore(w, SlotWorld(w, snap, a, close, |snap.alerts|), snap, a, close, |snap.alerts|)
    ensures SeenBefore(w, v, snap, a, close, |snap.alerts|)
  {
    var u := SlotWorld(w, snap, a, close, |snap.alerts|);
    forall i: nat | i < |snap.alerts| ensures SeenOnce(w, v, snap, a, close, i) {
      assert SeenOnce(w, u, snap, a, close, i);
    }
  }
}
