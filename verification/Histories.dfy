/** What any run of the tracker leaves behind: the theorems a reader of the event log relies on. */
module Histories {
  import opened Common
  import opened Alerts
  import opened Matching
  import opened Tracks
  import opened Runs
  import opened Encounters
  import opened RunTheorems

  // ---------------------------------------------------------------- misses

  /** Misses count the readable snapshots since the last match, and never outlive the tolerance. */
  ghost predicate Tallied(w: World, tolerance: int) {
    forall t :: t in w.st.tracks ==>
      && t.misses == w.readable - LastStamp(w.seen, t.id)
      && (t.misses == 0 || t.misses <= tolerance)
  }

  ghost predicate Survives(t: Track, a: map<nat, nat>, firstNew: nat, tolerance: int, u: Track) {
    if Claims(a, firstNew, t.id) then u == t else u == Missed(t) && Missed(t).misses <= tolerance
  }

  ghost predicate TimesOut(t: Track, a: map<nat, nat>, firstNew: nat, tolerance: int) {
    !Claims(a, firstNew, t.id) && Missed(t).misses > tolerance
  }

  lemma {:induction false} KeptByPass(tracks: seq<Track>, a: map<nat, nat>, firstNew: nat, tolerance: int,
                                      snap: Snapshot, n: nat, u: Track)
    returns (j: nat)
    requires n <= |tracks| && u in EndPass(tracks, a, firstNew, tolerance, snap, n).0
    ensures j < n && Survives(tracks[j], a, firstNew, tolerance, u)
  {
    if u in EndPass(tracks, a, firstNew, tolerance, snap, n - 1).0 {
      j := KeptByPass(tracks, a, firstNew, tolerance, snap, n - 1, u);
    } else {
      j := n - 1;
    }
  }

  lemma {:induction false} EndedByPass(tracks: seq<Track>, a: map<nat, nat>, firstNew: nat, tolerance: int,
                                       snap: Snapshot, n: nat, e: Event)
    returns (j: nat)
    requires n <= |tracks| && e in EndPass(tracks, a, firstNew, tolerance, snap, n).1
    ensures j < n && TimesOut(tracks[j], a, firstNew, tolerance)
    ensures e == EndEvent(Missed(tracks[j]), snap.seqNo, snap.wall, Timeout)
  {
    if e in EndPass(tracks, a, firstNew, tolerance, snap, n - 1).1 {
      j := EndedByPass(tracks, a, firstNew, tolerance, snap, n - 1, e);
    } else {
      j := n - 1;
    }
  }

  lemma {:induction false} PassEnds(tracks: seq<Track>, a: map<nat, nat>, firstNew: nat, tolerance: int,
                                    snap: Snapshot, n: nat, j: nat)
    requires j < n <= |tracks| && TimesOut(tracks[j], a, firstNew, tolerance)
    ensures EndEvent(Missed(tracks[j]), snap.seqNo, snap.wall, Timeout)
            in EndPass(tracks, a, firstNew, tolerance, snap, n).1
  {
    if j == n - 1 {
    } else {
      PassEnds(tracks, a, firstNew, tolerance, snap, n - 1, j);
    }
  }

  lemma {:induction false} TakenIsAssigned(a: map<nat, nat>, n: nat, id: nat)
    requires forall i :: i in a ==> i < n
    ensures TakenBefore(a, n, id) <==> id in a.Values
  {
    if id in a.Values {
      var i :| i in a && a[i] == id;
    }
  }

  /** A track after the slots of a snapshot: fresh if the snapshot claims it, as it was otherwise. */
  lemma {:induction false} AfterSlots(w: World, v: World, snap: Snapshot, a: map<nat, nat>, k: nat)
    requires WellFormed(w.st) && SlotFacts(w, v, snap, a, |snap.alerts|) && k < |v.st.tracks|
    requires forall i :: i in a ==> i < |snap.alerts|
    ensures var t := v.st.tracks[k];
            if Claims(a, w.st.nextId, t.id) then Fresh(t, v.seen, Stamp(w, snap))
            else t in w.st.tracks && LastStamp(v.seen, t.id) == LastStamp(w.seen, t.id)
  {
    var t := v.st.tracks[k];
    if k < |w.st.tracks| {
      assert OldFact(w, v, snap, a, |snap.alerts|, k);
      TakenIsAssigned(a, |snap.alerts|, t.id);
    } else {
      assert NewFact(w, v, snap, k);
    }
  }

  ghost predicate TalliedTrack(t: Track, seen: map<nat, seq<Sighting>>, readable: nat, tolerance: int) {
    && t.misses == readable - LastStamp(seen, t.id)
    && (t.misses == 0 || t.misses <= tolerance)
  }

  /** One surviving track, traced back through the end pass and the slots. */
  lemma {:induction false} TrackTallied(w: World, v: World, snap: Snapshot, a: map<nat, nat>, tolerance: int, k: nat,
                                        u: Track)
    requires WellFormed(w.st) && Tallied(w, tolerance) && SlotFacts(w, v, snap, a, |snap.alerts|) && k < |v.st.tracks|
    requires forall i :: i in a ==> i < |snap.alerts|
    requires if snap.holdOpen then u == v.st.tracks[k] else Survives(v.st.tracks[k], a, w.st.nextId, tolerance, u)
    ensures TalliedTrack(u, v.seen, Stamp(w, snap), tolerance)
  {
    AfterSlots(w, v, snap, a, k);
  }

  lemma {:induction false} FeedTallied(w: World, snap: Snapshot, tolerance: int)
    requires WellFormed(w.st) && Tallied(w, tolerance)
    ensures Tallied(Feed(w, snap, tolerance), tolerance)
  {
    var v, ms, more := FeedLeads(w, snap, tolerance);
    var a := Assignment(snap.alerts, Candidates(w.st.tracks));
    AssignmentIsSound(w, snap);
    FeedTracks(w, v, snap, tolerance);
    forall u | u in Feed(w, snap, tolerance).st.tracks
      ensures TalliedTrack(u, v.seen, Stamp(w, snap), tolerance)
    {
      var k: nat;
      if snap.holdOpen {
        k :| 0 <= k < |v.st.tracks| && v.st.tracks[k] == u;
      } else {
        k := KeptByPass(v.st.tracks, a, w.st.nextId, tolerance, snap, |v.st.tracks|, u);
      }
      TrackTallied(w, v, snap, a, tolerance, k, u);
    }
  }

  /** What a snapshot leaves, in terms of the world after its slots. */
  lemma {:induction false} FeedTracks(w: World, v: World, snap: Snapshot, tolerance: int)
    requires WellFormed(w.st) && AllHeld(Assignment(snap.alerts, Candidates(w.st.tracks)), w.st.tracks)
    requires var c := Candidates(w.st.tracks);
             v == SlotWorld(w, snap, Assignment(snap.alerts, c), AmbiguousSlots(snap.alerts, c), |snap.alerts|)
    ensures var r := Feed(w, snap, tolerance);
            && r.seen == v.seen && r.readable == Stamp(w, snap)
            && r.st.tracks == if snap.holdOpen then v.st.tracks
                              else EndPass(v.st.tracks, Assignment(snap.alerts, Candidates(w.st.tracks)), w.st.nextId,
                                           tolerance, snap, |v.st.tracks|).0
  {
  }

  // ---------------------------------------------------------------- runs

  lemma {:induction false} PassWellFormed(st: State, a: map<nat, nat>, firstNew: nat, tolerance: int, snap: Snapshot,
                                          n: nat)
    requires WellFormed(st) && n <= |st.tracks|
    ensures var kept := EndPass(st.tracks, a, firstNew, tolerance, snap, n).0;
            && (forall k :: 0 <= k < |kept| ==> 1 <= kept[k].id <= st.tracks[n - 1].id)
            && (forall j, k :: 0 <= j < k < |kept| ==> kept[j].id < kept[k].id)
            && |kept| <= n
  {
    if n == 0 {
    } else {
      PassWellFormed(st, a, firstNew, tolerance, snap, n - 1);
    }
  }

  lemma {:induction false} FeedWellFormed(w: World, snap: Snapshot, tolerance: int)
    requires WellFormed(w.st)
    ensures WellFormed(Feed(w, snap, tolerance).st)
  {
    var v, ms, more := FeedLeads(w, snap, tolerance);
    FeedTracks(w, v, snap, tolerance);
    assert WellFormed(v.st);
    PassWellFormed(v.st, Assignment(snap.alerts, Candidates(w.st.tracks)), w.st.nextId, tolerance, snap, |v.st.tracks|);
  }

  ghost function After(w: World, input: Input, tolerance: int): (w': World)
    requires WellFormed(w.st)
    ensures WellFormed(w'.st)
  {
    match input
    case Observed(snap) =>
      FeedWellFormed(w, snap, tolerance);
      Feed(w, snap, tolerance)
    case LinkLost(seqNo, wall) => Shut(w, seqNo, wall)
  }

  const FIRST: World := World(EMPTY, [], map[], 0, 0)

  /** The world after a run of snapshots and link losses. */
  ghost function RunOf(inputs: seq<Input>, tolerance: int): (w: World)
    ensures WellFormed(w.st)
  {
    if |inputs| == 0 then FIRST
    else After(RunOf(inputs[..|inputs| - 1], tolerance), inputs[|inputs| - 1], tolerance)
  }

  predicate IsStart(w: World) {
    |w.st.tracks| == 0 && w.st.nextId == 1 && |w.log| == 0 && |w.seen| == 0 && w.readable == 0 && w.fed == 0
  }

  lemma {:induction false} EmptyLives(w: World)
    requires IsStart(w)
    ensures Lives(w)
  {
    assert StartIds(w.log) == FromOne(w.st.nextId - 1);
    forall id: nat ensures PhaseOf(w.log, id) == Expected(w.st, id) {
    }
  }

  lemma {:induction false} EmptyIsGood(w: World, tolerance: int)
    requires IsStart(w)
    ensures Good(w) && Tallied(w, tolerance)
  {
    EmptyLives(w);
  }

  lemma {:induction false} FirstIsStart(inputs: seq<Input>, tolerance: int)
    requires |inputs| == 0
    ensures IsStart(RunOf(inputs, tolerance))
  {
  }

  lemma {:induction false} AfterIsGood(w: World, input: Input, tolerance: int)
    requires Good(w) && Tallied(w, tolerance)
    ensures Good(After(w, input, tolerance)) && Tallied(After(w, input, tolerance), tolerance)
  {
    match input
    case Observed(snap) =>
      FeedGood(w, snap, tolerance);
      FeedTallied(w, snap, tolerance);
    case LinkLost(seqNo, wall) =>
      ShutGood(w, seqNo, wall);
  }

  lemma {:induction false} FirstIsGood(inputs: seq<Input>, tolerance: int)
    requires |inputs| == 0
    ensures Good(RunOf(inputs, tolerance)) && Tallied(RunOf(inputs, tolerance), tolerance)
  {
    FirstIsStart(inputs, tolerance);
    EmptyIsGood(RunOf(inputs, tolerance), tolerance);
  }

  lemma {:induction false} NextIsGood(inputs: seq<Input>, tolerance: int)
    requires |inputs| > 0
    requires var w := RunOf(inputs[..|inputs| - 1], tolerance); Good(w) && Tallied(w, tolerance)
    ensures Good(RunOf(inputs, tolerance)) && Tallied(RunOf(inputs, tolerance), tolerance)
  {
    var before := RunOf(inputs[..|inputs| - 1], tolerance);
    assert RunOf(inputs, tolerance) == After(before, inputs[|inputs| - 1], tolerance);
    AfterIsGood(before, inputs[|inputs| - 1], tolerance);
  }

  lemma {:induction false} RunIsGood(inputs: seq<Input>, tolerance: int)
    ensures Good(RunOf(inputs, tolerance)) && Tallied(RunOf(inputs, tolerance), tolerance)
  {
    if |inputs| == 0 {
      FirstIsGood(inputs, tolerance);
    } else {
      RunIsGood(inputs[..|inputs| - 1], tolerance);
      NextIsGood(inputs, tolerance);
    }
  }

  /** The events about one id, in order. */
  function Projection(log: seq<Event>, id: nat): seq<Event> {
    if |log| == 0 then []
    else
      var rest := Projection(log[..|log| - 1], id);
      if log[|log| - 1].trackId == id then rest + [log[|log| - 1]] else rest
  }

  /** A START, then UPDATEs, then at most one END. */
  ghost predicate OneLife(es: seq<Event>) {
    && |es| > 0 && es[0].kind == Start
    && (forall k :: 0 < k < |es| - 1 ==> es[k].kind == Update)
    && (|es| > 1 ==> es[|es| - 1].kind != Start)
  }

  lemma {:induction false} PhaseIsShape(log: seq<Event>, id: nat)
    ensures var es := Projection(log, id);
            match PhaseOf(log, id)
            case Unseen => es == []
            case Live => OneLife(es) && es[|es| - 1].kind != End
            case Over => OneLife(es) && |es| > 1 && es[|es| - 1].kind == End
            case Broken => true
  {
    if |log| == 0 {
    } else {
      PhaseIsShape(log[..|log| - 1], id);
    }
  }

  /**
   * An issued id has a START, then UPDATEs, then at most one END, and no other id appears; ids are
   * issued 1, 2, 3, ...; an id is open exactly when its last event is not an END.
   */
  ghost predicate LivesOnce(w: World, id: nat) {
    var es := Projection(w.log, id);
    && w.st.nextId > 0 && StartIds(w.log) == FromOne(w.st.nextId - 1)
    && (if 1 <= id < w.st.nextId then OneLife(es) else es == [])
    && (HasId(w.st.tracks, id) <==> |es| > 0 && es[|es| - 1].kind != End)
  }

  lemma {:induction false} LivesIsShape(w: World, id: nat)
    requires Lives(w)
    ensures LivesOnce(w, id)
  {
    assert PhaseOf(w.log, id) == Expected(w.st, id);
    PhaseIsShape(w.log, id);
    if HasId(w.st.tracks, id) {
      var k :| 0 <= k < |w.st.tracks| && w.st.tracks[k].id == id;
    }
  }

  /** Every id of every run lives once. */
  lemma {:induction false} EachThreatLivesOnce(inputs: seq<Input>, tolerance: int, id: nat)
    ensures LivesOnce(RunOf(inputs, tolerance), id)
  {
    RunIsGood(inputs, tolerance);
    LivesIsShape(RunOf(inputs, tolerance), id);
  }

  /** Suppressing unchanged updates loses nothing: the last event about an open track shows its current public view. */
  lemma {:induction false} NothingPublishableIsLost(inputs: seq<Input>, tolerance: int, t: Track)
    requires t in RunOf(inputs, tolerance).st.tracks
    ensures var es := Projection(RunOf(inputs, tolerance).log, t.id);
            |es| > 0 && LooksTheSame(es[|es| - 1].alert, t.alert)
  {
    RunIsGood(inputs, tolerance);
    LastLooks(RunOf(inputs, tolerance).log, t);
  }

  lemma {:induction false} LastLooks(log: seq<Event>, t: Track)
    requires LastView(log, t.id) == Some(Publishable(t.alert))
    ensures var es := Projection(log, t.id); |es| > 0 && LooksTheSame(es[|es| - 1].alert, t.alert)
  {
    LastViewIsLast(log, t.id);
    var es := Projection(log, t.id);
    ViewsAreLooks(es[|es| - 1].alert, t.alert);
  }

  lemma {:induction false} LastViewIsLast(log: seq<Event>, id: nat)
    ensures var es := Projection(log, id);
            LastView(log, id) == if |es| == 0 then None else Some(Publishable(es[|es| - 1].alert))
  {
    if |log| == 0 {
    } else {
      LastViewIsLast(log[..|log| - 1], id);
    }
  }

  function AlertsIn(inputs: seq<Input>): nat {
    if |inputs| == 0 then 0
    else
      AlertsIn(inputs[..|inputs| - 1])
      + (match inputs[|inputs| - 1] case Observed(s) => |s.alerts| case LinkLost(_, _) => 0)
  }

  /** Every alert fed in is counted in the samples of exactly one open track or END event. */
  lemma {:induction false} EveryAlertIsASample(inputs: seq<Input>, tolerance: int)
    ensures var w := RunOf(inputs, tolerance);
            AlertsIn(inputs) == OpenSamples(w.st.tracks) + EndedSamples(w.log)
  {
    RunIsGood(inputs, tolerance);
    FedIsAlerts(inputs, tolerance);
  }

  lemma {:induction false} FedIsAlerts(inputs: seq<Input>, tolerance: int)
    ensures RunOf(inputs, tolerance).fed == AlertsIn(inputs)
  {
    if |inputs| == 0 {
    } else {
      FedIsAlerts(inputs[..|inputs| - 1], tolerance);
    }
  }

  /** The snapshots of a run that were fully read. */
  function ReadableIn(inputs: seq<Input>): nat {
    if |inputs| == 0 then 0
    else ReadableIn(inputs[..|inputs| - 1])
         + (match inputs[|inputs| - 1] case Observed(s) => if s.holdOpen then 0 else 1 case LinkLost(_, _) => 0)
  }

  lemma {:induction false} ReadableIsCounted(inputs: seq<Input>, tolerance: int)
    ensures RunOf(inputs, tolerance).readable == ReadableIn(inputs)
  {
    if |inputs| == 0 {
    } else {
      ReadableIsCounted(inputs[..|inputs| - 1], tolerance);
    }
  }

  /**
   * In every run an open track's misses are the fully read snapshots since its last match, and are
   * within the tolerance.
   */
  lemma {:induction false} MissesCountReadableSnapshots(inputs: seq<Input>, tolerance: int, t: Track)
    requires t in RunOf(inputs, tolerance).st.tracks
    ensures t.misses == ReadableIn(inputs) - LastStamp(RunOf(inputs, tolerance).seen, t.id)
    ensures t.misses == 0 || t.misses <= tolerance
  {
    RunIsGood(inputs, tolerance);
    ReadableIsCounted(inputs, tolerance);
  }

  /** Every END reports the folds over exactly the sightings its track was matched with. */
  lemma {:induction false} EndsReportTheirSightings(inputs: seq<Input>, tolerance: int, e: Event)
    requires e in RunOf(inputs, tolerance).log && e.kind == End
    ensures var w := RunOf(inputs, tolerance);
            e.trackId in w.seen && EndSummarises(e, w.seen[e.trackId]) && Continuous(w.seen[e.trackId])
  {
    RunIsGood(inputs, tolerance);
    var w := RunOf(inputs, tolerance);
    var j :| 0 <= j < |w.log| && w.log[j] == e;
  }

  /**
   * Every open track is the summary of its sightings, keeps one identity, and has drifted at most
   * one tolerance a match.
   */
  lemma {:induction false} OpenTracksSummarise(inputs: seq<Input>, tolerance: int, t: Track)
    requires t in RunOf(inputs, tolerance).st.tracks
    ensures var obs := Sightings(RunOf(inputs, tolerance).seen, t.id);
            && Summarises(t, obs) && Continuous(obs)
            && t.key == KeyOf(t.alert)
            && ((forall k :: 0 <= k < |obs| ==> obs[k].alert.frequency.Some?) ==>
                  && t.minFrequency.Some? && t.maxFrequency.Some?
                  && t.maxFrequency.value - t.minFrequency.value
                    <= (t.samples - 1) as real * FamilyTolerance(t.key.family))
  {
    RunIsGood(inputs, tolerance);
    var w := RunOf(inputs, tolerance);
    DriftIsBounded(t, w.seen[t.id]);
  }

  // ---------------------------------------------------------------- when a track times out

  /** No slot of a snapshot ever ends a track. */
  lemma {:induction false} SlotNeverEnds(st: State, snap: Snapshot, a: map<nat, nat>, close: set<nat>, n: nat, e: Event)
    requires n < |snap.alerts| && (n in a ==> HasId(st.tracks, a[n]))
    requires e in SlotStep(st, snap, a, close, n).1
    ensures e.kind != End
  {
  }

  lemma {:induction false} SlotsNeverEnd(st: State, snap: Snapshot, a: map<nat, nat>, close: set<nat>, n: nat, e: Event)
    requires n <= |snap.alerts| && AllHeld(a, st.tracks)
    requires e in Slots(st, snap, a, close, n).1
    ensures e.kind != End
  {
    var m := n - 1;
    SlotsNext(st, snap, a, close, m);
    var (s, es) := Slots(st, snap, a, close, m);
    if e in es {
      SlotsNeverEnd(st, snap, a, close, m, e);
    } else {
      SlotNeverEnds(s, snap, a, close, m, e);
    }
  }

  ghost predicate EndedBy(w: World, snap: Snapshot, tolerance: int, id: nat)
    requires WellFormed(w.st)
  {
    exists e :: e in Observe(w.st, snap, tolerance).1 && e.kind == End && e.trackId == id
  }

  lemma {:induction false} EndsAfterPass(w: World, v: World, snap: Snapshot, tolerance: int, p: nat)
    requires WellFormed(w.st) && WellFormed(v.st) && p < |v.st.tracks|
    requires AllHeld(Assignment(snap.alerts, Candidates(w.st.tracks)), w.st.tracks)
    requires var c := Candidates(w.st.tracks);
             v == SlotWorld(w, snap, Assignment(snap.alerts, c), AmbiguousSlots(snap.alerts, c), |snap.alerts|)
    ensures EndedBy(w, snap, tolerance, v.st.tracks[p].id) <==>
              !snap.holdOpen && TimesOut(v.st.tracks[p], Assignment(snap.alerts, Candidates(w.st.tracks)), w.st.nextId,
                                         tolerance)
  {
    var a := Assignment(snap.alerts, Candidates(w.st.tracks));
    var close := AmbiguousSlots(snap.alerts, Candidates(w.st.tracks));
    var es := Slots(w.st, snap, a, close, |snap.alerts|).1;
    var ends := EndPass(v.st.tracks, a, w.st.nextId, tolerance, snap, |v.st.tracks|).1;
    var all := Observe(w.st, snap, tolerance).1;
    assert all == if snap.holdOpen then es else es + ends;
    if EndedBy(w, snap, tolerance, v.st.tracks[p].id) {
      var e :| e in all && e.kind == End && e.trackId == v.st.tracks[p].id;
      NotFromSlots(w.st, snap, a, close, e);
      var j := EndedByPass(v.st.tracks, a, w.st.nextId, tolerance, snap, |v.st.tracks|, e);
      OnePosition(v.st, j, p);
    }
    if !snap.holdOpen && TimesOut(v.st.tracks[p], a, w.st.nextId, tolerance) {
      PassEnds(v.st.tracks, a, w.st.nextId, tolerance, snap, |v.st.tracks|, p);
      var e := EndEvent(Missed(v.st.tracks[p]), snap.seqNo, snap.wall, Timeout);
      assert e in all;
    }
  }

  lemma {:induction false} NotFromSlots(st: State, snap: Snapshot, a: map<nat, nat>, close: set<nat>, e: Event)
    requires AllHeld(a, st.tracks) && e.kind == End
    ensures e !in Slots(st, snap, a, close, |snap.alerts|).1
  {
    if e in Slots(st, snap, a, close, |snap.alerts|).1 {
      SlotsNeverEnd(st, snap, a, close, |snap.alerts|, e);
      assert false;
    }
  }

  lemma {:induction false} TimesOutWhen(w: World, snap: Snapshot, tolerance: int, t: Track)
    requires WellFormed(w.st) && Tallied(w, tolerance) && t in w.st.tracks
    ensures EndedBy(w, snap, tolerance, t.id) <==>
              && !snap.holdOpen
              && t.id !in Assignment(snap.alerts, Candidates(w.st.tracks)).Values
              && w.readable + 1 - LastStamp(w.seen, t.id) > tolerance
  {
    var a := Assignment(snap.alerts, Candidates(w.st.tracks));
    var v, ms, more := FeedLeads(w, snap, tolerance);
    AssignmentIsSound(w, snap);
    var p :| 0 <= p < |w.st.tracks| && w.st.tracks[p] == t;
    assert OldFact(w, v, snap, a, |snap.alerts|, p);
    TakenIsAssigned(a, |snap.alerts|, t.id);
    EndsAfterPass(w, v, snap, tolerance, p);
  }

  /**
   * In every run a track is ended by a snapshot exactly when the snapshot was fully readable, did
   * not match it, and the readable snapshots since its last match now exceed the tolerance.
   */
  lemma {:induction false} TimesOutExactly(inputs: seq<Input>, tolerance: int, snap: Snapshot, t: Track)
    requires t in RunOf(inputs, tolerance).st.tracks
    ensures var w := RunOf(inputs, tolerance);
            EndedBy(w, snap, tolerance, t.id) <==>
              && !snap.holdOpen
              && t.id !in Assignment(snap.alerts, Candidates(w.st.tracks)).Values
              && w.readable + 1 - LastStamp(w.seen, t.id) > tolerance
  {
    RunIsGood(inputs, tolerance);
    TimesOutWhen(RunOf(inputs, tolerance), snap, tolerance, t);
  }

  /** A held snapshot charges no miss: a track it does not match stays as it was, one it matches has none. */
  lemma {:induction false} HoldChargesNothing(inputs: seq<Input>, tolerance: int, snap: Snapshot, t: Track)
    requires t in RunOf(inputs, tolerance).st.tracks && snap.holdOpen
    ensures var w := RunOf(inputs, tolerance);
            exists u :: && u in Observe(w.st, snap, tolerance).0.tracks && u.id == t.id
                        && (if t.id in Assignment(snap.alerts, Candidates(w.st.tracks)).Values then u.misses == 0
                            else u == t)
  {
    RunIsGood(inputs, tolerance);
    var w := RunOf(inputs, tolerance);
    var a := Assignment(snap.alerts, Candidates(w.st.tracks));
    var v, ms, more := FeedLeads(w, snap, tolerance);
    AssignmentIsSound(w, snap);
    var p :| 0 <= p < |w.st.tracks| && w.st.tracks[p] == t;
    assert OldFact(w, v, snap, a, |snap.alerts|, p);
    TakenIsAssigned(a, |snap.alerts|, t.id);
    assert v.st.tracks[p] in Observe(w.st, snap, tolerance).0.tracks;
  }
}
