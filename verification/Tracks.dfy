/**
 * Open tracks and the transitions a snapshot causes, as functions from the state before to the
 * state after. The tracker class is proved against `Observe` and `Close`; the run theorems are
 * about them.
 */
module Tracks {
  import opened Common
  import opened Alerts
  import opened Matching

  const TRACK_MISS_TOLERANCE: int := 1

  datatype AlertKey = AlertKey(family: string, laserGunId: Option<int>)

  function KeyOf(a: Alert): AlertKey {
    AlertKey(BandFamily(a.band), a.laserGunId)
  }

  datatype Track = Track(
    id: nat,
    key: AlertKey,
    alert: Alert,
    firstMono: int,
    firstWall: int,
    lastMono: int,
    lastWall: int,
    samples: nat,
    maxStrength: Option<int>,
    maxSignal: Option<int>,
    minFrequency: Option<real>,
    maxFrequency: Option<real>,
    directions: string,
    misses: nat,
    ambiguous: bool
  )

  function LargerOf(held: Option<int>, seen: Option<int>): Option<int> {
    if seen.None? then held
    else if held.None? then seen
    else Some(if held.value < seen.value then seen.value else held.value)
  }

  function HigherOf(held: Option<real>, seen: Option<real>): Option<real> {
    if seen.None? then held
    else if held.None? then seen
    else Some(if held.value < seen.value then seen.value else held.value)
  }

  function LowerOf(held: Option<real>, seen: Option<real>): Option<real> {
    if seen.None? then held
    else if held.None? then seen
    else Some(if seen.value < held.value then seen.value else held.value)
  }

  function WithDirection(directions: string, seen: Option<char>): string {
    if seen.None? || (|directions| > 0 && directions[|directions| - 1] == seen.value) then directions
    else directions + [seen.value]
  }

  function NewTrack(id: nat, a: Alert, mono: int, wall: int): Track {
    Track(id, KeyOf(a), a, mono, wall, mono, wall, 1,
          a.strength, a.signal, a.frequency, a.frequency,
          if a.direction.Some? then [a.direction.value] else "", 0, false)
  }

  function Absorbed(t: Track, a: Alert, mono: int, wall: int): Track {
    t.(alert := a, lastMono := mono, lastWall := wall, samples := t.samples + 1, misses := 0,
       maxStrength := LargerOf(t.maxStrength, a.strength),
       maxSignal := LargerOf(t.maxSignal, a.signal),
       minFrequency := LowerOf(t.minFrequency, a.frequency),
       maxFrequency := HigherOf(t.maxFrequency, a.frequency),
       directions := WithDirection(t.directions, a.direction))
  }

  predicate Changed(t: Track, a: Alert) {
    Publishable(a) != Publishable(t.alert)
  }

  predicate MaterialChange(before: Alert, after: Alert) {
    || before.band != after.band
    || before.direction != after.direction
    || before.strength != after.strength
    || before.muteCode != after.muteCode
  }

  // ---------------------------------------------------------------- events

  datatype Kind = Start | Update | End
  datatype Correlation = New | Matched | Ambiguous | Timeout | Closed

  datatype Aggregates = Aggregates(
    durationS: real,
    samples: nat,
    maxStrength: Option<int>,
    maxSignal: Option<int>,
    directions: string
  )

  datatype Event = Event(
    kind: Kind,
    seqNo: int,
    trackId: nat,
    mono: int,
    wall: int,
    alert: Alert,
    correlation: Correlation,
    aggregates: Option<Aggregates>,
    material: bool
  )

  function DurationS(t: Track): real {
    (t.lastMono - t.firstMono) as real / 1000000000.0
  }

  /** `_end`: stamped with the last moment the track was actually seen. */
  function EndEvent(t: Track, seqNo: int, wall: int, reason: Correlation): Event {
    Event(End, seqNo, t.id, t.lastMono, if reason == Timeout then t.lastWall else wall, t.alert,
          if t.ambiguous then Ambiguous else reason,
          Some(Aggregates(DurationS(t), t.samples, t.maxStrength, t.maxSignal, t.directions)), true)
  }

  // ---------------------------------------------------------------- state

  /** The open tracks in insertion order, and the next id to issue. */
  datatype State = State(tracks: seq<Track>, nextId: nat)

  const EMPTY: State := State([], 1)

  datatype Snapshot = Snapshot(alerts: seq<Alert>, seqNo: int, mono: int, wall: int, holdOpen: bool)

  predicate HasId(tracks: seq<Track>, id: nat) {
    exists k :: 0 <= k < |tracks| && tracks[k].id == id
  }

  /** Ids were issued from 1 in order, so insertion order is id order. */
  ghost predicate WellFormed(st: State) {
    && st.nextId >= 1
    && (forall k :: 0 <= k < |st.tracks| ==> 1 <= st.tracks[k].id < st.nextId)
    && (forall j, k :: 0 <= j < k < |st.tracks| ==> st.tracks[j].id < st.tracks[k].id)
  }

  function Candidates(tracks: seq<Track>): (r: seq<Candidate>)
    ensures |r| == |tracks|
  {
    seq(|tracks|, k requires 0 <= k < |tracks| => Candidate(tracks[k].id, tracks[k].alert))
  }

  function PositionOf(tracks: seq<Track>, id: nat): (k: nat)
    requires HasId(tracks, id)
    ensures k < |tracks| && tracks[k].id == id
  {
    if tracks[|tracks| - 1].id == id then |tracks| - 1
    else
      assert HasId(tracks[..|tracks| - 1], id) by {
        var k :| 0 <= k < |tracks| && tracks[k].id == id;
        assert tracks[..|tracks| - 1][k].id == id;
      }
      PositionOf(tracks[..|tracks| - 1], id)
  }

  // ---------------------------------------------------------------- single transitions

  function StartTrack(st: State, a: Alert, snap: Snapshot): (State, seq<Event>) {
    (State(st.tracks + [NewTrack(st.nextId, a, snap.mono, snap.wall)], st.nextId + 1),
     [Event(Start, snap.seqNo, st.nextId, snap.mono, snap.wall, a, New, None, true)])
  }

  function AbsorbAt(st: State, k: nat, a: Alert, snap: Snapshot, close: bool): (State, seq<Event>)
    requires k < |st.tracks|
  {
    var t := st.tracks[k].(ambiguous := st.tracks[k].ambiguous || close);
    (st.(tracks := st.tracks[k := Absorbed(t, a, snap.mono, snap.wall)]),
     if Changed(t, a)
     then [Event(Update, snap.seqNo, t.id, snap.mono, snap.wall, a, if close then Ambiguous else Matched,
                 None, MaterialChange(t.alert, a))]
     else [])
  }

  // ---------------------------------------------------------------- observe

  ghost predicate AllHeld(a: map<nat, nat>, tracks: seq<Track>) {
    forall i :: i in a ==> HasId(tracks, a[i])
  }

  function SlotStep(st: State, snap: Snapshot, a: map<nat, nat>, close: set<nat>, i: nat): (State, seq<Event>)
    requires i < |snap.alerts| && (i in a ==> HasId(st.tracks, a[i]))
  {
    if i in a then AbsorbAt(st, PositionOf(st.tracks, a[i]), snap.alerts[i], snap, i in close)
    else StartTrack(st, snap.alerts[i], snap)
  }

  lemma {:induction false} SlotStepHolds(st: State, snap: Snapshot, a: map<nat, nat>, close: set<nat>, i: nat)
    requires i < |snap.alerts| && AllHeld(a, st.tracks)
    ensures AllHeld(a, SlotStep(st, snap, a, close, i).0.tracks)
  {
    var after := SlotStep(st, snap, a, close, i).0.tracks;
    forall j | j in a ensures HasId(after, a[j]) {
      var k :| 0 <= k < |st.tracks| && st.tracks[k].id == a[j];
      assert after[k].id == a[j];
    }
  }

  /** Slot `i`, after what the slots before it left. */
  function SlotAfter(prior: (State, seq<Event>), snap: Snapshot, a: map<nat, nat>, close: set<nat>, i: nat)
    : (r: (State, seq<Event>))
    requires i < |snap.alerts| && AllHeld(a, prior.0.tracks)
    ensures AllHeld(a, r.0.tracks)
  {
    SlotStepHolds(prior.0, snap, a, close, i);
    var (s, es) := SlotStep(prior.0, snap, a, close, i);
    (s, prior.1 + es)
  }

  /** The state and the events after the first `n` slots. */
  function Slots(st: State, snap: Snapshot, a: map<nat, nat>, close: set<nat>, n: nat): (r: (State, seq<Event>))
    requires n <= |snap.alerts| && AllHeld(a, st.tracks)
    ensures AllHeld(a, r.0.tracks)
  {
    if n == 0 then (st, []) else SlotAfter(Slots(st, snap, a, close, n - 1), snap, a, close, n - 1)
  }

  lemma {:induction false} SlotsNext(st: State, snap: Snapshot, a: map<nat, nat>, close: set<nat>, n: nat)
    requires n < |snap.alerts| && AllHeld(a, st.tracks)
    ensures var (s, es) := Slots(st, snap, a, close, n);
            && AllHeld(a, s.tracks)
            && var (s', more) := SlotStep(s, snap, a, close, n);
            && Slots(st, snap, a, close, n + 1) == (s', es + more)
            && s'.nextId == if n in a then s.nextId else s.nextId + 1
  {
  }

  /** The snapshot claims the tracks it matched and the tracks it started, which are the newest ids. */
  predicate Claims(a: map<nat, nat>, firstNew: nat, id: nat) {
    id in a.Values || firstNew <= id
  }

  function Missed(t: Track): Track {
    t.(misses := t.misses + 1)
  }

  /** The end pass over the first `n` of the `tracks` that were open when it began. */
  function EndPass(tracks: seq<Track>, a: map<nat, nat>, firstNew: nat, tolerance: int, snap: Snapshot, n: nat)
    : (seq<Track>, seq<Event>)
    requires n <= |tracks|
  {
    if n == 0 then ([], [])
    else
      var (kept, es) := EndPass(tracks, a, firstNew, tolerance, snap, n - 1);
      var t := tracks[n - 1];
      if Claims(a, firstNew, t.id) then (kept + [t], es)
      else if Missed(t).misses > tolerance then (kept, es + [EndEvent(Missed(t), snap.seqNo, snap.wall, Timeout)])
      else (kept + [Missed(t)], es)
  }

  lemma {:induction false} AssignedAreHeld(tracks: seq<Track>, incoming: seq<Alert>)
    requires forall j, k :: 0 <= j < k < |tracks| ==> tracks[j].id < tracks[k].id
    ensures DistinctIds(Candidates(tracks))
    ensures AllHeld(Assignment(incoming, Candidates(tracks)), tracks)
  {
    var c := Candidates(tracks);
    var a := Assignment(incoming, c);
    forall i | i in a ensures HasId(tracks, a[i]) {
      var k := AssignedPair(incoming, c, i);
      assert tracks[k].id == a[i];
    }
  }

  /** Fold one snapshot in: the state after it and the transitions it caused. */
  function Observe(st: State, snap: Snapshot, tolerance: int): (State, seq<Event>)
    requires WellFormed(st)
  {
    var c := Candidates(st.tracks);
    var a := Assignment(snap.alerts, c);
    AssignedAreHeld(st.tracks, snap.alerts);
    var (s, es) := Slots(st, snap, a, AmbiguousSlots(snap.alerts, c), |snap.alerts|);
    if snap.holdOpen then (s, es)
    else
      var (kept, ends) := EndPass(s.tracks, a, st.nextId, tolerance, snap, |s.tracks|);
      (s.(tracks := kept), es + ends)
  }

  /** The END events of the first `n` open tracks when the link goes away. */
  function Closing(tracks: seq<Track>, seqNo: int, wall: int, n: nat): seq<Event>
    requires n <= |tracks|
  {
    if n == 0 then []
    else Closing(tracks, seqNo, wall, n - 1) + [EndEvent(tracks[n - 1], seqNo, wall, Closed)]
  }

  function Close(st: State, seqNo: int, wall: int): (State, seq<Event>) {
    (st.(tracks := []), Closing(st.tracks, seqNo, wall, |st.tracks|))
  }
}
