/**
 * Theorems about every run of the tracker: what each snapshot and each close keeps, and what the
 * whole event log therefore says about each threat.
 */
module Runs {
  import opened Common
  import opened Alerts
  import opened Matching
  import opened Tracks

  // ---------------------------------------------------------------- runs

  datatype Input = Observed(snap: Snapshot) | LinkLost(seqNo: int, wall: int)

  /**
   * One alert as it was folded into a track; `stamp` counts the readable snapshots up to and
   * including it, and `close` is whether another track would have taken it nearly as well.
   */
  datatype Sighting = Sighting(alert: Alert, mono: int, wall: int, stamp: nat, close: bool)

  /**
   * A tracker state together with everything that happened: the event log, the sightings folded
   * into each track ever started, the readable snapshots seen, and the alerts fed in.
   */
  datatype World = World(st: State, log: seq<Event>, seen: map<nat, seq<Sighting>>, readable: nat, fed: nat)

  function Sightings(seen: map<nat, seq<Sighting>>, id: nat): seq<Sighting> {
    if id in seen then seen[id] else []
  }

  function Sight(seen: map<nat, seq<Sighting>>, id: nat, a: Alert, snap: Snapshot, stamp: nat, close: bool)
    : map<nat, seq<Sighting>>
  {
    seen[id := Sightings(seen, id) + [Sighting(a, snap.mono, snap.wall, stamp, close)]]
  }

  /** The world after the first `n` slots of a snapshot. */
  function SlotWorld(w: World, snap: Snapshot, a: map<nat, nat>, close: set<nat>, n: nat): (r: World)
    requires n <= |snap.alerts| && AllHeld(a, w.st.tracks)
    ensures AllHeld(a, r.st.tracks)
    ensures r.st == Slots(w.st, snap, a, close, n).0 && r.log == w.log + Slots(w.st, snap, a, close, n).1
  {
    var (s, es) := Slots(w.st, snap, a, close, n);
    if n == 0 then w
    else
      var v := SlotWorld(w, snap, a, close, n - 1);
      var id := if n - 1 in a then a[n - 1] else v.st.nextId;
      World(s, w.log + es, Sight(v.seen, id, snap.alerts[n - 1], snap, Stamp(w, snap), n - 1 in a && n - 1 in close),
            w.readable, v.fed + 1)
  }

  /** The world after one snapshot. */
  function Feed(w: World, snap: Snapshot, tolerance: int): World
    requires WellFormed(w.st)
  {
    var (st, es) := Observe(w.st, snap, tolerance);
    var c := Candidates(w.st.tracks);
    AssignedAreHeld(w.st.tracks, snap.alerts);
    var v := SlotWorld(w, snap, Assignment(snap.alerts, c), AmbiguousSlots(snap.alerts, c), |snap.alerts|);
    World(st, w.log + es, v.seen, w.readable + (if snap.holdOpen then 0 else 1), w.fed + |snap.alerts|)
  }

  function Shut(w: World, seqNo: int, wall: int): World {
    var (st, es) := Close(w.st, seqNo, wall);
    w.(st := st, log := w.log + es)
  }

  /** The world after the first `n` tracks of the end pass. */
  function PassWorld(w: World, a: map<nat, nat>, firstNew: nat, tolerance: int, snap: Snapshot, n: nat): World
    requires n <= |w.st.tracks|
  {
    var (kept, es) := EndPass(w.st.tracks, a, firstNew, tolerance, snap, n);
    w.(st := w.st.(tracks := kept + w.st.tracks[n..]), log := w.log + es)
  }

  /** The world after the first `n` tracks of a close. */
  function CloseWorld(w: World, seqNo: int, wall: int, n: nat): World
    requires n <= |w.st.tracks|
  {
    w.(st := w.st.(tracks := w.st.tracks[n..]), log := w.log + Closing(w.st.tracks, seqNo, wall, n))
  }

  // ---------------------------------------------------------------- the four single steps

  function Without(tracks: seq<Track>, k: nat): seq<Track>
    requires k < |tracks|
  {
    tracks[..k] + tracks[k + 1..]
  }

  function StepStart(w: World, a: Alert, snap: Snapshot, stamp: nat): World {
    var (s, es) := StartTrack(w.st, a, snap);
    World(s, w.log + es, Sight(w.seen, w.st.nextId, a, snap, stamp, false), w.readable, w.fed + 1)
  }

  function StepAbsorb(w: World, k: nat, a: Alert, snap: Snapshot, close: bool, stamp: nat): World
    requires k < |w.st.tracks|
  {
    var (s, es) := AbsorbAt(w.st, k, a, snap, close);
    World(s, w.log + es, Sight(w.seen, w.st.tracks[k].id, a, snap, stamp, close), w.readable, w.fed + 1)
  }

  function StepMiss(w: World, k: nat): World
    requires k < |w.st.tracks|
  {
    w.(st := w.st.(tracks := w.st.tracks[k := Missed(w.st.tracks[k])]))
  }

  function StepEnd(w: World, k: nat, seqNo: int, wall: int, reason: Correlation): World
    requires k < |w.st.tracks|
  {
    w.(st := w.st.(tracks := Without(w.st.tracks, k)), log := w.log + [EndEvent(w.st.tracks[k], seqNo, wall, reason)])
  }

  function Stamp(w: World, snap: Snapshot): nat {
    w.readable + (if snap.holdOpen then 0 else 1)
  }

  lemma {:induction false} SlotWorldCounts(w: World, snap: Snapshot, a: map<nat, nat>, close: set<nat>, n: nat)
    requires n <= |snap.alerts| && AllHeld(a, w.st.tracks)
    ensures var v := SlotWorld(w, snap, a, close, n);
            v.fed == w.fed + n && v.readable == w.readable && v.log == w.log + Slots(w.st, snap, a, close, n).1
  {
    if n == 0 {
    } else {
      SlotWorldCounts(w, snap, a, close, n - 1);
    }
  }

  lemma {:induction false} StepsAgree(v: World, snap: Snapshot, a: map<nat, nat>, close: set<nat>, n: nat, stamp: nat,
                                      v': World)
    requires n < |snap.alerts| && AllHeld(a, v.st.tracks)
    requires var (s, es) := SlotStep(v.st, snap, a, close, n);
             v' == World(s, v.log + es,
                         Sight(v.seen, if n in a then a[n] else v.st.nextId, snap.alerts[n], snap, stamp,
                               n in a && n in close),
                         v.readable, v.fed + 1)
    ensures if n in a then v' == StepAbsorb(v, PositionOf(v.st.tracks, a[n]), snap.alerts[n], snap, n in close, stamp)
            else v' == StepStart(v, snap.alerts[n], snap, stamp)
  {
  }

  lemma {:induction false} SlotIsAStep(w: World, snap: Snapshot, a: map<nat, nat>, close: set<nat>, n: nat)
    requires n < |snap.alerts| && AllHeld(a, w.st.tracks)
    ensures var v := SlotWorld(w, snap, a, close, n);
            var v' := SlotWorld(w, snap, a, close, n + 1);
            if n in a
            then v' == StepAbsorb(v, PositionOf(v.st.tracks, a[n]), snap.alerts[n], snap, n in close, Stamp(w, snap))
            else v' == StepStart(v, snap.alerts[n], snap, Stamp(w, snap))
  {
    var v := SlotWorld(w, snap, a, close, n);
    var v' := SlotWorld(w, snap, a, close, n + 1);
    SlotWorldCounts(w, snap, a, close, n);
    SlotsNext(w.st, snap, a, close, n);
    var more := SlotStep(v.st, snap, a, close, n).1;
    assert w.log + (Slots(w.st, snap, a, close, n).1 + more) == v.log + more;
    StepsAgree(v, snap, a, close, n, Stamp(w, snap), v');
  }

  /** One turn of the end pass, on the track `t` at place `k`. */
  ghost predicate PassTurn(v: World, v': World, k: nat, t: Track, claimed: bool, tolerance: int, snap: Snapshot) {
    && k < |v.st.tracks| && v.st.tracks[k] == t
    && (if claimed then v' == v
        else if Missed(t).misses > tolerance then
          v' == StepEnd(StepMiss(v, k), k, snap.seqNo, snap.wall, Timeout)
        else v' == StepMiss(v, k))
  }

  lemma {:induction false} ClaimedTurn(v: World, v': World, kept: seq<Track>, t: Track, rest: seq<Track>,
                                       tolerance: int, snap: Snapshot)
    requires v.st.tracks == kept + ([t] + rest)
    requires v' == v.(st := v.st.(tracks := (kept + [t]) + rest))
    ensures PassTurn(v, v', |kept|, t, true, tolerance, snap)
  {
    assert v'.st.tracks == v.st.tracks;
  }

  lemma {:induction false} MissTurn(v: World, v': World, kept: seq<Track>, t: Track, rest: seq<Track>,
                                    tolerance: int, snap: Snapshot)
    requires v.st.tracks == kept + ([t] + rest) && Missed(t).misses <= tolerance
    requires v' == v.(st := v.st.(tracks := (kept + [Missed(t)]) + rest))
    ensures PassTurn(v, v', |kept|, t, false, tolerance, snap)
  {
    assert v.st.tracks[|kept| := Missed(t)] == (kept + [Missed(t)]) + rest;
  }

  lemma {:induction false} EndTurn(v: World, v': World, kept: seq<Track>, t: Track, rest: seq<Track>,
                                   tolerance: int, snap: Snapshot)
    requires v.st.tracks == kept + ([t] + rest) && Missed(t).misses > tolerance
    requires v' == v.(st := v.st.(tracks := kept + rest),
                      log := v.log + [EndEvent(Missed(t), snap.seqNo, snap.wall, Timeout)])
    ensures PassTurn(v, v', |kept|, t, false, tolerance, snap)
  {
    assert v.st.tracks[|kept| := Missed(t)] == kept + ([Missed(t)] + rest);
    assert Without(kept + ([Missed(t)] + rest), |kept|) == kept + rest;
  }

  lemma {:induction false} PassIsAStep(w: World, a: map<nat, nat>, firstNew: nat, tolerance: int, snap: Snapshot,
                                       n: nat)
    returns (k: nat)
    requires n < |w.st.tracks|
    ensures var t := w.st.tracks[n];
            var v := PassWorld(w, a, firstNew, tolerance, snap, n);
            var v' := PassWorld(w, a, firstNew, tolerance, snap, n + 1);
            PassTurn(v, v', k, t, Claims(a, firstNew, t.id), tolerance, snap) && k <= n
  {
    var tracks := w.st.tracks;
    var (kept, es) := EndPass(tracks, a, firstNew, tolerance, snap, n);
    var v, v' := PassWorld(w, a, firstNew, tolerance, snap, n), PassWorld(w, a, firstNew, tolerance, snap, n + 1);
    k := |kept|;
    KeptIsShort(tracks, a, firstNew, tolerance, snap, n);
    var t, rest := tracks[n], tracks[n + 1..];
    assert tracks[n..] == [t] + rest;
    if Claims(a, firstNew, t.id) {
      ClaimedTurn(v, v', kept, t, rest, tolerance, snap);
    } else if Missed(t).misses > tolerance {
      var ended := EndEvent(Missed(t), snap.seqNo, snap.wall, Timeout);
      assert w.log + (es + [ended]) == (w.log + es) + [ended];
      EndTurn(v, v', kept, t, rest, tolerance, snap);
    } else {
      MissTurn(v, v', kept, t, rest, tolerance, snap);
    }
  }

  lemma {:induction false} KeptIsShort(tracks: seq<Track>, a: map<nat, nat>, firstNew: nat, tolerance: int,
                                       snap: Snapshot, n: nat)
    requires n <= |tracks|
    ensures |EndPass(tracks, a, firstNew, tolerance, snap, n).0| <= n
  {
    if n == 0 {
    } else {
      KeptIsShort(tracks, a, firstNew, tolerance, snap, n - 1);
    }
  }

  lemma {:induction false} CloseIsAStep(w: World, seqNo: int, wall: int, n: nat)
    requires n < |w.st.tracks|
    ensures var v := CloseWorld(w, seqNo, wall, n);
            |v.st.tracks| > 0 && CloseWorld(w, seqNo, wall, n + 1) == StepEnd(v, 0, seqNo, wall, Closed)
  {
    var v := CloseWorld(w, seqNo, wall, n);
    assert Without(v.st.tracks, 0) == w.st.tracks[n + 1..];
    assert v.log + [EndEvent(w.st.tracks[n], seqNo, wall, Closed)]
        == w.log + (Closing(w.st.tracks, seqNo, wall, n) + [EndEvent(w.st.tracks[n], seqNo, wall, Closed)]);
  }

  // ---------------------------------------------------------------- each id lives once

  datatype Phase = Unseen | Live | Over | Broken

  /** The life of one id, read off the log: a start, updates, and at most one end. */
  function PhaseOf(log: seq<Event>, id: nat): Phase {
    if |log| == 0 then Unseen
    else Advance(PhaseOf(log[..|log| - 1], id), log[|log| - 1], id)
  }

  function Advance(p: Phase, e: Event, id: nat): Phase {
    if e.trackId != id then p
    else match (p, e.kind)
      case (Unseen, Start) => Live
      case (Live, Update) => Live
      case (Live, End) => Over
      case _ => Broken
  }

  lemma {:induction false} PhaseAfter(log: seq<Event>, e: Event, id: nat)
    ensures PhaseOf(log + [e], id) == Advance(PhaseOf(log, id), e, id)
  {
    assert (log + [e])[..|log|] == log;
  }

  /** The ids of the START events, in log order. */
  function StartIds(log: seq<Event>): seq<nat> {
    if |log| == 0 then []
    else
      var rest := StartIds(log[..|log| - 1]);
      var e := log[|log| - 1];
      if e.kind == Start then rest + [e.trackId] else rest
  }

  lemma {:induction false} StartIdsAfter(log: seq<Event>, e: Event)
    ensures StartIds(log + [e]) == StartIds(log) + (if e.kind == Start then [e.trackId] else [])
  {
    assert (log + [e])[..|log|] == log;
  }

  function FromOne(n: nat): seq<nat> {
    seq(n, k => k + 1)
  }

  function Expected(st: State, id: nat): Phase {
    if HasId(st.tracks, id) then Live
    else if 1 <= id < st.nextId then Over
    else Unseen
  }

  /** Ids are issued 1, 2, 3, ...; the open tracks are the ids started and not ended. */
  ghost predicate Lives(w: World) {
    && WellFormed(w.st)
    && StartIds(w.log) == FromOne(w.st.nextId - 1)
    && forall id: nat {:trigger PhaseOf(w.log, id)} :: PhaseOf(w.log, id) == Expected(w.st, id)
  }

  lemma {:induction false} LivesStart(w: World, a: Alert, snap: Snapshot, stamp: nat)
    requires Lives(w)
    ensures Lives(StepStart(w, a, snap, stamp))
  {
    var w' := StepStart(w, a, snap, stamp);
    var e := w'.log[|w.log|];
    assert w'.log == w.log + [e];
    StartIdsAfter(w.log, e);
    assert FromOne(w.st.nextId) == FromOne(w.st.nextId - 1) + [w.st.nextId];
    assert w'.st.tracks[|w.st.tracks|].id == w.st.nextId;
    forall id: nat ensures PhaseOf(w'.log, id) == Expected(w'.st, id) {
      PhaseAfter(w.log, e, id);
      if HasId(w.st.tracks, id) {
        var k :| 0 <= k < |w.st.tracks| && w.st.tracks[k].id == id;
        assert w'.st.tracks[k].id == id;
      }
    }
  }

  lemma {:induction false} SameIds(tracks: seq<Track>, k: nat, t: Track, id: nat)
    requires k < |tracks| && t.id == tracks[k].id
    ensures HasId(tracks[k := t], id) <==> HasId(tracks, id)
  {
    if HasId(tracks, id) {
      var j :| 0 <= j < |tracks| && tracks[j].id == id;
      assert tracks[k := t][j].id == id;
    }
  }

  lemma {:induction false} UpdateKeepsPhases(log: seq<Event>, es: seq<Event>, id: nat)
    requires |es| == 0 || (|es| == 1 && es[0].kind == Update && PhaseOf(log, es[0].trackId) == Live)
    ensures PhaseOf(log + es, id) == PhaseOf(log, id) && StartIds(log + es) == StartIds(log)
  {
    if |es| == 0 {
      assert log + es == log;
    } else {
      assert log + es == log + [es[0]];
      PhaseAfter(log, es[0], id);
      StartIdsAfter(log, es[0]);
    }
  }

  lemma {:induction false} LivesAbsorb(w: World, k: nat, a: Alert, snap: Snapshot, close: bool, stamp: nat)
    requires Lives(w) && k < |w.st.tracks|
    ensures Lives(StepAbsorb(w, k, a, snap, close, stamp))
  {
    var w' := StepAbsorb(w, k, a, snap, close, stamp);
    var (s, es) := AbsorbAt(w.st, k, a, snap, close);
    var held := w.st.tracks[k].id;
    assert HasId(w.st.tracks, held) && PhaseOf(w.log, held) == Live;
    UpdateKeepsPhases(w.log, es, held);
    forall id: nat ensures PhaseOf(w'.log, id) == Expected(w'.st, id) {
      SameIds(w.st.tracks, k, w'.st.tracks[k], id);
      UpdateKeepsPhases(w.log, es, id);
    }
  }

  lemma {:induction false} LivesMiss(w: World, k: nat)
    requires Lives(w) && k < |w.st.tracks|
    ensures Lives(StepMiss(w, k))
  {
    var w' := StepMiss(w, k);
    forall id: nat ensures PhaseOf(w'.log, id) == Expected(w'.st, id) {
      SameIds(w.st.tracks, k, w'.st.tracks[k], id);
    }
  }

  lemma {:induction false} WithoutAt(tracks: seq<Track>, k: nat, j: nat)
    requires k < |tracks| && j < |tracks| && j != k
    ensures tracks[j] == Without(tracks, k)[if j < k then j else j - 1]
  {
  }

  lemma {:induction false} IdsWithout(st: State, k: nat, id: nat)
    requires WellFormed(st) && k < |st.tracks|
    ensures HasId(Without(st.tracks, k), id) <==> HasId(st.tracks, id) && id != st.tracks[k].id
  {
    var rest := Without(st.tracks, k);
    if HasId(rest, id) {
      var j: nat :| j < |rest| && rest[j].id == id;
      WithoutAt(st.tracks, k, if j < k then j else j + 1);
    }
    if HasId(st.tracks, id) && id != st.tracks[k].id {
      var j: nat :| j < |st.tracks| && st.tracks[j].id == id;
      WithoutAt(st.tracks, k, j);
    }
  }

  lemma {:induction false} LivesEnd(w: World, k: nat, seqNo: int, wall: int, reason: Correlation)
    requires Lives(w) && k < |w.st.tracks|
    ensures Lives(StepEnd(w, k, seqNo, wall, reason))
  {
    var w' := StepEnd(w, k, seqNo, wall, reason);
    var e := EndEvent(w.st.tracks[k], seqNo, wall, reason);
    StartIdsAfter(w.log, e);
    assert HasId(w.st.tracks, w.st.tracks[k].id);
    forall id: nat ensures PhaseOf(w'.log, id) == Expected(w'.st, id) {
      PhaseAfter(w.log, e, id);
      IdsWithout(w.st, k, id);
    }
  }

  // ---------------------------------------------------------------- nothing published is out of date

  /** The public view carried by the last event about `id`. */
  function LastView(log: seq<Event>, id: nat): Option<PublicView> {
    if |log| == 0 then None
    else if log[|log| - 1].trackId == id then Some(Publishable(log[|log| - 1].alert))
    else LastView(log[..|log| - 1], id)
  }

  lemma {:induction false} LastViewAfter(log: seq<Event>, e: Event, id: nat)
    ensures LastView(log + [e], id) == if e.trackId == id then Some(Publishable(e.alert)) else LastView(log, id)
  {
    assert (log + [e])[..|log|] == log;
  }

  /** The last event about an open track already shows everything publishable about it. */
  ghost predicate Current(w: World) {
    forall t :: t in w.st.tracks ==> LastView(w.log, t.id) == Some(Publishable(t.alert))
  }

  lemma {:induction false} CurrentStart(w: World, a: Alert, snap: Snapshot, stamp: nat)
    requires WellFormed(w.st) && Current(w)
    ensures Current(StepStart(w, a, snap, stamp))
  {
    var w' := StepStart(w, a, snap, stamp);
    var e := w'.log[|w.log|];
    assert w'.log == w.log + [e];
    forall t | t in w'.st.tracks ensures LastView(w'.log, t.id) == Some(Publishable(t.alert)) {
      LastViewAfter(w.log, e, t.id);
    }
  }

  lemma {:induction false} CurrentAbsorb(w: World, k: nat, a: Alert, snap: Snapshot, close: bool, stamp: nat)
    requires WellFormed(w.st) && Current(w) && k < |w.st.tracks|
    ensures Current(StepAbsorb(w, k, a, snap, close, stamp))
  {
    var w' := StepAbsorb(w, k, a, snap, close, stamp);
    var es := w'.log[|w.log|..];
    assert w'.log == w.log + es;
    assert |es| == 0 ==> w'.log == w.log;
    forall t | t in w'.st.tracks ensures LastView(w'.log, t.id) == Some(Publishable(t.alert)) {
      var j :| 0 <= j < |w'.st.tracks| && w'.st.tracks[j] == t;
      assert w.st.tracks[j] in w.st.tracks;
      if |es| == 1 {
        LastViewAfter(w.log, es[0], t.id);
      }
    }
  }

  lemma {:induction false} CurrentMiss(w: World, k: nat)
    requires Current(w) && k < |w.st.tracks|
    ensures Current(StepMiss(w, k))
  {
    var w' := StepMiss(w, k);
    forall t | t in w'.st.tracks ensures LastView(w'.log, t.id) == Some(Publishable(t.alert)) {
      var j :| 0 <= j < |w'.st.tracks| && w'.st.tracks[j] == t;
      assert w.st.tracks[j] in w.st.tracks;
    }
  }

  lemma {:induction false} OthersStay(st: State, k: nat, t: Track)
    requires WellFormed(st) && k < |st.tracks| && t in Without(st.tracks, k)
    ensures t in st.tracks && t.id != st.tracks[k].id
  {
    var j :| 0 <= j < |Without(st.tracks, k)| && Without(st.tracks, k)[j] == t;
    assert t == st.tracks[if j < k then j else j + 1];
  }

  lemma {:induction false} StillCurrent(w: World, e: Event, t: Track)
    requires Current(w) && t in w.st.tracks && e.trackId != t.id
    ensures LastView(w.log + [e], t.id) == Some(Publishable(t.alert))
  {
    LastViewAfter(w.log, e, t.id);
  }

  lemma {:induction false} CurrentEnd(w: World, k: nat, seqNo: int, wall: int, reason: Correlation)
    requires WellFormed(w.st) && Current(w) && k < |w.st.tracks|
    ensures Current(StepEnd(w, k, seqNo, wall, reason))
  {
    var rest := Without(w.st.tracks, k);
    var e := EndEvent(w.st.tracks[k], seqNo, wall, reason);
    forall t | t in rest ensures LastView(w.log + [e], t.id) == Some(Publishable(t.alert)) {
      OthersStay(w.st, k, t);
      StillCurrent(w, e, t);
    }
  }

  // ---------------------------------------------------------------- observations are conserved

  function OpenSamples(tracks: seq<Track>): nat {
    if |tracks| == 0 then 0 else OpenSamples(tracks[..|tracks| - 1]) + tracks[|tracks| - 1].samples
  }

  function SamplesIn(e: Event): nat {
    if e.kind == End && e.aggregates.Some? then e.aggregates.value.samples else 0
  }

  function EndedSamples(log: seq<Event>): nat {
    if |log| == 0 then 0 else EndedSamples(log[..|log| - 1]) + SamplesIn(log[|log| - 1])
  }

  lemma {:induction false} EndedSamplesAfter(log: seq<Event>, e: Event)
    ensures EndedSamples(log + [e]) == EndedSamples(log) + SamplesIn(e)
  {
    assert (log + [e])[..|log|] == log;
  }

  lemma {:induction false} OpenSamplesSplit(tracks: seq<Track>, more: seq<Track>)
    ensures OpenSamples(tracks + more) == OpenSamples(tracks) + OpenSamples(more)
  {
    if |more| == 0 {
      assert tracks + more == tracks;
    } else {
      OpenSamplesSplit(tracks, more[..|more| - 1]);
      assert (tracks + more)[..|tracks + more| - 1] == tracks + more[..|more| - 1];
    }
  }

  lemma {:induction false} OpenSamplesAt(tracks: seq<Track>, k: nat, t: Track)
    requires k < |tracks|
    ensures OpenSamples(tracks) == OpenSamples(Without(tracks, k)) + tracks[k].samples
    ensures OpenSamples(tracks[k := t]) == OpenSamples(Without(tracks, k)) + t.samples
  {
    var front, back := tracks[..k], tracks[k + 1..];
    OpenSamplesSplit(front, back);
    OpenSamplesSplit(front + [tracks[k]], back);
    OpenSamplesSplit(front + [t], back);
    OpenSamplesSplit(front, [tracks[k]]);
    OpenSamplesSplit(front, [t]);
    assert tracks == front + [tracks[k]] + back;
    assert tracks[k := t] == front + [t] + back;
    assert OpenSamples([t]) == t.samples && OpenSamples([tracks[k]]) == tracks[k].samples;
  }

  /** Every alert fed in is a sample of exactly one open or ended track. */
  ghost predicate Conserved(w: World) {
    w.fed == OpenSamples(w.st.tracks) + EndedSamples(w.log)
  }

  lemma {:induction false} SamplesStart(tracks: seq<Track>, log: seq<Event>, t: Track, e: Event)
    requires t.samples == 1 && e.kind == Start
    ensures OpenSamples(tracks + [t]) == OpenSamples(tracks) + 1 && EndedSamples(log + [e]) == EndedSamples(log)
  {
    EndedSamplesAfter(log, e);
    OpenSamplesSplit(tracks, [t]);
    assert OpenSamples([t]) == 1;
  }

  lemma {:induction false} ConservedStart(w: World, a: Alert, snap: Snapshot, stamp: nat)
    requires Conserved(w)
    ensures Conserved(StepStart(w, a, snap, stamp))
  {
    var (s, es) := StartTrack(w.st, a, snap);
    assert s.tracks == w.st.tracks + [s.tracks[|w.st.tracks|]];
    SamplesStart(w.st.tracks, w.log, s.tracks[|w.st.tracks|], es[0]);
  }

  lemma {:induction false} SamplesAbsorb(tracks: seq<Track>, log: seq<Event>, k: nat, t: Track, es: seq<Event>)
    requires k < |tracks| && t.samples == tracks[k].samples + 1
    requires |es| == 0 || (|es| == 1 && es[0].kind != End)
    ensures OpenSamples(tracks[k := t]) == OpenSamples(tracks) + 1 && EndedSamples(log + es) == EndedSamples(log)
  {
    OpenSamplesAt(tracks, k, t);
    if |es| == 0 {
      assert log + es == log;
    } else {
      assert es == [es[0]];
      EndedSamplesAfter(log, es[0]);
    }
  }

  lemma {:induction false} ConservedAbsorb(w: World, k: nat, a: Alert, snap: Snapshot, close: bool, stamp: nat)
    requires Conserved(w) && k < |w.st.tracks|
    ensures Conserved(StepAbsorb(w, k, a, snap, close, stamp))
  {
    var (s, es) := AbsorbAt(w.st, k, a, snap, close);
    SamplesAbsorb(w.st.tracks, w.log, k, s.tracks[k], es);
  }

  lemma {:induction false} ConservedMiss(w: World, k: nat)
    requires Conserved(w) && k < |w.st.tracks|
    ensures Conserved(StepMiss(w, k))
  {
    OpenSamplesAt(w.st.tracks, k, Missed(w.st.tracks[k]));
  }

  lemma {:induction false} ConservedEnd(w: World, k: nat, seqNo: int, wall: int, reason: Correlation)
    requires Conserved(w) && k < |w.st.tracks|
    ensures Conserved(StepEnd(w, k, seqNo, wall, reason))
  {
    OpenSamplesAt(w.st.tracks, k, w.st.tracks[k]);
    EndedSamplesAfter(w.log, EndEvent(w.st.tracks[k], seqNo, wall, reason));
  }
}
