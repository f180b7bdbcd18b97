/** The tracker as it runs: track objects updated in place, proved against `Tracks`. */
module Tracker {
  import opened Common
  import opened Alerts
  import opened Matching
  import opened Tracks

  /** One threat, followed across the snapshots it appears in. */
  class AlertTrack {
    const trackId: nat
    const key: AlertKey
    var alert: Alert
    const firstMono: int
    const firstWall: int
    var lastMono: int
    var lastWall: int
    var samples: nat
    var maxStrength: Option<int>
    var maxSignal: Option<int>
    var minFrequency: Option<real>
    var maxFrequency: Option<real>
    var directions: string
    var misses: nat
    var ambiguous: bool

    ghost function View(): Track
      reads this
    {
      Track(trackId, key, alert, firstMono, firstWall, lastMono, lastWall, samples, maxStrength, maxSignal,
            minFrequency, maxFrequency, directions, misses, ambiguous)
    }

    constructor (id: nat, a: Alert, mono: int, wall: int)
      ensures View() == NewTrack(id, a, mono, wall)
    {
      trackId, key, alert := id, KeyOf(a), a;
      firstMono, firstWall, lastMono, lastWall := mono, wall, mono, wall;
      samples, misses, ambiguous := 1, 0, false;
      maxStrength, maxSignal, minFrequency, maxFrequency := a.strength, a.signal, a.frequency, a.frequency;
      directions := if a.direction.Some? then [a.direction.value] else "";
    }

    /** Fold a new observation in; true if anything publishable changed. */
    method Absorb(a: Alert, mono: int, wall: int) returns (changed: bool)
      modifies this
      ensures View() == Absorbed(old(View()), a, mono, wall)
      ensures changed == Changed(old(View()), a)
    {
      changed := Publishable(a) != Publishable(alert);
      directions := WithDirection(directions, a.direction);
      alert, lastMono, lastWall := a, mono, wall;
      samples, misses := samples + 1, 0;
      maxStrength := LargerOf(maxStrength, a.strength);
      maxSignal := LargerOf(maxSignal, a.signal);
      minFrequency := LowerOf(minFrequency, a.frequency);
      maxFrequency := HigherOf(maxFrequency, a.frequency);
    }
  }

  /** Insertion order is id order, so no object appears twice. */
  ghost predicate Ordered(ts: seq<AlertTrack>) {
    forall j, k :: 0 <= j < k < |ts| ==> ts[j].trackId < ts[k].trackId
  }

  /** What one track of the end pass leaves, given what it met. */
  ghost predicate PassStep(before: seq<Track>, after: seq<Track>, es: seq<Event>, k: nat, claimed: bool,
                           tolerance: int, snap: Snapshot)
    requires k < |before|
  {
    var t := before[k];
    if claimed then es == [] && after == before
    else if Missed(t).misses > tolerance then
      es == [EndEvent(Missed(t), snap.seqNo, snap.wall, Timeout)] && after == before[..k] + before[k + 1..]
    else es == [] && after == before[k := Missed(t)]
  }

  /** Where the end pass over `met` stands before its track `n`: `kept` tracks decided, the rest as they were. */
  ghost predicate Passing(met: seq<Track>, a: map<nat, nat>, firstNew: nat, tolerance: int, snap: Snapshot, n: nat,
                          views: seq<Track>, es: seq<Event>, kept: nat) {
    && n <= |met|
    && var (stay, ends) := EndPass(met, a, firstNew, tolerance, snap, n);
    views == stay + met[n..] && es == ends && |stay| == kept
  }

  lemma {:induction false} PassReaches(met: seq<Track>, a: map<nat, nat>, firstNew: nat, tolerance: int,
                                       snap: Snapshot, n: nat, views: seq<Track>, es: seq<Event>, kept: nat)
    requires Passing(met, a, firstNew, tolerance, snap, n, views, es, kept) && n < |met|
    ensures kept < |views| && views[kept] == met[n]
  {
  }

  lemma {:induction false} PassAdvances(met: seq<Track>, a: map<nat, nat>, firstNew: nat, tolerance: int,
                                        snap: Snapshot, n: nat, views: seq<Track>, es: seq<Event>, kept: nat,
                                        views': seq<Track>, more: seq<Event>)
    requires Passing(met, a, firstNew, tolerance, snap, n, views, es, kept) && n < |met| && kept < |views|
    requires PassStep(views, views', more, kept, Claims(a, firstNew, met[n].id), tolerance, snap)
    ensures Passing(met, a, firstNew, tolerance, snap, n + 1, views', es + more,
                    if |views'| == |views| then kept + 1 else kept)
  {
    var (stay, ends) := EndPass(met, a, firstNew, tolerance, snap, n);
    assert met[n..] == [met[n]] + met[n + 1..];
    assert views == stay + [met[n]] + met[n + 1..];
    assert views[..kept] == stay && views[kept + 1..] == met[n + 1..];
  }

  lemma {:induction false} PassDone(met: seq<Track>, a: map<nat, nat>, firstNew: nat, tolerance: int, snap: Snapshot,
                                    views: seq<Track>, es: seq<Event>, kept: nat)
    requires Passing(met, a, firstNew, tolerance, snap, |met|, views, es, kept)
    ensures (views, es) == EndPass(met, a, firstNew, tolerance, snap, |met|)
  {
    var (stay, ends) := EndPass(met, a, firstNew, tolerance, snap, |met|);
    assert met[|met|..] == [];
    assert views == stay;
  }

  /** `claimed` holds the ids the snapshot has matched or started so far. */
  ghost predicate ClaimsOnly(claimed: set<nat>, a: map<nat, nat>, firstNew: nat, nextId: nat) {
    forall id :: id in claimed <==> id in a.Values || firstNew <= id < nextId
  }

  /** Turns a stream of full snapshots into start, update and end events. */
  class AlertTracker {
    const missTolerance: int
    var tracks: seq<AlertTrack>
    var nextTrackId: nat
    /** What the track objects hold, in order. */
    ghost var views: seq<Track>

    ghost predicate Valid()
      reads this, tracks
    {
      && nextTrackId >= 1 && Ordered(tracks) && |views| == |tracks|
      && forall k :: 0 <= k < |tracks| ==> 1 <= tracks[k].trackId < nextTrackId && tracks[k].View() == views[k]
    }

    ghost function Value(): State
      reads this
    {
      State(views, nextTrackId)
    }

    constructor (tolerance: int := TRACK_MISS_TOLERANCE)
      ensures Valid() && Value() == EMPTY && missTolerance == tolerance
    {
      missTolerance, tracks, nextTrackId, views := tolerance, [], 1, [];
    }

    lemma {:induction false} ValidIsWellFormed()
      requires Valid()
      ensures WellFormed(Value())
    {
      assert forall k :: 0 <= k < |tracks| ==> views[k].id == tracks[k].trackId;
    }

    /** What matching reads of the open tracks. */
    method Scoreboard() returns (c: seq<Candidate>)
      requires Valid()
      ensures c == Candidates(views)
    {
      c := [];
      for k := 0 to |tracks|
        invariant c == Candidates(views)[..k]
      {
        assert tracks[k].View() == views[k];
        c := c + [Candidate(tracks[k].trackId, tracks[k].alert)];
      }
    }

    /** `self._tracks[id]`. */
    method Find(id: nat) returns (k: nat)
      requires Valid() && HasId(views, id)
      ensures k == PositionOf(views, id) && k < |tracks|
    {
      k := 0;
      ghost var p := PositionOf(views, id);
      assert tracks[p].View() == views[p];
      while tracks[k].trackId != id
        invariant k <= p < |tracks|
        decreases |tracks| - k
      {
        k := k + 1;
      }
    }

    /** `_start`: open a track under the next id. */
    method OpenTrack(a: Alert, mono: int, wall: int)
      requires Valid()
      modifies this
      ensures Valid()
      ensures |tracks| == |old(tracks)| + 1 && tracks[..|old(tracks)|] == old(tracks) && fresh(tracks[|old(tracks)|])
      ensures views == old(views) + [NewTrack(old(nextTrackId), a, mono, wall)]
      ensures nextTrackId == old(nextTrackId) + 1
    {
      var t := new AlertTrack(nextTrackId, a, mono, wall);
      assert t.View().id == nextTrackId;
      views := views + [t.View()];
      nextTrackId := nextTrackId + 1;
      tracks := tracks + [t];
    }

    /** The branch of `observe` for an assigned slot: fold the alert into the track. */
    method AbsorbInto(k: nat, a: Alert, snap: Snapshot, close: bool) returns (es: seq<Event>)
      requires Valid() && k < |tracks|
      modifies this`views, tracks[k]
      ensures Valid()
      ensures (Value(), es) == AbsorbAt(old(Value()), k, a, snap, close)
    {
      var t := tracks[k];
      ghost var met := t.View();
      t.ambiguous := t.ambiguous || close;
      var was := t.alert;
      var changed := t.Absorb(a, snap.mono, snap.wall);
      es := [];
      if changed {
        es := [Event(Update, snap.seqNo, t.trackId, snap.mono, snap.wall, a, if close then Ambiguous else Matched,
                     None, MaterialChange(was, a))];
      }
      views := views[k := t.View()];
    }

    /** One slot of `observe`. */
    method ObserveSlot(snap: Snapshot, assignments: map<nat, nat>, close: set<nat>, index: nat) returns (es: seq<Event>)
      requires Valid() && index < |snap.alerts|
      requires index in assignments ==> HasId(views, assignments[index])
      modifies this, tracks
      ensures Valid() && forall k :: 0 <= k < |tracks| ==> tracks[k] in old(tracks) || fresh(tracks[k])
      ensures (Value(), es) == SlotStep(old(Value()), snap, assignments, close, index)
    {
      var a := snap.alerts[index];
      if index in assignments {
        var k := Find(assignments[index]);
        es := AbsorbInto(k, a, snap, index in close);
      } else {
        es := [Event(Start, snap.seqNo, nextTrackId, snap.mono, snap.wall, a, New, None, true)];
        OpenTrack(a, snap.mono, snap.wall);
        assert tracks == old(tracks) + [tracks[|old(tracks)|]];
      }
    }

    /** One turn of the slot loop. */
    method SlotTurn(snap: Snapshot, assignments: map<nat, nat>, close: set<nat>, index: nat, es: seq<Event>,
                    claimed: set<nat>, ghost st: State)
      returns (es': seq<Event>, claimed': set<nat>)
      requires Valid() && index < |snap.alerts| && AllHeld(assignments, st.tracks)
      requires (Value(), es) == Slots(st, snap, assignments, close, index)
      requires st.nextId <= nextTrackId && ClaimsOnly(claimed, assignments, st.nextId, nextTrackId)
      modifies this, tracks
      ensures Valid() && forall k :: 0 <= k < |tracks| ==> tracks[k] in old(tracks) || fresh(tracks[k])
      ensures (Value(), es') == Slots(st, snap, assignments, close, index + 1)
      ensures st.nextId <= nextTrackId && ClaimsOnly(claimed', assignments, st.nextId, nextTrackId)
    {
      SlotsNext(st, snap, assignments, close, index);
      var id := nextTrackId;
      var more := ObserveSlot(snap, assignments, close, index);
      es' := es + more;
      claimed' := if index in assignments then claimed else claimed + {id};
    }

    /** The slot loop of `observe`, growing the set of claimed ids as tracks are started. */
    method ObserveSlots(snap: Snapshot, assignments: map<nat, nat>, close: set<nat>)
      returns (es: seq<Event>, claimed: set<nat>)
      requires Valid() && AllHeld(assignments, views)
      modifies this, tracks
      ensures Valid() && forall k :: 0 <= k < |tracks| ==> tracks[k] in old(tracks) || fresh(tracks[k])
      ensures (Value(), es) == Slots(old(Value()), snap, assignments, close, |snap.alerts|)
      ensures ClaimsOnly(claimed, assignments, old(nextTrackId), nextTrackId)
    {
      es, claimed := [], assignments.Values;
      for index := 0 to |snap.alerts|
        invariant Valid() && forall k :: 0 <= k < |tracks| ==> tracks[k] in old(tracks) || fresh(tracks[k])
        invariant (Value(), es) == Slots(old(Value()), snap, assignments, close, index)
        invariant old(nextTrackId) <= nextTrackId && ClaimsOnly(claimed, assignments, old(nextTrackId), nextTrackId)
      {
        es, claimed := SlotTurn(snap, assignments, close, index, es, claimed, old(Value()));
      }
    }

    /** `track.misses += 1`. */
    method ChargeMiss(k: nat)
      requires Valid() && k < |tracks|
      modifies this`views, tracks[k]
      ensures Valid() && views == old(views)[k := Missed(old(views)[k])]
    {
      tracks[k].misses := tracks[k].misses + 1;
      views := views[k := Missed(views[k])];
    }

    /** `_end`: drop the track and report the encounter. */
    method EndTrack(k: nat, seqNo: int, wall: int, reason: Correlation) returns (e: Event)
      requires Valid() && k < |tracks|
      modifies this`tracks, this`views
      ensures Valid() && tracks == old(tracks)[..k] + old(tracks)[k + 1..]
      ensures views == old(views)[..k] + old(views)[k + 1..]
      ensures e == EndEvent(old(views)[k], seqNo, wall, reason)
    {
      var t := tracks[k];
      assert t.View() == views[k];
      e := Event(End, seqNo, t.trackId, t.lastMono, if reason == Timeout then t.lastWall else wall, t.alert,
                 if t.ambiguous then Ambiguous else reason,
                 Some(Aggregates((t.lastMono - t.firstMono) as real / 1000000000.0, t.samples, t.maxStrength,
                                 t.maxSignal, t.directions)), true);
      tracks := tracks[..k] + tracks[k + 1..];
      views := views[..k] + views[k + 1..];
    }

    /** One track of the end pass. */
    method EndPassStep(k: nat, snap: Snapshot, claimed: bool) returns (es: seq<Event>)
      requires Valid() && k < |tracks|
      modifies this`tracks, this`views, tracks[k]
      ensures Valid()
      ensures PassStep(old(views), views, es, k, claimed, missTolerance, snap)
      ensures |tracks| == |views| && forall t :: t in tracks ==> t in old(tracks)
    {
      es := [];
      if !claimed {
        ChargeMiss(k);
        assert tracks[k].View() == views[k];
        if tracks[k].misses > missTolerance {
          var e := EndTrack(k, snap.seqNo, snap.wall, Timeout);
          es := [e];
        }
      }
    }

    /** One turn of the end pass. */
    method QuietTurn(snap: Snapshot, claimed: set<nat>, kept: nat, es: seq<Event>, ghost open: seq<AlertTrack>,
                     ghost met: seq<Track>, ghost assignments: map<nat, nat>, ghost firstNew: nat, ghost n: nat)
      returns (es': seq<Event>, kept': nat)
      requires Valid() && Passing(met, assignments, firstNew, missTolerance, snap, n, views, es, kept) && n < |met|
      requires met[n].id in claimed <==> Claims(assignments, firstNew, met[n].id)
      requires forall t :: t in tracks ==> t in open
      modifies this`tracks, this`views, open
      ensures Valid() && forall t :: t in tracks ==> t in open
      ensures Passing(met, assignments, firstNew, missTolerance, snap, n + 1, views, es', kept')
    {
      PassReaches(met, assignments, firstNew, missTolerance, snap, n, views, es, kept);
      assert tracks[kept].View() == views[kept] && tracks[kept] in tracks;
      var before := |tracks|;
      var more := EndPassStep(kept, snap, tracks[kept].trackId in claimed);
      PassAdvances(met, assignments, firstNew, missTolerance, snap, n, old(views), es, kept, views, more);
      es' := es + more;
      kept' := if |tracks| == before then kept + 1 else kept;
    }

    /** The end pass of `observe`: charge every unclaimed track a miss, and end those past the tolerance. */
    method EndQuiet(snap: Snapshot, claimed: set<nat>, ghost assignments: map<nat, nat>, ghost firstNew: nat)
      returns (es: seq<Event>)
      requires Valid()
      requires forall k :: 0 <= k < |views| ==> (views[k].id in claimed <==> Claims(assignments, firstNew, views[k].id))
      modifies this`tracks, this`views, tracks
      ensures Valid() && forall t :: t in tracks ==> t in old(tracks)
      ensures (views, es) == EndPass(old(views), assignments, firstNew, missTolerance, snap, |old(views)|)
    {
      es := [];
      ghost var open, met := tracks, views;
      var count, kept := |tracks|, 0;
      for n := 0 to count
        invariant Valid() && forall t :: t in tracks ==> t in open
        invariant Passing(met, assignments, firstNew, missTolerance, snap, n, views, es, kept)
      {
        es, kept := QuietTurn(snap, claimed, kept, es, open, met, assignments, firstNew, n);
      }
      assert count == |met|;
      PassDone(met, assignments, firstNew, missTolerance, snap, views, es, kept);
    }

    /** The end pass, after the slots gave the events `es`. */
    method QuietAfter(snap: Snapshot, claimed: set<nat>, ghost assignments: map<nat, nat>, ghost firstNew: nat,
                      es: seq<Event>)
      returns (all: seq<Event>)
      requires Valid() && ClaimsOnly(claimed, assignments, firstNew, nextTrackId)
      modifies this`tracks, this`views, tracks
      ensures Valid() && forall k :: 0 <= k < |tracks| ==> tracks[k] in old(tracks)
      ensures var (kept, ends) := EndPass(old(views), assignments, firstNew, missTolerance, snap, |old(views)|);
              views == kept && all == es + ends
    {
      ValidIsWellFormed();
      var ends := EndQuiet(snap, claimed, assignments, firstNew);
      all := es + ends;
    }

    /** `observe`: fold one snapshot in and return the transitions it caused. */
    method Observe(snap: Snapshot) returns (es: seq<Event>)
      requires Valid()
      modifies this, tracks
      ensures Valid() && WellFormed(old(Value()))
      ensures forall k :: 0 <= k < |tracks| ==> tracks[k] in old(tracks) || fresh(tracks[k])
      ensures (Value(), es) == Tracks.Observe(old(Value()), snap, missTolerance)
    {
      ValidIsWellFormed();
      var c := Scoreboard();
      var assignments, close := Assign(snap.alerts, c);
      AssignedAreHeld(views, snap.alerts);
      ghost var firstNew := nextTrackId;
      var claimed;
      es, claimed := ObserveSlots(snap, assignments, close);
      if !snap.holdOpen {
        es := QuietAfter(snap, claimed, assignments, firstNew, es);
      }
    }

    /** `close`: end every open track. */
    method Close(seqNo: int, wall: int) returns (es: seq<Event>)
      requires Valid()
      modifies this
      ensures Valid() && tracks == []
      ensures (Value(), es) == Tracks.Close(old(Value()), seqNo, wall)
    {
      es := [];
      ghost var met := views;
      var count := |tracks|;
      for n := 0 to count
        invariant Valid() && |tracks| == count - n && views == met[n..] && nextTrackId == old(nextTrackId)
        invariant es == Closing(met, seqNo, wall, n)
      {
        var e := EndTrack(0, seqNo, wall, Closed);
        es := es + [e];
      }
    }
  }
}
