/** From payload to tracker: what a notification that could not be read does to the open tracks. */
module Notifications {
  import opened Common
  import opened Alerts
  import opened Matching
  import opened Tracks
  import opened Runs
  import opened RunTheorems
  import opened Histories
  import Wire

  /** What the session hands to the tracker for one alert payload. */
  function SnapshotOf(payload: string, decimals: Wire.Decimals, seqNo: int, mono: int, wall: int): Snapshot {
    Snapshot(Wire.Decoded(Wire.SlotsOf(payload, decimals)), seqNo, mono, wall, Wire.Uncertain(payload, decimals))
  }

  /** In every run, a payload that is blank or has an unreadable slot ends no track. */
  lemma {:induction false} UnreadableEndsNothing(inputs: seq<Input>, tolerance: int, payload: string,
                                                 decimals: Wire.Decimals, seqNo: int, mono: int, wall: int)
    requires !Wire.ReadsWhole(payload)
    ensures forall e :: e in Observe(RunOf(inputs, tolerance).st, SnapshotOf(payload, decimals, seqNo, mono, wall),
                                     tolerance).1 ==>
              e.kind != End
  {
    var w := RunOf(inputs, tolerance);
    var snap := SnapshotOf(payload, decimals, seqNo, mono, wall);
    Wire.UncertainMeaning(payload, decimals);
    forall e | e in Observe(w.st, snap, tolerance).1 ensures e.kind != End {
      HeldSnapshotsNeverEnd(w.st, snap, tolerance, e);
    }
  }

  /** Nor does it charge a miss: a track it matches is reset, and every other open track stays exactly as it was. */
  lemma {:induction false} UnreadableChargesNothing(inputs: seq<Input>, tolerance: int, payload: string,
                                                    decimals: Wire.Decimals, seqNo: int, mono: int, wall: int, t: Track)
    requires !Wire.ReadsWhole(payload) && t in RunOf(inputs, tolerance).st.tracks
    ensures var w := RunOf(inputs, tolerance);
            var snap := SnapshotOf(payload, decimals, seqNo, mono, wall);
            exists u :: && u in Observe(w.st, snap, tolerance).0.tracks && u.id == t.id
                        && (if t.id in Assignment(snap.alerts, Candidates(w.st.tracks)).Values then u.misses == 0
                            else u == t)
  {
    Wire.UncertainMeaning(payload, decimals);
    HoldChargesNothing(inputs, tolerance, SnapshotOf(payload, decimals, seqNo, mono, wall), t);
  }

  lemma {:induction false} HeldSnapshotsNeverEnd(st: State, snap: Snapshot, tolerance: int, e: Event)
    requires WellFormed(st) && snap.holdOpen && e in Observe(st, snap, tolerance).1
    ensures e.kind != End
  {
    var c := Candidates(st.tracks);
    AssignedAreHeld(st.tracks, snap.alerts);
    SlotsNeverEnd(st, snap, Assignment(snap.alerts, c), AmbiguousSlots(snap.alerts, c), |snap.alerts|, e);
  }

  /**
   * In every run, a payload ends an open track exactly when all of it was read, none of its slots
   * matched the track, and the readable snapshots since the last match now exceed the tolerance.
   */
  lemma {:induction false} OnlyReadablePayloadsEnd(inputs: seq<Input>, tolerance: int, payload: string,
                                                   decimals: Wire.Decimals, seqNo: int, mono: int, wall: int, t: Track)
    requires t in RunOf(inputs, tolerance).st.tracks
    ensures var w := RunOf(inputs, tolerance);
            var snap := SnapshotOf(payload, decimals, seqNo, mono, wall);
            EndedBy(w, snap, tolerance, t.id) <==>
              && Wire.ReadsWhole(payload)
              && t.id !in Assignment(snap.alerts, Candidates(w.st.tracks)).Values
              && w.readable + 1 - LastStamp(w.seen, t.id) > tolerance
  {
    Wire.UncertainMeaning(payload, decimals);
    TimesOutExactly(inputs, tolerance, SnapshotOf(payload, decimals, seqNo, mono, wall), t);
  }
}
