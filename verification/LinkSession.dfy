/** The session object: one queue and one tracker updated in place, proved against `Sessions`. */
module LinkSession {
  import opened Common
  import opened Alerts
  import Wire
  import Tracks
  import Runs
  import Histories
  import Notifications
  import Queues
  import Ingest
  import Tracker
  import opened Sessions

  class LinkSession {
    const env: Env
    const ingest: Ingest.Ingest
    const tracker: Tracker.AlertTracker
    var wake: bool
    var telemetry: nat
    var alertPackets: nat
    var lost: int
    var seqNo: int
    var alerts: seq<Alert>
    var openTracks: seq<Tracks.Track>
    var subscribed: nat
    /** Where the session stands, and the tracker with everything it was fed and everything that was dispatched. */
    ghost var pc: Pc
    ghost var world: Runs.World

    ghost predicate Valid()
      reads this, ingest, tracker, tracker.tracks
    {
      && ingest.Valid() && tracker.Valid() && tracker.missTolerance == env.tolerance
      && world.st == tracker.Value() && Tracks.WellFormed(world.st)
    }

    /** Every open track is one of `earlier`, or was started since. */
    twostate predicate Grown(earlier: seq<Tracker.AlertTrack>)
      reads this, tracker
    {
      forall k :: 0 <= k < |tracker.tracks| ==> tracker.tracks[k] in earlier || fresh(tracker.tracks[k])
    }

    ghost function Value(): Session
      reads this, ingest
    {
      Session(pc, ingest.Value(), world, wake, subscribed, alerts, openTracks, seqNo, telemetry, alertPackets, lost,
              false)
    }

    /** A session over the published state the previous one left. */
    constructor (env: Env, queue: Ingest.Ingest, tracker: Tracker.AlertTracker, alerts: seq<Alert>,
                 openTracks: seq<Tracks.Track>, seqNo: int)
      requires queue.Valid() && queue.Value() == Queues.Fresh(queue.maxsize)
      requires tracker.Valid() && tracker.Value() == Histories.FIRST.st && tracker.missTolerance == env.tolerance
      ensures Valid() && Value() == Connect(queue.maxsize, alerts, openTracks, seqNo)
      ensures this.ingest == queue && this.tracker == tracker && this.env == env
    {
      this.env, this.ingest, this.tracker := env, queue, tracker;
      this.alerts, this.openTracks, this.seqNo := alerts, openTracks, seqNo;
      wake, telemetry, alertPackets, lost, subscribed := false, 0, 0, 0, 0;
      pc, world := Opening, Histories.FIRST;
    }

    /** `_on_notification`: enqueue and wake. */
    method OnNotification(a: Queues.Arrival)
      requires Valid() && pc != Released
      modifies this`wake, ingest
      ensures Valid() && Value() == Step(old(Value()), Notify(a), env)
    {
      var note := ingest.Offer(a);
      wake := true;
    }

    /** `record_alerts`. */
    method Record(seqNo: int, decoded: seq<Alert>)
      requires Valid()
      modifies this`alertPackets, this`seqNo, this`alerts
      ensures Valid() && Value() == Shown(old(Value()), seqNo, decoded)
    {
      alertPackets := alertPackets + 1;
      this.seqNo := seqNo;
      alerts := if |decoded| <= MAX_PUBLISHED_ALERTS then decoded else decoded[..MAX_PUBLISHED_ALERTS];
    }

    /** Parse one alert payload, and put what it shows on the screen. */
    method Show(note: Queues.Notification) returns (snap: Tracks.Snapshot)
      requires Valid()
      modifies this`alertPackets, this`seqNo, this`alerts
      ensures Valid()
      ensures snap == Notifications.SnapshotOf(env.text(note.payload), env.decimals, note.seqNo, note.mono, note.wall)
      ensures Value() == Shown(old(Value()), note.seqNo, snap.alerts)
    {
      var parsed := Wire.ParseAlertSnapshot(env.text(note.payload), env.decimals);
      snap := Tracks.Snapshot(Wire.Decoded(parsed.slots), note.seqNo, note.mono, note.wall, !parsed.recognised);
      Record(note.seqNo, snap.alerts);
    }

    /** Fold one snapshot into the tracker. */
    method Follow(snap: Tracks.Snapshot) returns (es: seq<Tracks.Event>)
      requires Valid()
      modifies this`world, tracker, tracker.tracks
      ensures Valid() && Grown(old(tracker.tracks))
      ensures Tracks.WellFormed(old(world.st))
      ensures world == Histories.After(old(world), Runs.Observed(snap), env.tolerance)
      ensures world.log == old(world.log) + es
    {
      AfterObserved(world, snap, env.tolerance);
      ghost var after := Histories.After(world, Runs.Observed(snap), env.tolerance);
      es := tracker.Observe(snap);
      world := after;
    }

    /** And what that is for the session. */
    method Observe(snap: Tracks.Snapshot) returns (es: seq<Tracks.Event>)
      requires Valid()
      modifies this`world, tracker, tracker.tracks
      ensures Valid() && Grown(old(tracker.tracks))
      ensures Tracks.WellFormed(old(world.st))
      ensures Value() == old(Value()).(w := Histories.After(old(world), Runs.Observed(snap), env.tolerance))
      ensures world.log == old(world.log) + es
    {
      es := Follow(snap);
    }

    /** The alert branch of `_apply`. */
    method ApplyAlert(note: Queues.Notification) returns (es: seq<Tracks.Event>)
      requires Valid() && note.kind != TELEMETRY
      modifies this, tracker, tracker.tracks
      ensures Valid() && Grown(old(tracker.tracks))
      ensures Value() == Applied(old(Value()), note, env)
      ensures world.log == old(world.log) + es
    {
      var snap := Show(note);
      es := Observe(snap);
    }

    /** `_apply`. */
    method Apply(note: Queues.Notification) returns (es: seq<Tracks.Event>)
      requires Valid()
      modifies this, tracker, tracker.tracks
      ensures Valid() && Grown(old(tracker.tracks))
      ensures Value() == Applied(old(Value()), note, env)
      ensures world.log == old(world.log) + es
    {
      if note.kind == TELEMETRY {
        telemetry := telemetry + 1;
        seqNo := note.seqNo;
        es := [];
      } else {
        es := ApplyAlert(note);
      }
    }

    /** One record out of the queue: a gap is counted, a notification applied. */
    method Take(record: Queues.Record) returns (es: seq<Tracks.Event>)
      requires Valid()
      modifies this, tracker, tracker.tracks
      ensures Valid() && Grown(old(tracker.tracks))
      ensures Value() == Taken(old(Value()), record, env)
      ensures world.log == old(world.log) + es
    {
      match record
      case Loss(g) =>
        lost := lost + Queues.Count(g);
        es := [];
      case Note(n) =>
        es := Apply(n);
    }

    /** One turn of `_consume`: take a record, and pop the next. */
    method TakeAndPop(record: Queues.Record) returns (es: seq<Tracks.Event>, next: Option<Queues.Record>)
      requires Valid()
      modifies this, ingest, tracker, tracker.tracks
      ensures Valid() && Grown(old(tracker.tracks))
      ensures Remaining(Value(), next, env) == Remaining(old(Value()), Some(record), env)
      ensures world.log == old(world.log) + es
      ensures next.Some? ==> Queues.Length(ingest.Value()) < Queues.Length(old(ingest.Value()))
    {
      es := Take(record);
      PopRemains(Value(), env);
      next := ingest.Pop();
    }

    /** `_consume`: drain the queue, in arrival order, and return the transitions. */
    method Consume() returns (events: seq<Tracks.Event>)
      requires Valid()
      modifies this, ingest, tracker, tracker.tracks
      ensures Valid() && Grown(old(tracker.tracks))
      ensures Value() == Consumed(old(Value()), env)
      ensures world.log == old(world.log) + events
    {
      events := [];
      PopRemains(Value(), env);
      var record := ingest.Pop();
      while record.Some?
        invariant Valid() && Grown(old(tracker.tracks))
        invariant world.log == old(world.log) + events
        invariant Remaining(Value(), record, env) == Consumed(old(Value()), env)
        decreases if record.Some? then Queues.Length(ingest.Value()) + 1 else 0
      {
        var es;
        es, record := TakeAndPop(record.value);
        Associative(old(world.log), events, es);
        events := events + es;
      }
    }

    /** End every track still open, and clear the screen. */
    method EndAll(wall: int) returns (ends: seq<Tracks.Event>)
      requires Valid()
      modifies this`world, this`alerts, this`openTracks, this`pc, tracker
      ensures Valid() && Value() == ShutDown(old(Value()), wall)
      ensures world.log == old(world.log) + ends
    {
      ends := tracker.Close(seqNo, wall);
      world := Runs.Shut(world, seqNo, wall);
      alerts, openTracks := [], [];
      pc := Released;
    }

    /** The synchronous end of the teardown, after the subscriptions are undone. */
    method Release(wall: int) returns (events: seq<Tracks.Event>)
      requires Valid()
      modifies this, ingest, tracker, tracker.tracks
      ensures Valid() && Value() == TornDown(old(Value()), env, wall)
      ensures world.log == old(world.log) + events
    {
      events := Consume();
      var ends := EndAll(wall);
      Associative(old(world.log), events, ends);
      events := events + ends;
    }
  }

  /** What is left to consume with `record` already popped. */
  ghost function Remaining(s: Session, record: Option<Queues.Record>, env: Env): Session
    requires Tracks.WellFormed(s.w.st)
  {
    if record.None? then s else Consumed(Taken(s, record.value, env), env)
  }

  lemma {:induction false} PopRemains(s: Session, env: Env)
    requires Tracks.WellFormed(s.w.st)
    ensures var (q, record) := Queues.Pop(s.q);
            && Consumed(s, env) == Remaining(s.(q := q), record, env)
            && (record.Some? ==> Queues.Length(q) < Queues.Length(s.q))
  {
  }

  lemma {:induction false} AfterObserved(w: Runs.World, snap: Tracks.Snapshot, tolerance: int)
    requires Tracks.WellFormed(w.st)
    ensures var v := Histories.After(w, Runs.Observed(snap), tolerance);
            var (st, es) := Tracks.Observe(w.st, snap, tolerance);
            v.st == st && v.log == w.log + es && Tracks.WellFormed(st)
  {
  }
}
