/** A cancellation inside the teardown does leave a threat open: the run that shows it. */
module CutTeardown {
  import opened Common
  import opened Matching
  import opened Tracks
  import opened Runs
  import opened RunTheorems
  import Histories
  import Notifications
  import Queues
  import opened Sessions
  import opened SessionTheorems

  lemma {:induction false} PassKeepsClaimed(tracks: seq<Track>, a: map<nat, nat>, firstNew: nat, tolerance: int,
                                            snap: Snapshot, n: nat)
    requires n <= |tracks| && forall k :: 0 <= k < |tracks| ==> firstNew <= tracks[k].id
    ensures EndPass(tracks, a, firstNew, tolerance, snap, n).0 == tracks[..n]
  {
    if n == 0 {
    } else {
      PassKeepsClaimed(tracks, a, firstNew, tolerance, snap, n - 1);
      assert tracks[..n] == tracks[..n - 1] + [tracks[n - 1]];
    }
  }

  lemma {:induction false} SlotsAllStart(st: State, snap: Snapshot, a: map<nat, nat>, close: set<nat>, n: nat)
    requires n <= |snap.alerts| && |a| == 0 && AllHeld(a, st.tracks)
    ensures |Slots(st, snap, a, close, n).0.tracks| == |st.tracks| + n
  {
    if n == 0 {
    } else {
      SlotsAllStart(st, snap, a, close, n - 1);
    }
  }

  lemma {:induction false} NothingAssigned(snap: Snapshot)
    ensures |Assignment(snap.alerts, Candidates([]))| == 0
  {
    AssignedAreHeld([], snap.alerts);
    var a := Assignment(snap.alerts, Candidates([]));
    assert AllHeld(a, []);
    assert a == map[];
  }

  lemma {:induction false} AllNewSurvive(v: State, a: map<nat, nat>, tolerance: int, snap: Snapshot)
    requires WellFormed(v)
    ensures EndPass(v.tracks, a, 1, tolerance, snap, |v.tracks|).0 == v.tracks
  {
    PassKeepsClaimed(v.tracks, a, 1, tolerance, snap, |v.tracks|);
    assert v.tracks[..|v.tracks|] == v.tracks;
  }

  /** The first snapshot of a session opens a track for each of its alerts. */
  lemma {:induction false} FirstSnapshotOpens(w: World, snap: Snapshot, tolerance: int)
    requires WellFormed(w.st) && w.st.tracks == [] && w.st.nextId == 1
    ensures |Feed(w, snap, tolerance).st.tracks| == |snap.alerts|
  {
    var v, ms, more := FeedLeads(w, snap, tolerance);
    var a := Assignment(snap.alerts, Candidates([]));
    NothingAssigned(snap);
    SlotsAllStart(w.st, snap, a, AmbiguousSlots(snap.alerts, Candidates([])), |snap.alerts|);
    assert |v.st.tracks| == |snap.alerts|;
    AllNewSurvive(v.st, a, tolerance, snap);
    Histories.FeedTracks(w, v, snap, tolerance);
  }

  /** The alerts one arrival decodes to, as the first of its session. */
  function FirstSnapshot(a: Queues.Arrival, env: Env): Snapshot {
    Notifications.SnapshotOf(env.text(a.payload), env.decimals, 1, a.mono, a.wall)
  }

  lemma {:induction false} ConsumesTheRead(s: Session, a: Queues.Arrival, env: Env)
    requires WellFormed(s.w.st) && s.q == Queues.Fresh(s.q.maxsize) && s.q.maxsize >= 2 && a.kind != TELEMETRY
    ensures Consumed(Offered(s, a), env).w == Histories.After(s.w, Observed(FirstSnapshot(a, env)), env.tolerance)
    ensures var c := Consumed(Offered(s, a), env); c.subscribed == s.subscribed && c.interrupted == s.interrupted
  {
    var o := Offered(s, a);
    var note := Queues.NoteOf(1, a);
    assert o.q.items == [note] && o.q.gap == None;
    var (q, record) := Queues.Pop(o.q);
    assert record == Some(Queues.Note(note)) && q.items == [] && q.gap == None;
    var t := Taken(o.(q := q), record.value, env);
    assert Consumed(t, env) == t;
  }

  lemma {:induction false} HeldOne(start: Session, acts: seq<Act>, act: Act, env: Env)
    requires WellFormed(start.w.st)
    ensures Held(start, acts + [act], env) == Step(Held(start, acts, env), act, env)
  {
    assert (acts + [act])[..|acts|] == acts;
  }

  /** A step that goes on, one that leaves, and the read that brings `a`. */
  function Yes(): Luck {
    Luck(false, false, None, 0)
  }

  function Leave(): Luck {
    Luck(true, false, None, 0)
  }

  function Brings(a: Queues.Arrival): Luck {
    Luck(false, false, Some(a), 0)
  }

  lemma {:induction false} PlainGo(s: Session, luck: Luck, env: Env)
    requires WellFormed(s.w.st) && !Consumes(s.pc)
    ensures Step(s, Go(luck), env) == PlainStep(s, luck)
  {
  }

  lemma {:induction false} FirstRead(s: Session, env: Env)
    requires WellFormed(s.w.st) && s.pc == Reading(0)
    ensures Step(s, Go(Yes()), env) == s.(pc := Reading(1))
  {
  }

  lemma {:induction false} SecondRead(s: Session, a: Queues.Arrival, env: Env)
    requires WellFormed(s.w.st) && s.pc == Reading(1)
    ensures Step(s, Go(Brings(a)), env) == Consumed(Offered(s, a), env).(pc := Subscribing(0))
  {
  }

  lemma {:induction false} ReadOpens(s: Session, a: Queues.Arrival, env: Env)
    requires s.w == Histories.FIRST && s.pc == Reading(1) && a.kind != TELEMETRY
    requires s.q == Queues.Fresh(s.q.maxsize) && s.q.maxsize >= 2 && s.subscribed == 0 && !s.interrupted
    ensures var v := Step(s, Go(Brings(a)), env);
            && v.pc == Subscribing(0) && v.subscribed == 0 && !v.interrupted
            && |v.w.st.tracks| == |FirstSnapshot(a, env).alerts|
  {
    SecondRead(s, a, env);
    ConsumesTheRead(s, a, env);
    FirstSnapshotOpens(s.w, FirstSnapshot(a, env), env.tolerance);
  }

  function Start(a: Queues.Arrival): seq<Act> {
    [] + [Go(Yes())] + [Go(Yes())] + [Go(Brings(a))]
  }

  /** The acts up to the first consume: connect, one read that fails, one that brings `a`. */
  lemma {:induction false} OneRead(maxsize: nat, seqNo: int, a: Queues.Arrival, env: Env) returns (acts: seq<Act>)
    requires maxsize >= 2 && a.kind != TELEMETRY
    ensures acts == Start(a)
    ensures var s := Held(Connect(maxsize, [], [], seqNo), acts, env);
            && s.pc == Subscribing(0) && s.subscribed == 0 && !s.interrupted
            && |s.w.st.tracks| == |FirstSnapshot(a, env).alerts|
  {
    var start := Connect(maxsize, [], [], seqNo);
    acts := [] + [Go(Yes())];
    HeldOne(start, [], Go(Yes()), env);
    PlainGo(start, Yes(), env);
    HeldOne(start, acts, Go(Yes()), env);
    FirstRead(start.(pc := Reading(0)), env);
    acts := acts + [Go(Yes())];
    HeldOne(start, acts, Go(Brings(a)), env);
    ReadOpens(start.(pc := Reading(1)), a, env);
    acts := acts + [Go(Brings(a))];
  }

  /** Both subscriptions made, and the loop told to stop. */
  lemma {:induction false} TailPlain(s: Session)
    requires s.pc == Subscribing(0) && s.subscribed == 0 && !s.interrupted
    ensures var one := PlainStep(s, Yes());
            var two := PlainStep(one, Yes());
            var looping := PlainStep(two, Yes());
            var leaving := PlainStep(looping, Leave());
            && !Consumes(one.pc) && !Consumes(two.pc) && !Consumes(looping.pc)
            && leaving.pc == Leaving(0) && leaving.subscribed == 2 && leaving.w == s.w
            && one.w == s.w && two.w == s.w && looping.w == s.w
  {
  }

  lemma {:induction false} CancelCuts(s: Session, env: Env)
    requires WellFormed(s.w.st) && s.pc == Leaving(0) && s.subscribed == 2
    ensures Step(s, Cancel, env) == s.(pc := Released, interrupted := true)
  {
  }

  function Tail(): seq<Act> {
    [Go(Yes())] + [Go(Yes())] + [Go(Yes())] + [Go(Leave())] + [Cancel]
  }

  /** From the first subscription on: subscribe twice, leave, and be cancelled inside the teardown. */
  lemma {:induction false} CutTail(start: Session, acts: seq<Act>, env: Env)
    requires WellFormed(start.w.st)
    requires var s := Held(start, acts, env); s.pc == Subscribing(0) && s.subscribed == 0 && !s.interrupted
    ensures var v := Held(start, acts + Tail(), env);
            v.pc == Released && v.interrupted && v.w == Held(start, acts, env).w
  {
    var s := Held(start, acts, env);
    TailPlain(s);
    var one := PlainStep(s, Yes());
    var two := PlainStep(one, Yes());
    var looping := PlainStep(two, Yes());
    var a1 := acts + [Go(Yes())];
    var a2 := a1 + [Go(Yes())];
    var a3 := a2 + [Go(Yes())];
    var a4 := a3 + [Go(Leave())];
    HeldOne(start, acts, Go(Yes()), env);
    PlainGo(s, Yes(), env);
    HeldOne(start, a1, Go(Yes()), env);
    PlainGo(one, Yes(), env);
    HeldOne(start, a2, Go(Yes()), env);
    PlainGo(two, Yes(), env);
    HeldOne(start, a3, Go(Leave()), env);
    PlainGo(looping, Leave(), env);
    HeldOne(start, a4, Cancel, env);
    CancelCuts(Held(start, a4, env), env);
    assert acts + Tail() == a4 + [Cancel];
  }

  lemma {:induction false} OpenIsOwed(start: Session, acts: seq<Act>, env: Env)
    requires Inv(start, env) && |Held(start, acts, env).w.st.tracks| > 0
    ensures !Discharged(Held(start, acts, env))
  {
    HeldInv(start, acts, env);
    if Discharged(Held(start, acts, env)) {
      DischargedIsSettled(Held(start, acts, env), env);
    }
  }

  /** One cancellation and no exception: every act before it is a step that simply goes on. */
  ghost predicate OneCancellation(acts: seq<Act>) {
    |acts| > 0 && acts[|acts| - 1] == Cancel && forall k :: 0 <= k < |acts| - 1 ==> acts[k].Go?
  }

  lemma {:induction false} CancelsOnce(a: Queues.Arrival)
    ensures OneCancellation(Start(a) + Tail())
  {
  }

  lemma {:induction false} ReadsCutShort(start: Session, acts: seq<Act>, env: Env)
    requires Inv(start, env)
    requires var s := Held(start, acts, env);
             s.pc == Subscribing(0) && s.subscribed == 0 && !s.interrupted && |s.w.st.tracks| > 0
    ensures var s := Held(start, acts + Tail(), env);
            s.pc == Released && s.interrupted && !Discharged(s)
  {
    CutTail(start, acts, env);
    OpenIsOwed(start, acts + Tail(), env);
  }

  /**
   * A payload that decodes to any alert at all, read before the subscriptions, and one cancellation,
   * inside the teardown: the link is released with that alert's track started and never ended.
   */
  lemma {:induction false} ACutTeardownLosesEnds(maxsize: nat, seqNo: int, a: Queues.Arrival, env: Env)
    returns (acts: seq<Act>)
    requires maxsize >= 2 && a.kind != TELEMETRY && |FirstSnapshot(a, env).alerts| > 0
    ensures var s := Held(Connect(maxsize, [], [], seqNo), acts, env);
            s.pc == Released && s.interrupted && !Discharged(s)
    ensures OneCancellation(acts)
  {
    ConnectInv(maxsize, seqNo, env);
    var opening := OneRead(maxsize, seqNo, a, env);
    ReadsCutShort(Connect(maxsize, [], [], seqNo), opening, env);
    CancelsOnce(a);
    acts := opening + Tail();
  }
}
