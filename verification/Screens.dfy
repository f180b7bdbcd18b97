/**
 * What a session shows, and what its tracker was told, in terms of the records it consumed: those
 * that were pending in its queue and are gone after a step.
 */
module Screens {
  import opened Common
  import opened Alerts
  import opened Tracks
  import opened Runs
  import Histories
  import Queues
  import opened Sessions
  import opened SessionTheorems
  import Wire
  import Notifications

  // ---------------------------------------------------------------- what was consumed

  /** The session with what arrives during a step: a callback's payload, or a one-shot read's. */
  function Arrived(s: Session, act: Act): Session {
    match act
    case Notify(a) => if s.pc == Released then s else Offered(s, a)
    case Go(luck) => if s.pc.Reading? && luck.read.Some? then Offered(s, luck.read.value) else s
    case _ => s
  }

  /** What a step consumed: everything that was pending, if nothing is pending after it. */
  ghost function Gone(s: Session, act: Act, env: Env): seq<Queues.Record>
    requires WellFormed(s.w.st)
  {
    if Queues.Length(Step(s, act, env).q) == 0 then Queues.Pending(Arrived(s, act).q) else []
  }

  /** Everything a run of the session consumed, in order. */
  ghost function ConsumedIn(start: Session, acts: seq<Act>, env: Env): seq<Queues.Record>
    requires WellFormed(start.w.st)
  {
    if |acts| == 0 then []
    else
      var front := acts[..|acts| - 1];
      ConsumedIn(start, front, env) + Gone(Held(start, front, env), acts[|acts| - 1], env)
  }

  // ---------------------------------------------------------------- what that amounts to

  predicate IsAlert(r: Queues.Record) {
    r.Note? && r.note.kind != TELEMETRY
  }

  /** The last alert notification among the records. */
  function LastAlert(rs: seq<Queues.Record>): Option<Queues.Notification> {
    if |rs| == 0 then None
    else if IsAlert(rs[|rs| - 1]) then Some(rs[|rs| - 1].note)
    else LastAlert(rs[..|rs| - 1])
  }

  /** The number of the last notification among the records, of either kind. */
  function LastNumber(rs: seq<Queues.Record>, before: int): int {
    if |rs| == 0 then before
    else if rs[|rs| - 1].Note? then rs[|rs| - 1].note.seqNo
    else LastNumber(rs[..|rs| - 1], before)
  }

  /** `shown` is the first eight of the detections in the payload, or all of them if there are fewer. */
  ghost predicate FirstEight(shown: seq<Alert>, payload: seq<byte>, env: Env) {
    var decoded := Wire.Decoded(Wire.SlotsOf(env.text(payload), env.decimals));
    |shown| == (if |decoded| < 8 then |decoded| else 8) && shown == decoded[..|shown|]
  }

  /** The screen after `rs`: the last alert payload, or what was there before if there was none. */
  ghost predicate OnScreen(shown: seq<Alert>, before: seq<Alert>, rs: seq<Queues.Record>, env: Env) {
    match LastAlert(rs)
    case None => shown == before
    case Some(n) => FirstEight(shown, n.payload, env)
  }

  /** The snapshot one alert notification stands for: held open unless all of it was read. */
  ghost function SnapshotFor(n: Queues.Notification, env: Env): Snapshot {
    Snapshot(Wire.Decoded(Wire.SlotsOf(env.text(n.payload), env.decimals)), n.seqNo, n.mono, n.wall,
             !Wire.ReadsWhole(env.text(n.payload)))
  }

  /** What the tracker is told: a snapshot for every alert notification, and nothing for the rest. */
  ghost function InputsOf(rs: seq<Queues.Record>, env: Env): seq<Input> {
    if |rs| == 0 then []
    else
      var last := rs[|rs| - 1];
      InputsOf(rs[..|rs| - 1], env) + (if IsAlert(last) then [Observed(SnapshotFor(last.note, env))] else [])
  }

  /** The session stands as the records `rs`, and nothing else, left it. */
  ghost predicate Told(s: Session, start: Session, rs: seq<Queues.Record>, env: Env) {
    && OnScreen(s.alerts, start.alerts, rs, env)
    && s.seqNo == LastNumber(rs, start.seqNo)
    && s.w == Histories.RunOf(InputsOf(rs, env), env.tolerance)
  }

  // ---------------------------------------------------------------- consuming

  lemma {:induction false} OneMore(rs: seq<Queues.Record>, r: Queues.Record, before: int, env: Env)
    ensures LastAlert(rs + [r]) == if IsAlert(r) then Some(r.note) else LastAlert(rs)
    ensures LastNumber(rs + [r], before) == if r.Note? then r.note.seqNo else LastNumber(rs, before)
    ensures InputsOf(rs + [r], env)
         == InputsOf(rs, env) + (if IsAlert(r) then [Observed(SnapshotFor(r.note, env))] else [])
  {
    assert (rs + [r])[..|rs|] == rs;
  }

  lemma {:induction false} OneMoreInput(inputs: seq<Input>, input: Input, tolerance: int)
    ensures Histories.RunOf(inputs + [input], tolerance)
         == Histories.After(Histories.RunOf(inputs, tolerance), input, tolerance)
  {
    assert (inputs + [input])[..|inputs|] == inputs;
  }

  lemma {:induction false} SnapshotIsFor(n: Queues.Notification, env: Env)
    ensures Notifications.SnapshotOf(env.text(n.payload), env.decimals, n.seqNo, n.mono, n.wall) == SnapshotFor(n, env)
  {
    Wire.UncertainMeaning(env.text(n.payload), env.decimals);
  }

  lemma {:induction false} ShownIsFirstEight(s: Session, n: Queues.Notification, env: Env)
    ensures FirstEight(Shown(s, n.seqNo, Wire.Decoded(Wire.SlotsOf(env.text(n.payload), env.decimals))).alerts,
                       n.payload, env)
  {
    var decoded := Wire.Decoded(Wire.SlotsOf(env.text(n.payload), env.decimals));
    assert decoded[..|decoded|] == decoded;
  }

  lemma {:induction false} AppliedShows(s: Session, n: Queues.Notification, env: Env)
    requires WellFormed(s.w.st) && n.kind != TELEMETRY
    ensures var v := Applied(s, n, env);
            && FirstEight(v.alerts, n.payload, env) && v.seqNo == n.seqNo
            && v.w == Histories.After(s.w, Observed(SnapshotFor(n, env)), env.tolerance)
  {
    SnapshotIsFor(n, env);
    ShownIsFirstEight(s, n, env);
  }

  lemma {:induction false} TakenTells(s: Session, start: Session, rs: seq<Queues.Record>, r: Queues.Record, env: Env)
    requires WellFormed(s.w.st) && Told(s, start, rs, env)
    ensures Told(Taken(s, r, env), start, rs + [r], env)
  {
    OneMore(rs, r, start.seqNo, env);
    if IsAlert(r) {
      AppliedShows(s, r.note, env);
      OneMoreInput(InputsOf(rs, env), Observed(SnapshotFor(r.note, env)), env.tolerance);
    } else {
      assert InputsOf(rs + [r], env) == InputsOf(rs, env);
    }
  }

  /** Consuming tells the session everything that was pending. */
  lemma {:induction false} ConsumedTells(s: Session, start: Session, rs: seq<Queues.Record>, env: Env)
    requires WellFormed(s.w.st) && Accounted(s) && Told(s, start, rs, env)
    ensures Told(Consumed(s, env), start, rs + Queues.Pending(s.q), env)
    decreases Queues.Length(s.q)
  {
    PopWeighs(s.q);
    Queues.PendingHead(s.q);
    var (q, record) := Queues.Pop(s.q);
    if record.None? {
      NothingPending(s.q);
      assert rs + Queues.Pending(s.q) == rs;
    } else {
      var next := s.(q := q);
      TakenCounts(next, record.value, env);
      TakenTells(next, start, rs, record.value, env);
      ConsumedTells(Taken(next, record.value, env), start, rs + [record.value], env);
      Regrouped(rs, record.value, Queues.Pending(q));
    }
  }

  lemma {:induction false} Regrouped(rs: seq<Queues.Record>, r: Queues.Record, rest: seq<Queues.Record>)
    ensures (rs + [r]) + rest == rs + ([r] + rest)
  {
  }

  lemma {:induction false} NothingPending(q: Queues.Queue)
    requires Queues.Length(q) == 0
    ensures Queues.Pending(q) == []
  {
  }

  // ---------------------------------------------------------------- steps

  lemma {:induction false} NothingGone(s: Session, act: Act, env: Env)
    requires WellFormed(s.w.st) && Step(s, act, env).q == Arrived(s, act).q
    ensures Gone(s, act, env) == []
  {
    if Queues.Length(Arrived(s, act).q) == 0 {
      NothingPending(Arrived(s, act).q);
    }
  }

  lemma {:induction false} ToldStays(s: Session, v: Session, start: Session, rs: seq<Queues.Record>, env: Env)
    requires Told(s, start, rs, env) && v.alerts == s.alerts && v.seqNo == s.seqNo && v.w == s.w
    ensures Told(v, start, rs + [], env)
  {
    assert rs + [] == rs;
  }

  lemma {:induction false} ReadTells(s: Session, luck: Luck, start: Session, rs: seq<Queues.Record>, env: Env)
    requires s.pc.Reading? && WellFormed(s.w.st) && Accounted(s) && Told(s, start, rs, env)
    ensures Told(Step(s, Go(luck), env), start, rs + Gone(s, Go(luck), env), env)
  {
    var s1 := Arrived(s, Go(luck));
    if s.pc.n == 0 {
      NothingGone(s, Go(luck), env);
      ToldStays(s, Step(s, Go(luck), env), start, rs, env);
    } else {
      if luck.read.Some? {
        OfferedCounts(s, luck.read.value);
      }
      ConsumedTells(s1, start, rs, env);
      ConsumedCounts(s1, env);
    }
  }

  lemma {:induction false} ConsumeTells(s: Session, luck: Luck, start: Session, rs: seq<Queues.Record>, env: Env)
    requires s.pc.Consuming? && WellFormed(s.w.st) && Accounted(s) && Told(s, start, rs, env)
    ensures Told(Step(s, Go(luck), env), start, rs + Gone(s, Go(luck), env), env)
  {
    if luck.leave {
      NothingGone(s, Go(luck), env);
      ToldStays(s, Step(s, Go(luck), env), start, rs, env);
    } else {
      ConsumedTells(s, start, rs, env);
      ConsumedCounts(s, env);
    }
  }

  /** The link was released through the teardown: everything was consumed, closed and cleared. */
  ghost predicate ClosedAt(s: Session, start: Session, rs: seq<Queues.Record>, wall: int, env: Env) {
    && s.pc == Released && s.alerts == [] && s.openTracks == [] && s.seqNo == LastNumber(rs, start.seqNo)
    && s.w == Histories.RunOf(InputsOf(rs, env) + [LinkLost(s.seqNo, wall)], env.tolerance)
  }

  ghost predicate Standing(s: Session, start: Session, rs: seq<Queues.Record>, env: Env) {
    Told(s, start, rs, env) || exists wall :: ClosedAt(s, start, rs, wall, env)
  }

  lemma {:induction false} ShutDownTells(c: Session, wall: int, start: Session, rs: seq<Queues.Record>, env: Env)
    requires WellFormed(c.w.st) && Told(c, start, rs, env)
    ensures ClosedAt(ShutDown(c, wall), start, rs, wall, env)
  {
    OneMoreInput(InputsOf(rs, env), LinkLost(c.seqNo, wall), env.tolerance);
  }

  lemma {:induction false} TornDownTells(s: Session, wall: int, start: Session, rs: seq<Queues.Record>, env: Env)
    requires WellFormed(s.w.st) && Accounted(s) && Told(s, start, rs, env)
    ensures ClosedAt(TornDown(s, env, wall), start, rs + Queues.Pending(s.q), wall, env)
    ensures Queues.Length(TornDown(s, env, wall).q) == 0
  {
    ConsumedTells(s, start, rs, env);
    ConsumedCounts(s, env);
    ShutDownTells(Consumed(s, env), wall, start, rs + Queues.Pending(s.q), env);
  }

  /** The last step of the teardown. */
  lemma {:induction false} LastLeave(s: Session, luck: Luck, env: Env)
    requires s.pc.Leaving? && s.pc.n >= s.subscribed && WellFormed(s.w.st)
    ensures Step(s, Go(luck), env) == TornDown(s, env, luck.wall)
    ensures Queues.Length(TornDown(s, env, luck.wall).q) == 0 ==> Gone(s, Go(luck), env) == Queues.Pending(s.q)
  {
  }

  lemma {:induction false} LastLeaveTells(s: Session, luck: Luck, start: Session, rs: seq<Queues.Record>, env: Env)
    requires s.pc.Leaving? && s.pc.n >= s.subscribed && WellFormed(s.w.st) && Accounted(s) && Told(s, start, rs, env)
    ensures ClosedAt(Step(s, Go(luck), env), start, rs + Gone(s, Go(luck), env), luck.wall, env)
  {
    LastLeave(s, luck, env);
    TornDownTells(s, luck.wall, start, rs, env);
  }

  lemma {:induction false} LeaveTells(s: Session, luck: Luck, start: Session, rs: seq<Queues.Record>, env: Env)
    requires s.pc.Leaving? && s.pc.n < s.subscribed && WellFormed(s.w.st) && Told(s, start, rs, env)
    ensures Told(Step(s, Go(luck), env), start, rs + Gone(s, Go(luck), env), env)
  {
    NothingGone(s, Go(luck), env);
    ToldStays(s, Step(s, Go(luck), env), start, rs, env);
  }

  lemma {:induction false} NotifyTells(s: Session, a: Queues.Arrival, start: Session, rs: seq<Queues.Record>, env: Env)
    requires WellFormed(s.w.st) && Accounted(s) && Told(s, start, rs, env)
    ensures Told(Step(s, Notify(a), env), start, rs + Gone(s, Notify(a), env), env)
  {
    NothingGone(s, Notify(a), env);
    ToldStays(s, Step(s, Notify(a), env), start, rs, env);
  }

  lemma {:induction false} StepTells(s: Session, act: Act, start: Session, rs: seq<Queues.Record>, env: Env)
    requires WellFormed(s.w.st) && Accounted(s) && Told(s, start, rs, env)
    ensures Standing(Step(s, act, env), start, rs + Gone(s, act, env), env)
  {
    if act.Notify? {
      NotifyTells(s, act.arrival, start, rs, env);
    } else if MayConsume(s, act) {
      if s.pc.Reading? {
        ReadTells(s, act.luck, start, rs, env);
      } else if s.pc.Consuming? {
        ConsumeTells(s, act.luck, start, rs, env);
      } else if s.pc.n < s.subscribed {
        LeaveTells(s, act.luck, start, rs, env);
      } else {
        LastLeaveTells(s, act.luck, start, rs, env);
      }
    } else {
      OtherSteps(s, act, env);
      NothingGone(s, act, env);
      ToldStays(s, Step(s, act, env), start, rs, env);
    }
  }

  lemma {:induction false} ReleasedStays(s: Session, act: Act, env: Env)
    requires WellFormed(s.w.st) && s.pc == Released
    ensures Step(s, act, env) == s && Gone(s, act, env) == []
  {
    NothingGone(s, act, env);
  }

  lemma {:induction false} HeldStands(start: Session, acts: seq<Act>, env: Env)
    requires WellFormed(start.w.st) && Accounted(start) && Told(start, start, [], env)
    ensures Standing(Held(start, acts, env), start, ConsumedIn(start, acts, env), env)
  {
    if |acts| == 0 {
    } else {
      var front, last := acts[..|acts| - 1], acts[|acts| - 1];
      var s, rs := Held(start, front, env), ConsumedIn(start, front, env);
      HeldStands(start, front, env);
      HeldAccounts(start, front, env);
      if Told(s, start, rs, env) {
        StepTells(s, last, start, rs, env);
      } else {
        ReleasedStays(s, last, env);
        assert rs + [] == rs;
      }
    }
  }

  // ---------------------------------------------------------------- main theorems

  lemma {:induction false} ConnectTells(maxsize: nat, alerts: seq<Alert>, openTracks: seq<Track>, seqNo: int, env: Env)
    requires maxsize >= 2
    ensures var start := Connect(maxsize, alerts, openTracks, seqNo); Accounted(start) && Told(start, start, [], env)
  {
    ConnectAccounts(maxsize, alerts, openTracks, seqNo);
  }

  /**
   * At every await before the link is released, `alerts` is the first eight detections in the
   * payload of the last alert notification consumed, or what the previous session left if there was
   * none; telemetry and gaps leave it alone. `seq` is the number of the last notification of either
   * kind, and the tracker is as a snapshot for each alert notification, in order, leaves it.
   */
  lemma {:induction false} ScreenShowsTheLastPayload(maxsize: nat, alerts: seq<Alert>, openTracks: seq<Track>,
                                                     seqNo: int, acts: seq<Act>, env: Env)
    requires maxsize >= 2
    ensures var start := Connect(maxsize, alerts, openTracks, seqNo);
            var s, rs := Held(start, acts, env), ConsumedIn(start, acts, env);
            s.pc != Released ==>
              && OnScreen(s.alerts, alerts, rs, env) && s.seqNo == LastNumber(rs, seqNo)
              && s.w == Histories.RunOf(InputsOf(rs, env), env.tolerance)
  {
    ConnectTells(maxsize, alerts, openTracks, seqNo, env);
    HeldStands(Connect(maxsize, alerts, openTracks, seqNo), acts, env);
  }

  /**
   * A session released through its whole teardown consumed everything that had arrived, told the
   * tracker of the loss of the link after it, and left nothing on the screen.
   */
  lemma {:induction false} ReleaseTellsOfTheLoss(maxsize: nat, alerts: seq<Alert>, openTracks: seq<Track>, seqNo: int,
                                                 acts: seq<Act>, luck: Luck, env: Env)
    requires maxsize >= 2
    requires var s := Held(Connect(maxsize, alerts, openTracks, seqNo), acts, env);
             s.pc.Leaving? && s.pc.n >= s.subscribed
    ensures var start := Connect(maxsize, alerts, openTracks, seqNo);
            var s := Held(start, acts, env);
            var rs := ConsumedIn(start, acts, env) + Queues.Pending(s.q);
            && ClosedAt(Step(s, Go(luck), env), start, rs, luck.wall, env)
            && Queues.Length(Step(s, Go(luck), env).q) == 0
  {
    var start := Connect(maxsize, alerts, openTracks, seqNo);
    var s := Held(start, acts, env);
    ConnectTells(maxsize, alerts, openTracks, seqNo, env);
    HeldAccounts(start, acts, env);
    LastLeave(s, luck, env);
    ScreenShowsTheLastPayload(maxsize, alerts, openTracks, seqNo, acts, env);
    TornDownTells(s, luck.wall, start, ConsumedIn(start, acts, env), env);
  }

  // ---------------------------------------------------------------- the queue under a session

  /** What arrived during a run of the session: the callbacks' payloads and the reads', until the release. */
  ghost function Heard(start: Session, acts: seq<Act>, env: Env): seq<Queues.Arrival>
    requires WellFormed(start.w.st)
  {
    if |acts| == 0 then []
    else
      var front := acts[..|acts| - 1];
      Heard(start, front, env) + HeardIn(Held(start, front, env), acts[|acts| - 1])
  }

  /** The session's queue is as `ops` leave it, with `rs` delivered out of `heard`. */
  ghost predicate Served(q: Queues.Queue, maxsize: nat, ops: seq<Queues.Op>, rs: seq<Queues.Record>,
                         heard: seq<Queues.Arrival>) {
    && maxsize >= 2 && Queues.RunOf(maxsize, ops).q == q && Queues.RunOf(maxsize, ops).delivered == rs
    && Queues.ArrivalsIn(ops) == heard
  }

  lemma {:induction false} OneMoreOp(maxsize: nat, ops: seq<Queues.Op>, op: Queues.Op)
    requires maxsize >= 2
    ensures Queues.RunOf(maxsize, ops + [op]) == Queues.Apply(Queues.RunOf(maxsize, ops), op)
    ensures Queues.ArrivalsIn(ops + [op]) == Queues.ArrivalsIn(ops) + (if op.Arrive? then [op.arrival] else [])
  {
    assert (ops + [op])[..|ops|] == ops;
  }

  lemma {:induction false} OfferServed(q: Queues.Queue, maxsize: nat, ops: seq<Queues.Op>, rs: seq<Queues.Record>,
                                       heard: seq<Queues.Arrival>, a: Queues.Arrival)
    requires Served(q, maxsize, ops, rs, heard)
    ensures Served(Queues.Offer(q, a), maxsize, ops + [Queues.Arrive(a)], rs, heard + [a])
  {
    OneMoreOp(maxsize, ops, Queues.Arrive(a));
  }

  lemma {:induction false} PopServed(q: Queues.Queue, maxsize: nat, ops: seq<Queues.Op>, rs: seq<Queues.Record>,
                                     heard: seq<Queues.Arrival>)
    requires Served(q, maxsize, ops, rs, heard) && Queues.Pop(q).1.Some?
    ensures Served(Queues.Pop(q).0, maxsize, ops + [Queues.TakeOne], rs + [Queues.Pop(q).1.value], heard)
  {
    OneMoreOp(maxsize, ops, Queues.TakeOne);
  }

  /** Consuming is as many pops as there are records pending. */
  lemma {:induction false} ConsumedServed(s: Session, maxsize: nat, ops: seq<Queues.Op>, rs: seq<Queues.Record>,
                                          heard: seq<Queues.Arrival>, env: Env)
    returns (more: seq<Queues.Op>)
    requires WellFormed(s.w.st) && Accounted(s) && Served(s.q, maxsize, ops, rs, heard)
    ensures Served(Consumed(s, env).q, maxsize, more, rs + Queues.Pending(s.q), heard)
    decreases Queues.Length(s.q)
  {
    PopWeighs(s.q);
    Queues.PendingHead(s.q);
    var (q, record) := Queues.Pop(s.q);
    if record.None? {
      NothingPending(s.q);
      assert rs + Queues.Pending(s.q) == rs;
      more := ops;
    } else {
      var next := s.(q := q);
      TakenCounts(next, record.value, env);
      PopServed(s.q, maxsize, ops, rs, heard);
      var taken := Taken(next, record.value, env);
      more := ConsumedServed(taken, maxsize, ops + [Queues.TakeOne], rs + [record.value], heard, env);
      Regrouped(rs, record.value, Queues.Pending(q));
    }
  }

  /** What arrives during a step. */
  function HeardIn(s: Session, act: Act): seq<Queues.Arrival> {
    match act
    case Notify(a) => if s.pc == Released then [] else [a]
    case Go(luck) => if s.pc.Reading? && luck.read.Some? then [luck.read.value] else []
    case _ => []
  }

  lemma {:induction false} ArrivedServed(s: Session, act: Act, maxsize: nat, ops: seq<Queues.Op>,
                                         rs: seq<Queues.Record>, heard: seq<Queues.Arrival>)
    returns (more: seq<Queues.Op>)
    requires Accounted(s) && Served(s.q, maxsize, ops, rs, heard)
    ensures Served(Arrived(s, act).q, maxsize, more, rs, heard + HeardIn(s, act)) && Accounted(Arrived(s, act))
  {
    var heardIn := HeardIn(s, act);
    if |heardIn| == 0 {
      more := ops;
      assert heard + heardIn == heard;
    } else {
      OfferServed(s.q, maxsize, ops, rs, heard, heardIn[0]);
      OfferedCounts(s, heardIn[0]);
      more := ops + [Queues.Arrive(heardIn[0])];
      assert heardIn == [heardIn[0]];
    }
  }

  lemma {:induction false} ReadDrains(s: Session, luck: Luck, env: Env)
    requires s.pc.Reading? && WellFormed(s.w.st)
    ensures var v, s1 := ReadStep(s, luck, env), Arrived(s, Go(luck)); v.q == s1.q || v.q == Consumed(s1, env).q
  {
  }

  lemma {:induction false} ConsumeDrains(s: Session, luck: Luck, env: Env)
    requires s.pc.Consuming? && WellFormed(s.w.st)
    ensures var v := ConsumeStep(s, luck, env); v.q == s.q || v.q == Consumed(s, env).q
  {
  }

  lemma {:induction false} LeaveDrains(s: Session, luck: Luck, env: Env)
    requires s.pc.Leaving? && WellFormed(s.w.st)
    ensures var v := LeaveStep(s, luck, env); v.q == s.q || v.q == Consumed(s, env).q
  {
  }

  /** A step either consumes everything, after what arrives in it, or takes nothing off the queue. */
  lemma {:induction false} StepDrainsOrNot(s: Session, act: Act, env: Env)
    requires WellFormed(s.w.st)
    ensures var v, s1 := Step(s, act, env), Arrived(s, act); v.q == s1.q || v.q == Consumed(s1, env).q
  {
    if act.Notify? {
    } else if !MayConsume(s, act) {
      OtherSteps(s, act, env);
    } else if s.pc.Reading? {
      ReadDrains(s, act.luck, env);
    } else if s.pc.Consuming? {
      ConsumeDrains(s, act.luck, env);
    } else {
      LeaveDrains(s, act.luck, env);
    }
  }

  lemma {:induction false} StepServed(s: Session, act: Act, maxsize: nat, ops: seq<Queues.Op>, rs: seq<Queues.Record>,
                                      heard: seq<Queues.Arrival>, env: Env)
    returns (more: seq<Queues.Op>)
    requires WellFormed(s.w.st) && Accounted(s) && Served(s.q, maxsize, ops, rs, heard)
    ensures Served(Step(s, act, env).q, maxsize, more, rs + Gone(s, act, env), heard + HeardIn(s, act))
  {
    more := ArrivedServed(s, act, maxsize, ops, rs, heard);
    StepDrainsOrNot(s, act, env);
    if Step(s, act, env).q == Arrived(s, act).q {
      NothingGone(s, act, env);
      assert rs + [] == rs;
    } else {
      ConsumedCounts(Arrived(s, act), env);
      more := ConsumedServed(Arrived(s, act), maxsize, more, rs, heard + HeardIn(s, act), env);
    }
  }

  /**
   * Over any run a session's queue is one run of the hand-off queue, to which exactly the payloads
   * heard were offered and which delivered exactly the records consumed.
   */
  lemma {:induction false} TheSessionRunsTheQueue(maxsize: nat, alerts: seq<Alert>, openTracks: seq<Track>, seqNo: int,
                                                  acts: seq<Act>, env: Env)
    returns (ops: seq<Queues.Op>)
    requires maxsize >= 2
    ensures var start := Connect(maxsize, alerts, openTracks, seqNo);
            Served(Held(start, acts, env).q, maxsize, ops, ConsumedIn(start, acts, env), Heard(start, acts, env))
  {
    var start := Connect(maxsize, alerts, openTracks, seqNo);
    if |acts| == 0 {
      ops := [];
    } else {
      var front, last := acts[..|acts| - 1], acts[|acts| - 1];
      ops := TheSessionRunsTheQueue(maxsize, alerts, openTracks, seqNo, front, env);
      ConnectAccounts(maxsize, alerts, openTracks, seqNo);
      HeldAccounts(start, front, env);
      ops := StepServed(Held(start, front, env), last, maxsize, ops, ConsumedIn(start, front, env),
                        Heard(start, front, env), env);
    }
  }

  /** `shown` is the first eight detections of the arrival that the last alert of `rs` is numbered for. */
  ghost predicate ShowsArrival(shown: seq<Alert>, rs: seq<Queues.Record>, heard: seq<Queues.Arrival>, env: Env) {
    match LastAlert(rs)
    case None => true
    case Some(n) => 1 <= n.seqNo <= |heard| && FirstEight(shown, heard[n.seqNo - 1].payload, env)
  }

  lemma {:induction false} NoteWasHeard(q: Queues.Queue, maxsize: nat, ops: seq<Queues.Op>, rs: seq<Queues.Record>,
                                        heard: seq<Queues.Arrival>, n: Queues.Notification)
    requires Served(q, maxsize, ops, rs, heard) && Queues.Note(n) in rs
    ensures 1 <= n.seqNo <= |heard| && n.payload == heard[n.seqNo - 1].payload
  {
    Queues.DeliveredAsTheyArrived(maxsize, ops, Queues.Note(n));
  }

  lemma {:induction false} ConsumedWasHeard(shown: seq<Alert>, before: seq<Alert>, q: Queues.Queue, maxsize: nat,
                                            ops: seq<Queues.Op>, rs: seq<Queues.Record>, heard: seq<Queues.Arrival>,
                                            env: Env)
    requires OnScreen(shown, before, rs, env) && Served(q, maxsize, ops, rs, heard)
    ensures ShowsArrival(shown, rs, heard, env)
  {
    if LastAlert(rs).Some? {
      LastIsAmong(rs);
      NoteWasHeard(q, maxsize, ops, rs, heard, LastAlert(rs).value);
    }
  }

  /**
   * So the screen never shows anything but what arrived in this session: the first eight detections
   * in the payload of the arrival that the last consumed alert notification is numbered for.
   */
  lemma {:induction false} ScreenShowsWhatArrived(maxsize: nat, alerts: seq<Alert>, openTracks: seq<Track>, seqNo: int,
                                                  acts: seq<Act>, env: Env)
    requires maxsize >= 2
    ensures var start := Connect(maxsize, alerts, openTracks, seqNo);
            var s := Held(start, acts, env);
            s.pc != Released ==> ShowsArrival(s.alerts, ConsumedIn(start, acts, env), Heard(start, acts, env), env)
  {
    var start := Connect(maxsize, alerts, openTracks, seqNo);
    var s, rs, heard := Held(start, acts, env), ConsumedIn(start, acts, env), Heard(start, acts, env);
    ScreenShowsTheLastPayload(maxsize, alerts, openTracks, seqNo, acts, env);
    var ops := TheSessionRunsTheQueue(maxsize, alerts, openTracks, seqNo, acts, env);
    if s.pc != Released {
      ConsumedWasHeard(s.alerts, alerts, s.q, maxsize, ops, rs, heard, env);
    }
  }

  lemma {:induction false} LastIsAmong(rs: seq<Queues.Record>)
    requires LastAlert(rs).Some?
    ensures Queues.Note(LastAlert(rs).value) in rs
  {
    if IsAlert(rs[|rs| - 1]) {
    } else {
      LastIsAmong(rs[..|rs| - 1]);
    }
  }

  // ---------------------------------------------------------------- the open tracks shown

  /** The awaits at which the session publishes. */
  predicate Publishes(pc: Pc) {
    pc.Refusing? || pc.Announcing? || pc.Publishing?
  }

  lemma {:induction false} PlainPublishes(s: Session, luck: Luck)
    requires Publishes(s.pc) ==> s.openTracks == s.w.st.tracks
    ensures var v := PlainStep(s, luck); Publishes(v.pc) ==> v.openTracks == v.w.st.tracks
  {
  }

  lemma {:induction false} ThrownPublishes(s: Session, cancelled: bool)
    ensures Publishes(Thrown(s, cancelled).pc) ==> Thrown(s, cancelled) == s
  {
  }

  lemma {:induction false} PublishingStep(s: Session, act: Act, env: Env)
    requires WellFormed(s.w.st) && (Publishes(s.pc) ==> s.openTracks == s.w.st.tracks)
    ensures var v := Step(s, act, env); Publishes(v.pc) ==> v.openTracks == v.w.st.tracks
  {
    match act
    case Notify(_) =>
    case Go(luck) =>
      if Consumes(s.pc) {
        ConsumingNeverPublishes(s, luck, env);
      } else {
        PlainPublishes(s, luck);
      }
    case Raise => ThrownPublishes(s, false);
    case Cancel => ThrownPublishes(s, true);
  }

  lemma {:induction false} ConsumingNeverPublishes(s: Session, luck: Luck, env: Env)
    requires WellFormed(s.w.st) && Consumes(s.pc)
    ensures !Publishes(ConsumingStep(s, luck, env).pc)
  {
  }

  /** Whenever a session publishes, `open_tracks` is the tracker's open tracks at that moment. */
  lemma {:induction false} PublishedTracksAreOpen(maxsize: nat, alerts: seq<Alert>, openTracks: seq<Track>, seqNo: int,
                                                  acts: seq<Act>, env: Env)
    ensures var s := Held(Connect(maxsize, alerts, openTracks, seqNo), acts, env);
            Publishes(s.pc) ==> s.openTracks == s.w.st.tracks
  {
    var start := Connect(maxsize, alerts, openTracks, seqNo);
    if |acts| == 0 {
    } else {
      PublishedTracksAreOpen(maxsize, alerts, openTracks, seqNo, acts[..|acts| - 1], env);
      PublishingStep(Held(start, acts[..|acts| - 1], env), acts[|acts| - 1], env);
    }
  }

  lemma {:induction false} PlainTracks(s: Session, luck: Luck)
    ensures var v := PlainStep(s, luck);
            || v.openTracks == s.openTracks
            || (v.openTracks == v.w.st.tracks && (Publishes(v.pc) || (s.pc.Probing? && luck.publish)))
  {
  }

  lemma {:induction false} ThrownTracks(s: Session, cancelled: bool)
    ensures Thrown(s, cancelled).openTracks == s.openTracks
  {
  }

  lemma {:induction false} ReadTracks(s: Session, luck: Luck, env: Env)
    requires s.pc.Reading? && WellFormed(s.w.st) && Accounted(s)
    ensures ReadStep(s, luck, env).openTracks == s.openTracks
  {
    if luck.read.Some? {
      OfferedCounts(s, luck.read.value);
    }
    ConsumedCounts(Arrived(s, Go(luck)), env);
  }

  lemma {:induction false} ConsumeTracks(s: Session, luck: Luck, env: Env)
    requires s.pc.Consuming? && WellFormed(s.w.st) && Accounted(s)
    ensures ConsumeStep(s, luck, env).openTracks == s.openTracks
  {
    ConsumedCounts(s, env);
  }

  lemma {:induction false} LeaveTracks(s: Session, luck: Luck, env: Env)
    requires s.pc.Leaving? && WellFormed(s.w.st)
    ensures var v := LeaveStep(s, luck, env);
            v.openTracks == s.openTracks || (v.openTracks == [] && v.pc == Released)
  {
  }

  /** And nothing but a publish or the release changes them. */
  lemma {:induction false} OnlyAPublishChangesThem(s: Session, act: Act, env: Env)
    requires WellFormed(s.w.st) && Accounted(s)
    ensures var v := Step(s, act, env);
            || v.openTracks == s.openTracks
            || (v.openTracks == v.w.st.tracks && (Publishes(v.pc) || (s.pc.Probing? && act.Go? && act.luck.publish)))
            || (v.openTracks == [] && v.pc == Released)
  {
    match act
    case Notify(_) =>
    case Go(luck) =>
      if s.pc.Reading? {
        ReadTracks(s, luck, env);
      } else if s.pc.Consuming? {
        ConsumeTracks(s, luck, env);
      } else if s.pc.Leaving? {
        LeaveTracks(s, luck, env);
      } else {
        PlainTracks(s, luck);
      }
    case Raise => ThrownTracks(s, false);
    case Cancel => ThrownTracks(s, true);
  }
}
