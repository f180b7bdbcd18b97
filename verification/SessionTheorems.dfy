/** What every run of a session keeps, and what it leaves when it releases its link. */
module SessionTheorems {
  import opened Common
  import opened Alerts
  import opened Tracks
  import opened Runs
  import opened RunTheorems
  import Histories
  import Notifications
  import Queues
  import opened Sessions

  // ---------------------------------------------------------------- every notification is accounted for

  /** What was consumed, one by one or in a gap, is everything before the oldest number still waiting. */
  ghost predicate Accounted(s: Session) {
    Queues.Shape(s.q) && s.telemetry + s.alertPackets + s.lost == Queues.Waiting(s.q) - 1
  }

  /** How many notifications a record stands for. */
  function Weight(r: Queues.Record): int {
    match r
    case Note(_) => 1
    case Loss(g) => Queues.Count(g)
  }

  lemma {:induction false} PopWeighs(q: Queues.Queue)
    requires Queues.Shape(q)
    ensures var (q', r) := Queues.Pop(q);
            && Queues.Shape(q') && q'.seqNo == q.seqNo
            && (if r.None? then q' == q && Queues.Length(q) == 0
                else Queues.Waiting(q') == Queues.Waiting(q) + Weight(r.value))
  {
    Queues.PendingHead(q);
  }

  lemma {:induction false} TakenCounts(s: Session, r: Queues.Record, env: Env)
    requires WellFormed(s.w.st)
    ensures var s' := Taken(s, r, env);
            && s'.telemetry + s'.alertPackets + s'.lost == s.telemetry + s.alertPackets + s.lost + Weight(r)
            && s'.pc == s.pc && s'.q == s.q && s'.wake == s.wake && s'.subscribed == s.subscribed
            && s'.openTracks == s.openTracks && s'.interrupted == s.interrupted
  {
  }

  /** Consuming empties the queue, and moves what it held into the counts. */
  lemma {:induction false} ConsumedCounts(s: Session, env: Env)
    requires WellFormed(s.w.st) && Accounted(s)
    ensures var c := Consumed(s, env);
            && Accounted(c) && Queues.Length(c.q) == 0 && c.q.seqNo == s.q.seqNo
            && c.pc == s.pc && c.wake == s.wake && c.subscribed == s.subscribed
            && c.openTracks == s.openTracks && c.interrupted == s.interrupted
    decreases Queues.Length(s.q)
  {
    PopWeighs(s.q);
    var (q, record) := Queues.Pop(s.q);
    if record.None? {
    } else {
      TakenCounts(s.(q := q), record.value, env);
      ConsumedCounts(Taken(s.(q := q), record.value, env), env);
    }
  }

  lemma {:induction false} OfferedCounts(s: Session, a: Queues.Arrival)
    requires Accounted(s)
    ensures Accounted(Offered(s, a))
  {
    Queues.OfferShape(s.q, a);
  }

  predicate MayConsume(s: Session, act: Act) {
    act.Go? && Consumes(s.pc)
  }

  /** The queue, the tracker, the alerts shown and the counts are the same. */
  ghost predicate SameBooks(s: Session, v: Session) {
    && v.q == s.q && v.w == s.w && v.alerts == s.alerts && v.seqNo == s.seqNo
    && v.telemetry == s.telemetry && v.alertPackets == s.alertPackets && v.lost == s.lost
  }

  lemma {:induction false} PlainSteps(s: Session, luck: Luck)
    ensures SameBooks(s, PlainStep(s, luck))
  {
  }

  lemma {:induction false} ThrownSteps(s: Session, cancelled: bool)
    ensures SameBooks(s, Thrown(s, cancelled))
  {
  }

  /** No other step but the callback touches the queue, the tracker or the counts. */
  lemma {:induction false} OtherSteps(s: Session, act: Act, env: Env)
    requires WellFormed(s.w.st) && !MayConsume(s, act) && !act.Notify?
    ensures SameBooks(s, Step(s, act, env))
  {
    match act
    case Go(luck) => PlainSteps(s, luck);
    case Raise => ThrownSteps(s, false);
    case Cancel => ThrownSteps(s, true);
  }

  lemma {:induction false} SameCounts(s: Session, v: Session)
    requires Accounted(s) && v.q == s.q && v.telemetry == s.telemetry && v.alertPackets == s.alertPackets
             && v.lost == s.lost
    ensures Accounted(v)
  {
  }

  lemma {:induction false} ReadAccounts(s: Session, luck: Luck, env: Env)
    requires s.pc.Reading? && WellFormed(s.w.st) && Accounted(s)
    ensures Accounted(ReadStep(s, luck, env))
  {
    var s1 := if luck.read.Some? then Offered(s, luck.read.value) else s;
    if luck.read.Some? {
      OfferedCounts(s, luck.read.value);
    }
    ConsumedCounts(s1, env);
    SameCounts(if s.pc.n == 0 then s1 else Consumed(s1, env), ReadStep(s, luck, env));
  }

  lemma {:induction false} LeaveAccounts(s: Session, luck: Luck, env: Env)
    requires s.pc.Leaving? && WellFormed(s.w.st) && Accounted(s)
    ensures Accounted(LeaveStep(s, luck, env))
  {
    ConsumedCounts(s, env);
    SameCounts(if s.pc.n < s.subscribed then s else Consumed(s, env), LeaveStep(s, luck, env));
  }

  lemma {:induction false} ConsumeAccounts(s: Session, luck: Luck, env: Env)
    requires s.pc.Consuming? && WellFormed(s.w.st) && Accounted(s)
    ensures Accounted(ConsumeStep(s, luck, env))
  {
    ConsumedCounts(s, env);
    SameCounts(if luck.leave then s else Consumed(s, env), ConsumeStep(s, luck, env));
  }

  lemma {:induction false} ConsumingAccounts(s: Session, luck: Luck, env: Env)
    requires Consumes(s.pc) && WellFormed(s.w.st) && Accounted(s)
    ensures Accounted(ConsumingStep(s, luck, env))
  {
    if s.pc.Reading? {
      ReadAccounts(s, luck, env);
    } else if s.pc.Consuming? {
      ConsumeAccounts(s, luck, env);
    } else {
      LeaveAccounts(s, luck, env);
    }
  }

  lemma {:induction false} StepAccounts(s: Session, act: Act, env: Env)
    requires WellFormed(s.w.st) && Accounted(s)
    ensures Accounted(Step(s, act, env))
  {
    var v := Step(s, act, env);
    if act.Notify? {
      if s.pc != Released {
        OfferedCounts(s, act.arrival);
        SameCounts(Offered(s, act.arrival), v);
      }
    } else if MayConsume(s, act) {
      ConsumingAccounts(s, act.luck, env);
    } else {
      OtherSteps(s, act, env);
      SameCounts(s, v);
    }
  }

  lemma {:induction false} ConnectAccounts(maxsize: nat, alerts: seq<Alert>, openTracks: seq<Track>, seqNo: int)
    requires maxsize >= 2
    ensures Accounted(Connect(maxsize, alerts, openTracks, seqNo))
  {
  }

  lemma {:induction false} HeldAccounts(start: Session, acts: seq<Act>, env: Env)
    requires WellFormed(start.w.st) && Accounted(start)
    ensures Accounted(Held(start, acts, env))
  {
    if |acts| == 0 {
    } else {
      HeldAccounts(start, acts[..|acts| - 1], env);
      StepAccounts(Held(start, acts[..|acts| - 1], env), acts[|acts| - 1], env);
    }
  }

  /**
   * At every await of a session, wherever callbacks fired: records consumed as telemetry or as
   * alerts, losses named by consumed gaps, the pending gap and the records still queued add up to
   * the notifications offered.
   */
  lemma {:induction false} EveryNotificationIsAccountedFor(maxsize: nat, alerts: seq<Alert>, openTracks: seq<Track>,
                                                           seqNo: int, acts: seq<Act>, env: Env)
    requires maxsize >= 2
    ensures var s := Held(Connect(maxsize, alerts, openTracks, seqNo), acts, env);
            s.telemetry + s.alertPackets + s.lost
            + (if s.q.gap.Some? then Queues.Count(s.q.gap.value) else 0) + |s.q.items| == s.q.seqNo
  {
    ConnectAccounts(maxsize, alerts, openTracks, seqNo);
    HeldAccounts(Connect(maxsize, alerts, openTracks, seqNo), acts, env);
  }

  // ---------------------------------------------------------------- every subscription is undone

  /** No more is undone than was subscribed. */
  ghost predicate Undoing(s: Session) {
    s.pc.Leaving? ==> s.pc.n <= s.subscribed
  }

  lemma {:induction false} PlainUndoes(s: Session, luck: Luck)
    requires Undoing(s)
    ensures Undoing(PlainStep(s, luck))
  {
  }

  lemma {:induction false} ThrownUndoes(s: Session, cancelled: bool)
    requires Undoing(s)
    ensures Undoing(Thrown(s, cancelled))
  {
  }

  lemma {:induction false} ConsumingUndoes(s: Session, luck: Luck, env: Env)
    requires Undoing(s) && Consumes(s.pc) && WellFormed(s.w.st)
    ensures Undoing(ConsumingStep(s, luck, env))
  {
  }

  lemma {:induction false} StepUndoes(s: Session, act: Act, env: Env)
    requires WellFormed(s.w.st) && Undoing(s)
    ensures Undoing(Step(s, act, env))
  {
    match act
    case Notify(_) =>
    case Go(luck) =>
      if Consumes(s.pc) {
        ConsumingUndoes(s, luck, env);
      } else {
        PlainUndoes(s, luck);
      }
    case Raise => ThrownUndoes(s, false);
    case Cancel => ThrownUndoes(s, true);
  }

  lemma {:induction false} HeldUndoes(start: Session, acts: seq<Act>, env: Env)
    requires WellFormed(start.w.st) && Undoing(start)
    ensures Undoing(Held(start, acts, env))
  {
    if |acts| == 0 {
    } else {
      HeldUndoes(start, acts[..|acts| - 1], env);
      StepUndoes(Held(start, acts[..|acts| - 1], env), acts[|acts| - 1], env);
    }
  }

  /** In every run the teardown undoes one subscription a step, and releases the link once it has undone them all. */
  lemma {:induction false} TheTeardownUndoesEverySubscription(maxsize: nat, alerts: seq<Alert>, openTracks: seq<Track>,
                                                              seqNo: int, acts: seq<Act>, luck: Luck, env: Env)
    requires Held(Connect(maxsize, alerts, openTracks, seqNo), acts, env).pc.Leaving?
    ensures var s := Held(Connect(maxsize, alerts, openTracks, seqNo), acts, env);
            Step(s, Go(luck), env).pc == if s.pc.n == s.subscribed then Released else Leaving(s.pc.n + 1)
  {
    HeldUndoes(Connect(maxsize, alerts, openTracks, seqNo), acts, env);
  }

  // ---------------------------------------------------------------- streaming

  predicate Streams(pc: Pc) {
    pc.Looping? || pc.Testing? || pc.Waiting? || pc.Consuming? || pc.Probing? || pc.Publishing?
  }

  ghost predicate Subscribed(s: Session) {
    Streams(s.pc) ==> s.subscribed > 0
  }

  lemma {:induction false} PlainStreams(s: Session, luck: Luck)
    requires Subscribed(s)
    ensures Subscribed(PlainStep(s, luck))
  {
  }

  lemma {:induction false} ThrownStreams(s: Session, cancelled: bool)
    requires Subscribed(s)
    ensures Subscribed(Thrown(s, cancelled))
  {
  }

  lemma {:induction false} ConsumingStreams(s: Session, luck: Luck, env: Env)
    requires Subscribed(s) && Accounted(s) && Consumes(s.pc) && WellFormed(s.w.st)
    ensures Subscribed(ConsumingStep(s, luck, env))
  {
    if s.pc.Consuming? {
      ConsumedCounts(s, env);
    }
  }

  lemma {:induction false} StepStreams(s: Session, act: Act, env: Env)
    requires WellFormed(s.w.st) && Accounted(s) && Subscribed(s)
    ensures Subscribed(Step(s, act, env))
  {
    match act
    case Notify(_) =>
    case Go(luck) =>
      if Consumes(s.pc) {
        ConsumingStreams(s, luck, env);
      } else {
        PlainStreams(s, luck);
      }
    case Raise => ThrownStreams(s, false);
    case Cancel => ThrownStreams(s, true);
  }

  /** A session that got no subscription never enters the streaming loop. */
  lemma {:induction false} StreamsOnlySubscribed(maxsize: nat, alerts: seq<Alert>, openTracks: seq<Track>, seqNo: int,
                                                 acts: seq<Act>, env: Env)
    requires maxsize >= 2
    ensures Subscribed(Held(Connect(maxsize, alerts, openTracks, seqNo), acts, env))
  {
    if |acts| == 0 {
    } else {
      var start, front := Connect(maxsize, alerts, openTracks, seqNo), acts[..|acts| - 1];
      StreamsOnlySubscribed(maxsize, alerts, openTracks, seqNo, front, env);
      ConnectAccounts(maxsize, alerts, openTracks, seqNo);
      HeldAccounts(start, front, env);
      StepStreams(Held(start, front, env), acts[|acts| - 1], env);
    }
  }

  /** With nothing queued and nothing arriving, a turn of the loop goes to sleep with the wake flag down. */
  lemma {:induction false} AnEmptyQueueIsSleptOn(s: Session, luck: Luck, more: Luck, env: Env)
    requires WellFormed(s.w.st) && s.pc == Looping && !luck.leave && Queues.Length(s.q) == 0
    ensures var v := Step(Step(s, Go(luck), env), Go(more), env); v.pc == Waiting && !v.wake
  {
  }

  // ---------------------------------------------------------------- no wakeup is lost

  /** Asleep with something queued, the wake flag is up. */
  ghost predicate Awake(s: Session) {
    s.pc == Waiting && Queues.Length(s.q) > 0 ==> s.wake
  }

  lemma {:induction false} StepWakes(s: Session, act: Act, env: Env)
    requires WellFormed(s.w.st) && Awake(s) && Accounted(s)
    ensures Awake(Step(s, act, env))
  {
    if MayConsume(s, act) {
      NotToSleep(s, act.luck, env);
    }
  }

  lemma {:induction false} NotToSleep(s: Session, luck: Luck, env: Env)
    requires WellFormed(s.w.st) && Consumes(s.pc)
    ensures ConsumingStep(s, luck, env).pc != Waiting
  {
  }

  /** The loop never sleeps on a record that is already queued. */
  lemma {:induction false} NoWakeupIsLost(maxsize: nat, alerts: seq<Alert>, openTracks: seq<Track>, seqNo: int,
                                          acts: seq<Act>, env: Env)
    requires maxsize >= 2
    ensures Awake(Held(Connect(maxsize, alerts, openTracks, seqNo), acts, env))
  {
    if |acts| == 0 {
    } else {
      var start, front := Connect(maxsize, alerts, openTracks, seqNo), acts[..|acts| - 1];
      NoWakeupIsLost(maxsize, alerts, openTracks, seqNo, front, env);
      ConnectAccounts(maxsize, alerts, openTracks, seqNo);
      HeldAccounts(start, front, env);
      StepWakes(Held(start, front, env), acts[|acts| - 1], env);
    }
  }

  // ---------------------------------------------------------------- every threat is ended before release

  /** Nothing is left open: no open track, nothing on the screen. */
  ghost predicate Settled(s: Session) {
    |s.w.st.tracks| == 0 && |s.alerts| == 0 && |s.openTracks| == 0
  }

  /** The pcs before anything is consumed. */
  predicate Early(pc: Pc) {
    pc.Opening? || pc.Refusing? || pc.Reading?
  }

  ghost predicate Orderly(s: Session) {
    && (Early(s.pc) ==> Settled(s))
    && (s.interrupted ==> s.pc == Released)
    && (s.pc == Released && !s.interrupted ==> Settled(s))
  }

  ghost predicate Consistent(s: Session, env: Env) {
    Good(s.w) && Histories.Tallied(s.w, env.tolerance)
  }

  lemma {:induction false} ConsumedSound(s: Session, env: Env)
    requires WellFormed(s.w.st) && Consistent(s, env)
    ensures Consistent(Consumed(s, env), env)
    decreases Queues.Length(s.q)
  {
    var (q, record) := Queues.Pop(s.q);
    if record.None? {
    } else {
      TakenSound(s.(q := q), record.value, env);
      ConsumedSound(Taken(s.(q := q), record.value, env), env);
    }
  }

  lemma {:induction false} TakenSound(s: Session, r: Queues.Record, env: Env)
    requires WellFormed(s.w.st) && Consistent(s, env)
    ensures Consistent(Taken(s, r, env), env)
  {
    if r.Note? && r.note.kind != TELEMETRY {
      var n := r.note;
      var snap := Notifications.SnapshotOf(env.text(n.payload), env.decimals, n.seqNo, n.mono, n.wall);
      Histories.AfterIsGood(s.w, Observed(snap), env.tolerance);
    }
  }

  lemma {:induction false} ClosedSound(s: Session, env: Env, wall: int)
    requires WellFormed(s.w.st) && Consistent(s, env)
    ensures Consistent(TornDown(s, env, wall), env) && Settled(TornDown(s, env, wall))
            && TornDown(s, env, wall).pc == Released
  {
    ConsumedSound(s, env);
    var c := Consumed(s, env);
    ShutGood(c.w, c.seqNo, wall);
  }

  lemma {:induction false} SameSound(s: Session, v: Session, env: Env)
    requires Consistent(s, env) && v.w == s.w
    ensures Consistent(v, env)
  {
  }

  lemma {:induction false} ReadSound(s: Session, luck: Luck, env: Env)
    requires s.pc.Reading? && WellFormed(s.w.st) && Consistent(s, env)
    ensures Consistent(ReadStep(s, luck, env), env)
  {
    var s1 := if luck.read.Some? then Offered(s, luck.read.value) else s;
    SameSound(s, s1, env);
    ConsumedSound(s1, env);
    SameSound(if s.pc.n == 0 then s1 else Consumed(s1, env), ReadStep(s, luck, env), env);
  }

  lemma {:induction false} ConsumeSound(s: Session, luck: Luck, env: Env)
    requires s.pc.Consuming? && WellFormed(s.w.st) && Consistent(s, env)
    ensures Consistent(ConsumeStep(s, luck, env), env)
  {
    ConsumedSound(s, env);
    SameSound(if luck.leave then s else Consumed(s, env), ConsumeStep(s, luck, env), env);
  }

  lemma {:induction false} LeaveSound(s: Session, luck: Luck, env: Env)
    requires s.pc.Leaving? && WellFormed(s.w.st) && Consistent(s, env)
    ensures Consistent(LeaveStep(s, luck, env), env)
  {
    if s.pc.n < s.subscribed {
      SameSound(s, LeaveStep(s, luck, env), env);
    } else {
      ClosedSound(s, env, luck.wall);
    }
  }

  lemma {:induction false} ConsumingSound(s: Session, luck: Luck, env: Env)
    requires Consumes(s.pc) && WellFormed(s.w.st) && Consistent(s, env)
    ensures Consistent(ConsumingStep(s, luck, env), env)
  {
    if s.pc.Reading? {
      ReadSound(s, luck, env);
    } else if s.pc.Consuming? {
      ConsumeSound(s, luck, env);
    } else {
      LeaveSound(s, luck, env);
    }
  }

  lemma {:induction false} StepSound(s: Session, act: Act, env: Env)
    requires WellFormed(s.w.st) && Consistent(s, env)
    ensures Consistent(Step(s, act, env), env)
  {
    var v := Step(s, act, env);
    if act.Notify? {
      SameSound(s, v, env);
    } else if MayConsume(s, act) {
      ConsumingSound(s, act.luck, env);
    } else {
      OtherSteps(s, act, env);
      SameSound(s, v, env);
    }
  }

  // ---------------------------------------------------------------- the order of a session

  /** A cancellation that lands while the subscriptions are being undone. */
  predicate CutsTeardown(s: Session, act: Act) {
    act.Cancel? && s.pc.Leaving? && s.pc.n < s.subscribed
  }

  lemma {:induction false} QuietOrderly(s: Session, act: Act, env: Env)
    requires WellFormed(s.w.st) && Orderly(s) && !MayConsume(s, act) && !CutsTeardown(s, act)
    ensures Orderly(Step(s, act, env))
  {
    if !act.Notify? {
      OtherSteps(s, act, env);
    }
  }

  lemma {:induction false} ReadOrderly(s: Session, luck: Luck, env: Env)
    requires s.pc.Reading? && WellFormed(s.w.st) && Orderly(s) && Accounted(s)
    ensures Orderly(ReadStep(s, luck, env))
  {
    var s1 := if luck.read.Some? then Offered(s, luck.read.value) else s;
    if luck.read.Some? {
      OfferedCounts(s, luck.read.value);
    }
    ConsumedCounts(s1, env);
  }

  lemma {:induction false} ConsumeOrderly(s: Session, luck: Luck, env: Env)
    requires s.pc.Consuming? && WellFormed(s.w.st) && Orderly(s) && Accounted(s)
    ensures Orderly(ConsumeStep(s, luck, env))
  {
    ConsumedCounts(s, env);
  }

  lemma {:induction false} LeaveOrderly(s: Session, luck: Luck, env: Env)
    requires s.pc.Leaving? && WellFormed(s.w.st) && Orderly(s) && Accounted(s) && Consistent(s, env)
    ensures Orderly(LeaveStep(s, luck, env))
  {
    if s.pc.n >= s.subscribed {
      ClosedSound(s, env, luck.wall);
      ConsumedCounts(s, env);
    }
  }

  lemma {:induction false} CutOrderly(s: Session, env: Env)
    requires WellFormed(s.w.st) && CutsTeardown(s, Cancel)
    ensures var v := Step(s, Cancel, env);
            Orderly(v) && v.interrupted && v.w == s.w && v.alerts == s.alerts && v.openTracks == s.openTracks
  {
  }

  ghost predicate Inv(s: Session, env: Env) {
    WellFormed(s.w.st) && Accounted(s) && Consistent(s, env) && Orderly(s)
  }

  lemma {:induction false} ConsumingOrderly(s: Session, luck: Luck, env: Env)
    requires Inv(s, env) && Consumes(s.pc)
    ensures Orderly(ConsumingStep(s, luck, env))
  {
    if s.pc.Reading? {
      ReadOrderly(s, luck, env);
    } else if s.pc.Consuming? {
      ConsumeOrderly(s, luck, env);
    } else {
      LeaveOrderly(s, luck, env);
    }
  }

  lemma {:induction false} StepOrderly(s: Session, act: Act, env: Env)
    requires Inv(s, env)
    ensures Orderly(Step(s, act, env))
  {
    if CutsTeardown(s, act) {
      CutOrderly(s, env);
    } else if MayConsume(s, act) {
      ConsumingOrderly(s, act.luck, env);
    } else {
      QuietOrderly(s, act, env);
    }
  }

  lemma {:induction false} StepInv(s: Session, act: Act, env: Env)
    requires Inv(s, env)
    ensures Inv(Step(s, act, env), env)
  {
    StepAccounts(s, act, env);
    StepSound(s, act, env);
    StepOrderly(s, act, env);
  }

  lemma {:induction false} HeldInv(start: Session, acts: seq<Act>, env: Env)
    requires Inv(start, env)
    ensures Inv(Held(start, acts, env), env)
  {
    if |acts| == 0 {
    } else {
      HeldInv(start, acts[..|acts| - 1], env);
      StepInv(Held(start, acts[..|acts| - 1], env), acts[|acts| - 1], env);
    }
  }

  lemma {:induction false} ConnectInv(maxsize: nat, seqNo: int, env: Env)
    requires maxsize >= 2
    ensures Inv(Connect(maxsize, [], [], seqNo), env)
  {
    ConnectAccounts(maxsize, [], [], seqNo);
    Histories.EmptyIsGood(Histories.FIRST, env.tolerance);
  }

  // ---------------------------------------------------------------- main theorems

  /** The life of an id in the dispatched events: none, or a START, UPDATEs, and an END. */
  ghost predicate Finished(log: seq<Event>, id: nat) {
    var es := Histories.Projection(log, id);
    es == [] || (|es| > 1 && Histories.OneLife(es) && es[|es| - 1].kind == End)
  }

  lemma {:induction false} NothingOpen(w: World, id: nat)
    requires Lives(w)
    ensures HasId(w.st.tracks, id) <==> !Finished(w.log, id)
  {
    Histories.LivesIsShape(w, id);
    if HasId(w.st.tracks, id) {
      var k :| 0 <= k < |w.st.tracks| && w.st.tracks[k].id == id;
    }
  }

  /** What a released session owes: every START it dispatched has an END, and the screen is clear. */
  ghost predicate Discharged(s: Session) {
    |s.alerts| == 0 && |s.openTracks| == 0 && forall id: nat :: Finished(s.w.log, id)
  }

  lemma {:induction false} SettledIsDischarged(s: Session, env: Env)
    requires Consistent(s, env) && Settled(s)
    ensures Discharged(s)
  {
    forall id: nat ensures Finished(s.w.log, id) {
      NothingOpen(s.w, id);
    }
  }

  lemma {:induction false} DischargedIsSettled(s: Session, env: Env)
    requires Consistent(s, env) && Discharged(s)
    ensures Settled(s)
  {
    if |s.w.st.tracks| > 0 {
      var id := s.w.st.tracks[0].id;
      NothingOpen(s.w, id);
      assert HasId(s.w.st.tracks, id);
    }
  }

  lemma {:induction false} OrderlyIsDischarged(s: Session, env: Env)
    requires Inv(s, env) && s.pc == Released && !s.interrupted
    ensures Discharged(s)
  {
    SettledIsDischarged(s, env);
  }

  /**
   * When a session that began with a clear screen releases its link, every START it dispatched has
   * an END, and the screen is clear; unless a cancellation landed inside the teardown.
   */
  lemma {:induction false} EveryStartIsEnded(maxsize: nat, seqNo: int, acts: seq<Act>, env: Env)
    requires maxsize >= 2
    requires var s := Held(Connect(maxsize, [], [], seqNo), acts, env); s.pc == Released && !s.interrupted
    ensures Discharged(Held(Connect(maxsize, [], [], seqNo), acts, env))
  {
    ConnectInv(maxsize, seqNo, env);
    HeldInv(Connect(maxsize, [], [], seqNo), acts, env);
    OrderlyIsDischarged(Held(Connect(maxsize, [], [], seqNo), acts, env), env);
  }

  lemma {:induction false} ConsumingIsNotCut(s: Session, luck: Luck, env: Env)
    requires Inv(s, env) && Consumes(s.pc)
    ensures !ConsumingStep(s, luck, env).interrupted
  {
    ConsumedCounts(s, env);
    if s.pc.Reading? && luck.read.Some? {
      OfferedCounts(s, luck.read.value);
      ConsumedCounts(Offered(s, luck.read.value), env);
    }
  }

  lemma {:induction false} OthersAreNotCut(s: Session, act: Act, env: Env)
    requires WellFormed(s.w.st) && Orderly(s) && s.pc != Released && !CutsTeardown(s, act) && !MayConsume(s, act)
    ensures !Step(s, act, env).interrupted
  {
  }

  lemma {:induction false} NotCut(s: Session, act: Act, env: Env)
    requires Inv(s, env) && s.pc != Released && !CutsTeardown(s, act)
    ensures !Step(s, act, env).interrupted
  {
    if MayConsume(s, act) {
      ConsumingIsNotCut(s, act.luck, env);
    } else {
      OthersAreNotCut(s, act, env);
    }
  }

  /**
   * Exactly when: the step that releases the link leaves nothing owed if and only if it does not cut
   * the teardown short, or nothing was owed already.
   */
  lemma {:induction false} ReleaseDischargesUnlessCut(s: Session, act: Act, env: Env)
    requires Inv(s, env) && s.pc != Released && Step(s, act, env).pc == Released
    ensures Discharged(Step(s, act, env)) <==> !CutsTeardown(s, act) || Discharged(s)
  {
    var v := Step(s, act, env);
    StepInv(s, act, env);
    if CutsTeardown(s, act) {
      CutOrderly(s, env);
    } else {
      NotCut(s, act, env);
      OrderlyIsDischarged(v, env);
    }
  }

  // ---------------------------------------------------------------- across sessions

  /** What one session leaves for the next: the published state outlives the link. */
  datatype Screen = Screen(alerts: seq<Alert>, openTracks: seq<Track>, seqNo: int)

  ghost function ScreenAfter(maxsize: nat, screen: Screen, acts: seq<Act>, env: Env): Screen {
    var s := Held(Connect(maxsize, screen.alerts, screen.openTracks, screen.seqNo), acts, env);
    Screen(s.alerts, s.openTracks, s.seqNo)
  }

  ghost function ScreenAfterAll(maxsize: nat, runs: seq<seq<Act>>, env: Env): Screen {
    if |runs| == 0 then Screen([], [], 0)
    else ScreenAfter(maxsize, ScreenAfterAll(maxsize, runs[..|runs| - 1], env), runs[|runs| - 1], env)
  }

  /** Every run ends with its link released, and no cancellation inside the teardown. */
  ghost predicate AllUncut(maxsize: nat, runs: seq<seq<Act>>, env: Env) {
    |runs| == 0
    || (&& AllUncut(maxsize, runs[..|runs| - 1], env)
        && var screen := ScreenAfterAll(maxsize, runs[..|runs| - 1], env);
        var s := Held(Connect(maxsize, screen.alerts, screen.openTracks, screen.seqNo), runs[|runs| - 1], env);
        s.pc == Released && !s.interrupted)
  }

  /** Across any sequence of reconnects the screen is clear between sessions. */
  lemma {:induction false} TheScreenIsClearBetweenSessions(maxsize: nat, runs: seq<seq<Act>>, env: Env)
    requires maxsize >= 2 && AllUncut(maxsize, runs, env)
    ensures var screen := ScreenAfterAll(maxsize, runs, env); |screen.alerts| == 0 && |screen.openTracks| == 0
  {
    if |runs| == 0 {
    } else {
      var front, last := runs[..|runs| - 1], runs[|runs| - 1];
      TheScreenIsClearBetweenSessions(maxsize, front, env);
      var screen := ScreenAfterAll(maxsize, front, env);
      assert screen.alerts == [] && screen.openTracks == [];
      EveryStartIsEnded(maxsize, screen.seqNo, last, env);
    }
  }
}
