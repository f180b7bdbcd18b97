/** The collector's outer loop: every link gated on a health probe and spaced by a bounded, jittered backoff. */
module Reconnect {
  import opened Common

  // ---------------------------------------------------------------- the backoff

  const BACKOFF_BASE_SECONDS: real := 5.0
  const BACKOFF_MAX_SECONDS: real := 60.0
  const BACKOFF_JITTER: real := 0.2
  const HEALTHY_SESSION_SECONDS: real := 30.0

  function Doubled(n: nat): (r: real)
    ensures r >= 1.0
  {
    if n == 0 then 1.0 else 2.0 * Doubled(n - 1)
  }

  function Least(a: real, b: real): real {
    if a < b then a else b
  }

  function Most(a: real, b: real): real {
    if a < b then b else a
  }

  function Capped(attempt: int): real {
    Least(BACKOFF_BASE_SECONDS * Doubled((if attempt < 1 then 1 else attempt) - 1), BACKOFF_MAX_SECONDS)
  }

  /** `next_backoff`, for one draw of the jitter. */
  function NextBackoff(attempt: int, jitter: real): real {
    var capped := Capped(attempt);
    var spread := capped * BACKOFF_JITTER;
    Most(0.5, capped - spread + 2.0 * spread * jitter)
  }

  lemma {:induction false} DoubledGrows(m: nat, n: nat)
    requires m <= n
    ensures Doubled(m) <= Doubled(n)
  {
    if m >= n {
    } else {
      DoubledGrows(m, n - 1);
    }
  }

  lemma {:induction false} SpreadBounds(capped: real, jitter: real)
    requires 5.0 <= capped <= 60.0 && 0.0 <= jitter <= 1.0
    ensures 0.8 * capped <= capped - capped * 0.2 + 2.0 * (capped * 0.2) * jitter <= 1.2 * capped
  {
    var spread := capped * 0.2;
    assert 0.0 <= 2.0 * spread * jitter <= 2.0 * spread * 1.0;
  }

  /** The wait is between 4 and 72 seconds, and never shrinks as failures mount. */
  lemma {:induction false} BackoffIsBounded(attempt: int, jitter: real)
    requires 0.0 <= jitter <= 1.0
    ensures 4.0 <= NextBackoff(attempt, jitter) <= 72.0
  {
    assert 5.0 <= Capped(attempt) <= 60.0;
    SpreadBounds(Capped(attempt), jitter);
  }

  /** The middle of the wait for so many failures: five seconds, doubling up to a minute. */
  function Centre(failures: int): real {
    if failures <= 1 then 5.0
    else if failures == 2 then 10.0
    else if failures == 3 then 20.0
    else if failures == 4 then 40.0
    else 60.0
  }

  lemma {:induction false} CappedIsCentre(attempt: int)
    ensures Capped(attempt) == Centre(attempt)
  {
    if attempt >= 5 {
      DoubledGrows(4, attempt - 1);
      assert Doubled(4) == 16.0;
    } else if attempt >= 2 {
      assert Doubled(1) == 2.0 && Doubled(2) == 4.0 && Doubled(3) == 8.0;
    }
  }

  /** The wait is the centre, spread evenly by a fifth either way as the jitter goes from 0 to 1. */
  lemma {:induction false} BackoffIsCentred(attempt: int, jitter: real)
    requires 0.0 <= jitter <= 1.0
    ensures NextBackoff(attempt, jitter) == Centre(attempt) * (0.8 + 0.4 * jitter)
  {
    CappedIsCentre(attempt);
    SpreadBounds(Centre(attempt), jitter);
  }

  lemma {:induction false} SpreadGrows(low: real, high: real, jitter: real)
    requires 5.0 <= low <= high && 0.0 <= jitter <= 1.0
    ensures low - low * 0.2 + 2.0 * (low * 0.2) * jitter <= high - high * 0.2 + 2.0 * (high * 0.2) * jitter
  {
    assert (high - low) * jitter >= 0.0;
    assert 2.0 * (high * 0.2) * jitter - 2.0 * (low * 0.2) * jitter == 0.4 * ((high - low) * jitter);
  }

  lemma {:induction false} BackoffIsMonotone(attempt: int, later: int, jitter: real)
    requires attempt <= later && 0.0 <= jitter <= 1.0
    ensures NextBackoff(attempt, jitter) <= NextBackoff(later, jitter)
  {
    DoubledGrows((if attempt < 1 then 1 else attempt) - 1, (if later < 1 then 1 else later) - 1);
    assert 5.0 <= Capped(attempt) <= Capped(later);
    SpreadGrows(Capped(attempt), Capped(later), jitter);
  }

  // ---------------------------------------------------------------- the loop

  /** What happened, in order: the gate's probes, session starts, probes inside a session, session ends. */
  datatype Mark =
    | Probed(healthy: bool, at: real)
    | Started(at: real)
    | Checked(healthy: bool, at: real)
    | Ended(lasted: real, at: real)

  /** Where the loop stands: each is an await. */
  datatype Pc =
    | Top                    // about to test the stop event and the deadline, then to probe
    | Backing                // publishing "obd-blocked"
    | Linking                // publishing "connecting"
    | Holding(began: real)   // a session is running
    | Reporting              // publishing "reconnecting"
    | Sleeping(until: real)
    | Stopped

  datatype Collector = Collector(pc: Pc, now: real, deadline: Option<real>, stop: bool, attempt: nat, marks: seq<Mark>)

  /** How the next step goes: how long it takes, and what it brings. */
  datatype Luck = Luck(takes: real, healthy: bool, ends: bool, lasted: real, jitter: real)

  datatype Act = SetStop | Cancelled | Go(luck: Luck)

  ghost predicate Fair(luck: Luck) {
    luck.takes >= 0.0 && 0.0 <= luck.jitter <= 1.0
  }

  function Later(c: Collector, luck: Luck): Collector {
    if luck.takes >= 0.0 then c.(now := c.now + luck.takes) else c
  }

  predicate Over(c: Collector) {
    c.stop || (c.deadline.Some? && c.now >= c.deadline.value)
  }

  /** `_wait`: until the backoff is over or the trial deadline is reached. */
  function Sleep(c: Collector, jitter: real): Collector {
    var seconds := NextBackoff(c.attempt, jitter);
    var bounded := if c.deadline.None? then seconds else Least(seconds, Most(0.0, c.deadline.value - c.now));
    c.(pc := Sleeping(c.now + bounded))
  }

  function Marked(c: Collector, m: Mark): Collector {
    c.(marks := c.marks + [m])
  }

  /** A session ends after `lasted` seconds by its own count, zero if it raised. */
  function SessionEnds(c: Collector, lasted: real): Collector {
    var e := Marked(c, Ended(lasted, c.now));
    if Over(e) then e.(pc := Stopped)
    else e.(attempt := if lasted >= HEALTHY_SESSION_SECONDS then 0 else e.attempt + 1, pc := Reporting)
  }

  function GoStep(c: Collector, luck: Luck): Collector {
    var l := Later(c, luck);
    match c.pc
    case Top =>
      if Over(c) then c.(pc := Stopped)
      else Marked(l, Probed(luck.healthy, l.now)).(pc := if luck.healthy then Linking else Backing)
    case Backing => Sleep(l.(attempt := l.attempt + 1), luck.jitter)
    case Linking =>
      if l.deadline.Some? && l.now >= l.deadline.value then l.(pc := Stopped)
      else Marked(l, Started(l.now)).(pc := Holding(l.now))
    case Holding(began) => if luck.ends then SessionEnds(l, luck.lasted) else Marked(l, Checked(luck.healthy, l.now))
    case Reporting => Sleep(l, luck.jitter)
    case Sleeping(until) => if c.stop || l.now >= until then l.(pc := Top) else l.(now := until, pc := Top)
    case Stopped => c
  }

  function Step(c: Collector, act: Act): Collector {
    match act
    case SetStop => c.(stop := true)
    case Cancelled => c.(pc := Stopped)
    case Go(luck) => GoStep(c, luck)
  }

  function After(start: real, deadline: Option<real>, acts: seq<Act>): Collector {
    if |acts| == 0 then Collector(Top, start, deadline, false, 0, [])
    else Step(After(start, deadline, acts[..|acts| - 1]), acts[|acts| - 1])
  }

  ghost predicate AllFair(acts: seq<Act>) {
    forall k :: 0 <= k < |acts| && acts[k].Go? ==> Fair(acts[k].luck)
  }

  // ---------------------------------------------------------------- every start is gated

  /** The mark just before every session start is the gate's probe, and it was healthy. */
  ghost predicate GatedAt(marks: seq<Mark>, k: nat) {
    k < |marks| && marks[k].Started? ==> k > 0 && marks[k - 1].Probed? && marks[k - 1].healthy
  }

  ghost predicate Gated(c: Collector) {
    && (forall k: nat {:trigger GatedAt(c.marks, k)} :: k < |c.marks| ==> GatedAt(c.marks, k))
    && (c.pc == Linking ==> |c.marks| > 0 && c.marks[|c.marks| - 1].Probed? && c.marks[|c.marks| - 1].healthy)
  }

  lemma {:induction false} MarkGates(c: Collector, m: Mark)
    requires Gated(c) && (m.Started? ==> c.pc == Linking)
    ensures forall k: nat {:trigger GatedAt(Marked(c, m).marks, k)} :: k < |Marked(c, m).marks| ==>
            GatedAt(Marked(c, m).marks, k)
  {
    var marks := Marked(c, m).marks;
    forall k: nat | k < |marks| ensures GatedAt(marks, k) {
      if k < |c.marks| {
        assert GatedAt(c.marks, k);
      }
    }
  }

  /** The mark a step leaves, if any. */
  lemma {:induction false} OneMark(c: Collector, act: Act) returns (m: Option<Mark>)
    ensures Step(c, act).marks == if m.Some? then c.marks + [m.value] else c.marks
    ensures m.Some? && m.value.Started? ==> c.pc == Linking
    ensures Step(c, act).pc == Linking ==> if m.Some? then m.value.Probed? && m.value.healthy else c.pc == Linking
  {
    var v := Step(c, act);
    m := if |v.marks| > |c.marks| then Some(v.marks[|c.marks|]) else None;
  }

  lemma {:induction false} StepGates(c: Collector, act: Act)
    requires Gated(c)
    ensures Gated(Step(c, act))
  {
    var m := OneMark(c, act);
    if m.Some? {
      MarkGates(c, m.value);
      assert Step(c, act).marks == Marked(c, m.value).marks;
    }
  }

  /**
   * In every run each session start directly follows a healthy probe of the gate: no unhealthy one,
   * and no other start, is between.
   */
  lemma {:induction false} EveryStartIsGated(start: real, deadline: Option<real>, acts: seq<Act>, k: nat)
    requires var marks := After(start, deadline, acts).marks; k < |marks| && marks[k].Started?
    ensures var marks := After(start, deadline, acts).marks; k > 0 && marks[k - 1].Probed? && marks[k - 1].healthy
  {
    AlwaysGated(start, deadline, acts);
    assert GatedAt(After(start, deadline, acts).marks, k);
  }

  lemma {:induction false} AlwaysGated(start: real, deadline: Option<real>, acts: seq<Act>)
    ensures Gated(After(start, deadline, acts))
  {
    if |acts| == 0 {
    } else {
      AlwaysGated(start, deadline, acts[..|acts| - 1]);
      StepGates(After(start, deadline, acts[..|acts| - 1]), acts[|acts| - 1]);
    }
  }

  // ---------------------------------------------------------------- starts are spaced

  function Starts(marks: seq<Mark>): seq<real> {
    if |marks| == 0 then []
    else Starts(marks[..|marks| - 1]) + (if marks[|marks| - 1].Started? then [marks[|marks| - 1].at] else [])
  }

  lemma {:induction false} StartsAfter(marks: seq<Mark>, m: Mark)
    ensures Starts(marks + [m]) == Starts(marks) + (if m.Started? then [m.at] else [])
  {
    assert (marks + [m])[..|marks|] == marks;
  }

  ghost predicate Spaced(times: seq<real>) {
    forall k :: 0 < k < |times| ==> times[k] - times[k - 1] >= 4.0
  }

  /** `t` is at least `gap` after the last start. */
  ghost predicate Clear(times: seq<real>, t: real, gap: real) {
    |times| > 0 ==> t >= times[|times| - 1] + gap
  }

  ghost predicate PastDeadline(c: Collector, t: real) {
    c.deadline.Some? && t >= c.deadline.value
  }

  /** `times` are the starts so far. */
  ghost predicate InTime(c: Collector, times: seq<real>) {
    && Spaced(times) && Clear(times, c.now, 0.0)
    && match c.pc
       case Top => c.stop || Clear(times, c.now, 4.0) || PastDeadline(c, c.now)
       case Backing => Clear(times, c.now, 4.0)
       case Linking => Clear(times, c.now, 4.0)
       case Sleeping(until) => Clear(times, until, 4.0) || PastDeadline(c, until)
       case _ => true
  }

  ghost predicate Timely(c: Collector) {
    InTime(c, Starts(c.marks))
  }

  lemma {:induction false} SleepIsLong(c: Collector, jitter: real)
    requires 0.0 <= jitter <= 1.0 && Clear(Starts(c.marks), c.now, 0.0) && Spaced(Starts(c.marks))
    ensures Timely(Sleep(c, jitter))
  {
    BackoffIsBounded(c.attempt, jitter);
  }

  lemma {:induction false} StillTimely(c: Collector, v: Collector, m: Mark)
    requires InTime(v, Starts(c.marks)) && v.marks == c.marks + [m] && !m.Started?
    ensures Timely(v)
  {
    StartsAfter(c.marks, m);
  }

  lemma {:induction false} TopInTime(c: Collector, luck: Luck, times: seq<real>)
    requires InTime(c, times) && Fair(luck) && c.pc == Top
    ensures InTime(GoStep(c, luck), times)
  {
  }

  lemma {:induction false} TopTimely(c: Collector, luck: Luck)
    requires Timely(c) && Fair(luck) && c.pc == Top
    ensures Timely(GoStep(c, luck))
  {
    TopInTime(c, luck, Starts(c.marks));
    if !Over(c) {
      StillTimely(c, GoStep(c, luck), Probed(luck.healthy, Later(c, luck).now));
    }
  }

  lemma {:induction false} SpacedOn(times: seq<real>, t: real)
    requires Spaced(times) && Clear(times, t, 4.0)
    ensures Spaced(times + [t])
  {
  }

  lemma {:induction false} LinkInTime(c: Collector, luck: Luck, times: seq<real>)
    requires InTime(c, times) && Fair(luck) && c.pc == Linking
    ensures var v := GoStep(c, luck); InTime(v, if v.pc == Stopped then times else times + [v.now])
  {
    SpacedOn(times, Later(c, luck).now);
  }

  lemma {:induction false} LinkTimely(c: Collector, luck: Luck)
    requires Timely(c) && Fair(luck) && c.pc == Linking
    ensures Timely(GoStep(c, luck))
  {
    LinkInTime(c, luck, Starts(c.marks));
    StartsAfter(c.marks, Started(Later(c, luck).now));
  }

  lemma {:induction false} HoldInTime(c: Collector, luck: Luck, times: seq<real>)
    requires InTime(c, times) && Fair(luck) && c.pc.Holding?
    ensures InTime(GoStep(c, luck), times)
  {
  }

  lemma {:induction false} HoldTimely(c: Collector, luck: Luck)
    requires Timely(c) && Fair(luck) && c.pc.Holding?
    ensures Timely(GoStep(c, luck))
  {
    var now := Later(c, luck).now;
    HoldInTime(c, luck, Starts(c.marks));
    StillTimely(c, GoStep(c, luck), if luck.ends then Ended(luck.lasted, now) else Checked(luck.healthy, now));
  }

  lemma {:induction false} GoTimely(c: Collector, luck: Luck)
    requires Timely(c) && Fair(luck)
    ensures Timely(GoStep(c, luck))
  {
    var l := Later(c, luck);
    match c.pc
    case Top => TopTimely(c, luck);
    case Backing => SleepIsLong(l.(attempt := l.attempt + 1), luck.jitter);
    case Linking => LinkTimely(c, luck);
    case Holding(_) => HoldTimely(c, luck);
    case Reporting => SleepIsLong(l, luck.jitter);
    case _ =>
  }

  lemma {:induction false} AlwaysTimely(start: real, deadline: Option<real>, acts: seq<Act>)
    requires AllFair(acts)
    ensures Timely(After(start, deadline, acts))
  {
    if |acts| == 0 {
    } else {
      var front, act := acts[..|acts| - 1], acts[|acts| - 1];
      AlwaysTimely(start, deadline, front);
      if act.Go? {
        GoTimely(After(start, deadline, front), act.luck);
      }
    }
  }

  lemma {:induction false} SpacedFar(times: seq<real>, i: nat, j: nat)
    requires Spaced(times) && i <= j < |times|
    ensures times[j] - times[i] >= 4.0 * (j - i) as real
  {
    if i >= j {
    } else {
      SpacedFar(times, i, j - 1);
    }
  }

  /** Any window of `span` seconds holds at most one session start for every four seconds, and one more. */
  lemma {:induction false} StartsAreRationed(start: real, deadline: Option<real>, acts: seq<Act>, from: real,
                                             span: real, i: nat, j: nat)
    requires AllFair(acts)
    requires var times := Starts(After(start, deadline, acts).marks);
             i <= j < |times| && from <= times[i] && times[j] <= from + span
    ensures j - i + 1 <= (span / 4.0).Floor + 1
  {
    AlwaysTimely(start, deadline, acts);
    SpacedFar(Starts(After(start, deadline, acts).marks), i, j);
    assert 4.0 * (j - i) as real <= span;
    assert (j - i) as real <= span / 4.0;
  }

  // ---------------------------------------------------------------- the attempt count

  /** Consecutive failures: unhealthy gates and short sessions since the last session that held. */
  function Failures(marks: seq<Mark>): nat {
    if |marks| == 0 then 0
    else
      var last := marks[|marks| - 1];
      var before := Failures(marks[..|marks| - 1]);
      match last
      case Probed(healthy, _) => if healthy then before else before + 1
      case Ended(lasted, _) => if lasted >= HEALTHY_SESSION_SECONDS then 0 else before + 1
      case _ => before
  }

  lemma {:induction false} FailuresAfter(marks: seq<Mark>, m: Mark)
    ensures Failures(marks + [m]) == match m
                                     case Probed(healthy, _) => if healthy then Failures(marks) else Failures(marks) + 1
                                     case Ended(lasted, _) =>
                                       if lasted >= HEALTHY_SESSION_SECONDS then 0 else Failures(marks) + 1
                                     case _ => Failures(marks)
  {
    assert (marks + [m])[..|marks|] == marks;
  }

  /** The count the backoff is taken for; an unhealthy gate is charged after it is published. */
  ghost predicate Charged(c: Collector) {
    c.pc != Stopped ==> c.attempt + (if c.pc == Backing then 1 else 0) == Failures(c.marks)
  }

  lemma {:induction false} StepCharges(c: Collector, act: Act)
    requires Charged(c)
    ensures Charged(Step(c, act))
  {
    if act.Go? {
      var l := Later(c, act.luck);
      FailuresAfter(c.marks, Probed(act.luck.healthy, l.now));
      FailuresAfter(c.marks, Started(l.now));
      FailuresAfter(c.marks, Checked(act.luck.healthy, l.now));
      FailuresAfter(c.marks, Ended(act.luck.lasted, l.now));
    }
  }

  /** In every run, the wait before the next attempt is the backoff for exactly the consecutive failures so far. */
  lemma {:induction false} WaitsAreForTheFailures(start: real, deadline: Option<real>, acts: seq<Act>)
    ensures var c := After(start, deadline, acts); c.pc != Stopped && c.pc != Backing ==> c.attempt == Failures(c.marks)
  {
    AlwaysCharged(start, deadline, acts);
  }

  lemma {:induction false} AlwaysCharged(start: real, deadline: Option<real>, acts: seq<Act>)
    ensures Charged(After(start, deadline, acts))
  {
    if |acts| == 0 {
    } else {
      AlwaysCharged(start, deadline, acts[..|acts| - 1]);
      StepCharges(After(start, deadline, acts[..|acts| - 1]), acts[|acts| - 1]);
    }
  }

  // ---------------------------------------------------------------- how long a wait is, and when starts cease

  /** The seconds slept after so many failures: the backoff, cut off at the trial deadline. */
  ghost predicate IsWait(seconds: real, failures: nat, jitter: real, now: real, deadline: Option<real>) {
    var backoff := Centre(failures) * (0.8 + 0.4 * jitter);
    match deadline
    case None => seconds == backoff
    case Some(d) =>
      if d <= now then seconds == 0.0 else if now + backoff <= d then seconds == backoff else seconds == d - now
  }

  lemma {:induction false} SleepIsAWait(c: Collector, jitter: real)
    requires 0.0 <= jitter <= 1.0
    ensures var v := Sleep(c, jitter);
            && v.pc.Sleeping? && v.marks == c.marks && v.attempt == c.attempt
            && IsWait(v.pc.until - c.now, c.attempt, jitter, c.now, c.deadline)
  {
    BackoffIsCentred(c.attempt, jitter);
    SpreadBounds(Centre(c.attempt), jitter);
  }

  lemma {:induction false} DeadlineStays(start: real, deadline: Option<real>, acts: seq<Act>)
    ensures After(start, deadline, acts).deadline == deadline
  {
    if |acts| == 0 {
    } else {
      DeadlineStays(start, deadline, acts[..|acts| - 1]);
    }
  }

  lemma {:induction false} AfterOne(start: real, deadline: Option<real>, acts: seq<Act>, act: Act)
    ensures After(start, deadline, acts + [act]) == Step(After(start, deadline, acts), act)
  {
    assert (acts + [act])[..|acts|] == acts;
  }

  /** In every run, a sleep is the wait for exactly the consecutive failures so far. */
  lemma {:induction false} EverySleepIsTheWait(start: real, deadline: Option<real>, acts: seq<Act>, luck: Luck)
    requires Fair(luck) && !After(start, deadline, acts).pc.Sleeping?
    requires After(start, deadline, acts + [Go(luck)]).pc.Sleeping?
    ensures var v := After(start, deadline, acts + [Go(luck)]);
            IsWait(v.pc.until - v.now, Failures(v.marks), luck.jitter, v.now, deadline)
  {
    var c := After(start, deadline, acts);
    AfterOne(start, deadline, acts, Go(luck));
    AlwaysCharged(start, deadline, acts);
    DeadlineStays(start, deadline, acts);
    var l := Later(c, luck);
    SleepIsAWait(if c.pc == Backing then l.(attempt := l.attempt + 1) else l, luck.jitter);
  }

  ghost predicate StartsBefore(marks: seq<Mark>, d: real) {
    forall k :: 0 <= k < |marks| && marks[k].Started? ==> marks[k].at < d
  }

  /** No session starts at the trial deadline or after it. */
  lemma {:induction false} NoStartPastTheDeadline(start: real, d: real, acts: seq<Act>)
    ensures StartsBefore(After(start, Some(d), acts).marks, d)
  {
    if |acts| == 0 {
    } else {
      NoStartPastTheDeadline(start, d, acts[..|acts| - 1]);
      DeadlineStays(start, Some(d), acts[..|acts| - 1]);
    }
  }

  /** Set to stop, and past the gate of no session. */
  ghost predicate Stopping(c: Collector) {
    c.stop && c.pc != Linking
  }

  lemma {:induction false} StoppingStays(c: Collector, act: Act)
    requires Stopping(c)
    ensures Stopping(Step(c, act)) && Starts(Step(c, act).marks) == Starts(c.marks)
  {
    if act.Go? {
      var now := Later(c, act.luck).now;
      StartsAfter(c.marks, Checked(act.luck.healthy, now));
      StartsAfter(c.marks, Ended(act.luck.lasted, now));
    }
  }

  /** Once it is set to stop, no session starts, unless the gate had already passed for one. */
  lemma {:induction false} NoStartAfterTheStop(start: real, deadline: Option<real>, acts: seq<Act>, more: seq<Act>)
    requires Stopping(After(start, deadline, acts))
    ensures Stopping(After(start, deadline, acts + more))
    ensures Starts(After(start, deadline, acts + more).marks) == Starts(After(start, deadline, acts).marks)
  {
    if |more| == 0 {
      assert acts + more == acts;
    } else {
      var front, last := more[..|more| - 1], more[|more| - 1];
      NoStartAfterTheStop(start, deadline, acts, front);
      assert acts + more == (acts + front) + [last];
      AfterOne(start, deadline, acts + front, last);
      StoppingStays(After(start, deadline, acts + front), last);
    }
  }
}
