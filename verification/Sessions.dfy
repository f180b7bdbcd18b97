/**
 * One held link, from connect to release: the notification callback, the streaming loop and the
 * teardown as a transition system whose steps are the stretches between two awaits. The callback
 * may fire between any two steps, and a cancellation may land at any await.
 */
module Sessions {
  import opened Common
  import opened Alerts
  import Wire
  import opened Tracks
  import opened Runs
  import Histories
  import Notifications
  import Queues

  const TELEMETRY: string := "telemetry"
  const MAX_PUBLISHED_ALERTS: nat := 8

  /** What the session needs from outside: text decoding, decimal parsing and the tracker's tolerance. */
  datatype Env = Env(text: seq<byte> -> string, decimals: Wire.Decimals, tolerance: int)

  /** Where the session stands: always at an await, or about to run to the next one. */
  datatype Pc =
    | Opening            // connecting
    | Refusing           // publishing that an attribute is missing
    | Reading(n: nat)    // the one-shot reads
    | Subscribing(n: nat)
    | Announcing         // publishing "streaming", or "degraded"
    | Looping            // the top of the streaming loop
    | Testing            // the wake flag is clear: about to look at the queue
    | Waiting            // asleep until the wake flag, the stop event or the timeout
    | Consuming
    | Probing            // the health probe, when it is due, and the checks after it
    | Publishing
    | Leaving(n: nat)    // the teardown: `n` subscriptions undone
    | Released

  datatype Session = Session(
    pc: Pc,
    q: Queues.Queue,
    w: World,
    wake: bool,
    subscribed: nat,
    alerts: seq<Alert>,
    openTracks: seq<Track>,
    seqNo: int,
    telemetry: nat,
    alertPackets: nat,
    lost: int,
    interrupted: bool
  )

  /** How the next step goes. */
  datatype Luck = Luck(leave: bool, publish: bool, read: Option<Queues.Arrival>, wall: int)

  datatype Act =
    | Notify(arrival: Queues.Arrival)
    | Go(luck: Luck)
    | Raise
    | Cancel

  // ---------------------------------------------------------------- consuming

  /** `record_alerts`, for one parsed alert packet. */
  function Shown(s: Session, seqNo: int, alerts: seq<Alert>): Session {
    s.(alertPackets := s.alertPackets + 1, seqNo := seqNo,
       alerts := if |alerts| <= MAX_PUBLISHED_ALERTS then alerts else alerts[..MAX_PUBLISHED_ALERTS])
  }

  /** `_apply`. */
  ghost function Applied(s: Session, note: Queues.Notification, env: Env): (r: Session)
    requires WellFormed(s.w.st)
    ensures WellFormed(r.w.st)
  {
    if note.kind == TELEMETRY then s.(telemetry := s.telemetry + 1, seqNo := note.seqNo)
    else
      var snap := Notifications.SnapshotOf(env.text(note.payload), env.decimals, note.seqNo, note.mono, note.wall);
      Shown(s, note.seqNo, snap.alerts).(w := Histories.After(s.w, Observed(snap), env.tolerance))
  }

  ghost function Taken(s: Session, r: Queues.Record, env: Env): (s': Session)
    requires WellFormed(s.w.st)
    ensures WellFormed(s'.w.st) && s'.q == s.q
  {
    match r
    case Loss(g) => s.(lost := s.lost + Queues.Count(g))
    case Note(n) => Applied(s, n, env)
  }

  /**
   * `_consume`: everything queued, in order. What it returns is dispatched at once, so `w.log` is
   * what was dispatched.
   */
  ghost function Consumed(s: Session, env: Env): (r: Session)
    requires WellFormed(s.w.st)
    ensures WellFormed(r.w.st)
    decreases Queues.Length(s.q)
  {
    var (q, record) := Queues.Pop(s.q);
    if record.None? then s else Consumed(Taken(s.(q := q), record.value, env), env)
  }

  /** The end of the teardown: consume what arrived, end every open track, forget the screen. */
  ghost function TornDown(s: Session, env: Env, wall: int): (r: Session)
    requires WellFormed(s.w.st)
    ensures WellFormed(r.w.st)
  {
    ShutDown(Consumed(s, env), wall)
  }

  /** With the queue consumed: every open track is ended and the screen is cleared. */
  ghost function ShutDown(s: Session, wall: int): (r: Session)
    requires WellFormed(s.w.st)
    ensures WellFormed(r.w.st)
  {
    s.(w := Shut(s.w, s.seqNo, wall), alerts := [], openTracks := [], pc := Released)
  }

  // ---------------------------------------------------------------- steps

  /** A new session over what the previous one left on the screen. */
  ghost function Connect(maxsize: nat, alerts: seq<Alert>, openTracks: seq<Track>, seqNo: int): (s: Session)
    ensures WellFormed(s.w.st)
  {
    Session(Opening, Queues.Fresh(maxsize), Histories.FIRST, false, 0, alerts, openTracks, seqNo, 0, 0, 0, false)
  }

  function Offered(s: Session, a: Queues.Arrival): Session {
    if s.q.maxsize >= 2 then s.(q := Queues.Offer(s.q, a)) else s
  }

  ghost function ReadStep(s: Session, luck: Luck, env: Env): (r: Session)
    requires s.pc.Reading? && WellFormed(s.w.st)
    ensures WellFormed(r.w.st)
  {
    var s1 := if luck.read.Some? then Offered(s, luck.read.value) else s;
    if s.pc.n == 0 then s1.(pc := Reading(1)) else Consumed(s1, env).(pc := Subscribing(0))
  }

  function SubscribeStep(s: Session, luck: Luck): Session
    requires s.pc.Subscribing?
  {
    var s1 := s.(subscribed := if luck.leave then s.subscribed else s.subscribed + 1);
    if s.pc.n == 0 then s1.(pc := Subscribing(1)) else s1.(pc := Announcing, openTracks := s.w.st.tracks)
  }

  ghost function ConsumeStep(s: Session, luck: Luck, env: Env): (r: Session)
    requires s.pc.Consuming? && WellFormed(s.w.st)
    ensures WellFormed(r.w.st)
  {
    if luck.leave then s.(pc := Leaving(0)) else Consumed(s, env).(pc := Probing)
  }

  ghost function LeaveStep(s: Session, luck: Luck, env: Env): (r: Session)
    requires s.pc.Leaving? && WellFormed(s.w.st)
    ensures WellFormed(r.w.st)
  {
    if s.pc.n < s.subscribed then s.(pc := Leaving(s.pc.n + 1)) else TornDown(s, env, luck.wall)
  }

  /** The steps that can consume: the one-shot reads, the streaming loop's turn, and the teardown. */
  predicate Consumes(pc: Pc) {
    pc.Reading? || pc.Consuming? || pc.Leaving?
  }

  ghost function ConsumingStep(s: Session, luck: Luck, env: Env): (r: Session)
    requires Consumes(s.pc) && WellFormed(s.w.st)
    ensures WellFormed(r.w.st)
  {
    if s.pc.Reading? then ReadStep(s, luck, env)
    else if s.pc.Consuming? then ConsumeStep(s, luck, env)
    else LeaveStep(s, luck, env)
  }

  function PlainStep(s: Session, luck: Luck): Session {
    match s.pc
    case Opening => if luck.leave then s.(pc := Refusing, openTracks := s.w.st.tracks) else s.(pc := Reading(0))
    case Refusing => s.(pc := Released)
    case Subscribing(_) => SubscribeStep(s, luck)
    case Announcing => s.(pc := if s.subscribed == 0 then Leaving(0) else Looping)
    case Looping => if luck.leave then s.(pc := Leaving(0)) else s.(pc := Testing, wake := false)
    case Testing => s.(pc := if Queues.Length(s.q) == 0 then Waiting else Consuming)
    case Waiting => s.(pc := Consuming)
    case Probing =>
      if luck.leave then s.(pc := Leaving(0), openTracks := if luck.publish then s.w.st.tracks else s.openTracks)
      else if luck.publish then s.(pc := Publishing, openTracks := s.w.st.tracks)
      else s.(pc := Looping)
    case Publishing => s.(pc := Looping)
    case _ => s
  }

  /**
   * An exception, or a cancellation, at the await the session stands at. Before the subscriptions it
   * releases the link at once; after them it goes through the teardown, which suppresses exceptions
   * of its own but not a cancellation.
   */
  function Thrown(s: Session, cancelled: bool): Session {
    match s.pc
    case Opening => s.(pc := Released)
    case Refusing => s.(pc := Released)
    case Reading(_) => s.(pc := Released)
    case Leaving(n) => if cancelled && n < s.subscribed then s.(pc := Released, interrupted := true) else s
    case Released => s
    case _ => s.(pc := Leaving(0))
  }

  ghost function Step(s: Session, act: Act, env: Env): (r: Session)
    requires WellFormed(s.w.st)
    ensures WellFormed(r.w.st)
  {
    match act
    case Notify(a) => if s.pc == Released then s else Offered(s, a).(wake := true)
    case Go(luck) => if Consumes(s.pc) then ConsumingStep(s, luck, env) else PlainStep(s, luck)
    case Raise => Thrown(s, false)
    case Cancel => Thrown(s, true)
  }

  ghost function Held(start: Session, acts: seq<Act>, env: Env): (s: Session)
    requires WellFormed(start.w.st)
    ensures WellFormed(s.w.st)
  {
    if |acts| == 0 then start
    else Step(Held(start, acts[..|acts| - 1], env), acts[|acts| - 1], env)
  }
}
