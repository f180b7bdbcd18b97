/**
 * The history writer: the collector's loop offers rows to a bounded queue and a thread commits
 * them in batches, until a flag and a sentinel stop it. A transition system over every atomic
 * operation of both sides.
 */
module Writers {
  import opened Common

  const WRITE_QUEUE_MAX: nat := 4096
  const BATCH_ROWS: nat := 64

  /** One statement with its parameters. */
  datatype Write = Write(sql: string, parameters: seq<string>)

  datatype Item = Row(write: Write) | Sentinel

  /** A batch as it was handed to the database, and whether its transaction landed. */
  datatype Batch = Batch(rows: seq<Write>, landed: bool)

  /** Where the writer thread stands in its loop. */
  datatype Pc =
    | Waiting     // in `queue.get`
    | Checking    // about to read the stop flag
    | Probing     // the flag was set: about to test whether the queue is empty
    | Deciding    // about to decide whether a commit is due
    | Committing
    | Sweeping    // about to prune, if it is time, and to test the loop condition
    | Exited

  /**
   * `handle` is whether the collector still holds the thread, and `broken` is its record that the
   * database did not open, or not in time. `accepted`, `batches`, `sweepFailures`
   * and `before` are history: the rows that entered the queue, the batches handed over, the prunes
   * that raised, and how many rows had been accepted when the stop flag was set.
   */
  datatype World = World(
    queue: seq<Item>,
    flag: bool,
    handle: bool,
    broken: bool,
    pc: Pc,
    batch: seq<Write>,
    stop: bool,
    queued: nat,
    written: nat,
    dropped: nat,
    errors: nat,
    accepted: seq<Write>,
    batches: seq<Batch>,
    sweepFailures: nat,
    before: nat
  )

  const OPENED: World := World([], false, true, false, Waiting, [], false, 0, 0, 0, 0, [], [], 0, 0)

  datatype Act =
    | Offer(write: Write)
    | OpenFails                        // `start` records an open that failed, or gives up waiting for it
    | SetFlag
    | PutSentinel
    | Detach                           // `stop` returns: joined, or out of patience
    | Get
    | Tick                             // the queue stayed empty until the timeout
    | CheckFlag
    | CheckEmpty
    | Decide(timely: bool)             // whether the batch is old enough to commit
    | Commit(ok: bool)
    | Sweep(elapsed: bool, ok: bool)

  /** Whether an offer now enters the queue. */
  predicate Accepts(w: World) {
    w.handle && !w.broken && |w.queue| < WRITE_QUEUE_MAX
  }

  function Offered(w: World, write: Write): World {
    if !w.handle || w.broken then w
    else if |w.queue| < WRITE_QUEUE_MAX then
      w.(queue := w.queue + [Row(write)], queued := w.queued + 1, accepted := w.accepted + [write])
    else w.(dropped := w.dropped + 1)
  }

  function Flagged(w: World): World {
    if !w.handle then w else w.(flag := true, before := if w.flag then w.before else |w.accepted|)
  }

  /** A full queue swallows the sentinel. */
  function Sent(w: World): World {
    if w.handle && w.flag && |w.queue| < WRITE_QUEUE_MAX then w.(queue := w.queue + [Sentinel]) else w
  }

  function Got(w: World): World
    requires |w.queue| > 0
  {
    var rest := w.(queue := w.queue[1..], pc := Checking);
    match w.queue[0]
    case Sentinel => rest.(stop := true)
    case Row(write) => rest.(batch := w.batch + [write])
  }

  function Decided(w: World, timely: bool): World {
    var due := w.stop || |w.batch| >= BATCH_ROWS || (|w.batch| > 0 && timely);
    w.(pc := if due && |w.batch| > 0 then Committing else Sweeping)
  }

  function Committed(w: World, ok: bool): World {
    w.(pc := Sweeping, batch := [], batches := w.batches + [Batch(w.batch, ok)],
       written := w.written + (if ok then |w.batch| else 0), errors := w.errors + (if ok then 0 else |w.batch|))
  }

  function Swept(w: World, elapsed: bool, ok: bool): World {
    var failed := if !w.stop && elapsed && !ok then 1 else 0;
    w.(pc := if w.stop then Exited else Waiting, errors := w.errors + failed, sweepFailures := w.sweepFailures + failed)
  }

  /** One step of the world; a step that is not possible changes nothing. */
  function Step(w: World, act: Act): World {
    match act
    case Offer(write) => Offered(w, write)
    case OpenFails => w.(broken := true)
    case SetFlag => Flagged(w)
    case PutSentinel => Sent(w)
    case Detach => if w.flag then w.(handle := false) else w
    case Get => if w.pc == Waiting && |w.queue| > 0 then Got(w) else w
    case Tick => if w.pc == Waiting && |w.queue| == 0 then w.(pc := Checking) else w
    case CheckFlag => if w.pc == Checking then w.(pc := if w.flag then Probing else Deciding) else w
    case CheckEmpty => if w.pc == Probing then w.(pc := Deciding, stop := w.stop || |w.queue| == 0) else w
    case Decide(timely) => if w.pc == Deciding then Decided(w, timely) else w
    case Commit(ok) => if w.pc == Committing then Committed(w, ok) else w
    case Sweep(elapsed, ok) => if w.pc == Sweeping then Swept(w, elapsed, ok) else w
  }

  function After(acts: seq<Act>): World {
    if |acts| == 0 then OPENED else Step(After(acts[..|acts| - 1]), acts[|acts| - 1])
  }

  // ---------------------------------------------------------------- what the queue and the batches hold

  function Rows(queue: seq<Item>): (r: seq<Write>)
    ensures |r| <= |queue|
  {
    if |queue| == 0 then []
    else if queue[0].Row? then [queue[0].write] + Rows(queue[1..])
    else Rows(queue[1..])
  }

  function Flat(batches: seq<Batch>): seq<Write> {
    if |batches| == 0 then [] else Flat(batches[..|batches| - 1]) + batches[|batches| - 1].rows
  }

  /** The rows of the batches that landed, or of those that did not. */
  function Count(batches: seq<Batch>, landed: bool): nat {
    if |batches| == 0 then 0
    else
      var last := batches[|batches| - 1];
      Count(batches[..|batches| - 1], landed) + (if last.landed == landed then |last.rows| else 0)
  }

  lemma {:induction false} RowsAfter(queue: seq<Item>, item: Item)
    ensures Rows(queue + [item]) == Rows(queue) + (if item.Row? then [item.write] else [])
  {
    if |queue| == 0 {
      assert queue + [item] == [item] && [item][1..] == [];
    } else {
      RowsAfter(queue[1..], item);
      assert (queue + [item])[1..] == queue[1..] + [item];
    }
  }

  lemma {:induction false} BatchesAfter(batches: seq<Batch>, b: Batch)
    ensures Flat(batches + [b]) == Flat(batches) + b.rows
    ensures forall landed ::
              Count(batches + [b], landed) == Count(batches, landed) + (if b.landed == landed then |b.rows| else 0)
  {
    assert (batches + [b])[..|batches|] == batches;
  }

  // ---------------------------------------------------------------- the invariants

  /** First in, first out: nothing accepted is lost, repeated or reordered on its way to a batch. */
  ghost predicate Fifo(w: World) {
    Flat(w.batches) + w.batch + Rows(w.queue) == w.accepted
  }

  ghost predicate Sized(b: Batch) {
    1 <= |b.rows| <= BATCH_ROWS
  }

  ghost predicate Sizes(w: World) {
    && |w.queue| <= WRITE_QUEUE_MAX
    && (forall b :: b in w.batches ==> Sized(b))
    && |w.batch| <= BATCH_ROWS
    && (w.pc == Waiting || w.pc == Sweeping ==> |w.batch| < BATCH_ROWS)
    && (w.pc == Committing ==> |w.batch| > 0)
    && (w.pc == Waiting ==> !w.stop)
    && (w.pc == Sweeping && w.stop ==> |w.batch| == 0)
    && (w.pc == Exited ==> w.stop && |w.batch| == 0)
  }

  ghost predicate Counted(w: World) {
    && w.queued == |w.accepted|
    && w.written == Count(w.batches, true)
    && w.errors == Count(w.batches, false) + w.sweepFailures
  }

  /** Rows accepted before the stop flag that are still queued. */
  function Owed(w: World): int {
    w.before - (|w.accepted| - |Rows(w.queue)|)
  }

  ghost predicate RowAt(queue: seq<Item>, i: int) {
    0 <= i < |queue| && queue[i].Row?
  }

  /**
   * Every row accepted before the stop flag is ahead of every sentinel, and the thread stops only
   * once it has taken them all.
   */
  ghost predicate StopsLate(w: World) {
    && (if w.flag then w.before <= |w.accepted| else forall i :: 0 <= i < |w.queue| ==> RowAt(w.queue, i))
    && (w.flag ==> forall i :: 0 <= i < Owed(w) ==> RowAt(w.queue, i))
    && (w.stop ==> w.flag && Owed(w) <= 0)
    && (w.pc == Probing ==> w.flag)
  }

  ghost predicate Inv(w: World) {
    Fifo(w) && Sizes(w) && Counted(w) && StopsLate(w)
  }

  lemma {:induction false} OfferKeeps(w: World, write: Write)
    requires Inv(w)
    ensures Inv(Offered(w, write))
  {
    var v := Offered(w, write);
    if Accepts(w) {
      RowsAfter(w.queue, Row(write));
      assert v.accepted == Flat(w.batches) + w.batch + (Rows(w.queue) + [write]);
      forall i | 0 <= i < |v.queue| && (w.flag ==> i < Owed(v)) ensures RowAt(v.queue, i) {
        assert i < |w.queue| ==> RowAt(w.queue, i);
      }
    }
  }

  lemma {:induction false} AllRows(queue: seq<Item>)
    requires forall i :: 0 <= i < |queue| ==> RowAt(queue, i)
    ensures |Rows(queue)| == |queue|
  {
    if |queue| == 0 {
    } else {
      forall i | 0 <= i < |queue[1..]| ensures RowAt(queue[1..], i) {
        assert RowAt(queue, i + 1);
      }
      assert RowAt(queue, 0);
      AllRows(queue[1..]);
    }
  }

  lemma {:induction false} FlagKeeps(w: World)
    requires Inv(w)
    ensures Inv(Flagged(w))
  {
    if !w.flag {
      AllRows(w.queue);
    }
  }

  lemma {:induction false} SentinelKeeps(w: World)
    requires Inv(w)
    ensures Inv(Sent(w))
  {
    var v := Sent(w);
    if v != w {
      RowsAfter(w.queue, Sentinel);
      assert Rows(v.queue) == Rows(w.queue);
      forall i | 0 <= i < Owed(v) ensures RowAt(v.queue, i) {
        assert RowAt(w.queue, i);
      }
    }
  }

  lemma {:induction false} GetKeeps(w: World)
    requires Inv(w) && w.pc == Waiting && |w.queue| > 0
    ensures Inv(Got(w))
  {
    var v := Got(w);
    if w.queue[0].Row? {
      assert Flat(w.batches) + w.batch + ([w.queue[0].write] + Rows(v.queue))
          == Flat(w.batches) + (w.batch + [w.queue[0].write]) + Rows(v.queue);
    } else {
      assert !RowAt(w.queue, 0);
    }
    forall i | 0 <= i < |v.queue| && (w.flag ==> i < Owed(v)) ensures RowAt(v.queue, i) {
      assert RowAt(w.queue, i + 1);
    }
  }

  lemma {:induction false} CommitKeeps(w: World, ok: bool)
    requires Inv(w) && w.pc == Committing
    ensures Inv(Committed(w, ok))
  {
    BatchesAfter(w.batches, Batch(w.batch, ok));
    assert Flat(w.batches) + w.batch + [] == Flat(w.batches) + w.batch;
  }

  lemma {:induction false} SweepKeeps(w: World, elapsed: bool, ok: bool)
    requires Inv(w) && w.pc == Sweeping
    ensures Inv(Swept(w, elapsed, ok))
  {
  }

  lemma {:induction false} CheckEmptyKeeps(w: World)
    requires Inv(w)
    ensures Inv(Step(w, CheckEmpty))
  {
  }

  /** The other steps move no row and stop nothing. */
  lemma {:induction false} LookKeeps(w: World, act: Act)
    requires Inv(w) && (act.OpenFails? || act.Detach? || act.Tick? || act.CheckFlag? || act.Decide?)
    ensures Inv(Step(w, act))
  {
  }

  lemma {:induction false} StepKeeps(w: World, act: Act)
    requires Inv(w)
    ensures Inv(Step(w, act))
  {
    match act
    case Offer(write) => OfferKeeps(w, write);
    case SetFlag => FlagKeeps(w);
    case PutSentinel => SentinelKeeps(w);
    case Get => if w.pc == Waiting && |w.queue| > 0 { GetKeeps(w); }
    case Commit(ok) => if w.pc == Committing { CommitKeeps(w, ok); }
    case Sweep(elapsed, ok) => if w.pc == Sweeping { SweepKeeps(w, elapsed, ok); }
    case CheckEmpty => CheckEmptyKeeps(w);
    case _ => LookKeeps(w, act);
  }

  lemma {:induction false} AlwaysInv(acts: seq<Act>)
    ensures Inv(After(acts))
  {
    if |acts| == 0 {
    } else {
      AlwaysInv(acts[..|acts| - 1]);
      StepKeeps(After(acts[..|acts| - 1]), acts[|acts| - 1]);
    }
  }

  // ---------------------------------------------------------------- main theorems

  /**
   * Under every interleaving, the batches handed over, then the batch in hand, then the queue, are
   * the accepted rows in order; and no batch is empty or over the limit.
   */
  lemma {:induction false} RowsKeepTheirOrder(acts: seq<Act>)
    ensures var w := After(acts);
            && Flat(w.batches) + w.batch + Rows(w.queue) == w.accepted
            && |w.batch| <= BATCH_ROWS && |w.queue| <= WRITE_QUEUE_MAX
            && forall b :: b in w.batches ==> 1 <= |b.rows| <= BATCH_ROWS
  {
    AlwaysInv(acts);
    forall b | b in After(acts).batches ensures 1 <= |b.rows| <= BATCH_ROWS {
      assert Sized(b);
    }
  }

  /** `written` counts the rows that landed; `errors` counts the rows that did not and the prunes that failed. */
  lemma {:induction false} CountersAreExact(acts: seq<Act>)
    ensures var w := After(acts);
            && w.written == Count(w.batches, true) && w.errors == Count(w.batches, false) + w.sweepFailures
            && w.queued == |w.accepted| == w.written + (w.errors - w.sweepFailures) + |w.batch| + |Rows(w.queue)|
  {
    AlwaysInv(acts);
    FlatCounts(After(acts).batches);
  }

  lemma {:induction false} FlatCounts(batches: seq<Batch>)
    ensures |Flat(batches)| == Count(batches, true) + Count(batches, false)
  {
    if |batches| == 0 {
    } else {
      FlatCounts(batches[..|batches| - 1]);
    }
  }

  /**
   * A thread that has exited handed over every row accepted before the stop began, even when a full
   * queue swallowed the sentinel; only rows accepted after that can be left behind.
   */
  lemma {:induction false} StopCostsNothingQueued(acts: seq<Act>)
    requires After(acts).pc == Exited
    ensures var w := After(acts);
            && w.flag && w.before <= |Flat(w.batches)| <= |w.accepted|
            && Flat(w.batches) == w.accepted[..|Flat(w.batches)|]
            && Rows(w.queue) == w.accepted[|Flat(w.batches)|..]
            && (w.before == |w.accepted| ==> Flat(w.batches) == w.accepted && Rows(w.queue) == [])
  {
    AlwaysInv(acts);
    var w := After(acts);
    assert Flat(w.batches) + w.batch == Flat(w.batches);
  }

  lemma {:induction false} FlagStays(w: World, act: Act)
    requires w.flag
    ensures Step(w, act).flag && Step(w, act).before == w.before
  {
  }

  lemma {:induction false} FlagStaysOn(w: World, acts: seq<Act>)
    requires w.flag
    ensures Acted(w, acts).flag && Acted(w, acts).before == w.before
  {
    if |acts| == 0 {
    } else {
      FlagStaysOn(w, acts[..|acts| - 1]);
      FlagStays(Acted(w, acts[..|acts| - 1]), acts[|acts| - 1]);
    }
  }

  /** `before` counts the rows accepted when the stop flag was first set. */
  lemma {:induction false} BeforeIsWhenStopBegan(earlier: seq<Act>, later: seq<Act>)
    requires After(earlier).handle && !After(earlier).flag
    ensures var w := After(earlier + [SetFlag] + later); w.flag && w.before == |After(earlier).accepted|
  {
    AfterOne(earlier, SetFlag);
    AfterIsActed(earlier + [SetFlag], later);
    FlagStaysOn(After(earlier + [SetFlag]), later);
  }

  lemma {:induction false} AfterOne(acts: seq<Act>, act: Act)
    ensures After(acts + [act]) == Step(After(acts), act)
  {
    assert (acts + [act])[..|acts|] == acts;
  }

  // ---------------------------------------------------------------- exactly which offers are handed over

  /** How many of the first `m` accepted rows are still queued. */
  function Due(w: World, m: nat): int {
    m - (|w.accepted| - |Rows(w.queue)|)
  }

  /** The first `m` accepted rows are taken, or will be: no sentinel is ahead of any of them. */
  ghost predicate Safe(w: World, m: nat) {
    && m <= |w.accepted|
    && (forall i :: 0 <= i < Due(w, m) ==> RowAt(w.queue, i))
    && (w.stop ==> Due(w, m) <= 0)
  }

  ghost predicate SentinelAt(queue: seq<Item>, i: int) {
    0 <= i < |queue| && queue[i].Sentinel?
  }

  /** Accepted row `m - 1` is queued behind a sentinel, or behind a decision to stop. */
  ghost predicate Doomed(w: World, m: nat) {
    && 0 < Due(w, m) && m <= |w.accepted|
    && (w.stop || exists i :: 0 <= i < Due(w, m) && SentinelAt(w.queue, i))
  }

  lemma {:induction false} SafeGet(w: World, m: nat)
    requires Inv(w) && Safe(w, m) && w.pc == Waiting && |w.queue| > 0
    ensures Safe(Got(w), m)
  {
    var v := Got(w);
    if w.queue[0].Sentinel? {
      assert !RowAt(w.queue, 0);
    }
    forall i | 0 <= i < Due(v, m) ensures RowAt(v.queue, i) {
      assert RowAt(w.queue, i + 1);
    }
  }

  lemma {:induction false} SafeQueue(w: World, v: World, m: nat, item: Item)
    requires Safe(w, m) && v.queue == w.queue + [item] && v.stop == w.stop
    requires v.accepted == w.accepted + (if item.Row? then [item.write] else [])
    ensures Safe(v, m)
  {
    RowsAfter(w.queue, item);
    assert Due(v, m) == Due(w, m);
    forall i | 0 <= i < Due(v, m) ensures RowAt(v.queue, i) {
      assert RowAt(w.queue, i);
    }
  }

  lemma {:induction false} SafeStep(w: World, act: Act, m: nat)
    requires Inv(w) && Safe(w, m)
    ensures Safe(Step(w, act), m)
  {
    var v := Step(w, act);
    match act
    case Offer(write) => if Accepts(w) { SafeQueue(w, v, m, Row(write)); }
    case PutSentinel => if v != w { SafeQueue(w, v, m, Sentinel); }
    case Get => if w.pc == Waiting && |w.queue| > 0 { SafeGet(w, m); }
    case _ =>
  }

  lemma {:induction false} DoomedGet(w: World, m: nat)
    requires Inv(w) && Doomed(w, m) && w.pc == Waiting && |w.queue| > 0
    ensures Doomed(Got(w), m)
  {
    var v := Got(w);
    var i :| 0 <= i < Due(w, m) && SentinelAt(w.queue, i);
    if w.queue[0].Row? {
      assert SentinelAt(v.queue, i - 1);
    }
  }

  lemma {:induction false} DoomedQueue(w: World, v: World, m: nat, item: Item)
    requires Doomed(w, m) && v.queue == w.queue + [item] && v.stop == w.stop
    requires v.accepted == w.accepted + (if item.Row? then [item.write] else [])
    ensures Doomed(v, m)
  {
    RowsAfter(w.queue, item);
    if !w.stop {
      var i :| 0 <= i < Due(w, m) && SentinelAt(w.queue, i);
      assert SentinelAt(v.queue, i);
    }
  }

  lemma {:induction false} DoomedStep(w: World, act: Act, m: nat)
    requires Inv(w) && Doomed(w, m)
    ensures Doomed(Step(w, act), m)
  {
    var v := Step(w, act);
    match act
    case Offer(write) => if Accepts(w) { DoomedQueue(w, v, m, Row(write)); }
    case PutSentinel => if v != w { DoomedQueue(w, v, m, Sentinel); }
    case Get => if w.pc == Waiting && |w.queue| > 0 { DoomedGet(w, m); }
    case _ =>
  }

  /** Once safe or doomed, a row stays so whatever else happens. */
  lemma {:induction false} FateIsSealed(acts: seq<Act>, more: seq<Act>, m: nat)
    ensures Safe(After(acts), m) ==> Safe(After(acts + more), m)
    ensures Doomed(After(acts), m) ==> Doomed(After(acts + more), m)
  {
    if |more| == 0 {
      assert acts + more == acts;
    } else {
      var front := more[..|more| - 1];
      FateIsSealed(acts, front, m);
      assert (acts + more)[..|acts + more| - 1] == acts + front;
      var w := After(acts + front);
      AlwaysInv(acts + front);
      if Safe(w, m) {
        SafeStep(w, more[|more| - 1], m);
      }
      if Doomed(w, m) {
        DoomedStep(w, more[|more| - 1], m);
      }
    }
  }

  lemma {:induction false} FirstSentinel(queue: seq<Item>, i: nat) returns (j: nat)
    requires SentinelAt(queue, i)
    ensures j <= |Rows(queue)| && SentinelAt(queue, j)
  {
    if queue[0].Sentinel? {
      j := 0;
    } else {
      assert SentinelAt(queue[1..], i - 1);
      j := FirstSentinel(queue[1..], i - 1);
      j := j + 1;
    }
  }

  /** No sentinel is queued, and the thread has not decided to stop. */
  predicate StillTaking(w: World) {
    !w.stop && forall i :: 0 <= i < |w.queue| ==> w.queue[i].Row?
  }

  /** What an accepted offer starts out as: safe or doomed, by what is ahead of it. */
  lemma {:induction false} OfferIsSafeOrDoomed(w: World, write: Write)
    requires Inv(w) && Accepts(w)
    ensures var v := Offered(w, write); var m := |w.accepted| + 1;
            if StillTaking(w) then Safe(v, m) else Doomed(v, m)
  {
    var v, m := Offered(w, write), |w.accepted| + 1;
    RowsAfter(w.queue, Row(write));
    assert Due(v, m) == |Rows(w.queue)| + 1;
    if StillTaking(w) {
      forall i | 0 <= i < |w.queue| ensures RowAt(w.queue, i) {
      }
      AllRows(w.queue);
    } else if !w.stop {
      var i :| 0 <= i < |w.queue| && !w.queue[i].Row?;
      var j := FirstSentinel(w.queue, i);
      assert SentinelAt(v.queue, j);
    }
  }

  lemma {:induction false} FateAtExit(w: World, m: nat)
    requires Inv(w) && w.pc == Exited
    ensures Safe(w, m) ==> m <= |Flat(w.batches)|
    ensures Doomed(w, m) ==> |Flat(w.batches)| < m
  {
    assert |w.accepted| == |Flat(w.batches)| + |Rows(w.queue)|;
  }

  /**
   * Exactly which accepted rows reach the database layer: whatever happens after the offer, a thread
   * that then exits has handed the row over if and only if, at the offer, it had not decided to stop
   * and no sentinel was queued.
   */
  lemma {:induction false} HandedOverExactlyWhenStillTaking(acts: seq<Act>, write: Write, more: seq<Act>)
    requires Accepts(After(acts)) && After(acts + [Offer(write)] + more).pc == Exited
    ensures var w := After(acts);
            var v := After(acts + [Offer(write)] + more);
            |Flat(v.batches)| > |w.accepted| <==> StillTaking(w)
  {
    var w, m := After(acts), |After(acts).accepted| + 1;
    AlwaysInv(acts);
    AfterOne(acts, Offer(write));
    OfferIsSafeOrDoomed(w, write);
    FateIsSealed(acts + [Offer(write)], more, m);
    AlwaysInv(acts + [Offer(write)] + more);
    FateAtExit(After(acts + [Offer(write)] + more), m);
  }

  // ---------------------------------------------------------------- the thread on its own

  /** How one turn of the loop goes: the clocks, and whether each database call works. */
  datatype Luck = Luck(timely: bool, ok: bool, elapsed: bool, sweepOk: bool)

  /** The first half of a turn: take an item or time out, then test the flag and the queue. */
  function Taken(w: World): World {
    var got := if |w.queue| > 0 then Got(w) else w;
    got.(pc := Deciding, stop := got.stop || (got.flag && |got.queue| == 0))
  }

  lemma {:induction false} LookedIsSteps(w: World)
    requires w.pc == Checking
    ensures Step(Step(w, CheckFlag), CheckEmpty)
         == w.(pc := Deciding, stop := w.stop || (w.flag && |w.queue| == 0))
  {
  }

  lemma {:induction false} TakenIsSteps(w: World)
    requires w.pc == Waiting
    ensures Taken(w) == Step(Step(Step(w, if |w.queue| > 0 then Get else Tick), CheckFlag), CheckEmpty)
  {
    LookedIsSteps(if |w.queue| > 0 then Got(w) else w.(pc := Checking));
  }

  /** The second half: commit if it is due. */
  function Flushed(w: World, timely: bool, ok: bool): World {
    var decided := Decided(w, timely);
    if decided.pc == Committing then Committed(decided, ok) else decided
  }

  lemma {:induction false} FlushedIsSteps(w: World, timely: bool, ok: bool)
    requires w.pc == Deciding
    ensures Flushed(w, timely, ok) == Step(Step(w, Decide(timely)), Commit(ok))
    ensures Flushed(w, timely, ok).pc == Sweeping
  {
  }

  /** One turn of the thread's loop with nothing in between. */
  function Turn(w: World, luck: Luck): World {
    Swept(Flushed(Taken(w), luck.timely, luck.ok), luck.elapsed, luck.sweepOk)
  }

  function Turns(w: World, lucks: seq<Luck>): World
    decreases |lucks|
  {
    if |lucks| == 0 || w.pc == Exited then w else Turns(Turn(w, lucks[0]), lucks[1..])
  }

  lemma {:induction false} TurnAdvances(w: World, luck: Luck)
    requires w.pc == Waiting && w.flag && !w.stop
    ensures var v := Turn(w, luck);
            && v.flag && (v.pc == Exited || (v.pc == Waiting && !v.stop))
            && (if |w.queue| <= 1 then v.pc == Exited else v.pc == Exited || |v.queue| == |w.queue| - 1)
  {
    var t := Taken(w);
    assert |t.queue| == (if |w.queue| > 0 then |w.queue| - 1 else 0) && t.flag;
    var f := Flushed(t, luck.timely, luck.ok);
    assert f.queue == t.queue && f.stop == t.stop && f.flag;
  }

  lemma {:induction false} TurnsEnd(w: World, lucks: seq<Luck>)
    requires w.pc == Waiting && w.flag && !w.stop && |lucks| >= |w.queue| && |lucks| >= 1
    ensures Turns(w, lucks).pc == Exited
    decreases |lucks|
  {
    TurnAdvances(w, lucks[0]);
    var v := Turn(w, lucks[0]);
    if v.pc == Exited {
    } else {
      TurnsEnd(v, lucks[1..]);
    }
  }

  // ---------------------------------------------------------------- the same turns, step by step

  /** The world after the steps of `acts`. */
  function Acted(w: World, acts: seq<Act>): World {
    if |acts| == 0 then w else Step(Acted(w, acts[..|acts| - 1]), acts[|acts| - 1])
  }

  lemma {:induction false} ActedMore(w: World, acts: seq<Act>, more: seq<Act>)
    ensures Acted(w, acts + more) == Acted(Acted(w, acts), more)
  {
    if |more| == 0 {
      assert acts + more == acts;
    } else {
      ActedMore(w, acts, more[..|more| - 1]);
      assert (acts + more)[..|acts + more| - 1] == acts + more[..|more| - 1];
    }
  }

  lemma {:induction false} AfterIsActed(acts: seq<Act>, more: seq<Act>)
    ensures After(acts + more) == Acted(After(acts), more)
  {
    if |more| == 0 {
      assert acts + more == acts;
    } else {
      AfterIsActed(acts, more[..|more| - 1]);
      assert (acts + more)[..|acts + more| - 1] == acts + more[..|more| - 1];
    }
  }

  lemma {:induction false} ActedOn(w: World, acts: seq<Act>, act: Act)
    ensures Acted(w, acts + [act]) == Step(Acted(w, acts), act)
  {
    assert (acts + [act])[..|acts|] == acts;
  }

  lemma {:induction false} ActedTwice(w: World, a: Act, b: Act)
    ensures Acted(w, [a, b]) == Step(Step(w, a), b)
  {
    ActedOn(w, [], a);
    ActedOn(w, [a], b);
    assert [] + [a] == [a] && [a] + [b] == [a, b];
  }

  lemma {:induction false} ActedThrice(w: World, a: Act, b: Act, c: Act)
    ensures Acted(w, [a, b, c]) == Step(Step(Step(w, a), b), c)
  {
    ActedTwice(w, a, b);
    ActedOn(w, [a, b], c);
    assert [a, b] + [c] == [a, b, c];
  }

  /** Time out if `get` brought nothing, then test the flag and the queue. */
  function TakeActs(): seq<Act> {
    [Tick, CheckFlag, CheckEmpty]
  }

  function FlushActs(luck: Luck): seq<Act> {
    [Decide(luck.timely), Commit(luck.ok), Sweep(luck.elapsed, luck.sweepOk)]
  }

  /** One turn: `get` brings an item, or times out on an empty queue. */
  function TurnActs(luck: Luck): seq<Act> {
    [Get] + TakeActs() + FlushActs(luck)
  }

  function LoopActs(lucks: seq<Luck>): seq<Act> {
    if |lucks| == 0 then [] else TurnActs(lucks[0]) + LoopActs(lucks[1..])
  }

  /** A turn is a sequence of steps of the interleaved system, with nothing in between. */
  lemma {:induction false} TurnIsSteps(w: World, luck: Luck)
    requires w.pc == Waiting
    ensures Turn(w, luck) == Acted(w, TurnActs(luck))
  {
    TakenIsSteps(w);
    var got := Step(w, Get);
    assert Acted(w, [Get]) == got;
    assert Step(got, Tick) == Step(w, if |w.queue| > 0 then Get else Tick);
    ActedThrice(got, Tick, CheckFlag, CheckEmpty);
    ActedMore(w, [Get], TakeActs());
    FlushIsSteps(Taken(w), luck);
    ActedMore(w, [Get] + TakeActs(), FlushActs(luck));
  }

  lemma {:induction false} FlushIsSteps(w: World, luck: Luck)
    requires w.pc == Deciding
    ensures Acted(w, FlushActs(luck)) == Swept(Flushed(w, luck.timely, luck.ok), luck.elapsed, luck.sweepOk)
  {
    FlushedIsSteps(w, luck.timely, luck.ok);
    ActedThrice(w, Decide(luck.timely), Commit(luck.ok), Sweep(luck.elapsed, luck.sweepOk));
  }

  /** The operations of the thread, as against those of the collector's loop. */
  predicate OfThread(act: Act) {
    !act.Offer? && !act.OpenFails? && !act.SetFlag? && !act.PutSentinel? && !act.Detach?
  }

  lemma {:induction false} ExitedStays(w: World, acts: seq<Act>)
    requires w.pc == Exited && forall k :: 0 <= k < |acts| ==> OfThread(acts[k])
    ensures Acted(w, acts) == w
  {
    if |acts| == 0 {
    } else {
      ExitedStays(w, acts[..|acts| - 1]);
    }
  }

  lemma {:induction false} LoopIsOfThread(lucks: seq<Luck>)
    ensures forall k :: 0 <= k < |LoopActs(lucks)| ==> OfThread(LoopActs(lucks)[k])
  {
    if |lucks| == 0 {
    } else {
      LoopIsOfThread(lucks[1..]);
    }
  }

  lemma {:induction false} TurnLands(w: World, luck: Luck)
    ensures Turn(w, luck).pc == Exited || Turn(w, luck).pc == Waiting
  {
  }

  lemma {:induction false} TurnsAreSteps(w: World, lucks: seq<Luck>)
    requires w.pc == Waiting || w.pc == Exited
    ensures Turns(w, lucks) == Acted(w, LoopActs(lucks))
    decreases |lucks|
  {
    if w.pc == Exited {
      LoopIsOfThread(lucks);
      ExitedStays(w, LoopActs(lucks));
    } else if |lucks| == 0 {
      assert LoopActs(lucks) == [];
    } else {
      TurnIsSteps(w, lucks[0]);
      TurnLands(w, lucks[0]);
      TurnsAreSteps(Turn(w, lucks[0]), lucks[1..]);
      ActedMore(w, TurnActs(lucks[0]), LoopActs(lucks[1..]));
    }
  }

  /**
   * The rest of the turn under way, from any point of the loop; operations already behind the
   * thread are not possible.
   */
  function RestActs(luck: Luck): seq<Act> {
    [CheckFlag, CheckEmpty] + FlushActs(luck)
  }

  /** The same queue and the same history: what the thread does once it has taken its item. */
  ghost predicate Alike(w: World, v: World) {
    v.queue == w.queue && v.flag == w.flag && v.accepted == w.accepted && v.before == w.before
  }

  lemma {:induction false} ChecksLand(w: World)
    ensures var v := Step(Step(w, CheckFlag), CheckEmpty); Alike(w, v) && v.pc != Checking && v.pc != Probing
  {
  }

  lemma {:induction false} DecideLands(w: World, timely: bool)
    requires w.pc != Checking && w.pc != Probing
    ensures var v := Step(w, Decide(timely)); Alike(w, v) && v.pc != Checking && v.pc != Probing && v.pc != Deciding
  {
  }

  lemma {:induction false} CommitLands(w: World, ok: bool)
    requires w.pc != Checking && w.pc != Probing && w.pc != Deciding
    ensures var v := Step(w, Commit(ok)); Alike(w, v) && (v.pc == Sweeping || v.pc == Waiting || v.pc == Exited)
  {
  }

  lemma {:induction false} SweepLands(w: World, elapsed: bool, ok: bool)
    requires w.pc == Sweeping || w.pc == Waiting || w.pc == Exited
    ensures var v := Step(w, Sweep(elapsed, ok)); Alike(w, v) && (v.pc == Waiting || v.pc == Exited)
  {
  }

  lemma {:induction false} RestLands(w: World, luck: Luck)
    ensures var v := Acted(w, RestActs(luck)); Alike(w, v) && (v.pc == Waiting || v.pc == Exited)
  {
    var probed := Step(Step(w, CheckFlag), CheckEmpty);
    ActedTwice(w, CheckFlag, CheckEmpty);
    ActedThrice(probed, Decide(luck.timely), Commit(luck.ok), Sweep(luck.elapsed, luck.sweepOk));
    ActedMore(w, [CheckFlag, CheckEmpty], FlushActs(luck));
    ChecksLand(w);
    DecideLands(probed, luck.timely);
    var decided := Step(probed, Decide(luck.timely));
    CommitLands(decided, luck.ok);
    SweepLands(Step(decided, Commit(luck.ok)), luck.elapsed, luck.sweepOk);
  }

  lemma {:induction false} ThreadAcceptsNothing(w: World, acts: seq<Act>)
    requires forall k :: 0 <= k < |acts| ==> OfThread(acts[k])
    ensures Acted(w, acts).accepted == w.accepted && Acted(w, acts).before == w.before
  {
    if |acts| == 0 {
    } else {
      ThreadAcceptsNothing(w, acts[..|acts| - 1]);
    }
  }

  lemma {:induction false} LoopExits(w: World, lucks: seq<Luck>)
    requires Inv(w) && (w.pc == Waiting || w.pc == Exited) && w.flag && |lucks| >= |w.queue| && |lucks| >= 1
    ensures var v := Acted(w, LoopActs(lucks)); v.pc == Exited && v.accepted == w.accepted && v.before == w.before
  {
    TurnsAreSteps(w, lucks);
    LoopIsOfThread(lucks);
    ThreadAcceptsNothing(w, LoopActs(lucks));
    if w.pc == Waiting {
      TurnsEnd(w, lucks);
    }
  }

  /**
   * From every reachable state with the stop flag set, the thread left to itself ends: it finishes
   * its turn and then needs at most one turn for each item queued, whatever the clocks say and
   * whichever database calls fail; and it has then handed over every row accepted before the stop.
   */
  lemma {:induction false} StopEndsTheLoop(acts: seq<Act>, luck: Luck, lucks: seq<Luck>)
    requires After(acts).flag && |lucks| >= |After(acts).queue| && |lucks| >= 1
    ensures var v := After(acts + RestActs(luck) + LoopActs(lucks));
            v.pc == Exited && v.accepted == After(acts).accepted && After(acts).before <= |Flat(v.batches)|
  {
    var rest := acts + RestActs(luck);
    AlwaysInv(acts);
    RestLands(After(acts), luck);
    AfterIsActed(acts, RestActs(luck));
    AlwaysInv(rest);
    LoopExits(After(rest), lucks);
    AfterIsActed(rest, LoopActs(lucks));
    StopCostsNothingQueued(rest + LoopActs(lucks));
  }

  /** The rows in hand once a turn has taken its item. */
  function InHand(w: World): seq<Write> {
    w.batch + (if |w.queue| > 0 && w.queue[0].Row? then [w.queue[0].write] else [])
  }

  /** The rows in hand were handed to the database as one batch, which landed or did not. */
  ghost predicate HandsOver(w: World, v: World, rows: seq<Write>, landed: bool) {
    && v.batch == []
    && v.batches == (if |rows| == 0 then w.batches else w.batches + [Batch(rows, landed)])
    && v.written == w.written + (if landed then |rows| else 0)
  }

  ghost predicate KeepsInHand(w: World, v: World, rows: seq<Write>) {
    v.batch == rows && v.batches == w.batches && v.written == w.written
  }

  /**
   * What a turn of the thread does with its rows, from any reachable state: it hands them over when
   * they are old enough, when there are 64 of them and when it leaves the loop, and only then.
   */
  lemma {:induction false} TurnHandsOverWhenDue(acts: seq<Act>, luck: Luck)
    requires After(acts).pc == Waiting
    ensures var w, v, rows := After(acts), After(acts + TurnActs(luck)), InHand(After(acts));
            && v.queue == (if |w.queue| > 0 then w.queue[1..] else []) && v.accepted == w.accepted
            && (if luck.timely || |rows| >= 64 || v.pc == Exited then HandsOver(w, v, rows, luck.ok)
                else KeepsInHand(w, v, rows))
  {
    AfterIsActed(acts, TurnActs(luck));
    TurnIsSteps(After(acts), luck);
    TurnMoves(After(acts), luck);
  }

  lemma {:induction false} TurnMoves(w: World, luck: Luck)
    requires w.pc == Waiting
    ensures var v, rows := Turn(w, luck), InHand(w);
            && v.queue == (if |w.queue| > 0 then w.queue[1..] else []) && v.accepted == w.accepted
            && (if luck.timely || |rows| >= 64 || v.pc == Exited then HandsOver(w, v, rows, luck.ok)
                else KeepsInHand(w, v, rows))
  {
    TakenMoves(w);
    var t := Taken(w);
    FlushMoves(t, luck.timely, luck.ok);
    SweepMoves(Flushed(t, luck.timely, luck.ok), luck);
  }

  lemma {:induction false} TakenMoves(w: World)
    ensures var t := Taken(w);
            && t.batch == InHand(w) && t.batches == w.batches && t.written == w.written && t.accepted == w.accepted
            && t.queue == (if |w.queue| > 0 then w.queue[1..] else [])
  {
  }

  lemma {:induction false} FlushMoves(t: World, timely: bool, ok: bool)
    ensures var f := Flushed(t, timely, ok);
            && f.stop == t.stop && f.queue == t.queue && f.accepted == t.accepted
            && (if timely || |t.batch| >= 64 || t.stop then HandsOver(t, f, t.batch, ok)
                else KeepsInHand(t, f, t.batch))
  {
  }

  lemma {:induction false} SweepMoves(f: World, luck: Luck)
    ensures var v := Swept(f, luck.elapsed, luck.sweepOk);
            && v.queue == f.queue && v.accepted == f.accepted && v.batch == f.batch && v.batches == f.batches
            && v.written == f.written && (v.pc == Exited <==> f.stop)
  {
  }

  /** The offers of a run made while the writer has a thread and a database. */
  function OffersMade(acts: seq<Act>): nat {
    if |acts| == 0 then 0
    else
      var w := After(acts[..|acts| - 1]);
      OffersMade(acts[..|acts| - 1]) + (if acts[|acts| - 1].Offer? && w.handle && !w.broken then 1 else 0)
  }

  lemma {:induction false} StepCounts(w: World, act: Act)
    ensures var v := Step(w, act);
            v.queued + v.dropped == w.queued + w.dropped + (if act.Offer? && w.handle && !w.broken then 1 else 0)
  {
  }

  /** In every run each offer made is counted once: as queued if the queue had room, and as dropped if not. */
  lemma {:induction false} EveryOfferIsCounted(acts: seq<Act>, write: Write)
    ensures After(acts).queued + After(acts).dropped == OffersMade(acts)
    ensures var w, v := After(acts), After(acts + [Offer(write)]);
            w.handle && !w.broken ==>
              (if |w.queue| < WRITE_QUEUE_MAX then v.queued == w.queued + 1 else v.dropped == w.dropped + 1)
  {
    AfterOne(acts, Offer(write));
    if |acts| == 0 {
    } else {
      EveryOfferIsCounted(acts[..|acts| - 1], write);
      StepCounts(After(acts[..|acts| - 1]), acts[|acts| - 1]);
    }
  }

  /** A thread that takes a sentinel with an empty batch exits, whatever is behind it. */
  lemma {:induction false} SentinelEnds(w: World, luck: Luck)
    requires w.pc == Waiting && |w.queue| > 0 && w.queue[0] == Sentinel && |w.batch| == 0
    ensures Turn(w, luck) == w.(queue := w.queue[1..], stop := true, pc := Exited)
  {
  }

  lemma {:induction false} OfferedTooLate(write: Write)
    ensures Acted(OPENED, [SetFlag, PutSentinel, Offer(write)])
         == OPENED.(flag := true, queue := [Sentinel, Row(write)], queued := 1, accepted := [write])
  {
    ActedThrice(OPENED, SetFlag, PutSentinel, Offer(write));
    assert [] + [Sentinel] + [Row(write)] == [Sentinel, Row(write)];
  }

  /** Rows offered after the stop began can be accepted and then left behind. */
  lemma {:induction false} LateRowsCanBeLost(write: Write) returns (acts: seq<Act>)
    ensures var w := After(acts);
            w.pc == Exited && w.queued == 1 && w.written == 0 && w.errors == 0 && Rows(w.queue) == [write]
  {
    var offered := [SetFlag, PutSentinel, Offer(write)];
    var luck := Luck(false, true, false, true);
    acts := [] + (offered + TurnActs(luck));
    AfterIsActed([], offered + TurnActs(luck));
    ActedMore(OPENED, offered, TurnActs(luck));
    OfferedTooLate(write);
    var w := Acted(OPENED, offered);
    TurnIsSteps(w, luck);
    SentinelEnds(w, luck);
    RowsAfter([], Row(write));
    assert w.queue[1..] == [] + [Row(write)];
  }
}
