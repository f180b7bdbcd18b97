/**
 * The history writer as it runs: one object shared by the collector's loop and its thread, proved
 * against `Writers`.
 */
module HistoryWriter {
  import opened Common
  import opened Writers

  class HistoryWriter {
    var queue: seq<Item>
    var stopping: bool
    var thread: bool
    var openError: bool
    var queued: nat
    var written: nat
    var dropped: nat
    var errors: nat
    /** The thread's own variables. */
    var batch: seq<Write>
    var stop: bool
    /** Where the thread is, and what the run has done so far. */
    ghost var pc: Pc
    ghost var accepted: seq<Write>
    ghost var batches: seq<Batch>
    ghost var sweepFailures: nat
    ghost var before: nat

    ghost function Value(): World
      reads this
    {
      World(queue, stopping, thread, openError, pc, batch, stop, queued, written, dropped, errors, accepted, batches,
            sweepFailures, before)
    }

    /** After a start that opened the database. */
    constructor ()
      ensures Value() == OPENED
    {
      queue, stopping, thread, openError, batch, stop := [], false, true, false, [], false;
      queued, written, dropped, errors := 0, 0, 0, 0;
      pc, accepted, batches, sweepFailures, before := Waiting, [], [], 0, 0;
    }

    /** `start`, when the database does not open, or not in time. */
    method FailOpen()
      modifies this`openError
      ensures Value() == Step(old(Value()), OpenFails)
    {
      openError := true;
    }

    /** `_offer`: append one statement. Never blocks, never raises. */
    method Offer(write: Write)
      modifies this
      ensures Value() == Step(old(Value()), Writers.Offer(write))
    {
      if !thread || openError {
        return;
      }
      if |queue| < WRITE_QUEUE_MAX {
        queue := queue + [Row(write)];
        queued := queued + 1;
        accepted := accepted + [write];
      } else {
        dropped := dropped + 1;
      }
    }

    /** `stop`, up to the join: a flag, then a sentinel if there is room for one. */
    method Stop()
      modifies this
      ensures Value() == Step(Step(old(Value()), SetFlag), PutSentinel)
    {
      if !thread {
        return;
      }
      before := if stopping then before else |accepted|;
      stopping := true;
      if |queue| < WRITE_QUEUE_MAX {
        queue := queue + [Sentinel];
      }
    }

    /** Take one item, or time out on an empty queue, and decide whether to stop. */
    method Take()
      modifies this
      ensures Value() == Taken(old(Value()))
    {
      if |queue| > 0 {
        var item := queue[0];
        queue := queue[1..];
        match item
        case Sentinel => stop := true;
        case Row(write) => batch := batch + [write];
      }
      if stopping && |queue| == 0 {
        stop := true;
      }
      pc := Deciding;
    }

    /** Commit the batch if it is due. */
    method Flush(timely: bool, ok: bool)
      modifies this
      ensures Value() == Flushed(old(Value()), timely, ok)
    {
      var due := stop || |batch| >= BATCH_ROWS || (|batch| > 0 && timely);
      if due && |batch| > 0 {
        if ok {
          written := written + |batch|;
        } else {
          errors := errors + |batch|;
        }
        batches := batches + [Batch(batch, ok)];
        batch := [];
      }
      pc := Sweeping;
    }

    /** Prune if it is time, and leave the loop if it is over. */
    method Sweep(elapsed: bool, ok: bool)
      modifies this
      ensures Value() == Swept(old(Value()), elapsed, ok)
    {
      if !stop && elapsed && !ok {
        errors := errors + 1;
        sweepFailures := sweepFailures + 1;
      }
      pc := if stop then Exited else Waiting;
    }

    /** One turn of `_run`'s loop. */
    method RunTurn(luck: Luck)
      modifies this
      ensures Value() == Turn(old(Value()), luck)
    {
      Take();
      Flush(luck.timely, luck.ok);
      Sweep(luck.elapsed, luck.sweepOk);
    }

    /** `_run` after the stop flag, with nothing more offered: it ends. */
    method RunOut(lucks: seq<Luck>)
      requires pc == Waiting && stopping && !stop && |lucks| >= |queue| && |lucks| >= 1
      modifies this
      ensures pc == Exited && Value() == Turns(old(Value()), lucks)
    {
      ghost var start := Value();
      var n := 0;
      while !stop
        invariant n <= |lucks| && stopping
        invariant Turns(Value(), lucks[n..]) == Turns(start, lucks)
        invariant if stop then pc == Exited else pc == Waiting && |lucks| - n >= |queue| && |lucks| - n >= 1
        decreases |lucks| - n
      {
        TurnAdvances(Value(), lucks[n]);
        assert lucks[n..][1..] == lucks[n + 1..];
        RunTurn(lucks[n]);
        n := n + 1;
      }
    }
  }
}
