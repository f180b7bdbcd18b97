/** The hand-off queue as it runs: a record queue and a gap slot updated in place, proved against `Queues`. */
module Ingest {
  import opened Common
  import Queues

  class Ingest {
    const maxsize: nat
    var items: seq<Queues.Notification>
    var seqNo: nat
    var gap: Option<Queues.Gap>
    var accepted: nat
    var dropped: nat
    var gaps: nat
    var highWater: nat
    var depth: nat
    /** The most recent notification of each kind, never dropped. */
    var latest: map<string, Queues.Notification>

    ghost predicate Valid()
      reads this
    {
      maxsize >= 2
    }

    ghost function Value(): Queues.Queue
      reads this
    {
      Queues.Queue(maxsize, seqNo, items, gap, accepted, dropped, gaps, highWater, depth, latest)
    }

    constructor (size: nat)
      requires size >= 2
      ensures Valid() && Value() == Queues.Fresh(size)
    {
      maxsize := size;
      items, seqNo, gap := [], 0, None;
      accepted, dropped, gaps, highWater, depth := 0, 0, 0, 0, 0;
      latest := map[];
    }

    /** Sizes with no room for a record and a gap are refused. */
    static method Open(size: int) returns (r: Option<Ingest>)
      ensures r.Some? <==> size >= 2
      ensures r.Some? ==> fresh(r.value) && r.value.Valid() && r.value.Value() == Queues.Fresh(size)
    {
      if size < 2 {
        return None;
      }
      var q := new Ingest(size);
      r := Some(q);
    }

    function Length(): nat
      reads this
    {
      |items| + (if gap.Some? then 1 else 0)
    }

    /** `_widen_gap`. */
    method WidenGap(lost: nat, mono: int, wall: int)
      modifies this`gap, this`gaps
      ensures Value() == Queues.Widened(old(Value()), lost, mono, wall)
    {
      if gap.None? {
        gap := Some(Queues.Gap(lost, lost, mono, wall));
        gaps := gaps + 1;
        return;
      }
      gap := Some(Queues.Gap(Queues.Min(gap.value.firstLost, lost), Queues.Max(gap.value.lastLost, lost),
                             gap.value.mono, gap.value.wall));
    }

    /** Drop the oldest records until one more fits, remembering exactly what was lost. */
    method MakeRoom(mono: int, wall: int)
      requires Valid()
      modifies this
      ensures Valid() && Value() == Queues.Roomy(old(Value()), mono, wall)
    {
      while |items| >= maxsize - 1
        invariant Queues.Roomy(Value(), mono, wall) == Queues.Roomy(old(Value()), mono, wall)
        decreases |items|
      {
        var evicted := items[0];
        items := items[1..];
        dropped := dropped + 1;
        WidenGap(evicted.seqNo, mono, wall);
      }
    }

    /** Stamp, number and enqueue one payload. */
    method Offer(a: Queues.Arrival) returns (note: Queues.Notification)
      requires Valid()
      modifies this
      ensures Valid() && Value() == Queues.Offer(old(Value()), a)
      ensures note == Queues.NoteOf(old(seqNo) + 1, a)
    {
      seqNo := seqNo + 1;
      note := Queues.NoteOf(seqNo, a);
      latest := latest[a.kind := note];
      accepted := accepted + 1;
      assert Value() == Queues.Stamped(old(Value()), a);
      MakeRoom(a.mono, a.wall);
      ghost var roomy := Value();
      items := items + [note];
      depth := Length();
      highWater := Queues.Max(highWater, depth);
      assert Value() == Queues.Appended(roomy, note);
    }

    /** Remove and return the oldest record; a pending gap comes first. */
    method Pop() returns (record: Option<Queues.Record>)
      modifies this
      ensures (Value(), record) == Queues.Pop(old(Value()))
    {
      if gap.Some? {
        record := Some(Queues.Loss(gap.value));
        gap := None;
      } else if |items| > 0 {
        record := Some(Queues.Note(items[0]));
        items := items[1..];
      } else {
        return None;
      }
      depth := Length();
    }

    /** Remove and return everything queued, a pending gap first. */
    method Drain() returns (drained: seq<Queues.Record>)
      modifies this
      ensures (Value(), drained) == Queues.Drain(old(Value()))
    {
      drained := [];
      if gap.Some? {
        drained := [Queues.Loss(gap.value)];
        gap := None;
      }
      drained := drained + Queues.Notes(items);
      items := [];
      depth := 0;
    }
  }
}
