/**
 * The bounded hand-off from the radio callback to the consumer, as functions from the queue before
 * to the queue after. It drops its oldest records when it is full, and accounts for every one of
 * them in a gap held outside the queue.
 */
module Queues {
  import opened Common

  datatype Notification = Notification(seqNo: nat, kind: string, payload: seq<byte>, mono: int, wall: int,
                                       source: string)

  datatype Gap = Gap(firstLost: nat, lastLost: nat, mono: int, wall: int)

  /** What a consumer receives. */
  datatype Record = Note(note: Notification) | Loss(gap: Gap)

  /** One payload as it arrives, with the instant it arrived. */
  datatype Arrival = Arrival(kind: string, payload: seq<byte>, source: string, mono: int, wall: int)

  datatype Queue = Queue(
    maxsize: nat,
    seqNo: nat,
    items: seq<Notification>,
    gap: Option<Gap>,
    accepted: nat,
    dropped: nat,
    gaps: nat,
    highWater: nat,
    depth: nat,
    latest: map<string, Notification>
  )

  function Length(q: Queue): nat {
    |q.items| + (if q.gap.Some? then 1 else 0)
  }

  function Min(a: nat, b: nat): nat {
    if a < b then a else b
  }

  function Max(a: nat, b: nat): nat {
    if a < b then b else a
  }

  // ---------------------------------------------------------------- operations

  function Fresh(maxsize: nat): Queue {
    Queue(maxsize, 0, [], None, 0, 0, 0, 0, 0, map[])
  }

  /** `_widen_gap`: both clocks stay at the moment the hole opened. */
  function Widened(q: Queue, lost: nat, mono: int, wall: int): Queue {
    match q.gap
    case None => q.(gap := Some(Gap(lost, lost, mono, wall)), gaps := q.gaps + 1)
    case Some(g) => q.(gap := Some(g.(firstLost := Min(g.firstLost, lost), lastLost := Max(g.lastLost, lost))))
  }

  /** One record dropped from the front. */
  function Evicted(q: Queue, mono: int, wall: int): Queue
    requires |q.items| > 0
  {
    Widened(q.(items := q.items[1..], dropped := q.dropped + 1), q.items[0].seqNo, mono, wall)
  }

  /** Records dropped from the front until one more fits; one slot belongs to the gap. */
  function Roomy(q: Queue, mono: int, wall: int): Queue
    requires q.maxsize >= 2
    decreases |q.items|
  {
    if |q.items| < q.maxsize - 1 then q
    else Roomy(Evicted(q, mono, wall), mono, wall)
  }

  function NoteOf(seqNo: nat, a: Arrival): Notification {
    Notification(seqNo, a.kind, a.payload, a.mono, a.wall, a.source)
  }

  /** The queue after `offer` stamped the note and before it made room. */
  function Stamped(q: Queue, a: Arrival): Queue {
    q.(seqNo := q.seqNo + 1, latest := q.latest[a.kind := NoteOf(q.seqNo + 1, a)], accepted := q.accepted + 1)
  }

  function Offer(q: Queue, a: Arrival): Queue
    requires q.maxsize >= 2
  {
    Appended(Roomy(Stamped(q, a), a.mono, a.wall), NoteOf(q.seqNo + 1, a))
  }

  function Appended(q: Queue, note: Notification): Queue {
    var r := q.(items := q.items + [note]);
    r.(depth := Length(r), highWater := Max(r.highWater, Length(r)))
  }

  /** A pending gap comes before every notification. */
  function Pop(q: Queue): (Queue, Option<Record>) {
    if q.gap.Some? then
      var r := q.(gap := None);
      (r.(depth := Length(r)), Some(Loss(q.gap.value)))
    else if |q.items| > 0 then
      var r := q.(items := q.items[1..]);
      (r.(depth := Length(r)), Some(Note(q.items[0])))
    else (q, None)
  }

  function Notes(items: seq<Notification>): (r: seq<Record>)
    ensures |r| == |items|
  {
    if |items| == 0 then [] else Notes(items[..|items| - 1]) + [Note(items[|items| - 1])]
  }

  function Drain(q: Queue): (Queue, seq<Record>) {
    (q.(gap := None, items := [], depth := 0), (if q.gap.Some? then [Loss(q.gap.value)] else []) + Notes(q.items))
  }

  // ---------------------------------------------------------------- runs

  datatype Op = Arrive(arrival: Arrival) | TakeOne | TakeAll

  /** A queue with everything that ever reached it, and everything it ever handed over. */
  datatype Stream = Stream(q: Queue, offered: seq<Notification>, delivered: seq<Record>, peak: nat)

  function Apply(s: Stream, op: Op): (r: Stream)
    requires s.q.maxsize >= 2
    ensures r.q.maxsize == s.q.maxsize
  {
    match op
    case Arrive(a) =>
      OfferKeepsSize(s.q, a);
      var q := Offer(s.q, a);
      Stream(q, s.offered + [NoteOf(s.q.seqNo + 1, a)], s.delivered, Max(s.peak, Length(q)))
    case TakeOne =>
      var (q, record) := Pop(s.q);
      Stream(q, s.offered, s.delivered + (if record.Some? then [record.value] else []), s.peak)
    case TakeAll =>
      var (q, records) := Drain(s.q);
      Stream(q, s.offered, s.delivered + records, s.peak)
  }

  lemma {:induction false} RoomyKeepsSize(q: Queue, mono: int, wall: int)
    requires q.maxsize >= 2
    ensures Roomy(q, mono, wall).maxsize == q.maxsize
    decreases |q.items|
  {
    if |q.items| >= q.maxsize - 1 {
      RoomyKeepsSize(Evicted(q, mono, wall), mono, wall);
    }
  }

  lemma {:induction false} OfferKeepsSize(q: Queue, a: Arrival)
    requires q.maxsize >= 2
    ensures Offer(q, a).maxsize == q.maxsize
  {
    RoomyKeepsSize(Stamped(q, a), a.mono, a.wall);
  }

  function RunOf(maxsize: nat, ops: seq<Op>): (s: Stream)
    requires maxsize >= 2
    ensures s.q.maxsize == maxsize
  {
    if |ops| == 0 then Stream(Fresh(maxsize), [], [], 0)
    else Apply(RunOf(maxsize, ops[..|ops| - 1]), ops[|ops| - 1])
  }

  // ---------------------------------------------------------------- what a stream accounts for

  /** The sequence numbers one record accounts for: its own, or everything its gap covers. */
  function Covers(r: Record): seq<nat> {
    match r
    case Note(n) => [n.seqNo]
    case Loss(g) => Range(g.firstLost, g.lastLost)
  }

  function Numbers(records: seq<Record>): seq<nat> {
    if |records| == 0 then [] else Numbers(records[..|records| - 1]) + Covers(records[|records| - 1])
  }

  /** `lo`, `lo + 1`, ..., `hi`. */
  function Range(lo: nat, hi: nat): seq<nat> {
    if hi < lo then [] else if hi == 0 then [0] else Range(lo, hi - 1) + [hi]
  }

  function Count(g: Gap): int {
    g.lastLost - g.firstLost + 1
  }

  /** The losses some gap among the records accounts for. */
  function LostIn(records: seq<Record>): int {
    if |records| == 0 then 0
    else LostIn(records[..|records| - 1]) + LossOf(records[|records| - 1])
  }

  function LossOf(r: Record): int {
    if r.Loss? then Count(r.gap) else 0
  }

  function GapsIn(records: seq<Record>): nat {
    if |records| == 0 then 0
    else GapsIn(records[..|records| - 1]) + (if records[|records| - 1].Loss? then 1 else 0)
  }

  /** What is still held, in delivery order. */
  function Pending(q: Queue): seq<Record> {
    (if q.gap.Some? then [Loss(q.gap.value)] else []) + Notes(q.items)
  }

  // ---------------------------------------------------------------- accounting is additive

  lemma {:induction false} JoinOn(all: seq<nat>, front: seq<nat>, back: seq<nat>, n: nat)
    requires all == front + back
    ensures all + [n] == front + (back + [n])
  {
  }

  lemma {:induction false} RangeSplit(lo: nat, mid: nat, hi: nat)
    requires 1 <= lo <= mid + 1 && mid <= hi
    ensures Range(lo, hi) == Range(lo, mid) + Range(mid + 1, hi)
  {
    if mid >= hi {
    } else {
      RangeSplit(lo, mid, hi - 1);
      JoinOn(Range(lo, hi - 1), Range(lo, mid), Range(mid + 1, hi - 1), hi);
    }
  }

  lemma {:induction false} RangeLength(lo: nat, hi: nat)
    requires 1 <= lo <= hi + 1
    ensures |Range(lo, hi)| == hi + 1 - lo
  {
    if lo > hi {
    } else {
      RangeLength(lo, hi - 1);
    }
  }

  lemma {:induction false} OneMore(xs: seq<Record>, r: Record)
    ensures Numbers(xs + [r]) == Numbers(xs) + Covers(r)
    ensures LostIn(xs + [r]) == LostIn(xs) + LossOf(r)
    ensures GapsIn(xs + [r]) == GapsIn(xs) + (if r.Loss? then 1 else 0)
  {
    assert (xs + [r])[..|xs|] == xs;
  }

  lemma {:induction false} NumbersAdd(xs: seq<Record>, ys: seq<Record>)
    ensures Numbers(xs + ys) == Numbers(xs) + Numbers(ys)
  {
    if |ys| == 0 {
      assert xs + ys == xs;
    } else {
      var front, last := ys[..|ys| - 1], ys[|ys| - 1];
      NumbersAdd(xs, front);
      assert (xs + ys)[..|xs + ys| - 1] == xs + front;
      Associative(Numbers(xs), Numbers(front), Covers(last));
    }
  }

  lemma {:induction false} LossesAdd(xs: seq<Record>, ys: seq<Record>)
    ensures LostIn(xs + ys) == LostIn(xs) + LostIn(ys)
    ensures GapsIn(xs + ys) == GapsIn(xs) + GapsIn(ys)
  {
    if |ys| == 0 {
      assert xs + ys == xs;
    } else {
      LossesAdd(xs, ys[..|ys| - 1]);
      assert (xs + ys)[..|xs + ys| - 1] == xs + ys[..|ys| - 1];
    }
  }

  lemma {:induction false} Single(r: Record)
    ensures Numbers([r]) == Covers(r)
  {
    OneMore([], r);
    assert [] + [r] == [r];
  }

  lemma {:induction false} NotesLoseNothing(items: seq<Notification>)
    ensures LostIn(Notes(items)) == 0 && GapsIn(Notes(items)) == 0
  {
    if |items| == 0 {
    } else {
      NotesLoseNothing(items[..|items| - 1]);
      assert Notes(items)[..|items| - 1] == Notes(items[..|items| - 1]);
    }
  }

  lemma {:induction false} NotesAt(items: seq<Notification>, k: nat)
    requires k < |items|
    ensures Notes(items)[k] == Note(items[k])
  {
    if k == |items| - 1 {
    } else {
      NotesAt(items[..|items| - 1], k);
    }
  }

  /** The queued sequence numbers are the last ones handed out, in order. */
  ghost predicate Queued(items: seq<Notification>, seqNo: nat) {
    && |items| <= seqNo
    && forall k :: 0 <= k < |items| ==> items[k].seqNo == seqNo - |items| + 1 + k
  }

  lemma {:induction false} LastNumber(items: seq<Notification>)
    requires |items| > 0
    ensures var last := |items| - 1; Numbers(Notes(items)) == Numbers(Notes(items[..last])) + [items[last].seqNo]
  {
    assert Notes(items)[..|items| - 1] == Notes(items[..|items| - 1]);
  }

  lemma {:induction false} LastOfRange(lo: nat, hi: nat)
    requires 1 <= lo <= hi
    ensures Range(lo, hi) == Range(lo, hi - 1) + [hi]
  {
  }

  lemma {:induction false} QueuedNumbers(items: seq<Notification>, seqNo: nat)
    requires Queued(items, seqNo)
    ensures Numbers(Notes(items)) == Range(seqNo - |items| + 1, seqNo)
  {
    if |items| == 0 {
    } else {
      QueuedNumbers(items[..|items| - 1], seqNo - 1);
      LastNumber(items);
      LastOfRange(seqNo - |items| + 1, seqNo);
    }
  }

  // ---------------------------------------------------------------- the invariant

  /** The oldest queued number. */
  function Oldest(q: Queue): int {
    q.seqNo - |q.items| + 1
  }

  /** The oldest number not yet delivered. */
  function Waiting(q: Queue): int {
    if q.gap.Some? then q.gap.value.firstLost else Oldest(q)
  }

  ghost predicate Shape(q: Queue) {
    && q.maxsize >= 2 && |q.items| <= q.maxsize - 1 && q.depth == Length(q) && q.accepted == q.seqNo
    && Queued(q.items, q.seqNo)
    && (q.gap.Some? ==> 1 <= q.gap.value.firstLost <= q.gap.value.lastLost == q.seqNo - |q.items|)
  }

  /** A notification is one that was offered; a gap carries the instant its first loss was caused. */
  ghost predicate Genuine(r: Record, offered: seq<Notification>, maxsize: nat) {
    match r
    case Note(n) => 1 <= n.seqNo <= |offered| && n == offered[n.seqNo - 1]
    case Loss(g) =>
      && 1 <= g.firstLost <= g.lastLost
      && maxsize >= 2 && g.lastLost + maxsize - 1 <= |offered|
      && g.mono == offered[g.firstLost + maxsize - 2].mono && g.wall == offered[g.firstLost + maxsize - 2].wall
  }

  ghost predicate AllGenuine(rs: seq<Record>, offered: seq<Notification>, maxsize: nat) {
    forall r :: r in rs ==> Genuine(r, offered, maxsize)
  }

  /** The newest offered notification of a kind. */
  function Newest(offered: seq<Notification>, kind: string): Option<Notification> {
    if |offered| == 0 then None
    else if offered[|offered| - 1].kind == kind then Some(offered[|offered| - 1])
    else Newest(offered[..|offered| - 1], kind)
  }

  ghost predicate LatestIsNewest(latest: map<string, Notification>, offered: seq<Notification>) {
    forall kind: string {:trigger Newest(offered, kind)} ::
      Newest(offered, kind) == if kind in latest then Some(latest[kind]) else None
  }

  /** The losses counted are those that a gap accounts for, delivered or not. */
  ghost predicate Balanced(delivered: seq<Record>, q: Queue) {
    q.dropped == LostIn(delivered + Pending(q)) && q.gaps == GapsIn(delivered + Pending(q))
  }

  lemma {:induction false} StillBalanced(delivered: seq<Record>, q: Queue, p: Queue)
    requires Balanced(delivered, q)
    requires p.dropped - LostIn(Pending(p)) == q.dropped - LostIn(Pending(q))
    requires p.gaps - GapsIn(Pending(p)) == q.gaps - GapsIn(Pending(q))
    ensures Balanced(delivered, p)
  {
    LossesAdd(delivered, Pending(q));
    LossesAdd(delivered, Pending(p));
  }

  /** Every offered record is a delivered one, a lost one some gap accounts for, or a queued one. */
  ghost predicate Accounted(s: Stream) {
    && Shape(s.q)
    && |s.offered| == s.q.seqNo
    && Numbers(s.delivered) == Range(1, Waiting(s.q) - 1)
    && Balanced(s.delivered, s.q)
    && s.q.highWater == s.peak
  }

  ghost predicate Faithful(s: Stream) {
    && AllGenuine(s.delivered + Pending(s.q), s.offered, s.q.maxsize)
    && LatestIsNewest(s.q.latest, s.offered)
  }

  // ---------------------------------------------------------------- delivery moves the pending records, unchanged

  lemma {:induction false} PendingHead(q: Queue)
    requires Shape(q)
    ensures var (q', r) := Pop(q);
            && Shape(q') && Pending(q) == (if r.Some? then [r.value] else []) + Pending(q')
            && (r.Some? ==> Covers(r.value) == Range(Waiting(q), Waiting(q') - 1) && Waiting(q) <= Waiting(q'))
  {
    if q.gap.None? && |q.items| > 0 {
      var rest := q.items[1..];
      assert |Notes(q.items)| == |rest| + 1;
      forall k | 0 <= k < |q.items| ensures Notes(q.items)[k] == ([Note(q.items[0])] + Notes(rest))[k] {
        NotesAt(q.items, k);
        if k > 0 {
          NotesAt(rest, k - 1);
        }
      }
      assert Notes(q.items) == [Note(q.items[0])] + Notes(rest);
      assert q.items[0].seqNo == Oldest(q);
    }
  }

  lemma {:induction false} NumbersJoin(delivered: seq<Record>, taken: seq<Record>, first: nat, next: nat)
    requires 1 <= first <= next && Numbers(delivered) == Range(1, first - 1) && Numbers(taken) == Range(first, next - 1)
    ensures Numbers(delivered + taken) == Range(1, next - 1)
  {
    NumbersAdd(delivered, taken);
    RangeJoin(first, next);
  }

  lemma {:induction false} RangeJoin(first: nat, next: nat)
    requires 1 <= first <= next
    ensures Range(1, first - 1) + Range(first, next - 1) == Range(1, next - 1)
  {
    RangeSplit(1, first - 1, next - 1);
  }

  lemma {:induction false} SameTotals(delivered: seq<Record>, taken: seq<Record>, rest: seq<Record>,
                                      pending: seq<Record>)
    requires pending == taken + rest
    ensures LostIn((delivered + taken) + rest) == LostIn(delivered + pending)
    ensures GapsIn((delivered + taken) + rest) == GapsIn(delivered + pending)
  {
    assert (delivered + taken) + rest == delivered + pending;
  }

  /** A pop changes only what is queued and how much is. */
  lemma {:induction false} PopKeeps(q: Queue)
    ensures var p := Pop(q).0;
            && p.seqNo == q.seqNo && p.dropped == q.dropped && p.gaps == q.gaps && p.highWater == q.highWater
            && (Pop(q).1.None? ==> p == q)
  {
  }

  lemma {:induction false} TakenNumbers(delivered: seq<Record>, r: Record, first: nat, next: nat)
    requires 1 <= first <= next && Numbers(delivered) == Range(1, first - 1) && Covers(r) == Range(first, next - 1)
    ensures Numbers(delivered + [r]) == Range(1, next - 1)
  {
    Single(r);
    NumbersJoin(delivered, [r], first, next);
  }

  lemma {:induction false} TakenBalanced(delivered: seq<Record>, r: Record, q: Queue, p: Queue)
    requires Balanced(delivered, q) && Pending(q) == [r] + Pending(p) && p.dropped == q.dropped && p.gaps == q.gaps
    ensures Balanced(delivered + [r], p)
  {
    SameTotals(delivered, [r], Pending(p), Pending(q));
  }

  lemma {:induction false} TakenAccounted(s: Stream, q: Queue, r: Record)
    requires Accounted(s) && Shape(q) && Pending(s.q) == [r] + Pending(q) && Waiting(s.q) <= Waiting(q)
    requires Covers(r) == Range(Waiting(s.q), Waiting(q) - 1)
    requires q.seqNo == s.q.seqNo && q.dropped == s.q.dropped && q.gaps == s.q.gaps && q.highWater == s.q.highWater
    ensures Accounted(Stream(q, s.offered, s.delivered + [r], s.peak))
  {
    TakenNumbers(s.delivered, r, Waiting(s.q), Waiting(q));
    TakenBalanced(s.delivered, r, s.q, q);
  }

  lemma {:induction false} PopAccounted(s: Stream)
    requires Accounted(s)
    ensures Accounted(Apply(s, TakeOne))
  {
    PendingHead(s.q);
    PopKeeps(s.q);
    var (q, r) := Pop(s.q);
    if r.Some? {
      TakenAccounted(s, q, r.value);
    } else {
      assert s.delivered + [] == s.delivered;
    }
  }

  lemma {:induction false} DrainEmpties(q: Queue)
    requires Shape(q)
    ensures var (q', records) := Drain(q);
            && Shape(q') && Pending(q') == [] && Waiting(q') == q.seqNo + 1 && records == Pending(q)
            && Pending(q) == records + Pending(q')
  {
  }

  lemma {:induction false} AllCovered(s: Stream)
    requires Accounted(s)
    ensures Numbers(s.delivered + Pending(s.q)) == Range(1, s.q.seqNo)
  {
    PendingNumbers(s.q);
    NumbersJoin(s.delivered, Pending(s.q), Waiting(s.q), s.q.seqNo + 1);
  }

  lemma {:induction false} DrainAccounted(s: Stream)
    requires Accounted(s)
    ensures Accounted(Apply(s, TakeAll))
  {
    var (q, records) := Drain(s.q);
    DrainEmpties(s.q);
    AllCovered(s);
    SameTotals(s.delivered, records, Pending(q), Pending(s.q));
  }

  lemma {:induction false} PendingNumbers(q: Queue)
    requires Shape(q)
    ensures Numbers(Pending(q)) == Range(Waiting(q), q.seqNo)
  {
    QueuedNumbers(q.items, q.seqNo);
    if q.gap.Some? {
      var g := q.gap.value;
      Single(Loss(g));
      NumbersAdd([Loss(g)], Notes(q.items));
      RangeSplit(g.firstLost, g.lastLost, q.seqNo);
    } else {
      assert Pending(q) == Notes(q.items);
    }
  }

  // ---------------------------------------------------------------- an offer evicts at most one record

  lemma {:induction false} OfferCases(q: Queue, a: Arrival)
    requires Shape(q)
    ensures Offer(q, a) == Appended(if |q.items| < q.maxsize - 1 then Stamped(q, a)
                                    else Evicted(Stamped(q, a), a.mono, a.wall),
                                    NoteOf(q.seqNo + 1, a))
  {
    var stamped := Stamped(q, a);
    if |q.items| >= q.maxsize - 1 {
      var evicted := Evicted(stamped, a.mono, a.wall);
      assert |evicted.items| < evicted.maxsize - 1;
      assert Roomy(evicted, a.mono, a.wall) == evicted;
    }
  }

  lemma {:induction false} PendingLosses(q: Queue)
    ensures LostIn(Pending(q)) == if q.gap.Some? then Count(q.gap.value) else 0
    ensures GapsIn(Pending(q)) == if q.gap.Some? then 1 else 0
  {
    NotesLoseNothing(q.items);
    if q.gap.Some? {
      var head := [Loss(q.gap.value)];
      OneMore([], Loss(q.gap.value));
      assert [] + head == head;
      LossesAdd(head, Notes(q.items));
    } else {
      assert Pending(q) == Notes(q.items);
    }
  }

  /** An offer that finds room. */
  lemma {:induction false} RoomShape(q: Queue, a: Arrival)
    requires Shape(q) && |q.items| < q.maxsize - 1
    ensures var q' := Appended(Stamped(q, a), NoteOf(q.seqNo + 1, a));
            && Shape(q') && Waiting(q') == Waiting(q) && q'.seqNo == q.seqNo + 1
            && q'.highWater == Max(q.highWater, Length(q')) && q'.gap == q.gap && q'.dropped == q.dropped
            && q'.gaps == q.gaps
  {
  }

  /** An offer that drops the oldest record, whose number the gap takes over. */
  lemma {:induction false} EvictShape(q: Queue, a: Arrival)
    requires Shape(q) && |q.items| == q.maxsize - 1
    ensures var q' := Appended(Evicted(Stamped(q, a), a.mono, a.wall), NoteOf(q.seqNo + 1, a));
            && Shape(q') && Waiting(q') == Waiting(q) && q'.seqNo == q.seqNo + 1
            && q'.highWater == Max(q.highWater, Length(q')) && q'.gap.Some? && q'.dropped == q.dropped + 1
            && Count(q'.gap.value) == 1 + (if q.gap.Some? then Count(q.gap.value) else 0)
            && q'.gaps == q.gaps + (if q.gap.Some? then 0 else 1)
  {
  }

  /** An offer keeps the oldest undelivered number where it was, and charges each loss to the gap. */
  lemma {:induction false} OfferShape(q: Queue, a: Arrival)
    requires Shape(q)
    ensures var q' := Offer(q, a);
            && Shape(q') && Waiting(q') == Waiting(q) && q'.seqNo == q.seqNo + 1
            && q'.dropped - LostIn(Pending(q')) == q.dropped - LostIn(Pending(q))
            && q'.gaps - GapsIn(Pending(q')) == q.gaps - GapsIn(Pending(q))
            && q'.highWater == Max(q.highWater, Length(q'))
  {
    OfferCases(q, a);
    if |q.items| < q.maxsize - 1 {
      RoomShape(q, a);
    } else {
      EvictShape(q, a);
    }
    PendingLosses(q);
    PendingLosses(Offer(q, a));
  }

  lemma {:induction false} ArrivalAccounted(s: Stream, q: Queue, note: Notification)
    requires Accounted(s) && Shape(q) && Waiting(q) == Waiting(s.q) && q.seqNo == s.q.seqNo + 1
    requires q.dropped - LostIn(Pending(q)) == s.q.dropped - LostIn(Pending(s.q))
    requires q.gaps - GapsIn(Pending(q)) == s.q.gaps - GapsIn(Pending(s.q))
    requires q.highWater == Max(s.q.highWater, Length(q))
    ensures Accounted(Stream(q, s.offered + [note], s.delivered, Max(s.peak, Length(q))))
  {
    StillBalanced(s.delivered, s.q, q);
  }

  lemma {:induction false} OfferAccounted(s: Stream, a: Arrival)
    requires Accounted(s)
    ensures Accounted(Apply(s, Arrive(a)))
  {
    OfferShape(s.q, a);
    ArrivalAccounted(s, Offer(s.q, a), NoteOf(s.q.seqNo + 1, a));
  }

  // ---------------------------------------------------------------- what is delivered is what was offered

  lemma {:induction false} NotesMembers(items: seq<Notification>, r: Record)
    ensures r in Notes(items) <==> r.Note? && r.note in items
  {
    if |items| == 0 {
    } else {
      NotesMembers(items[..|items| - 1], r);
      assert items == items[..|items| - 1] + [items[|items| - 1]];
    }
  }

  lemma {:induction false} PendingMembers(q: Queue, r: Record)
    ensures r in Pending(q) <==> (match r case Note(n) => n in q.items case Loss(g) => q.gap == Some(g))
  {
    NotesMembers(q.items, r);
  }

  lemma {:induction false} StillGenuine(r: Record, offered: seq<Notification>, note: Notification, maxsize: nat)
    requires Genuine(r, offered, maxsize)
    ensures Genuine(r, offered + [note], maxsize)
  {
  }

  /** What is pending after an offer: what was pending, the new note, or the gap the offer opened or widened. */
  lemma {:induction false} PendingAfterOffer(q: Queue, a: Arrival, r: Record)
    requires Shape(q) && r in Pending(Offer(q, a)) && r !in Pending(q) && r != Note(NoteOf(q.seqNo + 1, a))
    ensures |q.items| == q.maxsize - 1 && r.Loss?
    ensures r.gap == match q.gap
                     case None => Gap(Oldest(q), Oldest(q), a.mono, a.wall)
                     case Some(g) => g.(lastLost := g.lastLost + 1)
  {
    OfferCases(q, a);
    PendingMembers(Offer(q, a), r);
    PendingMembers(q, r);
  }

  lemma {:induction false} NewGapIsGenuine(s: Stream, a: Arrival, r: Record)
    requires Accounted(s) && AllGenuine(s.delivered + Pending(s.q), s.offered, s.q.maxsize)
    requires r in Pending(Offer(s.q, a)) && r !in Pending(s.q) && r != Note(NoteOf(s.q.seqNo + 1, a))
    ensures Genuine(r, s.offered + [NoteOf(s.q.seqNo + 1, a)], s.q.maxsize)
  {
    PendingAfterOffer(s.q, a, r);
    if s.q.gap.Some? {
      PendingMembers(s.q, Loss(s.q.gap.value));
      assert Loss(s.q.gap.value) in s.delivered + Pending(s.q);
    }
  }

  lemma {:induction false} OfferGenuine(s: Stream, a: Arrival, r: Record)
    requires Accounted(s) && AllGenuine(s.delivered + Pending(s.q), s.offered, s.q.maxsize)
    requires r in Pending(Offer(s.q, a))
    ensures Genuine(r, s.offered + [NoteOf(s.q.seqNo + 1, a)], s.q.maxsize)
  {
    var q, note := s.q, NoteOf(s.q.seqNo + 1, a);
    if r in Pending(q) {
      assert r in s.delivered + Pending(q);
      StillGenuine(r, s.offered, note, q.maxsize);
    } else if r != Note(note) {
      NewGapIsGenuine(s, a, r);
    }
  }

  lemma {:induction false} NewestAfter(offered: seq<Notification>, note: Notification, kind: string)
    ensures Newest(offered + [note], kind) == if note.kind == kind then Some(note) else Newest(offered, kind)
  {
    assert (offered + [note])[..|offered|] == offered;
  }

  lemma {:induction false} OfferLatest(q: Queue, a: Arrival, offered: seq<Notification>)
    requires Shape(q) && LatestIsNewest(q.latest, offered)
    ensures LatestIsNewest(Offer(q, a).latest, offered + [NoteOf(q.seqNo + 1, a)])
  {
    OfferCases(q, a);
    var note := NoteOf(q.seqNo + 1, a);
    var latest := Offer(q, a).latest;
    assert latest == q.latest[a.kind := note];
    forall kind: string
      ensures Newest(offered + [note], kind) == if kind in latest then Some(latest[kind]) else None
    {
      NewestAfter(offered, note, kind);
    }
  }

  lemma {:induction false} OfferFaithful(s: Stream, a: Arrival)
    requires Accounted(s) && Faithful(s)
    ensures Faithful(Apply(s, Arrive(a)))
  {
    var s' := Apply(s, Arrive(a));
    OfferKeepsSize(s.q, a);
    OfferLatest(s.q, a, s.offered);
    forall r | r in s'.delivered + Pending(s'.q) ensures Genuine(r, s'.offered, s'.q.maxsize) {
      if r in s.delivered {
        assert r in s.delivered + Pending(s.q);
        StillGenuine(r, s.offered, NoteOf(s.q.seqNo + 1, a), s.q.maxsize);
      } else {
        OfferGenuine(s, a, r);
      }
    }
  }

  /** A read moves records from pending to delivered and changes nothing else. */
  lemma {:induction false} ReadsMove(s: Stream, op: Op)
    requires Shape(s.q) && !op.Arrive?
    ensures var s' := Apply(s, op);
            && s'.delivered + Pending(s'.q) == s.delivered + Pending(s.q)
            && s'.offered == s.offered && s'.q.latest == s.q.latest
  {
    if op.TakeOne? {
      PendingHead(s.q);
      var (q, r) := Pop(s.q);
      Associative(s.delivered, if r.Some? then [r.value] else [], Pending(q));
    } else {
      DrainEmpties(s.q);
      Associative(s.delivered, Drain(s.q).1, Pending(Drain(s.q).0));
    }
  }

  lemma {:induction false} StepHolds(s: Stream, op: Op)
    requires Accounted(s) && Faithful(s)
    ensures Accounted(Apply(s, op)) && Faithful(Apply(s, op))
  {
    match op
    case Arrive(a) =>
      OfferAccounted(s, a);
      OfferFaithful(s, a);
    case TakeOne =>
      PopAccounted(s);
      ReadsMove(s, op);
    case TakeAll =>
      DrainAccounted(s);
      ReadsMove(s, op);
  }

  lemma {:induction false} RunHolds(maxsize: nat, ops: seq<Op>)
    requires maxsize >= 2
    ensures Accounted(RunOf(maxsize, ops)) && Faithful(RunOf(maxsize, ops))
  {
    if |ops| == 0 {
      var s := RunOf(maxsize, ops);
      assert s.delivered + Pending(s.q) == [];
    } else {
      RunHolds(maxsize, ops[..|ops| - 1]);
      StepHolds(RunOf(maxsize, ops[..|ops| - 1]), ops[|ops| - 1]);
    }
  }

  // ---------------------------------------------------------------- main theorems

  /**
   * For every sequence of offers, pops and drains: what was delivered, then the pending gap, then
   * the queue, accounts for 1, 2, ..., up to the last number handed out, with no repeat and no hole.
   */
  lemma {:induction false} NothingIsLostUnaccounted(maxsize: nat, ops: seq<Op>)
    requires maxsize >= 2
    ensures var s := RunOf(maxsize, ops);
            Numbers(s.delivered + Pending(s.q)) == Range(1, s.q.seqNo)
  {
    RunHolds(maxsize, ops);
    AllCovered(RunOf(maxsize, ops));
  }

  /** The metrics are exact, and the queue never holds more than `maxsize` records. */
  lemma {:induction false} MetricsAreExact(maxsize: nat, ops: seq<Op>)
    requires maxsize >= 2
    ensures var s := RunOf(maxsize, ops);
            && Length(s.q) <= maxsize && s.q.depth == Length(s.q) && s.q.highWater == s.peak <= maxsize
            && s.q.accepted == |s.offered| == s.q.seqNo
            && s.q.dropped == LostIn(s.delivered + Pending(s.q))
            && s.q.gaps == GapsIn(s.delivered + Pending(s.q))
  {
    RunHolds(maxsize, ops);
    PeakIsBounded(maxsize, ops);
  }

  lemma {:induction false} PeakIsBounded(maxsize: nat, ops: seq<Op>)
    requires maxsize >= 2
    ensures RunOf(maxsize, ops).peak <= maxsize
  {
    if |ops| == 0 {
    } else {
      PeakIsBounded(maxsize, ops[..|ops| - 1]);
      RunHolds(maxsize, ops);
    }
  }

  /**
   * Every notification handed over is one that was offered, unchanged; every gap carries the instant
   * of the offer that caused its first loss; `latest` is the newest of each kind ever offered.
   */
  lemma {:induction false} WhatArrivesIsGenuine(maxsize: nat, ops: seq<Op>)
    requires maxsize >= 2
    ensures var s := RunOf(maxsize, ops);
            && AllGenuine(s.delivered, s.offered, maxsize)
            && LatestIsNewest(s.q.latest, s.offered)
  {
    RunHolds(maxsize, ops);
    var s := RunOf(maxsize, ops);
    forall r | r in s.delivered ensures Genuine(r, s.offered, maxsize) {
      assert r in s.delivered + Pending(s.q);
    }
  }

  /** The payloads offered in a run, as they arrived. */
  function ArrivalsIn(ops: seq<Op>): seq<Arrival> {
    if |ops| == 0 then []
    else
      var last := ops[|ops| - 1];
      ArrivalsIn(ops[..|ops| - 1]) + (if last.Arrive? then [last.arrival] else [])
  }

  /** The notification numbered `n` carries everything that arrived with it. */
  ghost predicate Carries(note: Notification, n: nat, a: Arrival) {
    && note.seqNo == n && note.kind == a.kind && note.payload == a.payload
    && note.source == a.source && note.mono == a.mono && note.wall == a.wall
  }

  ghost predicate AsTheyArrived(offered: seq<Notification>, arrivals: seq<Arrival>) {
    |offered| == |arrivals| && forall n :: 0 <= n < |offered| ==> Carries(offered[n], n + 1, arrivals[n])
  }

  lemma {:induction false} OneMoreArrived(offered: seq<Notification>, arrivals: seq<Arrival>, a: Arrival)
    requires AsTheyArrived(offered, arrivals)
    ensures AsTheyArrived(offered + [NoteOf(|offered| + 1, a)], arrivals + [a])
  {
  }

  lemma {:induction false} OfferedAsTheyArrived(maxsize: nat, ops: seq<Op>)
    requires maxsize >= 2
    ensures AsTheyArrived(RunOf(maxsize, ops).offered, ArrivalsIn(ops))
  {
    if |ops| == 0 {
    } else {
      var front, last := ops[..|ops| - 1], ops[|ops| - 1];
      OfferedAsTheyArrived(maxsize, front);
      RunHolds(maxsize, front);
      var s := RunOf(maxsize, front);
      if last.Arrive? {
        OneMoreArrived(s.offered, ArrivalsIn(front), last.arrival);
      }
    }
  }

  /**
   * Every notification handed over carries the number, the payload, the kind, the source and both
   * clocks of the arrival it is numbered for; every gap carries both clocks of the arrival that
   * pushed out the first record it lost.
   */
  lemma {:induction false} DeliveredAsTheyArrived(maxsize: nat, ops: seq<Op>, r: Record)
    requires maxsize >= 2 && r in RunOf(maxsize, ops).delivered
    ensures var arrivals := ArrivalsIn(ops);
            match r
            case Note(n) => 1 <= n.seqNo <= |arrivals| && Carries(n, n.seqNo, arrivals[n.seqNo - 1])
            case Loss(g) =>
              && 1 <= g.firstLost <= g.lastLost && g.lastLost + maxsize - 1 <= |arrivals|
              && g.mono == arrivals[g.firstLost + maxsize - 2].mono
              && g.wall == arrivals[g.firstLost + maxsize - 2].wall
  {
    WhatArrivesIsGenuine(maxsize, ops);
    OfferedAsTheyArrived(maxsize, ops);
    assert Genuine(r, RunOf(maxsize, ops).offered, maxsize);
  }
}
