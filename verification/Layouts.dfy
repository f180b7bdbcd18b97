/**
 * Records of the point-of-interest blob: two independent walkers over one type-tagged,
 * variable-length code, and the verdict on which layout fits.
 */
module Layouts {
  import opened Common

  type Bytes = seq<byte>

  datatype Shape = Shape(kind: string, length: nat)

  /** Record shapes by type byte. */
  type Table = map<byte, Shape>

  datatype Layout = Layout(name: string, table: Table)

  const WHOLE_RECORD: Layout := Layout("whole-record", map[
    1 := Shape("speed camera", 13), 2 := Shape("red-light camera", 12), 3 := Shape("user mark", 10)])

  const PAYLOAD_PLUS_HEADER: Layout := Layout("payload-plus-header", map[
    1 := Shape("speed camera", 15), 2 := Shape("red-light camera", 14), 3 := Shape("user mark", 12)])

  const CANDIDATE_LAYOUTS: seq<Layout> := [WHOLE_RECORD, PAYLOAD_PLUS_HEADER]

  ghost predicate Positive(table: Table) {
    forall b :: b in table ==> table[b].length > 0
  }

  /** A record of `table`: its first byte names its type, and its length is that type's. */
  predicate WellFormed(r: Bytes, table: Table) {
    |r| > 0 && r[0] in table && table[r[0]].length == |r|
  }

  ghost predicate AllWellFormed(rs: seq<Bytes>, table: Table) {
    forall k :: 0 <= k < |rs| ==> WellFormed(rs[k], table)
  }

  function Concat(rs: seq<Bytes>): Bytes {
    if |rs| == 0 then [] else rs[0] + Concat(rs[1..])
  }

  // ---------------------------------------------------------------- the two walks

  /** A record and where it starts. */
  datatype Placed = Placed(offset: nat, record: Bytes)

  /** What `_walk_with_offsets` yields from `offset` on. */
  function Walk(payload: Bytes, table: Table, offset: nat): seq<Placed>
    requires Positive(table)
    decreases |payload| - offset
  {
    if offset >= |payload| || payload[offset] !in table then []
    else
      var length := table[payload[offset]].length;
      if offset + length > |payload| then []
      else [Placed(offset, payload[offset..offset + length])] + Walk(payload, table, offset + length)
  }

  /** One step of `record_boundaries`. */
  datatype Boundary =
    | Unrecognised(offset: nat, marker: byte)
    | Candidate(offset: nat, marker: byte, kind: string, length: nat, fits: bool)

  function Boundaries(payload: Bytes, table: Table, offset: nat): seq<Boundary>
    requires Positive(table)
    decreases |payload| - offset
  {
    if offset >= |payload| then []
    else if payload[offset] !in table then [Unrecognised(offset, payload[offset])]
    else
      var shape := table[payload[offset]];
      if offset + shape.length > |payload| then [Candidate(offset, payload[offset], shape.kind, shape.length, false)]
      else [Candidate(offset, payload[offset], shape.kind, shape.length, true)]
           + Boundaries(payload, table, offset + shape.length)
  }

  method WalkWithOffsets(payload: Bytes, table: Table) returns (found: seq<Placed>)
    requires Positive(table)
    ensures found == Walk(payload, table, 0)
  {
    found := [];
    var offset := 0;
    while offset < |payload|
      invariant found + Walk(payload, table, offset) == Walk(payload, table, 0)
      decreases |payload| - offset
    {
      if payload[offset] !in table {
        return;
      }
      var length := table[payload[offset]].length;
      if offset + length > |payload| {
        return;
      }
      var record := Placed(offset, payload[offset..offset + length]);
      assert Walk(payload, table, offset) == [record] + Walk(payload, table, offset + length);
      found := found + [record];
      offset := offset + length;
    }
  }

  method RecordBoundaries(payload: Bytes, table: Table) returns (suggestions: seq<Boundary>)
    requires Positive(table)
    ensures suggestions == Boundaries(payload, table, 0)
  {
    suggestions := [];
    var offset := 0;
    while offset < |payload|
      invariant suggestions + Boundaries(payload, table, offset) == Boundaries(payload, table, 0)
      decreases |payload| - offset
    {
      var marker := payload[offset];
      if marker !in table {
        suggestions := suggestions + [Unrecognised(offset, marker)];
        break;
      }
      var shape := table[marker];
      var fits := offset + shape.length <= |payload|;
      var entry := Candidate(offset, marker, shape.kind, shape.length, fits);
      if !fits {
        suggestions := suggestions + [entry];
        break;
      }
      assert Boundaries(payload, table, offset) == [entry] + Boundaries(payload, table, offset + shape.length);
      suggestions := suggestions + [entry];
      offset := offset + shape.length;
    }
  }

  // ---------------------------------------------------------------- reading the walks

  function Records(placed: seq<Placed>): (r: seq<Bytes>)
    ensures |r| == |placed|
  {
    if |placed| == 0 then [] else [placed[0].record] + Records(placed[1..])
  }

  /** The entries `evaluate_layouts` counts. */
  function Recognised(walk: seq<Boundary>): seq<Boundary> {
    if |walk| == 0 then [] else (if walk[0].Candidate? then [walk[0]] else []) + Recognised(walk[1..])
  }

  function Fitting(walk: seq<Boundary>): seq<Boundary> {
    if |walk| == 0 then [] else (if walk[0].Candidate? && walk[0].fits then [walk[0]] else []) + Fitting(walk[1..])
  }

  function Consumed(walk: seq<Boundary>): nat {
    if |walk| == 0 then 0 else (if walk[0].Candidate? && walk[0].fits then walk[0].length else 0) + Consumed(walk[1..])
  }

  predicate AllFit(walk: seq<Boundary>) {
    forall k :: 0 <= k < |walk| && walk[k].Candidate? ==> walk[k].fits
  }

  predicate Complete(walk: seq<Boundary>) {
    |Recognised(walk)| > 0 && |Recognised(walk)| == |walk| && AllFit(walk)
  }

  /** The same record, as each walker reports it. */
  ghost predicate SameRecord(b: Boundary, p: Placed, payload: Bytes) {
    && b.Candidate? && b.fits && b.offset == p.offset && |p.record| == b.length > 0
    && p.offset + b.length <= |payload| && p.record == payload[p.offset..p.offset + b.length] && p.record[0] == b.marker
  }

  ghost predicate SameRecords(fitting: seq<Boundary>, placed: seq<Placed>, payload: Bytes) {
    |fitting| == |placed| && forall k :: 0 <= k < |placed| ==> SameRecord(fitting[k], placed[k], payload)
  }

  lemma {:induction false} SameRecordsStep(b: Boundary, fitting: seq<Boundary>, p: Placed, placed: seq<Placed>,
                                           payload: Bytes)
    requires SameRecord(b, p, payload) && SameRecords(fitting, placed, payload)
    ensures SameRecords([b] + fitting, [p] + placed, payload)
  {
  }

  /** Both walkers find the same records at the same offsets. */
  lemma {:induction false} WalkersAgree(payload: Bytes, table: Table, offset: nat)
    requires Positive(table)
    ensures SameRecords(Fitting(Boundaries(payload, table, offset)), Walk(payload, table, offset), payload)
    decreases |payload| - offset
  {
    if offset < |payload| && payload[offset] in table && offset + table[payload[offset]].length <= |payload| {
      var next := offset + table[payload[offset]].length;
      WalkersAgree(payload, table, next);
      var walk := Boundaries(payload, table, offset);
      assert walk[1..] == Boundaries(payload, table, next);
      assert Fitting(walk) == [walk[0]] + Fitting(walk[1..]);
      SameRecordsStep(walk[0], Fitting(walk[1..]), Placed(offset, payload[offset..next]), Walk(payload, table, next),
                      payload);
    }
  }

  /** One record of the walk, and the rest of it. */
  lemma {:induction false} WalkStep(payload: Bytes, table: Table, offset: nat) returns (next: nat)
    requires Positive(table) && offset < |payload| && payload[offset] in table
    requires offset + table[payload[offset]].length <= |payload|
    ensures next == offset + table[payload[offset]].length <= |payload| && offset < next
    ensures WellFormed(payload[offset..next], table)
    ensures Records(Walk(payload, table, offset)) == [payload[offset..next]] + Records(Walk(payload, table, next))
    ensures Consumed(Boundaries(payload, table, offset)) == next - offset + Consumed(Boundaries(payload, table, next))
  {
    next := offset + table[payload[offset]].length;
    var walk := Boundaries(payload, table, offset);
    assert walk[1..] == Boundaries(payload, table, next);
    var placed := Walk(payload, table, offset);
    assert placed[1..] == Walk(payload, table, next);
  }

  lemma {:induction false} ConcatStep(r: Bytes, rs: seq<Bytes>)
    ensures Concat([r] + rs) == r + Concat(rs)
  {
    assert ([r] + rs)[1..] == rs;
  }

  lemma {:induction false} FoundAreWellFormed(payload: Bytes, table: Table, offset: nat)
    requires Positive(table) && offset <= |payload|
    ensures AllWellFormed(Records(Walk(payload, table, offset)), table)
    decreases |payload| - offset
  {
    if offset < |payload| && payload[offset] in table && offset + table[payload[offset]].length <= |payload| {
      var next := WalkStep(payload, table, offset);
      FoundAreWellFormed(payload, table, next);
    }
  }

  /** A walk that cannot take a record where it stands takes nothing. */
  lemma {:induction false} StuckTakesNothing(payload: Bytes, table: Table, offset: nat)
    requires Positive(table) && offset <= |payload|
    requires offset == |payload| || payload[offset] !in table || offset + table[payload[offset]].length > |payload|
    ensures Records(Walk(payload, table, offset)) == [] && Consumed(Boundaries(payload, table, offset)) == 0
  {
  }

  lemma {:induction false} ConcatPrefix(payload: Bytes, offset: nat, next: nat, end: nat, rs: seq<Bytes>)
    requires offset <= next <= end <= |payload| && Concat(rs) == payload[next..end]
    ensures Concat([payload[offset..next]] + rs) == payload[offset..end]
  {
    ConcatStep(payload[offset..next], rs);
    assert payload[offset..next] + payload[next..end] == payload[offset..end];
  }

  lemma {:induction false} FoundAreConsumed(payload: Bytes, table: Table, offset: nat)
    requires Positive(table) && offset <= |payload|
    ensures var consumed := Consumed(Boundaries(payload, table, offset));
            && offset + consumed <= |payload|
            && Concat(Records(Walk(payload, table, offset))) == payload[offset..offset + consumed]
    decreases |payload| - offset
  {
    if offset < |payload| && payload[offset] in table && offset + table[payload[offset]].length <= |payload| {
      var next := WalkStep(payload, table, offset);
      FoundAreConsumed(payload, table, next);
      var consumed := Consumed(Boundaries(payload, table, next));
      ConcatPrefix(payload, offset, next, next + consumed, Records(Walk(payload, table, next)));
    } else {
      StuckTakesNothing(payload, table, offset);
    }
  }

  /** The records found are well formed, and their concatenation is the prefix the walk consumed. */
  lemma {:induction false} WalkCovers(payload: Bytes, table: Table)
    requires Positive(table)
    ensures var records, consumed := Records(Walk(payload, table, 0)), Consumed(Boundaries(payload, table, 0));
            AllWellFormed(records, table) && consumed <= |payload| && Concat(records) == payload[..consumed]
  {
    FoundAreWellFormed(payload, table, 0);
    FoundAreConsumed(payload, table, 0);
  }

  /** Every entry is a record that fits. */
  predicate Whole(walk: seq<Boundary>) {
    |Recognised(walk)| == |walk| && AllFit(walk)
  }

  lemma {:induction false} WholeOn(b: Boundary, rest: seq<Boundary>)
    requires b.Candidate? && b.fits
    ensures Whole([b] + rest) <==> Whole(rest)
    ensures |Recognised([b] + rest)| == 1 + |Recognised(rest)|
  {
    var walk := [b] + rest;
    assert walk[1..] == rest;
    assert forall k :: 0 <= k < |rest| ==> walk[k + 1] == rest[k];
  }

  lemma {:induction false} StuckIsNotWhole(payload: Bytes, table: Table, offset: nat)
    requires Positive(table) && offset <= |payload|
    requires offset == |payload| || payload[offset] !in table || offset + table[payload[offset]].length > |payload|
    ensures var walk := Boundaries(payload, table, offset);
            && Consumed(walk) == 0 && (Whole(walk) <==> offset == |payload|)
            && |Recognised(walk)| <= |walk| && (|walk| > 0 <==> offset < |payload|)
  {
    var walk := Boundaries(payload, table, offset);
    assert |walk| > 0 && walk[0].Candidate? ==> !walk[0].fits;
  }

  /** A complete walk consumed everything, and a walk that consumed everything of a non-empty blob is complete. */
  lemma {:induction false} CompleteConsumesAll(payload: Bytes, table: Table, offset: nat)
    requires Positive(table) && offset <= |payload|
    ensures var walk := Boundaries(payload, table, offset);
            && (Whole(walk) <==> offset + Consumed(walk) == |payload|)
            && |Recognised(walk)| <= |walk| && offset + Consumed(walk) <= |payload|
            && (|walk| > 0 <==> offset < |payload|)
    decreases |payload| - offset
  {
    if offset < |payload| && payload[offset] in table && offset + table[payload[offset]].length <= |payload| {
      var b, next := OneFit(payload, table, offset);
      CompleteConsumesAll(payload, table, next);
      WholeOn(b, Boundaries(payload, table, next));
    } else {
      StuckIsNotWhole(payload, table, offset);
    }
  }

  // ---------------------------------------------------------------- unique decodability

  /** Records and where each starts, when they are laid end to end from `offset`. */
  function PlacedFrom(rs: seq<Bytes>, offset: nat): seq<Placed> {
    if |rs| == 0 then [] else [Placed(offset, rs[0])] + PlacedFrom(rs[1..], offset + |rs[0]|)
  }

  /** The walk at the start of a well-formed record takes exactly that record. */
  lemma {:induction false} WalkTakes(payload: Bytes, offset: nat, r: Bytes, after: Bytes, table: Table)
    requires Positive(table) && WellFormed(r, table) && offset <= |payload| && payload[offset..] == r + after
    ensures offset + |r| <= |payload| && payload[offset + |r|..] == after
    ensures Walk(payload, table, offset) == [Placed(offset, r)] + Walk(payload, table, offset + |r|)
  {
    assert |payload| == offset + |r| + |after|;
    assert payload[offset] == payload[offset..][0] == r[0];
    assert payload[offset..offset + |r|] == payload[offset..][..|r|] == r;
    assert payload[offset + |r|..] == payload[offset..][|r|..] == after;
  }

  lemma {:induction false} WalkTakesFirst(payload: Bytes, offset: nat, rs: seq<Bytes>, table: Table) returns (next: nat)
    requires Positive(table) && AllWellFormed(rs, table) && |rs| > 0
    requires offset <= |payload| && payload[offset..] == Concat(rs)
    ensures next == offset + |rs[0]| <= |payload| && payload[next..] == Concat(rs[1..]) && AllWellFormed(rs[1..], table)
    ensures Walk(payload, table, offset) == [Placed(offset, rs[0])] + Walk(payload, table, next)
  {
    next := offset + |rs[0]|;
    WalkTakes(payload, offset, rs[0], Concat(rs[1..]), table);
  }

  /** However a blob is cut into well-formed records, the walk finds that cut. */
  lemma {:induction false} WalkFindsRecords(payload: Bytes, offset: nat, rs: seq<Bytes>, table: Table)
    requires Positive(table) && AllWellFormed(rs, table) && offset <= |payload| && payload[offset..] == Concat(rs)
    ensures Walk(payload, table, offset) == PlacedFrom(rs, offset)
    decreases |rs|
  {
    if |rs| == 0 {
    } else {
      var next := WalkTakesFirst(payload, offset, rs, table);
      WalkFindsRecords(payload, next, rs[1..], table);
    }
  }

  /** So the code is uniquely decodable. */
  lemma {:induction false} UniquelyDecodable(rs: seq<Bytes>, more: seq<Bytes>, table: Table)
    requires Positive(table) && AllWellFormed(rs, table) && AllWellFormed(more, table) && Concat(rs) == Concat(more)
    ensures rs == more
  {
    var payload := Concat(rs);
    assert payload[0..] == payload;
    WalkFindsRecords(payload, 0, rs, table);
    WalkFindsRecords(payload, 0, more, table);
    PlacedAreRecords(rs, 0);
    PlacedAreRecords(more, 0);
  }

  lemma {:induction false} PlacedAreRecords(rs: seq<Bytes>, offset: nat)
    ensures Records(PlacedFrom(rs, offset)) == rs
  {
    if |rs| == 0 {
    } else {
      PlacedAreRecords(rs[1..], offset + |rs[0]|);
      assert PlacedFrom(rs, offset)[1..] == PlacedFrom(rs[1..], offset + |rs[0]|);
    }
  }

  lemma {:induction false} ConcatLength(rs: seq<Bytes>, table: Table)
    requires AllWellFormed(rs, table)
    ensures |Concat(rs)| > 0 <==> |rs| > 0
  {
    if |rs| > 0 {
      assert WellFormed(rs[0], table);
    }
  }

  // ---------------------------------------------------------------- verdicts

  datatype Verdict = Verdict(layout: Layout, records: nat, allFit: bool, consumed: nat, total: nat,
                             complete: bool, exact: bool, stoppedAt: Option<nat>)

  function VerdictOf(payload: Bytes, layout: Layout): Verdict
    requires Positive(layout.table)
  {
    var walk := Boundaries(payload, layout.table, 0);
    var complete := Complete(walk);
    Verdict(layout, |Recognised(walk)|, AllFit(walk), Consumed(walk), |payload|, complete,
            complete && Consumed(walk) == |payload|,
            if complete then None else Some(if |walk| > 0 then walk[|walk| - 1].offset else 0))
  }

  /** A blob is a non-empty concatenation of well-formed records. */
  ghost predicate Parses(payload: Bytes, table: Table) {
    exists rs: seq<Bytes> :: |rs| > 0 && AllWellFormed(rs, table) && Concat(rs) == payload
  }

  /** `exact`, `complete`, and being a non-empty concatenation of well-formed records are one condition. */
  lemma {:induction false} ExactMeansParses(payload: Bytes, layout: Layout)
    requires Positive(layout.table)
    ensures var v := VerdictOf(payload, layout); v.exact == v.complete == Parses(payload, layout.table)
  {
    var table := layout.table;
    CompleteConsumesAll(payload, table, 0);
    WalkCovers(payload, table);
    var rs := Records(Walk(payload, table, 0));
    if VerdictOf(payload, layout).complete {
      assert Concat(rs) == payload[..|payload|] == payload;
      ConcatLength(rs, table);
    }
    if Parses(payload, table) {
      var cut: seq<Bytes> :| |cut| > 0 && AllWellFormed(cut, table) && Concat(cut) == payload;
      assert payload[0..] == payload;
      WalkFindsRecords(payload, 0, cut, table);
      PlacedAreRecords(cut, 0);
      assert Concat(rs) == payload[..Consumed(Boundaries(payload, table, 0))];
      ConcatLength(cut, table);
    }
  }

  /** Whether the walk is cut short at `end` by a record that runs past the end of the blob. */
  predicate RunsOver(payload: Bytes, table: Table, end: nat) {
    end < |payload| && payload[end] in table && end + table[payload[end]].length > |payload|
  }

  predicate StopsAt(payload: Bytes, table: Table, end: nat) {
    end == |payload| || (end < |payload| && payload[end] !in table) || RunsOver(payload, table, end)
  }

  /** Where and how the walk from `offset` on ends, read off the blob. */
  ghost predicate Ends(payload: Bytes, table: Table, walk: seq<Boundary>, found: nat, end: nat) {
    && StopsAt(payload, table, end)
    && |Recognised(walk)| == found + (if RunsOver(payload, table, end) then 1 else 0)
    && (AllFit(walk) <==> !RunsOver(payload, table, end))
    && (end < |payload| ==> |walk| > 0 && walk[|walk| - 1].offset == end)
  }

  lemma {:induction false} EndsOn(payload: Bytes, table: Table, b: Boundary, rest: seq<Boundary>, found: nat, end: nat,
                                  walk: seq<Boundary>)
    requires b.Candidate? && b.fits && Ends(payload, table, rest, found, end) && walk == [b] + rest
    ensures Ends(payload, table, walk, 1 + found, end)
  {
    assert walk[1..] == rest;
    assert forall k :: 0 <= k < |rest| ==> walk[k + 1] == rest[k];
  }

  /** Both walkers take one record that fits, and go on after it. */
  lemma {:induction false} OneFit(payload: Bytes, table: Table, offset: nat) returns (b: Boundary, next: nat)
    requires Positive(table) && offset < |payload| && payload[offset] in table
    requires offset + table[payload[offset]].length <= |payload|
    ensures offset < next == offset + table[payload[offset]].length <= |payload| && b.Candidate? && b.fits
    ensures Boundaries(payload, table, offset) == [b] + Boundaries(payload, table, next)
    ensures |Walk(payload, table, offset)| == 1 + |Walk(payload, table, next)|
    ensures offset + Consumed(Boundaries(payload, table, offset)) == next + Consumed(Boundaries(payload, table, next))
  {
    next := WalkStep(payload, table, offset);
    b := Boundaries(payload, table, offset)[0];
  }

  lemma {:induction false} WalkStops(payload: Bytes, table: Table, offset: nat) returns (end: nat)
    requires Positive(table) && offset <= |payload|
    ensures end == offset + Consumed(Boundaries(payload, table, offset))
    ensures Ends(payload, table, Boundaries(payload, table, offset), |Walk(payload, table, offset)|, end)
    decreases |payload| - offset
  {
    if offset < |payload| && payload[offset] in table && offset + table[payload[offset]].length <= |payload| {
      var b, next := OneFit(payload, table, offset);
      end := WalkStops(payload, table, next);
      var walk := Boundaries(payload, table, offset);
      EndsOn(payload, table, b, Boundaries(payload, table, next), |Walk(payload, table, next)|, end, walk);
    } else {
      WalkIsStuck(payload, table, offset);
      end := offset;
    }
  }

  lemma {:induction false} WalkIsStuck(payload: Bytes, table: Table, offset: nat)
    requires Positive(table) && offset <= |payload|
    requires offset == |payload| || payload[offset] !in table || offset + table[payload[offset]].length > |payload|
    ensures var walk := Boundaries(payload, table, offset);
            && Consumed(walk) == 0 && |Walk(payload, table, offset)| == 0
            && |Recognised(walk)| == (if RunsOver(payload, table, offset) then 1 else 0)
            && (AllFit(walk) <==> !RunsOver(payload, table, offset))
            && (offset < |payload| ==> |walk| == 1 && walk[0].offset == offset)
  {
  }

  /**
   * What a verdict says of the blob: `consumed` is where the records found end and nothing more can
   * be read; `records` counts them, and one more that runs past the end, which is what `all_fit`
   * denies; and `stopped_at` is that place unless the whole of a blob that is not empty was read.
   */
  lemma {:induction false} VerdictMeaning(payload: Bytes, layout: Layout)
    requires Positive(layout.table)
    ensures var v, found := VerdictOf(payload, layout), Records(Walk(payload, layout.table, 0));
            && v.layout == layout && v.total == |payload|
            && v.consumed == |Concat(found)| <= |payload| && Concat(found) == payload[..v.consumed]
            && StopsAt(payload, layout.table, v.consumed)
            && v.records == |found| + (if RunsOver(payload, layout.table, v.consumed) then 1 else 0)
            && (v.allFit <==> !RunsOver(payload, layout.table, v.consumed))
            && (v.complete <==> |payload| > 0 && v.consumed == |payload|)
            && v.stoppedAt == (if v.complete then None else Some(v.consumed))
  {
    var end := WalkStops(payload, layout.table, 0);
    WalkCovers(payload, layout.table);
    CompleteConsumesAll(payload, layout.table, 0);
  }

  /** The order of the verdicts: exact ones first, then by how far each got. */
  predicate Ahead(a: Verdict, b: Verdict) {
    if a.exact != b.exact then a.exact else a.consumed >= b.consumed
  }

  ghost predicate AllPositive(layouts: seq<Layout>) {
    forall k :: 0 <= k < |layouts| ==> Positive(layouts[k].table)
  }

  function Verdicts(payload: Bytes, layouts: seq<Layout>): (r: seq<Verdict>)
    requires AllPositive(layouts)
    ensures |r| == |layouts|
  {
    if |layouts| == 0 then []
    else Verdicts(payload, layouts[..|layouts| - 1]) + [VerdictOf(payload, layouts[|layouts| - 1])]
  }

  /** How many layouts account for the whole blob. */
  function ExactCount(verdicts: seq<Verdict>): nat {
    if |verdicts| == 0 then 0
    else ExactCount(verdicts[..|verdicts| - 1]) + (if verdicts[|verdicts| - 1].exact then 1 else 0)
  }

  lemma {:induction false} AheadIsTotal()
    ensures TotalPreorder(Ahead)
  {
  }

  /** Verdicts that tie, both exact or both not and with as much consumed, stay in the order of their layouts. */
  lemma {:induction false} TiesKeepTheirOrder(payload: Bytes, layouts: seq<Layout>, exact: bool, consumed: nat)
    requires AllPositive(layouts)
    ensures var verdicts := Verdicts(payload, layouts);
            var tied := (v: Verdict) => v.exact == exact && v.consumed == consumed;
            Filter(SortBy(verdicts, Ahead), tied) == Filter(verdicts, tied)
  {
    SortByIsStable(Verdicts(payload, layouts), Ahead, (v: Verdict) => v.exact == exact && v.consumed == consumed);
  }

  /** Exact verdicts before the others, and of two that are both exact or both not, the one that got further first. */
  ghost predicate BestFirst(verdicts: seq<Verdict>) {
    forall j, k :: 0 <= j < k < |verdicts| ==>
      && (verdicts[k].exact ==> verdicts[j].exact)
      && (verdicts[j].exact == verdicts[k].exact ==> verdicts[j].consumed >= verdicts[k].consumed)
  }

  /** `evaluate_layouts`: one verdict a layout, exact ones first, then by how far each got. */
  method EvaluateLayouts(payload: Bytes, layouts: seq<Layout>) returns (verdicts: seq<Verdict>)
    requires AllPositive(layouts)
    ensures verdicts == SortBy(Verdicts(payload, layouts), Ahead)
    ensures BestFirst(verdicts) && multiset(verdicts) == multiset(Verdicts(payload, layouts))
  {
    verdicts := [];
    for n := 0 to |layouts|
      invariant verdicts == Verdicts(payload, layouts[..n])
    {
      assert layouts[..n + 1][..n] == layouts[..n];
      var walk := RecordBoundaries(payload, layouts[n].table);
      var recognised := Recognised(walk);
      var consumed := Consumed(walk);
      var complete := |recognised| > 0 && |recognised| == |walk| && AllFit(walk);
      var stoppedAt := if complete then None else Some(if |walk| > 0 then walk[|walk| - 1].offset else 0);
      verdicts := verdicts + [Verdict(layouts[n], |recognised|, AllFit(walk), consumed, |payload|, complete,
                                      complete && consumed == |payload|, stoppedAt)];
    }
    assert layouts[..|layouts|] == layouts;
    AheadIsTotal();
    SortBySorts(verdicts, Ahead);
    SortByPermutes(verdicts, Ahead);
    verdicts := SortBy(verdicts, Ahead);
  }

  // ---------------------------------------------------------------- two layouts can both be exact

  function Threes(n: nat): Bytes {
    if n == 0 then [] else [3] + Threes(n - 1)
  }

  function Repeated(r: Bytes, n: nat): (rs: seq<Bytes>)
    ensures |rs| == n && forall k :: 0 <= k < n ==> rs[k] == r
  {
    if n == 0 then [] else [r] + Repeated(r, n - 1)
  }

  lemma {:induction false} ThreesAdd(m: nat, n: nat)
    ensures Threes(m) + Threes(n) == Threes(m + n)
  {
    if m == 0 {
    } else {
      ThreesAdd(m - 1, n);
    }
  }

  lemma {:induction false} RepeatedThrees(length: nat, n: nat)
    ensures Concat(Repeated(Threes(length), n)) == Threes(length * n)
  {
    if n == 0 {
    } else {
      RepeatedThrees(length, n - 1);
      assert Repeated(Threes(length), n)[1..] == Repeated(Threes(length), n - 1);
      ThreesAdd(length, length * (n - 1));
    }
  }

  lemma {:induction false} ThreesLength(n: nat)
    ensures |Threes(n)| == n && (n > 0 ==> Threes(n)[0] == 3)
  {
    if n == 0 {
    } else {
      ThreesLength(n - 1);
    }
  }

  lemma {:induction false} ThreesAreExact(layout: Layout, length: nat, n: nat)
    requires Positive(layout.table) && 3 in layout.table && layout.table[3].length == length > 0 && n > 0
    ensures VerdictOf(Threes(length * n), layout).exact
  {
    ThreesLength(length);
    RepeatedThrees(length, n);
    assert AllWellFormed(Repeated(Threes(length), n), layout.table);
    ExactMeansParses(Threes(length * n), layout);
  }

  lemma {:induction false} CandidatesArePositive()
    ensures Positive(WHOLE_RECORD.table) && 3 in WHOLE_RECORD.table && WHOLE_RECORD.table[3].length == 10
    ensures Positive(PAYLOAD_PLUS_HEADER.table) && 3 in PAYLOAD_PLUS_HEADER.table
            && PAYLOAD_PLUS_HEADER.table[3].length == 12
  {
  }

  /** Sixty bytes of value three are six ten-byte marks and also five twelve-byte ones: both layouts are exact. */
  lemma {:induction false} BothLayoutsCanBeExact()
    ensures Positive(WHOLE_RECORD.table) && Positive(PAYLOAD_PLUS_HEADER.table)
    ensures VerdictOf(Threes(60), WHOLE_RECORD).exact && VerdictOf(Threes(60), PAYLOAD_PLUS_HEADER).exact
  {
    CandidatesArePositive();
    ThreesAreExact(WHOLE_RECORD, 10, 6);
    ThreesAreExact(PAYLOAD_PLUS_HEADER, 12, 5);
  }
}
