/** What changed between two reads of the point-of-interest blob, record by record. */
module PoiDiff {
  import opened Common
  import opened Layouts

  type Point = (real, real)

  /** Decoding a record's coordinates and measuring between two points are not modelled. */
  type Decoder = Bytes -> Option<Point>
  type Distance = (Point, Point) -> real

  datatype RecordCandidate = RecordCandidate(layout: string, offset: nat, typeByte: byte, kind: string, length: nat,
                                             decodes: bool, metres: Option<real>)

  datatype Note = NotACleanAppend | NoLayoutFits | LayoutsUndecided | NothingNew

  datatype Diff = Diff(beforeLength: nat, afterLength: nat, firstDifference: Option<nat>, appendedOnly: bool,
                       addedBytes: int, layouts: seq<Verdict>, recordsAdded: seq<RecordCandidate>, notes: seq<Note>)

  /** What the comparison needs from outside. */
  datatype Tools = Tools(decode: Decoder, distance: Distance, reference: Option<Point>)

  /** How one new record is reported. */
  function CandidateOf(p: Placed, layout: Layout, tools: Tools): RecordCandidate
    requires WellFormed(p.record, layout.table)
  {
    var point := tools.decode(p.record);
    var away :=
      if point.Some? && tools.reference.Some? then Some(tools.distance(point.value, tools.reference.value)) else None;
    RecordCandidate(layout.name, p.offset, p.record[0], layout.table[p.record[0]].kind, |p.record|, point.Some?, away)
  }

  ghost predicate AllPlacedWell(placed: seq<Placed>, table: Table) {
    forall k :: 0 <= k < |placed| ==> WellFormed(placed[k].record, table)
  }

  /** The records of a walk that were not among the earlier ones. */
  function NewOnes(placed: seq<Placed>, earlier: set<Bytes>, layout: Layout, tools: Tools): seq<RecordCandidate>
    requires AllPlacedWell(placed, layout.table)
  {
    if |placed| == 0 then []
    else
      var last := placed[|placed| - 1];
      NewOnes(placed[..|placed| - 1], earlier, layout, tools)
      + (if last.record in earlier then [] else [CandidateOf(last, layout, tools)])
  }

  function Earlier(before: Bytes, table: Table): set<Bytes>
    requires Positive(table)
  {
    set r | r in Records(Walk(before, table, 0))
  }

  lemma {:induction false} RecordsAt(placed: seq<Placed>, k: nat)
    requires k < |placed|
    ensures Records(placed)[k] == placed[k].record
  {
    if k == 0 {
    } else {
      RecordsAt(placed[1..], k - 1);
    }
  }

  lemma {:induction false} WalkIsPlacedWell(payload: Bytes, table: Table)
    requires Positive(table)
    ensures AllPlacedWell(Walk(payload, table, 0), table)
  {
    WalkCovers(payload, table);
    var placed := Walk(payload, table, 0);
    forall k | 0 <= k < |placed| ensures WellFormed(placed[k].record, table) {
      RecordsAt(placed, k);
    }
  }

  function AddedUnder(before: Bytes, after: Bytes, layout: Layout, tools: Tools): seq<RecordCandidate>
    requires Positive(layout.table)
  {
    WalkIsPlacedWell(after, layout.table);
    NewOnes(Walk(after, layout.table, 0), Earlier(before, layout.table), layout, tools)
  }

  ghost predicate VerdictsPositive(verdicts: seq<Verdict>) {
    forall k :: 0 <= k < |verdicts| ==> Positive(verdicts[k].layout.table)
  }

  /** The new records under every layout that fits, in the order of the verdicts. */
  function Added(before: Bytes, after: Bytes, verdicts: seq<Verdict>, tools: Tools): seq<RecordCandidate>
    requires VerdictsPositive(verdicts)
  {
    if |verdicts| == 0 then []
    else
      var last := verdicts[|verdicts| - 1];
      Added(before, after, verdicts[..|verdicts| - 1], tools)
      + (if last.exact then AddedUnder(before, after, last.layout, tools) else [])
  }

  /** `i` is where two blobs first differ: a byte of both, or the end of the shorter. */
  ghost predicate FirstDifference(before: Bytes, after: Bytes, i: nat) {
    && i <= |before| && i <= |after| && before[..i] == after[..i]
    && (if i < |before| && i < |after| then before[i] != after[i] else |before| != |after|)
  }

  // ---------------------------------------------------------------- the comparison

  method CompareBytes(before: Bytes, after: Bytes) returns (first: Option<nat>)
    ensures first.None? <==> before == after
    ensures first.Some? ==> FirstDifference(before, after, first.value)
  {
    first := None;
    var limit := if |before| < |after| then |before| else |after|;
    var index := 0;
    while index < limit
      invariant index <= limit && before[..index] == after[..index] && first.None?
    {
      if before[index] != after[index] {
        return Some(index);
      }
      index := index + 1;
    }
    if |before| != |after| {
      first := Some(limit);
    } else {
      assert before[..limit] == before && after[..limit] == after;
    }
  }

  method AddRecords(before: Bytes, after: Bytes, layout: Layout, tools: Tools) returns (added: seq<RecordCandidate>)
    requires Positive(layout.table)
    ensures added == AddedUnder(before, after, layout, tools)
  {
    var found := WalkWithOffsets(before, layout.table);
    var earlier := set r | r in Records(found);
    var placed := WalkWithOffsets(after, layout.table);
    WalkIsPlacedWell(after, layout.table);
    added := [];
    for n := 0 to |placed|
      invariant added == NewOnes(placed[..n], earlier, layout, tools)
    {
      assert placed[..n + 1][..n] == placed[..n];
      if placed[n].record !in earlier {
        added := added + [CandidateOf(placed[n], layout, tools)];
      }
    }
    assert placed[..|placed|] == placed;
  }

  method AddAll(before: Bytes, after: Bytes, verdicts: seq<Verdict>, tools: Tools) returns (added: seq<RecordCandidate>)
    requires VerdictsPositive(verdicts)
    ensures added == Added(before, after, verdicts, tools)
  {
    added := [];
    for n := 0 to |verdicts|
      invariant added == Added(before, after, verdicts[..n], tools)
    {
      assert verdicts[..n + 1][..n] == verdicts[..n];
      if verdicts[n].exact {
        var more := AddRecords(before, after, verdicts[n].layout, tools);
        added := added + more;
      }
    }
    assert verdicts[..|verdicts|] == verdicts;
  }

  ghost predicate VerdictsOn(verdicts: seq<Verdict>, after: Bytes) {
    VerdictsPositive(verdicts) && forall k :: 0 <= k < |verdicts| ==>
      verdicts[k] == VerdictOf(after, verdicts[k].layout)
  }

  lemma {:induction false} SortedAreVerdicts(payload: Bytes, layouts: seq<Layout>)
    requires AllPositive(layouts)
    ensures VerdictsOn(SortBy(Verdicts(payload, layouts), Ahead), payload)
  {
    var sorted := SortBy(Verdicts(payload, layouts), Ahead);
    SortByMembers(Verdicts(payload, layouts), Ahead);
    forall k | 0 <= k < |sorted| ensures Positive(sorted[k].layout.table)
      && sorted[k] == VerdictOf(payload, sorted[k].layout) {
      assert sorted[k] in sorted;
      var j :| 0 <= j < |layouts| && Verdicts(payload, layouts)[j] == sorted[k];
      VerdictAt(payload, layouts, j);
    }
  }

  lemma {:induction false} VerdictAt(payload: Bytes, layouts: seq<Layout>, k: nat)
    requires AllPositive(layouts) && k < |layouts|
    ensures Verdicts(payload, layouts)[k] == VerdictOf(payload, layouts[k])
  {
    if k == |layouts| - 1 {
    } else {
      VerdictAt(payload, layouts[..|layouts| - 1], k);
    }
  }

  function NotesFor(appended: bool, exact: nat, added: nat): seq<Note> {
    (if appended then [] else [NotACleanAppend])
    + (if exact == 0 then [NoLayoutFits]
       else (if exact > 1 then [LayoutsUndecided] else []) + (if added == 0 then [NothingNew] else []))
  }

  ghost predicate MoreThanOneExact(verdicts: seq<Verdict>) {
    exists j, k :: 0 <= j < k < |verdicts| && verdicts[j].exact && verdicts[k].exact
  }

  lemma {:induction false} ExactCounted(verdicts: seq<Verdict>)
    ensures ExactCount(verdicts) > 0 <==> exists v :: v in verdicts && v.exact
    ensures ExactCount(verdicts) > 1 <==> MoreThanOneExact(verdicts)
  {
    if |verdicts| == 0 {
    } else {
      var front, last := verdicts[..|verdicts| - 1], verdicts[|verdicts| - 1];
      ExactCounted(front);
      assert verdicts == front + [last];
      if ExactCount(verdicts) > 0 && !last.exact {
        var v :| v in front && v.exact;
        assert v in verdicts;
      }
      if ExactCount(verdicts) > 1 {
        if last.exact {
          var v :| v in front && v.exact;
          var j :| 0 <= j < |front| && front[j] == v;
          assert verdicts[j].exact && verdicts[|verdicts| - 1].exact;
        } else {
          var j, k :| 0 <= j < k < |front| && front[j].exact && front[k].exact;
          assert verdicts[j].exact && verdicts[k].exact;
        }
      }
      if j, k :| 0 <= j < k < |verdicts| && verdicts[j].exact && verdicts[k].exact {
        assert front[j] in front && front[j].exact;
        assert k < |front| ==> front[k].exact;
      }
    }
  }

  /** When each note is made, once the blob is known to have changed. */
  ghost predicate NotesSay(notes: seq<Note>, appended: bool, verdicts: seq<Verdict>, added: nat) {
    && (NotACleanAppend in notes <==> !appended)
    && (NoLayoutFits in notes <==> forall v :: v in verdicts ==> !v.exact)
    && (LayoutsUndecided in notes <==> MoreThanOneExact(verdicts))
    && (NothingNew in notes <==> added == 0 && exists v :: v in verdicts && v.exact)
  }

  lemma {:induction false} NotesMean(appended: bool, verdicts: seq<Verdict>, added: nat)
    ensures NotesSay(NotesFor(appended, ExactCount(verdicts), added), appended, verdicts, added)
  {
    ExactCounted(verdicts);
  }

  /** The records added, once the blob is known to have changed. */
  method Adjudicate(before: Bytes, after: Bytes, verdicts: seq<Verdict>, appended: bool, tools: Tools)
    returns (added: seq<RecordCandidate>, notes: seq<Note>)
    requires VerdictsPositive(verdicts)
    ensures added == Added(before, after, verdicts, tools)
    ensures notes == NotesFor(appended, ExactCount(verdicts), |added|)
  {
    added, notes := [], if appended then [] else [NotACleanAppend];
    var exact := ExactCount(verdicts);
    if exact == 0 {
      NothingAdded(before, after, verdicts, tools);
      notes := notes + [NoLayoutFits];
      return;
    }
    var more: seq<Note> := if exact > 1 then [LayoutsUndecided] else [];
    added := AddAll(before, after, verdicts, tools);
    if |added| == 0 {
      more := more + [NothingNew];
    }
    notes := notes + more;
  }

  /**
   * `diff_payloads`: whether, where and how the blob changed, and the records that are new under
   * every layout that accounts for all of it.
   */
  method DiffPayloads(before: Bytes, after: Bytes, layouts: seq<Layout>, tools: Tools) returns (r: Diff)
    requires AllPositive(layouts)
    ensures r.firstDifference.None? <==> before == after
    ensures r.firstDifference.Some? ==> FirstDifference(before, after, r.firstDifference.value)
    ensures r.appendedOnly <==> before < after
    ensures r.beforeLength == |before| && r.afterLength == |after| && r.addedBytes == |after| - |before|
    ensures r.layouts == SortBy(Verdicts(after, layouts), Ahead) && VerdictsOn(r.layouts, after)
    ensures r.recordsAdded == if before == after then [] else Added(before, after, r.layouts, tools)
    ensures r.notes == if before == after then [] else NotesFor(before < after, ExactCount(r.layouts), |r.recordsAdded|)
    ensures if before == after then r.notes == [] else NotesSay(r.notes, before < after, r.layouts, |r.recordsAdded|)
  {
    var first := CompareBytes(before, after);
    var appended := |after| > |before| && after[..|before|] == before;
    var verdicts := EvaluateLayouts(after, layouts);
    SortedAreVerdicts(after, layouts);
    var added, notes := [], [];
    if first.Some? {
      added, notes := Adjudicate(before, after, verdicts, appended, tools);
      NotesMean(before < after, verdicts, |added|);
    }
    r := Diff(|before|, |after|, first, appended, |after| - |before|, verdicts, added, notes);
  }

  lemma {:induction false} NothingAdded(before: Bytes, after: Bytes, verdicts: seq<Verdict>, tools: Tools)
    requires VerdictsPositive(verdicts) && ExactCount(verdicts) == 0
    ensures Added(before, after, verdicts, tools) == []
  {
    if |verdicts| == 0 {
    } else {
      NothingAdded(before, after, verdicts[..|verdicts| - 1], tools);
    }
  }

  // ---------------------------------------------------------------- main theorems: the diff is by content

  lemma {:induction false} PlacedAt(rs: seq<Bytes>, offset: nat, k: nat)
    requires k < |rs|
    ensures |PlacedFrom(rs, offset)| == |rs|
    ensures PlacedFrom(rs, offset)[k] == Placed(offset + |Concat(rs[..k])|, rs[k])
  {
    if k == 0 {
      assert rs[..0] == [];
      PlacedLength(rs, offset);
    } else {
      PlacedAt(rs[1..], offset + |rs[0]|, k - 1);
      assert rs[1..][..k - 1] == rs[1..k] && rs[..k][1..] == rs[1..k];
    }
  }

  lemma {:induction false} PlacedLength(rs: seq<Bytes>, offset: nat)
    ensures |PlacedFrom(rs, offset)| == |rs|
  {
    if |rs| == 0 {
    } else {
      PlacedLength(rs[1..], offset + |rs[0]|);
    }
  }

  lemma {:induction false} NewOnesAre(placed: seq<Placed>, earlier: set<Bytes>, layout: Layout, tools: Tools,
                                      c: RecordCandidate)
    requires AllPlacedWell(placed, layout.table)
    ensures c in NewOnes(placed, earlier, layout, tools) <==>
              exists k :: 0 <= k < |placed| && placed[k].record !in earlier
                && CandidateOf(placed[k], layout, tools) == c
  {
    if |placed| == 0 {
    } else {
      NewOnesAre(placed[..|placed| - 1], earlier, layout, tools, c);
    }
  }

  /** The walk of a concatenation, and the records it holds. */
  lemma {:induction false} WalkOfConcat(rs: seq<Bytes>, table: Table)
    requires Positive(table) && AllWellFormed(rs, table)
    ensures Walk(Concat(rs), table, 0) == PlacedFrom(rs, 0) && Records(Walk(Concat(rs), table, 0)) == rs
  {
    assert Concat(rs)[0..] == Concat(rs);
    WalkFindsRecords(Concat(rs), 0, rs, table);
    PlacedAreRecords(rs, 0);
  }

  /** How far a record's point is from the reference, where both are known. */
  ghost predicate Away(record: Bytes, tools: Tools, metres: Option<real>) {
    match (tools.decode(record), tools.reference)
    case (Some(p), Some(q)) => metres == Some(tools.distance(p, q))
    case _ => metres.None?
  }

  /**
   * `c` reports record `k` of `rs`: where it starts after the records before it, its length and type
   * byte, the kind and the layout it was read under, and what its coordinates decode to.
   */
  ghost predicate Reports(c: RecordCandidate, rs: seq<Bytes>, k: nat, layout: Layout, tools: Tools)
    requires k < |rs|
  {
    && c.layout == layout.name
    && c.offset == |Concat(rs[..k])| && c.length == |rs[k]|
    && |rs[k]| > 0 && c.typeByte == rs[k][0]
    && rs[k][0] in layout.table && c.kind == layout.table[rs[k][0]].kind
    && (c.decodes <==> tools.decode(rs[k]).Some?)
    && Away(rs[k], tools, c.metres)
  }

  lemma {:induction false} ReportsAre(c: RecordCandidate, rs: seq<Bytes>, k: nat, layout: Layout, tools: Tools)
    requires k < |rs| && WellFormed(rs[k], layout.table)
    ensures Reports(c, rs, k, layout, tools) <==> c == CandidateOf(Placed(|Concat(rs[..k])|, rs[k]), layout, tools)
  {
  }

  /** The bytes of the blob a report points at are the record it reports. */
  lemma {:induction false} ReportPointsAtItsRecord(c: RecordCandidate, rs: seq<Bytes>, k: nat, layout: Layout,
                                                   tools: Tools)
    requires k < |rs| && Reports(c, rs, k, layout, tools)
    ensures c.offset + c.length <= |Concat(rs)| && Concat(rs)[c.offset..c.offset + c.length] == rs[k]
  {
    ConcatAround(rs, k);
    var front, back := Concat(rs[..k]), Concat(rs[k + 1..]);
    assert Concat(rs) == front + (rs[k] + back);
  }

  lemma {:induction false} ConcatAround(rs: seq<Bytes>, k: nat)
    requires k < |rs|
    ensures Concat(rs) == Concat(rs[..k]) + (rs[k] + Concat(rs[k + 1..]))
  {
    if k == 0 {
      assert rs[..0] == [];
    } else {
      ConcatAround(rs[1..], k - 1);
      assert rs[1..][..k - 1] == rs[..k][1..] && rs[1..][k..] == rs[k + 1..];
    }
  }

  lemma {:induction false} WalkPlaces(rs: seq<Bytes>, table: Table, k: nat)
    requires Positive(table) && AllWellFormed(rs, table) && k < |rs|
    ensures |Walk(Concat(rs), table, 0)| == |rs| && Walk(Concat(rs), table, 0)[k] == Placed(|Concat(rs[..k])|, rs[k])
  {
    WalkOfConcat(rs, table);
    PlacedAt(rs, 0, k);
  }

  /** A record added under a layout is one of the later records, at its true offset, and not one of the earlier ones. */
  lemma {:induction false} AddedIsNew(earlier: seq<Bytes>, later: seq<Bytes>, layout: Layout, tools: Tools,
                                      c: RecordCandidate)
    returns (k: nat)
    requires Positive(layout.table) && AllWellFormed(earlier, layout.table) && AllWellFormed(later, layout.table)
    requires c in AddedUnder(Concat(earlier), Concat(later), layout, tools)
    ensures k < |later| && later[k] !in earlier && Reports(c, later, k, layout, tools)
  {
    var table, after := layout.table, Concat(later);
    WalkOfConcat(earlier, table);
    WalkOfConcat(later, table);
    PlacedLength(later, 0);
    WalkIsPlacedWell(after, table);
    var placed := Walk(after, table, 0);
    NewOnesAre(placed, Earlier(Concat(earlier), table), layout, tools, c);
    k :| 0 <= k < |placed| && placed[k].record !in Earlier(Concat(earlier), table)
      && CandidateOf(placed[k], layout, tools) == c;
    WalkPlaces(later, table, k);
    ReportsAre(c, later, k, layout, tools);
  }

  lemma {:induction false} NewIsAdded(earlier: seq<Bytes>, later: seq<Bytes>, layout: Layout, tools: Tools,
                                      c: RecordCandidate, k: nat)
    requires Positive(layout.table) && AllWellFormed(earlier, layout.table) && AllWellFormed(later, layout.table)
    requires k < |later| && later[k] !in earlier && Reports(c, later, k, layout, tools)
    ensures c in AddedUnder(Concat(earlier), Concat(later), layout, tools)
  {
    var table, after := layout.table, Concat(later);
    WalkOfConcat(earlier, table);
    WalkPlaces(later, table, k);
    ReportsAre(c, later, k, layout, tools);
    WalkIsPlacedWell(after, table);
    var placed := Walk(after, table, 0);
    NewOnesAre(placed, Earlier(Concat(earlier), table), layout, tools, c);
    assert placed[k].record !in Earlier(Concat(earlier), table) && CandidateOf(placed[k], layout, tools) == c;
  }

  /**
   * Between two concatenations of records, what a layout reports as added is exactly the records of
   * the later one that the earlier one did not hold, each where the later blob has it.
   */
  lemma {:induction false} AddedIsByContent(earlier: seq<Bytes>, later: seq<Bytes>, layout: Layout, tools: Tools,
                                            c: RecordCandidate)
    requires Positive(layout.table) && AllWellFormed(earlier, layout.table) && AllWellFormed(later, layout.table)
    ensures c in AddedUnder(Concat(earlier), Concat(later), layout, tools) <==>
              exists k: nat :: k < |later| && later[k] !in earlier && Reports(c, later, k, layout, tools)
    ensures c in AddedUnder(Concat(earlier), Concat(later), layout, tools) ==>
              && c.offset + c.length <= |Concat(later)|
              && Concat(later)[c.offset..c.offset + c.length] in later
              && Concat(later)[c.offset..c.offset + c.length] !in earlier
  {
    if c in AddedUnder(Concat(earlier), Concat(later), layout, tools) {
      var k := AddedIsNew(earlier, later, layout, tools, c);
      ReportPointsAtItsRecord(c, later, k, layout, tools);
    }
    if k: nat :| k < |later| && later[k] !in earlier && Reports(c, later, k, layout, tools) {
      NewIsAdded(earlier, later, layout, tools, c, k);
    }
  }

  lemma {:induction false} WalkAscends(payload: Bytes, table: Table, offset: nat, j: nat, k: nat)
    requires Positive(table) && j < k < |Walk(payload, table, offset)|
    ensures offset <= Walk(payload, table, offset)[j].offset < Walk(payload, table, offset)[k].offset
    decreases |payload| - offset
  {
    var next := offset + table[payload[offset]].length;
    var walk, rest := Walk(payload, table, offset), Walk(payload, table, next);
    assert walk[1..] == rest && walk[k] == rest[k - 1];
    if j > 0 {
      WalkAscends(payload, table, next, j - 1, k - 1);
    } else {
      WalkStartsAfter(payload, table, next, k - 1);
    }
  }

  lemma {:induction false} WalkStartsAfter(payload: Bytes, table: Table, offset: nat, k: nat)
    requires Positive(table) && k < |Walk(payload, table, offset)|
    ensures offset <= Walk(payload, table, offset)[k].offset
    decreases |payload| - offset
  {
    if k == 0 {
    } else {
      var next := offset + table[payload[offset]].length;
      assert Walk(payload, table, offset)[1..] == Walk(payload, table, next);
      WalkStartsAfter(payload, table, next, k - 1);
    }
  }

  ghost predicate Ascending(placed: seq<Placed>) {
    forall j, k :: 0 <= j < k < |placed| ==> placed[j].offset < placed[k].offset
  }

  ghost predicate InOffsetOrder(added: seq<RecordCandidate>, end: nat) {
    && (forall j, k :: 0 <= j < k < |added| ==> added[j].offset < added[k].offset)
    && (forall k :: 0 <= k < |added| ==> added[k].offset < end)
  }

  lemma {:induction false} NewOnesAscend(placed: seq<Placed>, earlier: set<Bytes>, layout: Layout, tools: Tools,
                                         end: nat)
    requires AllPlacedWell(placed, layout.table) && Ascending(placed)
    requires forall k :: 0 <= k < |placed| ==> placed[k].offset < end
    ensures InOffsetOrder(NewOnes(placed, earlier, layout, tools), end)
  {
    if |placed| == 0 {
    } else {
      NewOnesAscend(placed[..|placed| - 1], earlier, layout, tools, placed[|placed| - 1].offset);
    }
  }

  lemma {:induction false} WalkStaysInside(payload: Bytes, table: Table, offset: nat, k: nat)
    requires Positive(table) && k < |Walk(payload, table, offset)|
    ensures Walk(payload, table, offset)[k].offset < |payload|
    decreases |payload| - offset
  {
    if k == 0 {
    } else {
      var next := offset + table[payload[offset]].length;
      assert Walk(payload, table, offset)[1..] == Walk(payload, table, next);
      WalkStaysInside(payload, table, next, k - 1);
    }
  }

  /** Under one layout the added records are reported once each, in the order they lie in the blob. */
  lemma {:induction false} AddedInOrder(before: Bytes, after: Bytes, layout: Layout, tools: Tools)
    requires Positive(layout.table)
    ensures InOffsetOrder(AddedUnder(before, after, layout, tools), |after|)
  {
    var placed := Walk(after, layout.table, 0);
    WalkIsPlacedWell(after, layout.table);
    forall j: nat, k: nat | j < k < |placed| ensures placed[j].offset < placed[k].offset {
      WalkAscends(after, layout.table, 0, j, k);
    }
    forall k: nat | k < |placed| ensures placed[k].offset < |after| {
      WalkStaysInside(after, layout.table, 0, k);
    }
    NewOnesAscend(placed, Earlier(before, layout.table), layout, tools, |after|);
  }

  /** So writing the same records back in any order, or losing some, adds nothing. */
  lemma {:induction false} ReorderingAddsNothing(earlier: seq<Bytes>, later: seq<Bytes>, layout: Layout, tools: Tools)
    requires Positive(layout.table) && AllWellFormed(earlier, layout.table) && AllWellFormed(later, layout.table)
    requires forall r :: r in later ==> r in earlier
    ensures AddedUnder(Concat(earlier), Concat(later), layout, tools) == []
  {
    var added := AddedUnder(Concat(earlier), Concat(later), layout, tools);
    if |added| > 0 {
      var k := AddedIsNew(earlier, later, layout, tools, added[0]);
      assert false;
    }
  }

  ghost predicate AddedByVerdict(before: Bytes, after: Bytes, v: Verdict, tools: Tools, c: RecordCandidate)
    requires Positive(v.layout.table)
  {
    Parses(after, v.layout.table) && c in AddedUnder(before, after, v.layout, tools)
  }

  lemma {:induction false} AddedLast(before: Bytes, after: Bytes, verdicts: seq<Verdict>, tools: Tools,
                                     c: RecordCandidate)
    requires VerdictsOn(verdicts, after) && |verdicts| > 0
    ensures var front, last := verdicts[..|verdicts| - 1], verdicts[|verdicts| - 1];
            && VerdictsOn(front, after)
            && (c in Added(before, after, verdicts, tools) <==>
                  c in Added(before, after, front, tools) || AddedByVerdict(before, after, last, tools, c))
  {
    var front, last := verdicts[..|verdicts| - 1], verdicts[|verdicts| - 1];
    ExactMeansParses(after, last.layout);
    var here := if last.exact then AddedUnder(before, after, last.layout, tools) else [];
    assert Added(before, after, verdicts, tools) == Added(before, after, front, tools) + here;
  }

  lemma {:induction false} AddedHasAVerdict(before: Bytes, after: Bytes, verdicts: seq<Verdict>, tools: Tools,
                                            c: RecordCandidate)
    returns (k: nat)
    requires VerdictsOn(verdicts, after) && c in Added(before, after, verdicts, tools)
    ensures k < |verdicts| && AddedByVerdict(before, after, verdicts[k], tools, c)
  {
    var front := verdicts[..|verdicts| - 1];
    AddedLast(before, after, verdicts, tools, c);
    if c in Added(before, after, front, tools) {
      k := AddedHasAVerdict(before, after, front, tools, c);
    } else {
      k := |verdicts| - 1;
    }
  }

  lemma {:induction false} VerdictAdds(before: Bytes, after: Bytes, verdicts: seq<Verdict>, tools: Tools,
                                       c: RecordCandidate, k: nat)
    requires VerdictsOn(verdicts, after) && k < |verdicts| && AddedByVerdict(before, after, verdicts[k], tools, c)
    ensures c in Added(before, after, verdicts, tools)
  {
    AddedLast(before, after, verdicts, tools, c);
    if k < |verdicts| - 1 {
      VerdictAdds(before, after, verdicts[..|verdicts| - 1], tools, c, k);
    }
  }

  /** A layout is read from only when the later blob is a non-empty concatenation of its records. */
  lemma {:induction false} AddedComesFromExactLayouts(before: Bytes, after: Bytes, verdicts: seq<Verdict>,
                                                      tools: Tools, c: RecordCandidate)
    requires VerdictsOn(verdicts, after)
    ensures c in Added(before, after, verdicts, tools) <==>
              exists k: nat :: k < |verdicts| && AddedByVerdict(before, after, verdicts[k], tools, c)
  {
    if c in Added(before, after, verdicts, tools) {
      var k := AddedHasAVerdict(before, after, verdicts, tools, c);
    }
    if k: nat :| k < |verdicts| && AddedByVerdict(before, after, verdicts[k], tools, c) {
      VerdictAdds(before, after, verdicts, tools, c, k);
    }
  }
}
