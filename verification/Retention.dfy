/**
 * Bounding the history database: a row budget by insertion order, then a retention window measured
 * against a rank statistic of every timestamp.
 */
module Retention {
  import opened Common

  const ROBUST_RANK: nat := 10
  const PRUNE_MIN_TABLE_ROWS: nat := 20
  const DAY_NS: int := 86_400 * 1_000_000_000

  /** One row: its key, in insertion order, and the timestamp that dates it. */
  datatype Row = Row(id: nat, wall: int)

  type Table = seq<Row>

  ghost predicate Keyed(t: Table) {
    forall j, k :: 0 <= j < k < |t| ==> t[j].id < t[k].id
  }

  // ---------------------------------------------------------------- the row budget

  /** DELETE ... WHERE id <= `bound`. */
  function AboveId(t: Table, bound: nat): Table {
    if |t| == 0 then []
    else AboveId(t[..|t| - 1], bound) + (if t[|t| - 1].id <= bound then [] else [t[|t| - 1]])
  }

  /** The bound is the id at offset `max` from the highest; with no such row nothing is deleted. */
  function Budgeted(t: Table, max: nat): Table {
    if |t| <= max then t else AboveId(t, t[|t| - 1 - max].id)
  }

  lemma {:induction false} AboveIdIsASuffix(t: Table, k: nat)
    requires Keyed(t) && k < |t|
    ensures AboveId(t, t[k].id) == t[k + 1..]
  {
    var front := t[..|t| - 1];
    if k < |t| - 1 {
      AboveIdIsASuffix(front, k);
      assert t[k + 1..] == front[k + 1..] + [t[|t| - 1]];
    } else {
      NoneAbove(front, t[k].id);
    }
  }

  lemma {:induction false} NoneAbove(t: Table, bound: nat)
    requires forall k :: 0 <= k < |t| ==> t[k].id <= bound
    ensures AboveId(t, bound) == []
  {
    if |t| == 0 {
    } else {
      NoneAbove(t[..|t| - 1], bound);
    }
  }

  /** The budget keeps exactly the rows with the highest ids, at most `max` of them. */
  lemma {:induction false} BudgetKeepsTheNewestKeys(t: Table, max: nat)
    requires Keyed(t)
    ensures Budgeted(t, max) == if |t| <= max then t else t[|t| - max..]
  {
    if |t| > max {
      AboveIdIsASuffix(t, |t| - 1 - max);
    }
  }

  // ---------------------------------------------------------------- the reference

  function Stamps(t: Table): seq<int> {
    if |t| == 0 then [] else Stamps(t[..|t| - 1]) + [t[|t| - 1].wall]
  }

  /** The timestamps of every table: the UNION ALL. */
  function AllStamps(tables: seq<Table>): seq<int> {
    if |tables| == 0 then [] else AllStamps(tables[..|tables| - 1]) + Stamps(tables[|tables| - 1])
  }

  predicate Later(a: int, b: int) {
    a >= b
  }

  function Newest(stamps: seq<int>): int
    requires |stamps| > 0
  {
    if |stamps| == 1 then stamps[0]
    else
      var rest := Newest(stamps[..|stamps| - 1]);
      if rest < stamps[|stamps| - 1] then stamps[|stamps| - 1] else rest
  }

  /** The row at offset 10, newest first; the newest with fewer rows than that; nothing with no rows. */
  function Ranked(stamps: seq<int>): Option<int> {
    if |stamps| > ROBUST_RANK then
      SortByMembers(stamps, Later);
      Some(SortBy(stamps, Later)[ROBUST_RANK])
    else if |stamps| > 0 then Some(Newest(stamps))
    else None
  }

  function Reference(tables: seq<Table>, now: int): int {
    match Ranked(AllStamps(tables))
    case None => now
    case Some(r) => if now < r then now else r
  }

  // ---------------------------------------------------------------- the retention window

  /** DELETE ... WHERE wall < `cutoff`. */
  function Since(t: Table, cutoff: int): Table {
    if |t| == 0 then []
    else Since(t[..|t| - 1], cutoff) + (if t[|t| - 1].wall < cutoff then [] else [t[|t| - 1]])
  }

  function Doomed(t: Table, cutoff: int): nat {
    if |t| == 0 then 0 else Doomed(t[..|t| - 1], cutoff) + (if t[|t| - 1].wall < cutoff then 1 else 0)
  }

  /** A sweep that would take more than a quarter of a table of any size worth the name is refused. */
  predicate Refuses(t: Table, cutoff: int) {
    |t| >= PRUNE_MIN_TABLE_ROWS && 4 * Doomed(t, cutoff) > |t|
  }

  function Swept(t: Table, cutoff: int): Table {
    if Refuses(t, cutoff) then t else Since(t, cutoff)
  }

  // ---------------------------------------------------------------- whole databases

  function BudgetAll(tables: seq<Table>, max: nat): (r: seq<Table>)
    ensures |r| == |tables|
  {
    if |tables| == 0 then [] else BudgetAll(tables[..|tables| - 1], max) + [Budgeted(tables[|tables| - 1], max)]
  }

  function SweepAll(tables: seq<Table>, cutoff: int): (r: seq<Table>)
    ensures |r| == |tables|
  {
    if |tables| == 0 then [] else SweepAll(tables[..|tables| - 1], cutoff) + [Swept(tables[|tables| - 1], cutoff)]
  }

  /** One refusal: which table, how many rows were doomed, of how many. */
  datatype Refusal = Refusal(table: nat, doomed: nat, total: nat)

  function Refusals(tables: seq<Table>, cutoff: int): seq<Refusal> {
    if |tables| == 0 then []
    else
      var n := |tables| - 1;
      Refusals(tables[..n], cutoff)
      + (if Refuses(tables[n], cutoff) then [Refusal(n, Doomed(tables[n], cutoff), |tables[n]|)] else [])
  }

  function Total(tables: seq<Table>): nat {
    if |tables| == 0 then 0 else Total(tables[..|tables| - 1]) + |tables[|tables| - 1]|
  }

  function AfterBudget(tables: seq<Table>, maxRows: int): seq<Table> {
    if maxRows > 0 then BudgetAll(tables, maxRows) else tables
  }

  function Cutoff(tables: seq<Table>, retainDays: int, now: int): int {
    Reference(tables, now) - retainDays * DAY_NS
  }

  /** The database after one prune, and the tables it refused. */
  function Pruned(tables: seq<Table>, retainDays: int, maxRows: int, now: int): (seq<Table>, seq<Refusal>) {
    var kept := AfterBudget(tables, maxRows);
    if retainDays > 0 then
      var cutoff := Cutoff(kept, retainDays, now);
      (SweepAll(kept, cutoff), Refusals(kept, cutoff))
    else (kept, [])
  }

  // ---------------------------------------------------------------- counting timestamps

  /** How many stamps are at or after `v`. */
  function AtLeast(stamps: seq<int>, v: int): nat {
    if |stamps| == 0 then 0 else AtLeast(stamps[..|stamps| - 1], v) + (if stamps[|stamps| - 1] >= v then 1 else 0)
  }

  lemma {:induction false} AtLeastAdds(xs: seq<int>, ys: seq<int>, v: int)
    ensures AtLeast(xs + ys, v) == AtLeast(xs, v) + AtLeast(ys, v)
  {
    if |ys| == 0 {
      assert xs + ys == xs;
    } else {
      AtLeastAdds(xs, ys[..|ys| - 1], v);
      assert (xs + ys)[..|xs + ys| - 1] == xs + ys[..|ys| - 1];
    }
  }

  lemma {:induction false} AtLeastSorted(xs: seq<int>, v: int)
    ensures AtLeast(SortBy(xs, Later), v) == AtLeast(xs, v)
  {
    if |xs| == 0 {
    } else {
      AtLeastSorted(xs[1..], v);
      AtLeastInserted(xs[0], SortBy(xs[1..], Later), v);
      AtLeastAdds([xs[0]], xs[1..], v);
      assert [xs[0]] + xs[1..] == xs;
    }
  }

  lemma {:induction false} AtLeastInserted(x: int, xs: seq<int>, v: int)
    ensures AtLeast(InsertBy(x, xs, Later), v) == AtLeast([x], v) + AtLeast(xs, v)
  {
    if |xs| == 0 {
      assert AtLeast(xs, v) == 0;
    } else if Later(x, xs[0]) {
      AtLeastAdds([x], xs, v);
    } else {
      AtLeastInserted(x, xs[1..], v);
      AtLeastAdds([xs[0]], InsertBy(x, xs[1..], Later), v);
      AtLeastAdds([xs[0]], xs[1..], v);
      assert [xs[0]] + xs[1..] == xs;
    }
  }

  lemma {:induction false} AtLeastBounds(s: seq<int>, k: nat, v: int)
    requires SortedBy(s, Later) && k < |s|
    ensures s[k] >= v ==> AtLeast(s, v) >= k + 1
    ensures s[k] < v ==> AtLeast(s, v) <= k
  {
    var front := s[..|s| - 1];
    if k < |s| - 1 {
      AtLeastBounds(front, k, v);
      assert Later(s[k], s[|s| - 1]);
    } else if s[k] >= v {
      forall j | 0 <= j < |s| ensures s[j] >= v {
        assert j < k ==> Later(s[j], s[k]);
      }
      AllAtLeast(s, v);
    } else {
      AtLeastIsBounded(front, v);
    }
  }

  lemma {:induction false} AllAtLeast(s: seq<int>, v: int)
    requires forall j :: 0 <= j < |s| ==> s[j] >= v
    ensures AtLeast(s, v) == |s|
  {
    if |s| == 0 {
    } else {
      AllAtLeast(s[..|s| - 1], v);
    }
  }

  lemma {:induction false} AtLeastIsBounded(s: seq<int>, v: int)
    ensures AtLeast(s, v) <= |s|
  {
    if |s| == 0 {
    } else {
      AtLeastIsBounded(s[..|s| - 1], v);
    }
  }

  lemma {:induction false} LaterIsTotal()
    ensures TotalPreorder(Later)
  {
  }

  /** The rank statistic is at or after `v` exactly when more than ten stamps are. */
  lemma {:induction false} RankCounts(stamps: seq<int>, v: int)
    requires |stamps| > ROBUST_RANK
    ensures Ranked(stamps).value >= v <==> AtLeast(stamps, v) > ROBUST_RANK
  {
    SortByMembers(stamps, Later);
    LaterIsTotal();
    SortBySorts(stamps, Later);
    AtLeastSorted(stamps, v);
    AtLeastBounds(SortBy(stamps, Later), ROBUST_RANK, v);
  }

  lemma {:induction false} NewestCounts(stamps: seq<int>, v: int)
    requires |stamps| > 0
    ensures Newest(stamps) >= v <==> AtLeast(stamps, v) > 0
  {
    if |stamps| <= 1 {
    } else {
      NewestCounts(stamps[..|stamps| - 1], v);
    }
  }

  /** How many stamps can be later than the reference. */
  function Outliers(stamps: seq<int>): nat {
    if |stamps| > ROBUST_RANK then ROBUST_RANK else 0
  }

  lemma {:induction false} RankedCounts(stamps: seq<int>, v: int)
    requires |stamps| > 0
    ensures Ranked(stamps).Some? && (Ranked(stamps).value >= v <==> AtLeast(stamps, v) > Outliers(stamps))
  {
    if |stamps| > ROBUST_RANK {
      RankCounts(stamps, v);
    } else {
      NewestCounts(stamps, v);
    }
  }

  // ---------------------------------------------------------------- what a sweep removes

  lemma {:induction false} SinceMembers(t: Table, cutoff: int, r: Row)
    ensures r in Since(t, cutoff) <==> r in t && r.wall >= cutoff
  {
    if |t| == 0 {
    } else {
      SinceMembers(t[..|t| - 1], cutoff, r);
      assert t == t[..|t| - 1] + [t[|t| - 1]];
    }
  }

  lemma {:induction false} SinceCounts(t: Table, cutoff: int)
    ensures |Since(t, cutoff)| == |t| - Doomed(t, cutoff)
    ensures Doomed(Since(t, cutoff), cutoff) == 0 && Since(Since(t, cutoff), cutoff) == Since(t, cutoff)
  {
    if |t| == 0 {
    } else {
      var front, last := Since(t[..|t| - 1], cutoff), t[|t| - 1];
      SinceCounts(t[..|t| - 1], cutoff);
      if last.wall >= cutoff {
        assert (front + [last])[..|front|] == front;
      } else {
        assert Since(t, cutoff) == front;
      }
    }
  }

  /** No sweep takes more than a quarter of a table of twenty rows or more, whatever the cutoff. */
  lemma {:induction false} NeverMoreThanAQuarter(t: Table, cutoff: int)
    requires |t| >= PRUNE_MIN_TABLE_ROWS
    ensures 4 * (|t| - |Swept(t, cutoff)|) <= |t|
  {
    SinceCounts(t, cutoff);
  }

  lemma {:induction false} SweptAt(tables: seq<Table>, cutoff: int, k: nat)
    requires k < |tables|
    ensures SweepAll(tables, cutoff)[k] == Swept(tables[k], cutoff)
  {
    if k == |tables| - 1 {
    } else {
      SweptAt(tables[..|tables| - 1], cutoff, k);
    }
  }

  lemma {:induction false} BudgetAt(tables: seq<Table>, max: nat, k: nat)
    requires k < |tables|
    ensures BudgetAll(tables, max)[k] == Budgeted(tables[k], max)
  {
    if k == |tables| - 1 {
    } else {
      BudgetAt(tables[..|tables| - 1], max, k);
    }
  }

  /** A table's refusal is recorded exactly when the sweep would have taken too much of it. */
  lemma {:induction false} RefusalsAreRecorded(tables: seq<Table>, cutoff: int, k: nat)
    requires k < |tables|
    ensures Refuses(tables[k], cutoff) <==>
            Refusal(k, Doomed(tables[k], cutoff), |tables[k]|) in Refusals(tables, cutoff)
  {
    if k < |tables| - 1 {
      RefusalsAreRecorded(tables[..|tables| - 1], cutoff, k);
    } else {
      RefusalsAreInRange(tables[..|tables| - 1], cutoff);
    }
  }

  lemma {:induction false} RefusalsAreInRange(tables: seq<Table>, cutoff: int)
    ensures forall r :: r in Refusals(tables, cutoff) ==> r.table < |tables|
  {
    if |tables| == 0 {
    } else {
      RefusalsAreInRange(tables[..|tables| - 1], cutoff);
    }
  }

  // ---------------------------------------------------------------- main theorem: a few bad stamps cost nothing

  lemma {:induction false} ReferenceIsRobust(tables: seq<Table>, now: int, limit: int)
    requires |AllStamps(tables)| > ROBUST_RANK && AtLeast(AllStamps(tables), limit + 1) <= ROBUST_RANK
    ensures Reference(tables, now) <= limit
  {
    RankedCounts(AllStamps(tables), limit + 1);
  }

  /**
   * With more than ten rows after the budget, of which at most ten are stamped later than `limit`,
   * no row stamped within the retention window before `limit` is removed by the sweep.
   */
  lemma {:induction false} FewBadStampsCostNothing(tables: seq<Table>, retainDays: int, maxRows: int, now: int,
                                                   limit: int, k: nat, r: Row)
    requires k < |tables| && retainDays > 0
    requires var kept := AfterBudget(tables, maxRows);
             && |AllStamps(kept)| > ROBUST_RANK && AtLeast(AllStamps(kept), limit + 1) <= ROBUST_RANK
             && r in kept[k] && r.wall >= limit - retainDays * DAY_NS
    ensures r in Pruned(tables, retainDays, maxRows, now).0[k]
  {
    var kept := AfterBudget(tables, maxRows);
    var cutoff := Cutoff(kept, retainDays, now);
    ReferenceIsRobust(kept, now, limit);
    SweptAt(kept, cutoff, k);
    SinceMembers(kept[k], cutoff, r);
  }

  /** Eleven bad stamps do move the reference: the rank is the eleventh newest, and only that one. */
  lemma {:induction false} ElevenBadStampsMoveTheReference(tables: seq<Table>, now: int, limit: int)
    requires |AllStamps(tables)| > ROBUST_RANK && now > limit
    ensures Reference(tables, now) > limit <==> AtLeast(AllStamps(tables), limit + 1) >= 11
  {
    RankedCounts(AllStamps(tables), limit + 1);
  }

  // ---------------------------------------------------------------- main theorem: a second prune does nothing

  lemma {:induction false} SweptKeepsLate(t: Table, cutoff: int, v: int)
    requires v >= cutoff
    ensures AtLeast(Stamps(Since(t, cutoff)), v) == AtLeast(Stamps(t), v)
    ensures |Stamps(Since(t, cutoff))| <= |Stamps(t)|
  {
    if |t| == 0 {
    } else {
      var front, last := Since(t[..|t| - 1], cutoff), t[|t| - 1];
      SweptKeepsLate(t[..|t| - 1], cutoff, v);
      if last.wall >= cutoff {
        assert (front + [last])[..|front|] == front;
        AtLeastAdds(Stamps(front), [last.wall], v);
        AtLeastAdds(Stamps(t[..|t| - 1]), [last.wall], v);
      } else {
        assert Since(t, cutoff) == front;
        AtLeastAdds(Stamps(t[..|t| - 1]), [last.wall], v);
      }
    }
  }

  lemma {:induction false} SweepKeepsLate(tables: seq<Table>, cutoff: int, v: int)
    requires v >= cutoff
    ensures AtLeast(AllStamps(SweepAll(tables, cutoff)), v) == AtLeast(AllStamps(tables), v)
    ensures |AllStamps(SweepAll(tables, cutoff))| <= |AllStamps(tables)|
  {
    if |tables| == 0 {
    } else {
      var front, last := tables[..|tables| - 1], tables[|tables| - 1];
      SweepKeepsLate(front, cutoff, v);
      SweptKeepsLate(last, cutoff, v);
      AtLeastAdds(AllStamps(front), Stamps(last), v);
      assert SweepAll(tables, cutoff)[..|tables| - 1] == SweepAll(front, cutoff);
      AtLeastAdds(AllStamps(SweepAll(front, cutoff)), Stamps(Swept(last, cutoff)), v);
    }
  }

  /** The rows that define the reference survive the sweep, so it is the same afterwards. */
  lemma {:induction false} ReferenceSurvives(tables: seq<Table>, now: int, cutoff: int)
    requires cutoff < Reference(tables, now)
    ensures Reference(SweepAll(tables, cutoff), now) == Reference(tables, now)
  {
    var before, after := AllStamps(tables), AllStamps(SweepAll(tables, cutoff));
    SweepKeepsLate(tables, cutoff, cutoff);
    if |before| > 0 {
      RankedCounts(before, cutoff);
      var r := Ranked(before).value;
      RankedCounts(before, r);
      RankedCounts(before, r + 1);
      SweepKeepsLate(tables, cutoff, r);
      SweepKeepsLate(tables, cutoff, r + 1);
      AtLeastIsBounded(after, r);
      RankedCounts(after, r);
      RankedCounts(after, r + 1);
    }
  }

  lemma {:induction false} SweepTwice(tables: seq<Table>, cutoff: int)
    ensures SweepAll(SweepAll(tables, cutoff), cutoff) == SweepAll(tables, cutoff)
    ensures Refusals(SweepAll(tables, cutoff), cutoff) == Refusals(tables, cutoff)
  {
    if |tables| == 0 {
    } else {
      var n := |tables| - 1;
      SweepTwice(tables[..n], cutoff);
      SinceCounts(tables[n], cutoff);
      assert SweepAll(tables, cutoff)[..n] == SweepAll(tables[..n], cutoff);
    }
  }

  ghost predicate AllKeyed(tables: seq<Table>) {
    forall k :: 0 <= k < |tables| ==> Keyed(tables[k])
  }

  lemma {:induction false} SweptIsShort(tables: seq<Table>, cutoff: int, max: nat)
    requires forall k :: 0 <= k < |tables| ==> |tables[k]| <= max
    ensures forall k :: 0 <= k < |tables| ==> |SweepAll(tables, cutoff)[k]| <= max
  {
    forall k: nat | k < |tables| ensures |SweepAll(tables, cutoff)[k]| <= max {
      SweptAt(tables, cutoff, k);
      SinceCounts(tables[k], cutoff);
    }
  }

  lemma {:induction false} BudgetIsShort(tables: seq<Table>, max: nat)
    requires AllKeyed(tables)
    ensures forall k :: 0 <= k < |tables| ==> |BudgetAll(tables, max)[k]| <= max
  {
    forall k: nat | k < |tables| ensures |BudgetAll(tables, max)[k]| <= max {
      BudgetAt(tables, max, k);
      BudgetKeepsTheNewestKeys(tables[k], max);
    }
  }

  lemma {:induction false} WithinBudget(tables: seq<Table>, max: nat)
    requires forall k :: 0 <= k < |tables| ==> |tables[k]| <= max
    ensures BudgetAll(tables, max) == tables
  {
    forall k: nat | k < |tables| ensures BudgetAll(tables, max)[k] == tables[k] {
      BudgetAt(tables, max, k);
    }
  }

  lemma {:induction false} ResweepDoesNothing(kept: seq<Table>, retainDays: int, now: int)
    requires retainDays > 0
    ensures var cutoff := Cutoff(kept, retainDays, now);
            var once := SweepAll(kept, cutoff);
            && Cutoff(once, retainDays, now) == cutoff
            && SweepAll(once, cutoff) == once && Refusals(once, cutoff) == Refusals(kept, cutoff)
  {
    var cutoff := Cutoff(kept, retainDays, now);
    assert cutoff < Reference(kept, now);
    ReferenceSurvives(kept, now, cutoff);
    SweepTwice(kept, cutoff);
  }

  lemma {:induction false} RebudgetDoesNothing(tables: seq<Table>, maxRows: int, cutoff: int)
    requires AllKeyed(tables)
    ensures var kept := AfterBudget(tables, maxRows);
            AfterBudget(kept, maxRows) == kept && AfterBudget(SweepAll(kept, cutoff), maxRows) == SweepAll(kept, cutoff)
  {
    if maxRows > 0 {
      var kept := BudgetAll(tables, maxRows);
      BudgetIsShort(tables, maxRows);
      WithinBudget(kept, maxRows);
      SweptIsShort(kept, cutoff, maxRows);
      WithinBudget(SweepAll(kept, cutoff), maxRows);
    }
  }

  /** With the clock standing still, a second prune removes nothing and refuses the same tables. */
  lemma {:induction false} PruneIsIdempotent(tables: seq<Table>, retainDays: int, maxRows: int, now: int)
    requires AllKeyed(tables)
    ensures var (once, refused) := Pruned(tables, retainDays, maxRows, now);
            Pruned(once, retainDays, maxRows, now) == (once, refused)
  {
    var kept := AfterBudget(tables, maxRows);
    RebudgetDoesNothing(tables, maxRows, Cutoff(kept, retainDays, now));
    if retainDays > 0 {
      ResweepDoesNothing(kept, retainDays, now);
    }
  }

  lemma {:induction false} SweptIsAPart(t: Table, cutoff: int)
    ensures |Swept(t, cutoff)| <= |t| && forall r :: r in Swept(t, cutoff) ==> r in t
  {
    SinceCounts(t, cutoff);
    forall r | r in Swept(t, cutoff) ensures r in t {
      SinceMembers(t, cutoff, r);
    }
  }

  /** The rows the budget leaves of one table. */
  function Highest(t: Table, max: nat): Table {
    if |t| <= max then t else t[|t| - max..]
  }

  /** After a prune with a budget every table holds at most that many rows, all from its highest keys. */
  lemma {:induction false} BudgetBoundsEveryTable(tables: seq<Table>, retainDays: int, maxRows: int, now: int, k: nat)
    requires AllKeyed(tables) && maxRows > 0 && k < |tables|
    ensures var after := Pruned(tables, retainDays, maxRows, now).0[k];
            |after| <= maxRows && forall r :: r in after ==> r in Highest(tables[k], maxRows)
  {
    var kept := AfterBudget(tables, maxRows);
    var cutoff := Cutoff(kept, retainDays, now);
    BudgetAt(tables, maxRows, k);
    BudgetKeepsTheNewestKeys(tables[k], maxRows);
    assert kept[k] == Highest(tables[k], maxRows);
    if retainDays > 0 {
      SweptAt(kept, cutoff, k);
      SweptIsAPart(kept[k], cutoff);
    }
  }

  // ---------------------------------------------------------------- main theorem: exactly what a prune leaves

  predicate StampedBefore(t: Table, cutoff: int, i: nat) {
    i < |t| && t[i].wall < cutoff
  }

  /** How many rows of a table are stamped before `cutoff`. */
  ghost function Expired(t: Table, cutoff: int): nat {
    |set i: nat | i < |t| && StampedBefore(t, cutoff, i)|
  }

  /** The rows of all tables stamped at or after `v`. */
  ghost function StampedSince(tables: seq<Table>, v: int): int {
    if |tables| == 0 then 0
    else
      var last := tables[|tables| - 1];
      StampedSince(tables[..|tables| - 1], v) + |last| - Expired(last, v)
  }

  /** What the row budget leaves of every table. */
  ghost function Within(tables: seq<Table>, maxRows: int): (r: seq<Table>) {
    seq(|tables|, k requires 0 <= k < |tables| => if maxRows > 0 then Highest(tables[k], maxRows) else tables[k])
  }

  /**
   * `reference` is the stamp of a row such that ten other rows, or none with ten rows or fewer, can
   * be stamped later.
   */
  ghost predicate IsReference(tables: seq<Table>, reference: int) {
    var later := if Total(tables) > 10 then 10 else 0;
    StampedSince(tables, reference + 1) <= later < StampedSince(tables, reference)
  }

  /** The cutoff is `days` days before the reference, or before now if the reference lies ahead of it. */
  ghost predicate IsCutoff(tables: seq<Table>, days: int, now: int, cutoff: int) {
    if Total(tables) == 0 then cutoff == now - days * DAY_NS
    else exists r :: IsReference(tables, r) && cutoff == (if r <= now then r else now) - days * DAY_NS
  }

  /** A sweep at `cutoff` keeps the row: it is not expired, or too much of its table is. */
  ghost predicate Spared(t: Table, cutoff: int, r: Row) {
    r.wall >= cutoff || TooMuch(t, cutoff)
  }

  ghost predicate TooMuch(t: Table, cutoff: int) {
    |t| >= 20 && 4 * Expired(t, cutoff) > |t|
  }

  lemma {:induction false} ExpiredStep(t: Table, cutoff: int)
    requires |t| > 0
    ensures Expired(t, cutoff) == Expired(t[..|t| - 1], cutoff) + (if t[|t| - 1].wall < cutoff then 1 else 0)
  {
    var n := |t| - 1;
    var front := set i: nat | i < |t[..n]| && StampedBefore(t[..n], cutoff, i);
    var all := set i: nat | i < |t| && StampedBefore(t, cutoff, i);
    assert all == if t[n].wall < cutoff then front + {n} else front;
  }

  lemma {:induction false} DoomedAreExpired(t: Table, cutoff: int)
    ensures Doomed(t, cutoff) == Expired(t, cutoff) <= |t|
  {
    if |t| == 0 {
      assert (set i: nat | i < |t| && StampedBefore(t, cutoff, i)) == {};
    } else {
      ExpiredStep(t, cutoff);
      DoomedAreExpired(t[..|t| - 1], cutoff);
    }
  }

  lemma {:induction false} StampsSince(t: Table, v: int)
    ensures |Stamps(t)| == |t| && AtLeast(Stamps(t), v) == |t| - Doomed(t, v)
  {
    if |t| == 0 {
    } else {
      StampsSince(t[..|t| - 1], v);
      AtLeastAdds(Stamps(t[..|t| - 1]), [t[|t| - 1].wall], v);
    }
  }

  lemma {:induction false} AllStampsSince(tables: seq<Table>, v: int)
    ensures |AllStamps(tables)| == Total(tables) && AtLeast(AllStamps(tables), v) == StampedSince(tables, v)
  {
    if |tables| == 0 {
    } else {
      var front, last := tables[..|tables| - 1], tables[|tables| - 1];
      AllStampsSince(front, v);
      StampsSince(last, v);
      DoomedAreExpired(last, v);
      AtLeastAdds(AllStamps(front), Stamps(last), v);
    }
  }

  /** The reference never lies ahead of now, and is the rank statistic when that does not either. */
  lemma {:induction false} CutoffIsRight(tables: seq<Table>, days: int, now: int)
    ensures Reference(tables, now) <= now
    ensures IsCutoff(tables, days, now, Cutoff(tables, days, now))
  {
    AllStampsSince(tables, 0);
    if Total(tables) > 0 {
      var r := RankedStamp(tables);
      assert IsReference(tables, r);
    }
  }

  lemma {:induction false} RankedStamp(tables: seq<Table>) returns (r: int)
    requires Total(tables) > 0
    ensures Ranked(AllStamps(tables)) == Some(r) && IsReference(tables, r)
  {
    var stamps := AllStamps(tables);
    AllStampsSince(tables, 0);
    RankedCounts(stamps, 0);
    r := Ranked(stamps).value;
    RankedCounts(stamps, r);
    RankedCounts(stamps, r + 1);
    AllStampsSince(tables, r);
    AllStampsSince(tables, r + 1);
  }

  lemma {:induction false} BudgetIsWithin(tables: seq<Table>, maxRows: int)
    requires AllKeyed(tables)
    ensures AfterBudget(tables, maxRows) == Within(tables, maxRows)
  {
    if maxRows > 0 {
      forall k: nat | k < |tables| ensures BudgetAll(tables, maxRows)[k] == Within(tables, maxRows)[k] {
        BudgetAt(tables, maxRows, k);
        BudgetKeepsTheNewestKeys(tables[k], maxRows);
      }
    }
  }

  lemma {:induction false} SweptExactly(tables: seq<Table>, cutoff: int, k: nat, r: Row)
    requires k < |tables|
    ensures r in SweepAll(tables, cutoff)[k] <==> r in tables[k] && Spared(tables[k], cutoff, r)
  {
    SweptAt(tables, cutoff, k);
    DoomedAreExpired(tables[k], cutoff);
    SinceMembers(tables[k], cutoff, r);
  }

  lemma {:induction false} SinceIsKeyed(t: Table, cutoff: int)
    requires Keyed(t)
    ensures Keyed(Since(t, cutoff)) && forall r :: r in Since(t, cutoff) ==> r in t
  {
    if |t| == 0 {
    } else {
      var front := t[..|t| - 1];
      SinceIsKeyed(front, cutoff);
      forall r | r in front ensures r.id < t[|t| - 1].id {
      }
    }
  }

  lemma {:induction false} SweptIsKeyed(tables: seq<Table>, cutoff: int, k: nat)
    requires k < |tables| && Keyed(tables[k])
    ensures Keyed(SweepAll(tables, cutoff)[k])
  {
    SweptAt(tables, cutoff, k);
    SinceIsKeyed(tables[k], cutoff);
  }

  /** `after` holds, in key order, exactly the rows that a sweep of `t` at `cutoff` spares. */
  ghost predicate Leaves(t: Table, cutoff: int, after: Table) {
    Keyed(after) && forall r: Row :: r in after <==> r in t && Spared(t, cutoff, r)
  }

  lemma {:induction false} SweepLeaves(tables: seq<Table>, cutoff: int, k: nat)
    requires k < |tables| && Keyed(tables[k])
    ensures Leaves(tables[k], cutoff, SweepAll(tables, cutoff)[k])
  {
    SweptIsKeyed(tables, cutoff, k);
    forall r: Row ensures r in SweepAll(tables, cutoff)[k] <==> r in tables[k] && Spared(tables[k], cutoff, r) {
      SweptExactly(tables, cutoff, k, r);
    }
  }

  lemma {:induction false} WithinIsKeyed(tables: seq<Table>, maxRows: int, k: nat)
    requires AllKeyed(tables) && k < |tables|
    ensures Keyed(Within(tables, maxRows)[k])
  {
  }

  /**
   * Exactly what a prune with a window leaves: in every table the rows within the budget that are
   * not before the cutoff, and all of them where more than a quarter of twenty or more would go,
   * which is then refused.
   */
  lemma {:induction false} PruneLeavesExactly(tables: seq<Table>, retainDays: int, maxRows: int, now: int)
    returns (cutoff: int)
    requires AllKeyed(tables) && retainDays > 0
    ensures IsCutoff(Within(tables, maxRows), retainDays, now, cutoff)
    ensures var (after, refused) := Pruned(tables, retainDays, maxRows, now);
            && |after| == |tables|
            && (forall k: nat :: k < |tables| ==> Leaves(Within(tables, maxRows)[k], cutoff, after[k]))
            && (forall x: Refusal :: x in refused <==> RefusedAs(Within(tables, maxRows), cutoff, x))
  {
    var kept := Within(tables, maxRows);
    BudgetIsWithin(tables, maxRows);
    cutoff := Cutoff(kept, retainDays, now);
    CutoffIsRight(kept, retainDays, now);
    forall k: nat | k < |tables| ensures Leaves(kept[k], cutoff, SweepAll(kept, cutoff)[k]) {
      WithinIsKeyed(tables, maxRows, k);
      SweepLeaves(kept, cutoff, k);
    }
    forall x: Refusal ensures x in Refusals(kept, cutoff) <==> RefusedAs(kept, cutoff, x) {
      RefusedExactly(kept, cutoff, x);
    }
  }

  /** And a prune without a window leaves exactly the rows within the budget. */
  lemma {:induction false} NoWindowNoSweep(tables: seq<Table>, retainDays: int, maxRows: int, now: int)
    requires AllKeyed(tables) && retainDays <= 0
    ensures Pruned(tables, retainDays, maxRows, now) == (Within(tables, maxRows), [])
  {
    BudgetIsWithin(tables, maxRows);
  }

  /** A table of which too much would go, with its counts. */
  ghost predicate RefusedAs(tables: seq<Table>, cutoff: int, x: Refusal) {
    && x.table < |tables| && TooMuch(tables[x.table], cutoff)
    && x.doomed == Expired(tables[x.table], cutoff) && x.total == |tables[x.table]|
  }

  lemma {:induction false} RefusedExactly(tables: seq<Table>, cutoff: int, x: Refusal)
    ensures x in Refusals(tables, cutoff) <==> RefusedAs(tables, cutoff, x)
  {
    if |tables| == 0 {
    } else {
      RefusedExactly(tables[..|tables| - 1], cutoff, x);
      DoomedAreExpired(tables[|tables| - 1], cutoff);
    }
  }
}
