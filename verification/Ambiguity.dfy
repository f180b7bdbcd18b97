/**
 * When the two candidate layouts can both account for one blob: exactly which lengths of blob leave
 * the layout question open.
 */
module Ambiguity {
  import opened Common
  import opened Layouts

  /** The length of a record of each type, under the whole-record layout; the other adds two. */
  function Width(t: nat): nat {
    if t == 1 then 13 else if t == 2 then 12 else 10
  }

  /** `table` gives every type its whole-record length and `extra` bytes more. */
  ghost predicate Widens(table: Table, extra: nat) {
    && Positive(table)
    && (forall b: byte :: b in table <==> 1 <= b <= 3)
    && (forall b: byte :: b in table ==> table[b].length == Width(b as nat) + extra)
  }

  lemma {:induction false} CandidatesWiden()
    ensures Widens(WHOLE_RECORD.table, 0) && Widens(PAYLOAD_PLUS_HEADER.table, 2)
  {
  }

  ghost predicate BothParse(p: Bytes) {
    Parses(p, WHOLE_RECORD.table) && Parses(p, PAYLOAD_PLUS_HEADER.table)
  }

  /** Some blob of this length is accounted for by both layouts. */
  ghost predicate Ambiguous(n: nat) {
    exists p: Bytes :: |p| == n && BothParse(p)
  }

  /** The lengths that leave the question open: 36 bytes and more, but for six of them. */
  predicate OpenLength(n: nat) {
    n >= 36 && n != 37 && n != 41 && n != 46 && n != 47 && n != 49 && n != 61
  }

  // ---------------------------------------------------------------- too short to be ambiguous

  lemma {:induction false} RecordWidth(r: Bytes, table: Table, extra: nat)
    requires Widens(table, extra) && WellFormed(r, table)
    ensures 1 <= r[0] <= 3 && |r| == Width(r[0] as nat) + extra && 10 + extra <= |r| <= 13 + extra
  {
  }

  lemma {:induction false} FirstOf(rs: seq<Bytes>, table: Table, extra: nat)
    requires Widens(table, extra) && AllWellFormed(rs, table) && |rs| > 0
    ensures WellFormed(rs[0], table) && AllWellFormed(rs[1..], table)
    ensures |Concat(rs)| == |rs[0]| + |Concat(rs[1..])| && 10 + extra <= |rs[0]| <= 13 + extra
    ensures |rs[0]| == 10 + extra || |rs[0]| == 12 + extra || |rs[0]| == 13 + extra
  {
    RecordWidth(rs[0], table, extra);
  }

  lemma {:induction false} LengthBounds(rs: seq<Bytes>, table: Table, extra: nat)
    requires Widens(table, extra) && AllWellFormed(rs, table) && extra <= 2
    ensures extra == 0 ==> 10 * |rs| <= |Concat(rs)| <= 13 * |rs|
    ensures extra == 2 ==> 12 * |rs| <= |Concat(rs)| <= 15 * |rs|
  {
    if |rs| == 0 {
    } else {
      FirstOf(rs, table, extra);
      LengthBounds(rs[1..], table, extra);
    }
  }

  /** Two cuts of one blob start with one type byte, so their first records differ by two bytes. */
  lemma {:induction false} SameFirstType(rs: seq<Bytes>, ss: seq<Bytes>)
    requires |rs| > 0 && |ss| > 0 && Concat(rs) == Concat(ss)
    requires AllWellFormed(rs, WHOLE_RECORD.table) && AllWellFormed(ss, PAYLOAD_PLUS_HEADER.table)
    ensures |ss[0]| == |rs[0]| + 2
  {
    CandidatesWiden();
    RecordWidth(rs[0], WHOLE_RECORD.table, 0);
    RecordWidth(ss[0], PAYLOAD_PLUS_HEADER.table, 2);
    assert Concat(rs)[0] == rs[0][0] && Concat(ss)[0] == ss[0][0];
  }

  /** A blob both layouts account for holds at least three records under the longer one, and at least 36 bytes. */
  lemma {:induction false} AmbiguityNeedsThreeRecords(rs: seq<Bytes>, ss: seq<Bytes>)
    requires |rs| > 0 && |ss| > 0 && Concat(rs) == Concat(ss)
    requires AllWellFormed(rs, WHOLE_RECORD.table) && AllWellFormed(ss, PAYLOAD_PLUS_HEADER.table)
    ensures |ss| >= 3 && |Concat(rs)| >= 36
  {
    var w, h := WHOLE_RECORD.table, PAYLOAD_PLUS_HEADER.table;
    CandidatesWiden();
    SameFirstType(rs, ss);
    FirstOf(rs, w, 0);
    FirstOf(ss, h, 2);
    LengthBounds(rs[1..], w, 0);
    LengthBounds(ss[1..], h, 2);
    LengthBounds(ss, h, 2);
  }

  /** Three records and what follows them. */
  lemma {:induction false} ThreeOf(rs: seq<Bytes>, table: Table, extra: nat) returns (total: nat, rest: nat)
    requires Widens(table, extra) && AllWellFormed(rs, table) && |rs| >= 3 && extra <= 2
    ensures |Concat(rs)| == total + rest && rest == |Concat(rs[3..])| && AllWellFormed(rs[3..], table)
    ensures 30 + 3 * extra <= total <= 39 + 3 * extra && total != 31 + 3 * extra
  {
    FirstOf(rs, table, extra);
    FirstOf(rs[1..], table, extra);
    FirstOf(rs[1..][1..], table, extra);
    assert rs[1..][1..][1..] == rs[3..];
    total := |rs[0]| + |rs[1..][0]| + |rs[1..][1..][0]|;
    rest := |Concat(rs[3..])|;
  }

  /**
   * No records total 1 to 9 or 11 bytes under the whole-record layout, 1 to 11 or 13, 16 to 23 or
   * 25 under the other.
   */
  lemma {:induction false} GapsInTotals(rs: seq<Bytes>, table: Table, extra: nat)
    requires Widens(table, extra) && AllWellFormed(rs, table) && extra <= 2
    ensures var n := |Concat(rs)|; n == 0 || (n >= 10 + extra && n != 11 + extra)
    ensures extra == 2 ==> var n := |Concat(rs)|; n < 16 || (n >= 24 && n != 25)
  {
    LengthBounds(rs, table, extra);
    if |rs| > 0 {
      FirstOf(rs, table, extra);
      LengthBounds(rs[1..], table, extra);
      if |rs| > 1 {
        FirstOf(rs[1..], table, extra);
        LengthBounds(rs[1..][1..], table, extra);
      }
    }
  }

  /** Six lengths past 36 are not sums of record lengths under one of the layouts. */
  lemma {:induction false} SixMoreLengths(rs: seq<Bytes>, ss: seq<Bytes>)
    requires |rs| > 0 && |ss| > 0 && Concat(rs) == Concat(ss)
    requires AllWellFormed(rs, WHOLE_RECORD.table) && AllWellFormed(ss, PAYLOAD_PLUS_HEADER.table)
    ensures OpenLength(|Concat(rs)|)
  {
    AmbiguityNeedsThreeRecords(rs, ss);
    CandidatesWiden();
    LengthBounds(rs, WHOLE_RECORD.table, 0);
    var total, rest := ThreeOf(ss, PAYLOAD_PLUS_HEADER.table, 2);
    GapsInTotals(ss[3..], PAYLOAD_PLUS_HEADER.table, 2);
    var width, more := ThreeOf(rs, WHOLE_RECORD.table, 0);
    GapsInTotals(rs[3..], WHOLE_RECORD.table, 0);
  }

  // ---------------------------------------------------------------- weaving a blob for both

  /**
   * The record types `ts` under one layout and `us` under the other can be laid over each other:
   * where both have a record starting it is of one type, and they end together. `lead` is how far
   * the next record of `us` starts after the next of `ts`.
   */
  predicate Weaves(ts: seq<nat>, us: seq<nat>, lead: int)
    decreases |ts| + |us|
  {
    if lead == 0 then
      || (|ts| == 0 && |us| == 0)
      || (|ts| > 0 && |us| > 0 && ts[0] == us[0] && 1 <= ts[0] <= 3 && Weaves(ts[1..], us[1..], 2))
    else if lead > 0 then |ts| > 0 && 1 <= ts[0] <= 3 && Weaves(ts[1..], us, lead - Width(ts[0]))
    else |us| > 0 && 1 <= us[0] <= 3 && Weaves(ts, us[1..], lead + Width(us[0]) + 2)
  }

  /** A type byte and `n - 1` bytes that do not matter. */
  function Stretch(t: nat, n: nat): (r: Bytes)
    requires 1 <= t <= 3 && n > 0
    ensures |r| == n && r[0] == t as byte
  {
    if n == 1 then [t as byte] else Stretch(t, n - 1) + [0]
  }

  function Smaller(a: int, b: int): int {
    if a < b then a else b
  }

  /** The blob from the first of the two next starts on. */
  function Weave(ts: seq<nat>, us: seq<nat>, lead: int): Bytes
    requires Weaves(ts, us, lead)
    decreases |ts| + |us|
  {
    if lead == 0 then
      if |ts| == 0 then [] else Stretch(ts[0], Width(ts[0])) + Weave(ts[1..], us[1..], 2)
    else if lead > 0 then
      Stretch(ts[0], Smaller(lead, Width(ts[0]))) + Weave(ts[1..], us, lead - Width(ts[0]))
    else
      Stretch(us[0], Smaller(-lead, Width(us[0]) + 2)) + Weave(ts, us[1..], lead + Width(us[0]) + 2)
  }

  /** Records of the types `ts` lie end to end in `p` from `at` on. */
  ghost predicate Marks(p: Bytes, ts: seq<nat>, extra: nat, at: int)
    decreases |ts|
  {
    if |ts| == 0 then at == |p|
    else
      && 0 <= at < |p| && 1 <= ts[0] <= 3 && p[at] == ts[0] as byte
      && Marks(p, ts[1..], extra, at + Width(ts[0]) + extra)
  }

  lemma {:induction false} MarksShift(p: Bytes, q: Bytes, ts: seq<nat>, extra: nat, at: int)
    requires Marks(q, ts, extra, at) && at >= 0
    ensures Marks(p + q, ts, extra, |p| + at)
    decreases |ts|
  {
    if |ts| == 0 {
    } else {
      MarksShift(p, q, ts[1..], extra, at + Width(ts[0]) + extra);
    }
  }

  /** The first record starts here for both layouts. */
  lemma {:induction false} WeaveBoth(p: Bytes, ts: seq<nat>, us: seq<nat>)
    requires |ts| > 0 && |us| > 0 && ts[0] == us[0] && 1 <= ts[0] <= 3
    requires Marks(p, ts[1..], 0, 0) && Marks(p, us[1..], 2, 2)
    ensures var blob := Stretch(ts[0], Width(ts[0])) + p; Marks(blob, ts, 0, 0) && Marks(blob, us, 2, 0)
  {
    var front := Stretch(ts[0], Width(ts[0]));
    MarksShift(front, p, ts[1..], 0, 0);
    MarksShift(front, p, us[1..], 2, 2);
  }

  /** The next record starts here for the layout that adds `e`, and `lead` bytes on for the one that adds `x`. */
  lemma {:induction false} WeaveOne(p: Bytes, ts: seq<nat>, us: seq<nat>, lead: nat, e: nat, x: nat)
    requires |ts| > 0 && 1 <= ts[0] <= 3 && lead > 0
    requires var next := lead - Width(ts[0]) - e;
             Marks(p, ts[1..], e, if next < 0 then -next else 0) && Marks(p, us, x, if next > 0 then next else 0)
    ensures var blob := Stretch(ts[0], Smaller(lead, Width(ts[0]) + e)) + p;
            Marks(blob, ts, e, 0) && Marks(blob, us, x, lead)
  {
    var next := lead - Width(ts[0]) - e;
    var front := Stretch(ts[0], Smaller(lead, Width(ts[0]) + e));
    MarksShift(front, p, ts[1..], e, if next < 0 then -next else 0);
    MarksShift(front, p, us, x, if next > 0 then next else 0);
  }

  /** The woven blob holds the records of both, each from its own start on. */
  ghost predicate Laid(ts: seq<nat>, us: seq<nat>, lead: int)
    requires Weaves(ts, us, lead)
  {
    var p := Weave(ts, us, lead);
    Marks(p, ts, 0, if lead < 0 then -lead else 0) && Marks(p, us, 2, if lead > 0 then lead else 0)
  }

  lemma {:induction false} LaidFirst(ts: seq<nat>, us: seq<nat>, lead: int)
    requires lead > 0 && Weaves(ts, us, lead) && Laid(ts[1..], us, lead - Width(ts[0]))
    ensures Laid(ts, us, lead)
  {
    WeaveOne(Weave(ts[1..], us, lead - Width(ts[0])), ts, us, lead, 0, 2);
  }

  lemma {:induction false} LaidSecond(ts: seq<nat>, us: seq<nat>, lead: int)
    requires lead < 0 && Weaves(ts, us, lead) && Laid(ts, us[1..], lead + Width(us[0]) + 2)
    ensures Laid(ts, us, lead)
  {
    WeaveOne(Weave(ts, us[1..], lead + Width(us[0]) + 2), us, ts, -lead, 2, 0);
  }

  lemma {:induction false} LaidTogether(ts: seq<nat>, us: seq<nat>)
    requires |ts| > 0 && Weaves(ts, us, 0) && Laid(ts[1..], us[1..], 2)
    ensures Laid(ts, us, 0)
  {
    WeaveBoth(Weave(ts[1..], us[1..], 2), ts, us);
  }

  lemma {:induction false} WeaveMarks(ts: seq<nat>, us: seq<nat>, lead: int)
    requires Weaves(ts, us, lead)
    ensures Laid(ts, us, lead)
    decreases |ts| + |us|
  {
    if lead > 0 {
      WeaveMarks(ts[1..], us, lead - Width(ts[0]));
      LaidFirst(ts, us, lead);
    } else if lead < 0 {
      WeaveMarks(ts, us[1..], lead + Width(us[0]) + 2);
      LaidSecond(ts, us, lead);
    } else if |ts| == 0 {
    } else {
      WeaveMarks(ts[1..], us[1..], 2);
      LaidTogether(ts, us);
    }
  }

  lemma {:induction false} MarksFit(p: Bytes, ts: seq<nat>, extra: nat, at: int)
    requires Marks(p, ts, extra, at)
    ensures at <= |p|
    decreases |ts|
  {
  }

  /** Marked records are well formed, and make up the rest of the blob. */
  lemma {:induction false} MarksParse(p: Bytes, ts: seq<nat>, table: Table, extra: nat, at: nat)
    returns (rs: seq<Bytes>)
    requires Marks(p, ts, extra, at) && Widens(table, extra) && at <= |p|
    ensures |rs| == |ts| && AllWellFormed(rs, table) && Concat(rs) == p[at..]
    decreases |ts|
  {
    if |ts| == 0 {
      rs := [];
    } else {
      var next := at + Width(ts[0]) + extra;
      MarksFit(p, ts[1..], extra, next);
      var rest := MarksParse(p, ts[1..], table, extra, next);
      rs := [p[at..next]] + rest;
      assert WellFormed(p[at..next], table);
      ConcatStep(p[at..next], rest);
      assert p[at..] == p[at..next] + p[next..];
    }
  }

  /** The bytes that records of the types `ts` take under the whole-record layout. */
  function Total(ts: seq<nat>): nat {
    if |ts| == 0 then 0 else Width(ts[0]) + Total(ts[1..])
  }

  lemma {:induction false} MarksTotal(p: Bytes, ts: seq<nat>, at: int)
    requires Marks(p, ts, 0, at)
    ensures |p| == at + Total(ts)
    decreases |ts|
  {
    if |ts| == 0 {
    } else {
      MarksTotal(p, ts[1..], at + Width(ts[0]));
    }
  }

  /** Types that weave give a blob that both layouts account for. */
  lemma {:induction false} Woven(ts: seq<nat>, us: seq<nat>, n: nat)
    requires |ts| > 0 && Weaves(ts, us, 0) && Total(ts) == n
    ensures Ambiguous(n)
  {
    var p := Weave(ts, us, 0);
    WeaveMarks(ts, us, 0);
    MarksTotal(p, ts, 0);
    CandidatesWiden();
    var rs := MarksParse(p, ts, WHOLE_RECORD.table, 0, 0);
    var ss := MarksParse(p, us, PAYLOAD_PLUS_HEADER.table, 2, 0);
    assert p[0..] == p;
  }

  lemma {:induction false} Regroup(a: Bytes, b: Bytes, c: Bytes)
    ensures a + (b + c) == (a + b) + c
  {
  }

  lemma {:induction false} ConcatFirst(rs: seq<Bytes>, ss: seq<Bytes>)
    requires |rs| > 0
    ensures Concat(rs + ss) == rs[0] + Concat(rs[1..] + ss)
  {
    assert (rs + ss)[1..] == rs[1..] + ss;
  }

  lemma {:induction false} ConcatAdds(rs: seq<Bytes>, ss: seq<Bytes>)
    ensures Concat(rs + ss) == Concat(rs) + Concat(ss)
  {
    if |rs| == 0 {
      assert rs + ss == ss;
    } else {
      ConcatAdds(rs[1..], ss);
      ConcatFirst(rs, ss);
      Regroup(rs[0], Concat(rs[1..]), Concat(ss));
    }
  }

  lemma {:induction false} ParsesAdds(p: Bytes, q: Bytes, table: Table)
    requires Parses(p, table) && Parses(q, table)
    ensures Parses(p + q, table)
  {
    var rs: seq<Bytes> :| |rs| > 0 && AllWellFormed(rs, table) && Concat(rs) == p;
    var ss: seq<Bytes> :| |ss| > 0 && AllWellFormed(ss, table) && Concat(ss) == q;
    ConcatAdds(rs, ss);
    assert AllWellFormed(rs + ss, table);
  }

  lemma {:induction false} AmbiguousAdds(m: nat, n: nat)
    requires Ambiguous(m) && Ambiguous(n)
    ensures Ambiguous(m + n)
  {
    var p: Bytes :| |p| == m && BothParse(p);
    var q: Bytes :| |q| == n && BothParse(q);
    ParsesAdds(p, q, WHOLE_RECORD.table);
    ParsesAdds(p, q, PAYLOAD_PLUS_HEADER.table);
    assert |p + q| == m + n && BothParse(p + q);
  }

  lemma {:induction false} Lengths36To39()
    ensures Ambiguous(36) && Ambiguous(38) && Ambiguous(39)
  {
    Woven([3, 1, 1], [3, 3, 3], 36);
    Woven([2, 1, 1], [2, 3, 3], 38);
    Woven([1, 1, 1], [1, 3, 3], 39);
  }

  lemma {:induction false} Lengths40To42()
    ensures Ambiguous(40) && Ambiguous(42)
  {
    Woven([3, 3, 3, 3], [3, 2, 2], 40);
    Woven([2, 3, 3, 3], [2, 2, 2], 42);
  }

  lemma {:induction false} Lengths43To45()
    ensures Ambiguous(43) && Ambiguous(44) && Ambiguous(45)
  {
    Woven([1, 3, 3, 3], [1, 2, 2], 43);
    Woven([2, 2, 3, 3], [2, 1, 1], 44);
    Woven([1, 2, 3, 3], [1, 1, 1], 45);
  }

  lemma {:induction false} Lengths48To50()
    ensures Ambiguous(48) && Ambiguous(50)
  {
    Woven([3, 1, 2, 1], [3, 3, 3, 3], 48);
    Woven([2, 1, 2, 1], [2, 3, 3, 3], 50);
  }

  lemma {:induction false} Lengths51To52()
    ensures Ambiguous(51) && Ambiguous(52)
  {
    Woven([1, 1, 2, 1], [1, 3, 3, 3], 51);
    Woven([2, 3, 3, 3, 3], [2, 2, 3, 3], 52);
  }

  lemma {:induction false} Lengths53To54()
    ensures Ambiguous(53) && Ambiguous(54)
  {
    Woven([1, 3, 3, 3, 3], [1, 2, 3, 3], 53);
    Woven([2, 2, 3, 3, 3], [2, 2, 2, 3], 54);
  }

  lemma {:induction false} Length55()
    ensures Ambiguous(55)
  {
    Woven([1, 2, 3, 3, 3], [1, 2, 2, 3], 55);
  }

  lemma {:induction false} Length56()
    ensures Ambiguous(56)
  {
    Woven([1, 1, 3, 3, 3], [1, 1, 2, 3], 56);
  }

  lemma {:induction false} Length57()
    ensures Ambiguous(57)
  {
    Woven([1, 2, 2, 3, 3], [1, 1, 1, 3], 57);
  }

  lemma {:induction false} Length58()
    ensures Ambiguous(58)
  {
    Woven([1, 1, 2, 3, 3], [1, 1, 2, 2], 58);
  }

  lemma {:induction false} Lengths59To60()
    ensures Ambiguous(59) && Ambiguous(60)
  {
    Woven([1, 1, 1, 3, 3], [1, 1, 1, 2], 59);
    Woven([1, 1, 2, 2, 3], [1, 1, 1, 1], 60);
  }

  lemma {:induction false} Lengths62To63()
    ensures Ambiguous(62) && Ambiguous(63)
  {
    Woven([2, 1, 2, 2, 1], [2, 3, 3, 3, 3], 62);
    Woven([1, 1, 2, 2, 1], [1, 3, 3, 3, 3], 63);
  }

  lemma {:induction false} Lengths64To65()
    ensures Ambiguous(64) && Ambiguous(65)
  {
    Woven([2, 1, 1, 1, 1], [2, 2, 3, 3, 3], 64);
    Woven([1, 1, 1, 1, 1], [1, 2, 3, 3, 3], 65);
  }

  lemma {:induction false} Length66()
    ensures Ambiguous(66)
  {
    Woven([1, 1, 3, 3, 3, 3], [1, 1, 3, 3, 3], 66);
  }

  lemma {:induction false} Length67()
    ensures Ambiguous(67)
  {
    Woven([1, 2, 2, 3, 3, 3], [1, 2, 2, 3, 3], 67);
  }

  lemma {:induction false} Length68()
    ensures Ambiguous(68)
  {
    Woven([1, 1, 2, 3, 3, 3], [1, 1, 2, 3, 3], 68);
  }

  lemma {:induction false} Length69()
    ensures Ambiguous(69)
  {
    Woven([1, 1, 1, 3, 3, 3], [1, 1, 1, 3, 3], 69);
  }

  lemma {:induction false} Length70()
    ensures Ambiguous(70)
  {
    Woven([1, 1, 2, 2, 3, 3], [1, 1, 2, 2, 3], 70);
  }

  lemma {:induction false} Length71()
    ensures Ambiguous(71)
  {
    Woven([1, 1, 1, 2, 3, 3], [1, 1, 1, 2, 3], 71);
  }

  lemma {:induction false} Length73()
    ensures Ambiguous(73)
  {
    Woven([1, 1, 1, 2, 2, 3], [1, 1, 1, 2, 2], 73);
  }

  /** The open lengths that are not sums of shorter ones. */
  lemma {:induction false} ShortOpenLengths(n: nat)
    requires OpenLength(n) && (n < 72 || n == 73)
    ensures Ambiguous(n)
  {
    if n <= 39 {
      Lengths36To39();
    } else if n <= 42 {
      Lengths40To42();
    } else if n <= 45 {
      Lengths43To45();
    } else if n <= 50 {
      Lengths48To50();
    } else if n <= 52 {
      Lengths51To52();
    } else if n <= 54 {
      Lengths53To54();
    } else if n <= 55 {
      Length55();
    } else if n <= 56 {
      Length56();
    } else if n <= 57 {
      Length57();
    } else if n <= 58 {
      Length58();
    } else if n <= 60 {
      Lengths59To60();
    } else if n <= 63 {
      Lengths62To63();
    } else if n <= 65 {
      Lengths64To65();
    } else if n <= 66 {
      Length66();
    } else if n <= 67 {
      Length67();
    } else if n <= 68 {
      Length68();
    } else if n <= 69 {
      Length69();
    } else if n <= 70 {
      Length70();
    } else if n <= 71 {
      Length71();
    } else {
      Length73();
    }
  }

  lemma {:induction false} OpenLengthsAreAmbiguous(n: nat)
    requires OpenLength(n)
    ensures Ambiguous(n)
  {
    if n < 72 || n == 73 {
      ShortOpenLengths(n);
    } else {
      var part := if OpenLength(n - 36) then 36 else if OpenLength(n - 38) then 38 else 40;
      OpenLengthsAreAmbiguous(n - part);
      OpenLengthsAreAmbiguous(part);
      AmbiguousAdds(n - part, part);
    }
  }

  // ---------------------------------------------------------------- main theorem

  lemma {:induction false} AmbiguousExactly(n: nat)
    ensures Ambiguous(n) <==> OpenLength(n)
  {
    if OpenLength(n) {
      OpenLengthsAreAmbiguous(n);
    }
    if p: Bytes :| |p| == n && BothParse(p) {
      var rs: seq<Bytes> :| |rs| > 0 && AllWellFormed(rs, WHOLE_RECORD.table) && Concat(rs) == p;
      var ss: seq<Bytes> :| |ss| > 0 && AllWellFormed(ss, PAYLOAD_PLUS_HEADER.table) && Concat(ss) == p;
      SixMoreLengths(rs, ss);
    }
  }

  lemma {:induction false} CountInserted(v: Verdict, vs: seq<Verdict>)
    ensures ExactCount(InsertBy(v, vs, Ahead)) == ExactCount([v] + vs)
  {
    if |vs| == 0 {
      assert [v] + vs == [v];
    } else if Ahead(v, vs[0]) {
    } else {
      CountInserted(v, vs[1..]);
      CountAdds([vs[0]], InsertBy(v, vs[1..], Ahead));
      CountAdds([v], vs[1..]);
      CountAdds([vs[0]], vs[1..]);
      CountAdds([v], vs);
      assert [vs[0]] + vs[1..] == vs;
    }
  }

  lemma {:induction false} CountAdds(xs: seq<Verdict>, ys: seq<Verdict>)
    ensures ExactCount(xs + ys) == ExactCount(xs) + ExactCount(ys)
  {
    if |ys| == 0 {
      assert xs + ys == xs;
    } else {
      CountAdds(xs, ys[..|ys| - 1]);
      assert (xs + ys)[..|xs + ys| - 1] == xs + ys[..|ys| - 1];
    }
  }

  lemma {:induction false} CountSorted(vs: seq<Verdict>)
    ensures ExactCount(SortBy(vs, Ahead)) == ExactCount(vs)
  {
    if |vs| == 0 {
    } else {
      CountSorted(vs[1..]);
      CountInserted(vs[0], SortBy(vs[1..], Ahead));
      CountAdds([vs[0]], SortBy(vs[1..], Ahead));
      CountAdds([vs[0]], vs[1..]);
      assert [vs[0]] + vs[1..] == vs;
    }
  }

  lemma {:induction false} CandidateLayoutsArePositive()
    ensures |CANDIDATE_LAYOUTS| == 2 && CANDIDATE_LAYOUTS[0] == WHOLE_RECORD
            && CANDIDATE_LAYOUTS[1] == PAYLOAD_PLUS_HEADER
    ensures AllPositive(CANDIDATE_LAYOUTS)
  {
    CandidatesArePositive();
  }

  /** The verdicts on a blob under the two candidate layouts, as they are reported. */
  function Reported(p: Bytes): seq<Verdict> {
    CandidateLayoutsArePositive();
    SortBy(Verdicts(p, CANDIDATE_LAYOUTS), Ahead)
  }

  /** At most one entry is exact, but for the blobs that both layouts account for. */
  lemma {:induction false} AtMostOneExactUnlessBothParse(p: Bytes)
    ensures ExactCount(Reported(p)) <= 1 <==> !BothParse(p)
  {
    CandidateLayoutsArePositive();
    var layouts := CANDIDATE_LAYOUTS;
    CountSorted(Verdicts(p, layouts));
    ExactMeansParses(p, layouts[0]);
    ExactMeansParses(p, layouts[1]);
    assert layouts[..1] == [layouts[0]] && layouts[..1][..0] == [];
    assert Verdicts(p, layouts[..1]) == [VerdictOf(p, layouts[0])];
    assert Verdicts(p, layouts) == [VerdictOf(p, layouts[0])] + [VerdictOf(p, layouts[1])];
    CountAdds([VerdictOf(p, layouts[0])], [VerdictOf(p, layouts[1])]);
  }

  /**
   * Exactly which blobs can be trusted to tell the layouts apart by their length: at most one entry
   * is exact on every blob of `n` bytes if and only if `n` is under 36, or 37, 41, 46, 47, 49 or 61.
   */
  lemma {:induction false} LengthDecidesExactly(n: nat)
    ensures (forall p: Bytes {:trigger Reported(p)} :: |p| == n ==> ExactCount(Reported(p)) <= 1) <==> !OpenLength(n)
  {
    AmbiguousExactly(n);
    forall p: Bytes ensures ExactCount(Reported(p)) <= 1 <==> !BothParse(p) {
      AtMostOneExactUnlessBothParse(p);
    }
    if OpenLength(n) {
      var p: Bytes :| |p| == n && BothParse(p);
      assert ExactCount(Reported(p)) > 1;
    }
  }
}
