/**
 * Scoring a slot against an open track, and the greedy assignment over the scores.
 * The assignment is specified by stability: it is the only pairing that never passes
 * over a pair unless a better pair already holds its slot or its track.
 */
module Matching {
  import opened Common
  import opened Alerts

  const DEFAULT_TOLERANCE: real := 0.020
  const MAX_STRENGTH_JUMP: int := 4
  const AMBIGUITY_MARGIN: real := 0.25

  const BAND_FAMILIES: seq<(string, string)> := [
    ("K", "K"), ("K POP", "K"),
    ("KA", "KA"), ("KA POP", "KA"),
    ("MRCD", "PHOTO"), ("MRCT", "PHOTO"),
    ("RT3", "RT"), ("RT4", "RT"),
    ("X", "X"),
    ("LASER", "LASER")
  ]

  const BAND_TOLERANCE: seq<(string, real)> := [
    ("X", 0.010), ("K", 0.010), ("K POP", 0.010), ("KA", 0.050), ("KA POP", 0.050)
  ]

  /** `dict.get`, over the entries in order. */
  function Lookup<V>(table: seq<(string, V)>, key: string): Option<V> {
    if |table| == 0 then None
    else if table[0].0 == key then Some(table[0].1)
    else Lookup(table[1..], key)
  }

  function BandFamily(band: string): string {
    match Lookup(BAND_FAMILIES, Upper(band))
    case Some(family) => family
    case None => Upper(band)
  }

  function Tolerance(band: string): (t: real)
    ensures t > 0.0
  {
    LookupMeaning(BAND_TOLERANCE, Upper(band));
    match Lookup(BAND_TOLERANCE, Upper(band))
    case Some(tolerance) => tolerance
    case None => DEFAULT_TOLERANCE
  }

  /** The tolerance read off the family instead of the band. */
  function FamilyTolerance(family: string): (t: real)
    ensures t > 0.0
  {
    if family == "K" || family == "X" then 0.010
    else if family == "KA" then 0.050
    else DEFAULT_TOLERANCE
  }

  lemma {:induction false} LookupMeaning<V>(table: seq<(string, V)>, key: string)
    ensures match Lookup(table, key)
            case None => forall k :: 0 <= k < |table| ==> table[k].0 != key
            case Some(v) => exists k :: 0 <= k < |table| && table[k] == (key, v)
  {
    if |table| > 0 && table[0].0 != key {
      LookupMeaning(table[1..], key);
      match Lookup(table[1..], key)
      case None =>
        forall k | 0 <= k < |table| ensures table[k].0 != key {
          if k > 0 { assert table[1..][k - 1] == table[k]; }
        }
      case Some(v) =>
        var k :| 0 <= k < |table[1..]| && table[1..][k] == (key, v);
        assert table[k + 1] == (key, v);
    }
  }

  /** Bands of one family are matched with one tolerance, so reclassifying a signal never changes it. */
  lemma {:induction false} ToleranceIsPerFamily(band: string)
    ensures Tolerance(band) == FamilyTolerance(BandFamily(band))
  {
    var b := Upper(band);
    LookupMeaning(BAND_FAMILIES, b);
    LookupMeaning(BAND_TOLERANCE, b);
    assert BAND_FAMILIES[0].0 == "K" && BAND_FAMILIES[1].0 == "K POP" && BAND_FAMILIES[2].0 == "KA"
        && BAND_FAMILIES[3].0 == "KA POP" && BAND_FAMILIES[8].0 == "X";
    assert BAND_TOLERANCE[0].0 == "X" && BAND_TOLERANCE[1].0 == "K" && BAND_TOLERANCE[2].0 == "K POP"
        && BAND_TOLERANCE[3].0 == "KA" && BAND_TOLERANCE[4].0 == "KA POP";
  }

  function Distance(a: real, b: real): real {
    if a < b then b - a else a - b
  }

  function AbsInt(x: int): nat {
    if x < 0 then -x else x
  }

  /** A bearing as a position from front to rear. */
  function Axis(direction: Option<char>): Option<int> {
    if direction == Some('F') then Some(0)
    else if direction == Some('S') then Some(1)
    else if direction == Some('R') then Some(2)
    else None
  }

  function DirectionCost(before: Option<char>, after: Option<char>): real {
    if before == after then 0.0
    else if Axis(before).None? || Axis(after).None? then 0.5
    else if AbsInt(Axis(before).value - Axis(after).value) == 1 then 0.3
    else 0.8
  }

  function MatchCost(track: Alert, incoming: Alert): Option<real> {
    if BandFamily(track.band) != BandFamily(incoming.band) then None
    else if track.laserGunId != incoming.laserGunId then None
    else
      var c0 := if track.band != incoming.band then 0.5 else 0.0;
      var tolerance := Tolerance(incoming.band);
      if track.frequency.Some? && incoming.frequency.Some?
         && Distance(track.frequency.value, incoming.frequency.value) > tolerance then None
      else
        var c1 := if track.frequency.Some? && incoming.frequency.Some?
                  then c0 + Distance(track.frequency.value, incoming.frequency.value) / tolerance
                  else c0 + 0.5;
        var c2 := c1 + DirectionCost(track.direction, incoming.direction);
        if track.strength.Some? && incoming.strength.Some? then
          var jump := AbsInt(track.strength.value - incoming.strength.value);
          if jump > MAX_STRENGTH_JUMP then None else Some(c2 + jump as real * 0.1)
        else Some(c2)
  }

  /** Exactly the four hard disagreements refuse a match. */
  ghost predicate Refused(a: Alert, b: Alert) {
    || BandFamily(a.band) != BandFamily(b.band)
    || a.laserGunId != b.laserGunId
    || (a.frequency.Some? && b.frequency.Some?
        && Distance(a.frequency.value, b.frequency.value) > FamilyTolerance(BandFamily(a.band)))
    || (a.strength.Some? && b.strength.Some? && AbsInt(a.strength.value - b.strength.value) > 4)
  }

  /** Division by a tolerance never turns a distance within it into more than one. */
  lemma {:induction false} RatioInUnit(d: real, t: real)
    requires 0.0 <= d <= t && t > 0.0
    ensures 0.0 <= d / t <= 1.0
    ensures d / t == 0.0 <==> d == 0.0
  {
  }

  /**
   * What a score means: a pair is refused exactly on a hard disagreement; otherwise the score is
   * between 0 and 2.7, does not depend on which reading came first, and is 0 exactly when
   * band, frequency, direction and strength give no evidence of change.
   */
  lemma {:induction false} MatchCostMeaning(a: Alert, b: Alert)
    ensures MatchCost(a, b).None? <==> Refused(a, b)
    ensures MatchCost(a, b) == MatchCost(b, a)
    ensures MatchCost(a, b).Some? ==> 0.0 <= MatchCost(a, b).value <= 2.7
    ensures MatchCost(a, b) == Some(0.0) <==>
              && a.band == b.band && a.laserGunId == b.laserGunId
              && a.frequency.Some? && a.frequency == b.frequency
              && a.direction == b.direction
              && (a.strength == b.strength || a.strength.None? || b.strength.None?)
  {
    ToleranceIsPerFamily(a.band);
    ToleranceIsPerFamily(b.band);
    if !Refused(a, b) && a.frequency.Some? && b.frequency.Some? {
      RatioInUnit(Distance(a.frequency.value, b.frequency.value), Tolerance(b.band));
    }
  }

  // ---------------------------------------------------------------- scoring

  /** The part of an open track that matching reads. */
  datatype Candidate = Candidate(id: nat, alert: Alert)

  datatype Scored = Scored(cost: real, slot: nat, track: nat)

  predicate Before(p: Scored, q: Scored) {
    || p.cost < q.cost
    || (p.cost == q.cost && p.slot < q.slot)
    || (p.cost == q.cost && p.slot == q.slot && p.track < q.track)
  }

  predicate NotAfter(p: Scored, q: Scored) {
    p == q || Before(p, q)
  }

  ghost predicate DistinctIds(tracks: seq<Candidate>) {
    forall j, k :: 0 <= j < k < |tracks| ==> tracks[j].id != tracks[k].id
  }

  /** The score of one slot against each track. */
  function Costs(alert: Alert, tracks: seq<Candidate>): (r: seq<Option<real>>)
    ensures |r| == |tracks|
  {
    seq(|tracks|, k requires 0 <= k < |tracks| => MatchCost(tracks[k].alert, alert))
  }

  /** Every pair `MatchCost` accepts, with its score. */
  ghost predicate Accepts(incoming: seq<Alert>, tracks: seq<Candidate>, p: Scored) {
    && p.slot < |incoming|
    && exists k :: 0 <= k < |tracks| && tracks[k].id == p.track && Costs(incoming[p.slot], tracks)[k] == Some(p.cost)
  }

  /** The scored list after the first `n` tracks of slot `index`. */
  function ScoreSlot(costs: seq<Option<real>>, index: nat, tracks: seq<Candidate>, n: nat): seq<Scored>
    requires n <= |tracks| == |costs|
  {
    if n == 0 then []
    else if costs[n - 1].None? then ScoreSlot(costs, index, tracks, n - 1)
    else ScoreSlot(costs, index, tracks, n - 1) + [Scored(costs[n - 1].value, index, tracks[n - 1].id)]
  }

  /** The scored list after the first `m` slots. */
  function ScoreAll(incoming: seq<Alert>, tracks: seq<Candidate>, m: nat): seq<Scored>
    requires m <= |incoming|
  {
    if m == 0 then []
    else ScoreAll(incoming, tracks, m - 1) + ScoreSlot(Costs(incoming[m - 1], tracks), m - 1, tracks, |tracks|)
  }

  lemma {:induction false} ScoreSlotMembers(costs: seq<Option<real>>, index: nat, tracks: seq<Candidate>, n: nat,
                                            p: Scored)
    requires n <= |tracks| == |costs|
    ensures p in ScoreSlot(costs, index, tracks, n) <==>
              p.slot == index && exists k :: 0 <= k < n && tracks[k].id == p.track && costs[k] == Some(p.cost)
  {
    if n == 0 {
    } else {
      ScoreSlotMembers(costs, index, tracks, n - 1, p);
    }
  }

  lemma {:induction false} ScoreAllMembers(incoming: seq<Alert>, tracks: seq<Candidate>, m: nat, p: Scored)
    requires m <= |incoming|
    ensures p in ScoreAll(incoming, tracks, m) <==> p.slot < m && Accepts(incoming, tracks, p)
  {
    if m == 0 {
    } else {
      ScoreAllMembers(incoming, tracks, m - 1, p);
      ScoreSlotMembers(Costs(incoming[m - 1], tracks), m - 1, tracks, |tracks|, p);
    }
  }

  // ---------------------------------------------------------------- the greedy pass

  ghost predicate Chosen(a: map<nat, nat>, p: Scored) {
    p.slot in a && a[p.slot] == p.track
  }

  ghost predicate Injective(a: map<nat, nat>) {
    forall i, j :: i in a && j in a && a[i] == a[j] ==> i == j
  }

  ghost predicate Conflict(p: Scored, q: Scored) {
    p.slot == q.slot || p.track == q.track
  }

  /** A better pair that was chosen already holds this pair's slot or its track. */
  ghost predicate Blocked(pairs: iset<Scored>, a: map<nat, nat>, p: Scored) {
    exists q :: q in pairs && Chosen(a, q) && Before(q, p) && Conflict(q, p)
  }

  /** A pairing over `pairs` that leaves a pair out only because of a better one it kept. */
  ghost predicate Stable(pairs: iset<Scored>, a: map<nat, nat>) {
    && (forall i :: i in a ==> exists p :: p in pairs && p.slot == i && p.track == a[i])
    && Injective(a)
    && (forall p {:trigger Blocked(pairs, a, p)} :: p in pairs ==> Chosen(a, p) || Blocked(pairs, a, p))
  }

  /** The greedy pass over the first `n` pairs. */
  function Greedy(sorted: seq<Scored>, n: nat): map<nat, nat>
    requires n <= |sorted|
  {
    if n == 0 then map[]
    else
      var a := Greedy(sorted, n - 1);
      var p := sorted[n - 1];
      if p.slot in a || p.track in a.Values then a else a[p.slot := p.track]
  }

  ghost predicate PairsOnce(pairs: seq<Scored>) {
    forall p, q :: p in pairs && q in pairs && p.slot == q.slot && p.track == q.track ==> p == q
  }

  ghost predicate InOrder(sorted: seq<Scored>) {
    forall j, k :: 0 <= j < k < |sorted| ==> NotAfter(sorted[j], sorted[k])
  }

  /** Every pair of `a` is one of the first `n` of the list. */
  ghost predicate KeptFrom(sorted: seq<Scored>, n: nat, a: map<nat, nat>)
    requires n <= |sorted|
  {
    forall i :: i in a ==> exists k :: 0 <= k < n && sorted[k].slot == i && sorted[k].track == a[i]
  }

  /** Position `k` lost to an earlier kept pair. */
  ghost predicate Beaten(sorted: seq<Scored>, k: nat, a: map<nat, nat>)
    requires k < |sorted|
  {
    exists j :: 0 <= j < k && Chosen(a, sorted[j]) && Conflict(sorted[j], sorted[k])
  }

  lemma {:induction false} GreedyKeeps(sorted: seq<Scored>, n: nat)
    requires n <= |sorted|
    ensures Injective(Greedy(sorted, n)) && KeptFrom(sorted, n, Greedy(sorted, n))
  {
    if n == 0 {
    } else {
      GreedyKeeps(sorted, n - 1);
      var before := Greedy(sorted, n - 1);
      var a := Greedy(sorted, n);
      forall i | i in a ensures exists k :: 0 <= k < n && sorted[k].slot == i && sorted[k].track == a[i] {
        if i in before && a[i] == before[i] {
          var k :| 0 <= k < n - 1 && sorted[k].slot == i && sorted[k].track == before[i];
          assert sorted[k].slot == i && sorted[k].track == a[i];
        } else {
          assert sorted[n - 1].slot == i && sorted[n - 1].track == a[i];
        }
      }
    }
  }

  lemma {:induction false} GreedyBeats(sorted: seq<Scored>, n: nat, k: nat)
    requires k < n <= |sorted|
    ensures Chosen(Greedy(sorted, n), sorted[k]) || Beaten(sorted, k, Greedy(sorted, n))
  {
    var before := Greedy(sorted, n - 1);
    var a := Greedy(sorted, n);
    if k < n - 1 {
      GreedyBeats(sorted, n - 1, k);
      if !Chosen(before, sorted[k]) {
        var j :| 0 <= j < k && Chosen(before, sorted[j]) && Conflict(sorted[j], sorted[k]);
        assert Chosen(a, sorted[j]);
      }
    } else if !Chosen(a, sorted[k]) {
      GreedyKeeps(sorted, n - 1);
      var i :| i in before && (i == sorted[k].slot || before[i] == sorted[k].track);
      var j :| 0 <= j < n - 1 && sorted[j].slot == i && sorted[j].track == before[i];
      assert Chosen(a, sorted[j]) && Conflict(sorted[j], sorted[k]);
    }
  }

  /** What `_assign` computes: score, sort, and take greedily. */
  function Assignment(incoming: seq<Alert>, tracks: seq<Candidate>): map<nat, nat> {
    var sorted := SortBy(ScoreAll(incoming, tracks, |incoming|), NotAfter);
    Greedy(sorted, |sorted|)
  }

  ghost function Pairs(incoming: seq<Alert>, tracks: seq<Candidate>): iset<Scored> {
    iset p | Accepts(incoming, tracks, p)
  }

  lemma {:induction false} SortedPairs(incoming: seq<Alert>, tracks: seq<Candidate>)
    requires DistinctIds(tracks)
    ensures var sorted := SortBy(ScoreAll(incoming, tracks, |incoming|), NotAfter);
            && InOrder(sorted) && PairsOnce(sorted)
            && (forall p :: p in sorted <==> p in Pairs(incoming, tracks))
  {
    var scored := ScoreAll(incoming, tracks, |incoming|);
    SortBySorts(scored, NotAfter);
    SortByMembers(scored, NotAfter);
    var sorted := SortBy(scored, NotAfter);
    forall j, k | 0 <= j < k < |sorted| ensures NotAfter(sorted[j], sorted[k]) {
    }
    forall p ensures p in scored <==> p in Pairs(incoming, tracks) {
      ScoreAllMembers(incoming, tracks, |incoming|, p);
    }
  }

  /** The greedy pass is stable. */
  lemma {:induction false} AssignmentIsStable(incoming: seq<Alert>, tracks: seq<Candidate>)
    requires DistinctIds(tracks)
    ensures Stable(Pairs(incoming, tracks), Assignment(incoming, tracks))
  {
    SortedPairs(incoming, tracks);
    var sorted := SortBy(ScoreAll(incoming, tracks, |incoming|), NotAfter);
    GreedyKeeps(sorted, |sorted|);
    var a := Assignment(incoming, tracks);
    var pairs := Pairs(incoming, tracks);
    forall i | i in a ensures exists p :: p in pairs && p.slot == i && p.track == a[i] {
      var k :| 0 <= k < |sorted| && sorted[k].slot == i && sorted[k].track == a[i];
      assert sorted[k] in sorted;
    }
    forall p | p in pairs && !Chosen(a, p)
      ensures Blocked(pairs, a, p)
    {
      var k :| 0 <= k < |sorted| && sorted[k] == p;
      GreedyBeats(sorted, |sorted|, k);
      var j :| 0 <= j < k && Chosen(a, sorted[j]) && Conflict(sorted[j], p);
      assert sorted[j] in sorted;
      assert NotAfter(sorted[j], sorted[k]);
    }
  }

  /** Whatever a slot is assigned is an open track that accepts it. */
  lemma {:induction false} AssignedPair(incoming: seq<Alert>, tracks: seq<Candidate>, i: nat) returns (k: nat)
    requires DistinctIds(tracks) && i in Assignment(incoming, tracks)
    ensures i < |incoming| && k < |tracks| && tracks[k].id == Assignment(incoming, tracks)[i]
    ensures Costs(incoming[i], tracks)[k].Some?
  {
    AssignmentIsStable(incoming, tracks);
    var p :| p in Pairs(incoming, tracks) && p.slot == i && p.track == Assignment(incoming, tracks)[i];
    k :| 0 <= k < |tracks| && tracks[k].id == p.track && Costs(incoming[p.slot], tracks)[k] == Some(p.cost);
  }

  // ---------------------------------------------------------------- uniqueness

  ghost predicate Functional(pairs: iset<Scored>) {
    forall p, q :: p in pairs && q in pairs && p.slot == q.slot && p.track == q.track ==> p == q
  }

  /** Two stable pairings agree on every pair, by induction along the score order. */
  lemma {:induction false} StableAgree(sorted: seq<Scored>, pairs: iset<Scored>, a: map<nat, nat>, b: map<nat, nat>,
                                       k: nat)
    requires Stable(pairs, a) && Stable(pairs, b) && Functional(pairs)
    requires InOrder(sorted) && forall p :: p in pairs <==> p in sorted
    requires k < |sorted| && Chosen(a, sorted[k])
    ensures Chosen(b, sorted[k])
    decreases k
  {
    var p := sorted[k];
    assert p in sorted;
    if !Chosen(b, p) {
      assert Blocked(pairs, b, p);
      var q :| q in pairs && Chosen(b, q) && Before(q, p) && Conflict(q, p);
      var j :| 0 <= j < |sorted| && sorted[j] == q;
      if j < k {
        StableAgree(sorted, pairs, b, a, j);
      }
      assert false;
    }
  }

  lemma {:induction false} StableWithin(sorted: seq<Scored>, pairs: iset<Scored>, a: map<nat, nat>, b: map<nat, nat>,
                                        i: nat)
    requires Stable(pairs, a) && Stable(pairs, b) && Functional(pairs)
    requires InOrder(sorted) && forall p :: p in pairs <==> p in sorted
    requires i in a
    ensures i in b && b[i] == a[i]
  {
    var p :| p in pairs && p.slot == i && p.track == a[i];
    var k :| 0 <= k < |sorted| && sorted[k] == p;
    StableAgree(sorted, pairs, a, b, k);
  }

  /** There is only one stable pairing, and `_assign` returns it. */
  lemma {:induction false} StableIsUnique(incoming: seq<Alert>, tracks: seq<Candidate>, b: map<nat, nat>)
    requires DistinctIds(tracks)
    requires Stable(Pairs(incoming, tracks), b)
    ensures b == Assignment(incoming, tracks)
  {
    SortedPairs(incoming, tracks);
    AssignmentIsStable(incoming, tracks);
    var sorted := SortBy(ScoreAll(incoming, tracks, |incoming|), NotAfter);
    var pairs := Pairs(incoming, tracks);
    var a := Assignment(incoming, tracks);
    assert Functional(pairs);
    forall i | i in a ensures i in b && b[i] == a[i] {
      StableWithin(sorted, pairs, a, b, i);
    }
    forall i | i in b ensures i in a && a[i] == b[i] {
      StableWithin(sorted, pairs, b, a, i);
    }
  }

  /** The result does not depend on the order in which the open tracks are visited. */
  lemma {:induction false} OrderOfTracksIrrelevant(incoming: seq<Alert>, tracks: seq<Candidate>, others: seq<Candidate>)
    requires DistinctIds(tracks) && DistinctIds(others)
    requires forall c :: c in tracks <==> c in others
    ensures Assignment(incoming, tracks) == Assignment(incoming, others)
  {
    forall p ensures Accepts(incoming, tracks, p) <==> Accepts(incoming, others, p) {
      if Accepts(incoming, tracks, p) {
        var k :| 0 <= k < |tracks| && tracks[k].id == p.track && Costs(incoming[p.slot], tracks)[k] == Some(p.cost);
        assert tracks[k] in others;
        var j :| 0 <= j < |others| && others[j] == tracks[k];
        assert Costs(incoming[p.slot], others)[j] == Some(p.cost);
      }
      if Accepts(incoming, others, p) {
        var k :| 0 <= k < |others| && others[k].id == p.track && Costs(incoming[p.slot], others)[k] == Some(p.cost);
        assert others[k] in tracks;
        var j :| 0 <= j < |tracks| && tracks[j] == others[k];
        assert Costs(incoming[p.slot], tracks)[j] == Some(p.cost);
      }
    }
    assert Pairs(incoming, tracks) == Pairs(incoming, others);
    AssignmentIsStable(incoming, others);
    StableIsUnique(incoming, tracks, Assignment(incoming, others));
  }

  // ---------------------------------------------------------------- size

  lemma {:induction false} InjectiveImage(m: map<nat, nat>, keys: set<nat>, target: set<nat>)
    requires keys <= m.Keys && Injective(m)
    requires forall i :: i in keys ==> m[i] in target
    ensures |keys| <= |target|
    decreases |keys|
  {
    if keys != {} {
      var i :| i in keys;
      InjectiveImage(m, keys - {i}, target - {m[i]});
      assert |keys - {i}| == |keys| - 1 && |target - {m[i]}| == |target| - 1;
    }
  }

  lemma {:induction false} ValuesNoMoreThanKeys(a: map<nat, nat>)
    ensures |a.Values| <= |a.Keys|
    decreases |a|
  {
    if a.Keys != {} {
      var i :| i in a;
      var rest := a - {i};
      ValuesNoMoreThanKeys(rest);
      assert a.Keys == rest.Keys + {i};
      assert |a.Keys| == |rest.Keys| + 1;
      assert a.Values <= rest.Values + {a[i]} by {
        forall v | v in a.Values ensures v in rest.Values + {a[i]} {
          var j :| j in a && a[j] == v;
          if j != i { assert j in rest && rest[j] == v; }
        }
      }
      SubsetSize(a.Values, rest.Values + {a[i]});
    } else {
      assert a.Values == {};
    }
  }

  lemma {:induction false} SubsetSize(s: set<nat>, t: set<nat>)
    requires s <= t
    ensures |s| <= |t|
  {
    assert t == s + (t - s);
  }

  /**
   * Greedy loses at most half: no accepted pair could be added, and every matching of slots
   * to tracks over accepted pairs has at most twice as many pairs.
   */
  lemma {:induction false} GreedyWithinTwo(incoming: seq<Alert>, tracks: seq<Candidate>, m: map<nat, nat>)
    requires DistinctIds(tracks)
    requires Injective(m)
    requires forall i :: i in m ==> exists p :: Accepts(incoming, tracks, p) && p.slot == i && p.track == m[i]
    ensures forall p :: Accepts(incoming, tracks, p) ==>
              p.slot in Assignment(incoming, tracks) || p.track in Assignment(incoming, tracks).Values
    ensures |m| <= 2 * |Assignment(incoming, tracks)|
  {
    var a := Assignment(incoming, tracks);
    AssignmentIsStable(incoming, tracks);
    var pairs := Pairs(incoming, tracks);
    forall p | Accepts(incoming, tracks, p) ensures p.slot in a || p.track in a.Values {
      assert p in pairs;
      if !Chosen(a, p) {
        assert Blocked(pairs, a, p);
        var q :| q in pairs && Chosen(a, q) && Before(q, p) && Conflict(q, p);
        assert a[q.slot] in a.Values;
      }
    }
    var bySlot := set i | i in m && i in a;
    var byTrack := set i | i in m && m[i] in a.Values;
    assert m.Keys <= bySlot + byTrack;
    SubsetSize(m.Keys, bySlot + byTrack);
    assert bySlot <= a.Keys;
    SubsetSize(bySlot, a.Keys);
    InjectiveImage(m, byTrack, a.Values);
    ValuesNoMoreThanKeys(a);
    assert |bySlot + byTrack| <= |bySlot| + |byTrack|;
  }

  // ---------------------------------------------------------------- close matches

  /** The scores among the first `n` that are not refusals. */
  function Present(costs: seq<Option<real>>, n: nat): seq<real>
    requires n <= |costs|
  {
    if n == 0 then []
    else if costs[n - 1].None? then Present(costs, n - 1)
    else Present(costs, n - 1) + [costs[n - 1].value]
  }

  predicate AtMost(a: real, b: real) { a <= b }

  /** The two best scores lie within the margin. */
  predicate CloseCall(costs: seq<real>) {
    |costs| > 1 &&
    var sorted := SortBy(costs, AtMost);
    |sorted| > 1 && sorted[1] - sorted[0] < AMBIGUITY_MARGIN
  }

  function AmbiguousSlots(incoming: seq<Alert>, tracks: seq<Candidate>): set<nat> {
    var a := Assignment(incoming, tracks);
    set i | i in a && i < |incoming| && CloseCall(Present(Costs(incoming[i], tracks), |tracks|))
  }

  lemma {:induction false} PresentAt(costs: seq<Option<real>>, n: nat) returns (at: seq<nat>)
    requires n <= |costs|
    ensures |at| == |Present(costs, n)|
    ensures forall k :: 0 <= k < |at| ==> at[k] < n && costs[at[k]] == Some(Present(costs, n)[k])
    ensures forall j, k :: 0 <= j < k < |at| ==> at[j] < at[k]
    ensures forall t :: 0 <= t < n && costs[t].Some? ==> t in at
  {
    at := [];
    if n == 0 {
    } else {
      var rest := PresentAt(costs, n - 1);
      at := rest;
      if costs[n - 1].Some? {
        at := rest + [n - 1];
        assert at[|rest|] == n - 1;
        forall t | 0 <= t < n && costs[t].Some? ensures t in at {
          assert t < n - 1 ==> t in rest;
        }
      }
    }
  }

  lemma {:induction false} RemainingMultiset(costs: seq<real>, sorted: seq<real>, j: nat)
    requires |sorted| > 0 && multiset(sorted) == multiset(costs) && j < |costs| && costs[j] == sorted[0]
    ensures multiset(costs[..j] + costs[j + 1..]) == multiset(sorted[1..])
  {
    var rest := costs[..j] + costs[j + 1..];
    assert costs == costs[..j] + ([costs[j]] + costs[j + 1..]);
    assert multiset(costs) == multiset(costs[..j]) + multiset{costs[j]} + multiset(costs[j + 1..]);
    assert multiset(rest) == multiset(costs[..j]) + multiset(costs[j + 1..]);
    assert sorted == [sorted[0]] + sorted[1..];
    assert multiset(sorted) == multiset{sorted[0]} + multiset(sorted[1..]);
    assert multiset(rest) == multiset(costs) - multiset{costs[j]};
  }

  /** The head of the sorted list is a least score, and the next is a least score of the others. */
  lemma {:induction false} TwoSmallest(costs: seq<real>, sorted: seq<real>, j: nat)
    requires |sorted| == |costs| > 1 && multiset(sorted) == multiset(costs) && SortedBy(sorted, AtMost)
    requires j < |costs| && costs[j] == sorted[0]
    ensures forall k :: 0 <= k < |costs| && k != j ==> sorted[1] <= costs[k]
    ensures exists k :: 0 <= k < |costs| && k != j && costs[k] == sorted[1]
  {
    RemainingMultiset(costs, sorted, j);
    var rest := costs[..j] + costs[j + 1..];
    var tail := sorted[1..];
    forall k | 0 <= k < |costs| && k != j ensures sorted[1] <= costs[k] {
      assert costs[k] == rest[if k < j then k else k - 1];
      assert costs[k] in multiset(rest);
      assert costs[k] in tail;
      var s :| 0 <= s < |tail| && tail[s] == costs[k];
      assert s > 0 ==> AtMost(sorted[1], sorted[s + 1]);
    }
    assert tail[0] in multiset(tail);
    assert tail[0] in rest;
    var r :| 0 <= r < |rest| && rest[r] == tail[0];
    var k := if r < j then r else r + 1;
    assert costs[k] == sorted[1] && k != j;
  }

  /** Position `j` holds a least score and another position is within the margin of it. */
  ghost predicate ContestedBy(costs: seq<real>, j: nat, k: nat) {
    && j < |costs| && k < |costs| && j != k
    && costs[k] - costs[j] < AMBIGUITY_MARGIN
    && forall i :: 0 <= i < |costs| ==> costs[j] <= costs[i]
  }

  lemma {:induction false} CloseCallMeaning(costs: seq<real>)
    ensures CloseCall(costs) <==> exists j: nat, k: nat :: ContestedBy(costs, j, k)
  {
    SortBySorts(costs, AtMost);
    SortByPermutes(costs, AtMost);
    SortByMembers(costs, AtMost);
    var sorted := SortBy(costs, AtMost);
    if |costs| > 1 {
      assert sorted[0] in costs;
      var j :| 0 <= j < |costs| && costs[j] == sorted[0];
      TwoSmallest(costs, sorted, j);
      var k :| 0 <= k < |costs| && k != j && costs[k] == sorted[1];
      assert AtMost(sorted[0], sorted[1]);
      if CloseCall(costs) {
        assert ContestedBy(costs, j, k);
      }
      if j': nat, k': nat :| ContestedBy(costs, j', k') {
        assert costs[j'] == sorted[0];
        TwoSmallest(costs, sorted, j');
      }
    }
  }

  /** Track `s` scores best of all for the slot, and track `t` accepts it within the margin of that. */
  ghost predicate Rivals(costs: seq<Option<real>>, s: nat, t: nat) {
    && s < |costs| && t < |costs| && s != t && costs[s].Some? && costs[t].Some?
    && costs[t].value - costs[s].value < AMBIGUITY_MARGIN
    && forall r :: 0 <= r < |costs| && costs[r].Some? ==> costs[s].value <= costs[r].value
  }

  lemma {:induction false} RivalsAreCloseCalls(costs: seq<Option<real>>)
    ensures CloseCall(Present(costs, |costs|)) <==> exists s: nat, t: nat :: Rivals(costs, s, t)
  {
    var present := Present(costs, |costs|);
    CloseCallMeaning(present);
    var at := PresentAt(costs, |costs|);
    if j: nat, k: nat :| ContestedBy(present, j, k) {
      forall r | 0 <= r < |costs| && costs[r].Some? ensures costs[at[j]].value <= costs[r].value {
        var x :| 0 <= x < |at| && at[x] == r;
      }
      assert j < k || k < j;
      assert Rivals(costs, at[j], at[k]);
    }
    if s: nat, t: nat :| Rivals(costs, s, t) {
      var j :| 0 <= j < |at| && at[j] == s;
      var k :| 0 <= k < |at| && at[k] == t;
      assert ContestedBy(present, j, k);
    }
  }

  /**
   * A match is labelled ambiguous exactly when its slot was assigned and two different open
   * tracks accept it, one with the best score of all and the other within the margin of it.
   */
  lemma {:induction false} AmbiguousMeaning(incoming: seq<Alert>, tracks: seq<Candidate>, i: nat)
    requires i < |incoming|
    ensures i in AmbiguousSlots(incoming, tracks) <==>
              i in Assignment(incoming, tracks) && exists s: nat, t: nat :: Rivals(Costs(incoming[i], tracks), s, t)
  {
    RivalsAreCloseCalls(Costs(incoming[i], tracks));
  }

  // ---------------------------------------------------------------- the method

  /** The scores kept for one slot, as the dictionary of lists reads them. */
  function Entry(perSlot: map<nat, seq<real>>, i: nat): seq<real> {
    if i in perSlot then perSlot[i] else []
  }

  /** The dictionary holds the scores of the first `n` slots. */
  ghost predicate Holds(perSlot: map<nat, seq<real>>, incoming: seq<Alert>, tracks: seq<Candidate>, n: nat)
    requires n <= |incoming|
  {
    && (forall i :: i in perSlot ==> i < n)
    && (forall i {:trigger Entry(perSlot, i)} :: 0 <= i < n ==>
        Entry(perSlot, i) == Present(Costs(incoming[i], tracks), |tracks|))
  }

  /** The dictionary after a slot was scored: a slot nothing matched gets no entry. */
  function WithRow(perSlot: map<nat, seq<real>>, i: nat, row: seq<real>): map<nat, seq<real>> {
    if |row| == 0 then perSlot else perSlot[i := row]
  }

  lemma {:induction false} HoldsNext(perSlot: map<nat, seq<real>>, incoming: seq<Alert>, tracks: seq<Candidate>, n: nat)
    requires n < |incoming| && Holds(perSlot, incoming, tracks, n)
    ensures Holds(WithRow(perSlot, n, Present(Costs(incoming[n], tracks), |tracks|)), incoming, tracks, n + 1)
  {
    var row := Present(Costs(incoming[n], tracks), |tracks|);
    var after := WithRow(perSlot, n, row);
    forall i | 0 <= i < n + 1 ensures Entry(after, i) == Present(Costs(incoming[i], tracks), |tracks|) {
      if i < n {
        assert Entry(perSlot, i) == Present(Costs(incoming[i], tracks), |tracks|);
      }
    }
  }

  lemma {:induction false} WithRowMore(perSlot: map<nat, seq<real>>, i: nat, row: seq<real>, cost: real)
    requires i !in perSlot
    ensures var held := WithRow(perSlot, i, row);
            held[i := Entry(held, i) + [cost]] == WithRow(perSlot, i, row + [cost])
  {
  }

  /** The inner scoring loop of `_assign`. */
  method ScoreOneSlot(incoming: seq<Alert>, tracks: seq<Candidate>, index: nat, earlier: seq<Scored>,
                      rows: map<nat, seq<real>>)
    returns (scored: seq<Scored>, perSlot: map<nat, seq<real>>)
    requires index < |incoming| && index !in rows
    ensures scored == earlier + ScoreSlot(Costs(incoming[index], tracks), index, tracks, |tracks|)
    ensures perSlot == WithRow(rows, index, Present(Costs(incoming[index], tracks), |tracks|))
  {
    scored, perSlot := earlier, rows;
    ghost var costs := Costs(incoming[index], tracks);
    for t := 0 to |tracks|
      invariant scored == earlier + ScoreSlot(costs, index, tracks, t)
      invariant perSlot == WithRow(rows, index, Present(costs, t))
    {
      var cost := MatchCost(tracks[t].alert, incoming[index]);
      assert costs[t] == cost;
      if cost.Some? {
        WithRowMore(rows, index, Present(costs, t), cost.value);
        assert scored + [Scored(cost.value, index, tracks[t].id)]
            == earlier + (ScoreSlot(costs, index, tracks, t) + [Scored(cost.value, index, tracks[t].id)]);
        scored := scored + [Scored(cost.value, index, tracks[t].id)];
        perSlot := perSlot[index := Entry(perSlot, index) + [cost.value]];
      }
    }
  }

  /** The greedy loop of `_assign`, with its `used` set. */
  method TakeGreedily(sorted: seq<Scored>) returns (assignments: map<nat, nat>)
    ensures assignments == Greedy(sorted, |sorted|)
  {
    assignments := map[];
    var used: set<nat> := {};
    for n := 0 to |sorted|
      invariant assignments == Greedy(sorted, n)
      invariant forall t :: t in used <==> t in assignments.Values
    {
      var p := sorted[n];
      if p.slot !in assignments && p.track !in used {
        ghost var before := assignments;
        assignments := assignments[p.slot := p.track];
        used := used + {p.track};
        forall t ensures t in used <==> t in assignments.Values {
          if t in before.Values {
            var i :| i in before && before[i] == t;
            assert i in assignments && assignments[i] == t;
          }
          assert p.slot in assignments && assignments[p.slot] == p.track;
        }
      }
    }
  }

  /** The outer scoring loop of `_assign`. */
  method ScoreEverySlot(incoming: seq<Alert>, tracks: seq<Candidate>)
    returns (scored: seq<Scored>, perSlot: map<nat, seq<real>>)
    ensures scored == ScoreAll(incoming, tracks, |incoming|)
    ensures Holds(perSlot, incoming, tracks, |incoming|)
  {
    scored, perSlot := [], map[];
    for index := 0 to |incoming|
      invariant scored == ScoreAll(incoming, tracks, index)
      invariant Holds(perSlot, incoming, tracks, index)
    {
      HoldsNext(perSlot, incoming, tracks, index);
      scored, perSlot := ScoreOneSlot(incoming, tracks, index, scored, perSlot);
    }
  }

  /** `_assign`: score every slot against every track, sort, take greedily, label the close calls. */
  method Assign(incoming: seq<Alert>, tracks: seq<Candidate>)
    returns (assignments: map<nat, nat>, ambiguous: set<nat>)
    ensures assignments == Assignment(incoming, tracks)
    ensures ambiguous == AmbiguousSlots(incoming, tracks)
  {
    var scored, perSlot := ScoreEverySlot(incoming, tracks);
    assignments := TakeGreedily(SortBy(scored, NotAfter));
    ambiguous := set i | i in perSlot && i in assignments && CloseCall(perSlot[i]);
    AmbiguousFromEntries(incoming, tracks, perSlot, assignments);
  }

  lemma {:induction false} AmbiguousFromEntries(incoming: seq<Alert>, tracks: seq<Candidate>,
                                                perSlot: map<nat, seq<real>>, a: map<nat, nat>)
    requires a == Assignment(incoming, tracks)
    requires Holds(perSlot, incoming, tracks, |incoming|)
    ensures (set i | i in perSlot && i in a && CloseCall(perSlot[i])) == AmbiguousSlots(incoming, tracks)
  {
    var left := set i | i in perSlot && i in a && CloseCall(perSlot[i]);
    forall i: nat ensures i in left <==> i in AmbiguousSlots(incoming, tracks) {
      if i < |incoming| {
        assert Entry(perSlot, i) == Present(Costs(incoming[i], tracks), |tracks|);
      }
    }
  }
}
