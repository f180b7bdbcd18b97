/**
 * How scores compare: what each kind of evidence of change costs, all else equal, and that a slot
 * goes to the nearer of two tracks that differ in one such respect.
 */
module Scores {
  import opened Common
  import opened Alerts
  import opened Matching

  /** Matching `incoming` against `far` costs exactly `extra` more than against `near`. */
  ghost predicate CostsMore(far: Alert, near: Alert, incoming: Alert, extra: real) {
    && MatchCost(near, incoming).Some? && MatchCost(far, incoming).Some?
    && MatchCost(far, incoming).value == MatchCost(near, incoming).value + extra
  }

  lemma {:induction false} AcceptedHasAScore(a: Alert, b: Alert)
    requires !Refused(a, b)
    ensures MatchCost(a, b).Some?
  {
    MatchCostMeaning(a, b);
  }

  predicate IsBearing(d: Option<char>) {
    d == Some('F') || d == Some('S') || d == Some('R')
  }

  /** The middle of the axis is next to both of its ends. */
  predicate Adjacent(d: Option<char>, e: Option<char>) {
    IsBearing(d) && IsBearing(e) && d != e && (d == Some('S') || e == Some('S'))
  }

  /** How far a bearing has turned: not at all, to the next position, unknown, or end to end. */
  function Turn(d: Option<char>, e: Option<char>): nat {
    if d == e then 0
    else if Adjacent(d, e) then 1
    else if !IsBearing(d) || !IsBearing(e) then 2
    else 3
  }

  /** What each of the four turns costs. */
  function TurnPrice(turn: nat): real {
    if turn == 0 then 0.0 else if turn == 1 then 0.3 else if turn == 2 then 0.5 else 0.8
  }

  /** A turned bearing is never refused, and costs its price on top of the same reading with the bearing unchanged. */
  lemma {:induction false} TurningCosts(a: Alert, b: Alert)
    requires !Refused(a, b)
    ensures CostsMore(a, a.(direction := b.direction), b, TurnPrice(Turn(a.direction, b.direction)))
  {
    AcceptedHasAScore(a, b);
    AcceptedHasAScore(a.(direction := b.direction), b);
  }

  /** A drift in frequency costs the part of the tolerance it uses up. */
  lemma {:induction false} DriftingCosts(a: Alert, b: Alert)
    requires !Refused(a, b) && a.frequency.Some? && b.frequency.Some?
    ensures CostsMore(a, a.(frequency := b.frequency), b,
                      Distance(a.frequency.value, b.frequency.value) / FamilyTolerance(BandFamily(b.band)))
  {
    ToleranceIsPerFamily(b.band);
    AcceptedHasAScore(a, b);
    AcceptedHasAScore(a.(frequency := b.frequency), b);
  }

  /** No frequency on either side costs a half. */
  lemma {:induction false} NoFrequencyCosts(a: Alert, b: Alert, f: real)
    requires !Refused(a, b) && (a.frequency.None? || b.frequency.None?)
    ensures var known := b.(frequency := Some(f));
            && MatchCost(a, b).Some? && MatchCost(a.(frequency := Some(f)), known).Some?
            && MatchCost(a, b).value == MatchCost(a.(frequency := Some(f)), known).value + 0.5
  {
    AcceptedHasAScore(a, b);
    AcceptedHasAScore(a.(frequency := Some(f)), b.(frequency := Some(f)));
  }

  /** Each step of strength costs a tenth. */
  lemma {:induction false} JumpingCosts(a: Alert, b: Alert)
    requires !Refused(a, b) && a.strength.Some? && b.strength.Some?
    ensures CostsMore(a, a.(strength := b.strength), b, AbsInt(a.strength.value - b.strength.value) as real * 0.1)
  {
    AcceptedHasAScore(a, b);
    AcceptedHasAScore(a.(strength := b.strength), b);
  }

  /** An unknown strength costs nothing. */
  lemma {:induction false} NoStrengthCostsNothing(a: Alert, b: Alert)
    requires !Refused(a, b) && (a.strength.None? || b.strength.None?)
    ensures CostsMore(a, a.(strength := b.strength), b, 0.0)
  {
    AcceptedHasAScore(a, b);
    AcceptedHasAScore(a.(strength := b.strength), b);
  }

  /** Another band of the same family costs a half. */
  lemma {:induction false} ReclassifyingCosts(a: Alert, b: Alert)
    requires !Refused(a, b)
    ensures CostsMore(a, a.(band := b.band), b, if a.band == b.band then 0.0 else 0.5)
  {
    AcceptedHasAScore(a, b);
    AcceptedHasAScore(a.(band := b.band), b);
  }

  /** `near` and `far` differ in one respect, in which `near` is closer to what was read. */
  ghost predicate Nearer(near: Alert, far: Alert, read: Alert) {
    || (near == far.(direction := near.direction)
        && Turn(near.direction, read.direction) < Turn(far.direction, read.direction))
    || (near == far.(frequency := near.frequency)
        && near.frequency.Some? && far.frequency.Some? && read.frequency.Some?
        && Distance(near.frequency.value, read.frequency.value) < Distance(far.frequency.value, read.frequency.value))
    || (near == far.(strength := near.strength)
        && near.strength.Some? && far.strength.Some? && read.strength.Some?
        && AbsInt(near.strength.value - read.strength.value) < AbsInt(far.strength.value - read.strength.value))
    || (near == far.(band := read.band) && far.band != read.band)
  }

  lemma {:induction false} LessOfTheTolerance(d: real, e: real, t: real)
    requires 0.0 <= d < e && t > 0.0
    ensures d / t < e / t
  {
    assert (e - d) / t > 0.0;
    assert e / t == d / t + (e - d) / t;
  }

  lemma {:induction false} NearerBearing(near: Alert, far: Alert, read: Alert)
    requires near == far.(direction := near.direction) && !Refused(far, read)
    requires Turn(near.direction, read.direction) < Turn(far.direction, read.direction)
    ensures !Refused(near, read) && MatchCost(near, read).Some? && MatchCost(far, read).Some?
    ensures MatchCost(near, read).value < MatchCost(far, read).value
  {
    TurningCosts(near, read);
    TurningCosts(far, read);
    assert near.(direction := read.direction) == far.(direction := read.direction);
  }

  lemma {:induction false} NearerFrequency(near: Alert, far: Alert, read: Alert)
    requires near == far.(frequency := near.frequency) && !Refused(far, read)
    requires near.frequency.Some? && far.frequency.Some? && read.frequency.Some?
    requires Distance(near.frequency.value, read.frequency.value) < Distance(far.frequency.value, read.frequency.value)
    ensures !Refused(near, read) && MatchCost(near, read).Some? && MatchCost(far, read).Some?
    ensures MatchCost(near, read).value < MatchCost(far, read).value
  {
    DriftingCosts(near, read);
    DriftingCosts(far, read);
    assert near.(frequency := read.frequency) == far.(frequency := read.frequency);
    LessOfTheTolerance(Distance(near.frequency.value, read.frequency.value),
                       Distance(far.frequency.value, read.frequency.value), FamilyTolerance(BandFamily(read.band)));
  }

  lemma {:induction false} NearerStrength(near: Alert, far: Alert, read: Alert)
    requires near == far.(strength := near.strength) && !Refused(far, read)
    requires near.strength.Some? && far.strength.Some? && read.strength.Some?
    requires AbsInt(near.strength.value - read.strength.value) < AbsInt(far.strength.value - read.strength.value)
    ensures !Refused(near, read) && MatchCost(near, read).Some? && MatchCost(far, read).Some?
    ensures MatchCost(near, read).value < MatchCost(far, read).value
  {
    JumpingCosts(near, read);
    JumpingCosts(far, read);
    assert near.(strength := read.strength) == far.(strength := read.strength);
  }

  /** What is nearer in one respect, and the same in all others, scores strictly less. */
  lemma {:induction false} NearerIsCheaper(near: Alert, far: Alert, read: Alert)
    requires Nearer(near, far, read) && !Refused(far, read)
    ensures MatchCost(near, read).Some? && MatchCost(far, read).Some?
    ensures MatchCost(near, read).value < MatchCost(far, read).value
  {
    if near == far.(band := read.band) && far.band != read.band {
      ReclassifyingCosts(far, read);
    } else if near == far.(direction := near.direction)
        && Turn(near.direction, read.direction) < Turn(far.direction, read.direction) {
      NearerBearing(near, far, read);
    } else if near == far.(strength := near.strength)
        && near.strength.Some? && far.strength.Some? && read.strength.Some?
        && AbsInt(near.strength.value - read.strength.value) < AbsInt(far.strength.value - read.strength.value) {
      NearerStrength(near, far, read);
    } else {
      NearerFrequency(near, far, read);
    }
  }

  lemma {:induction false} TrackOf(read: Alert, tracks: seq<Candidate>, p: Scored) returns (j: nat)
    requires p in Pairs([read], tracks)
    ensures p.slot == 0 && j < |tracks| && tracks[j].id == p.track
    ensures MatchCost(tracks[j].alert, read) == Some(p.cost)
  {
    j :| 0 <= j < |tracks| && tracks[j].id == p.track && Costs([read][p.slot], tracks)[j] == Some(p.cost);
  }

  /** Track `k` accepts the reading, for less than any other. */
  ghost predicate Cheapest(read: Alert, tracks: seq<Candidate>, k: nat) {
    && k < |tracks| && MatchCost(tracks[k].alert, read).Some?
    && forall j :: 0 <= j < |tracks| && j != k && MatchCost(tracks[j].alert, read).Some? ==>
         MatchCost(tracks[k].alert, read).value < MatchCost(tracks[j].alert, read).value
  }

  lemma {:induction false} NothingIsBefore(read: Alert, tracks: seq<Candidate>, k: nat, p: Scored)
    requires Cheapest(read, tracks, k) && p in Pairs([read], tracks)
    ensures !Before(p, Scored(MatchCost(tracks[k].alert, read).value, 0, tracks[k].id))
  {
    var j := TrackOf(read, tracks, p);
  }

  lemma {:induction false} CheapestIsAPair(read: Alert, tracks: seq<Candidate>, k: nat)
    requires Cheapest(read, tracks, k)
    ensures Scored(MatchCost(tracks[k].alert, read).value, 0, tracks[k].id) in Pairs([read], tracks)
  {
    assert Costs([read][0], tracks)[k] == MatchCost(tracks[k].alert, read);
  }

  lemma {:induction false} UnblockedIsChosen(pairs: iset<Scored>, a: map<nat, nat>, p: Scored)
    requires Stable(pairs, a) && p in pairs && forall q :: q in pairs ==> !Before(q, p)
    ensures Chosen(a, p)
  {
    assert Chosen(a, p) || Blocked(pairs, a, p);
  }

  lemma {:induction false} OneSlot(read: Alert, tracks: seq<Candidate>, a: map<nat, nat>, i: nat)
    requires Stable(Pairs([read], tracks), a) && i in a
    ensures i == 0
  {
    var p :| p in Pairs([read], tracks) && p.slot == i && p.track == a[i];
  }

  /** One slot goes to the cheapest of the tracks that accept it. */
  lemma {:induction false} CheapestIsTaken(read: Alert, tracks: seq<Candidate>, k: nat)
    requires DistinctIds(tracks) && Cheapest(read, tracks, k)
    ensures Assignment([read], tracks) == map[0 := tracks[k].id]
  {
    var a, pairs := Assignment([read], tracks), Pairs([read], tracks);
    AssignmentIsStable([read], tracks);
    var best := Scored(MatchCost(tracks[k].alert, read).value, 0, tracks[k].id);
    CheapestIsAPair(read, tracks, k);
    forall p | p in pairs ensures !Before(p, best) {
      NothingIsBefore(read, tracks, k, p);
    }
    UnblockedIsChosen(pairs, a, best);
    forall i | i in a ensures i == 0 {
      OneSlot(read, tracks, a, i);
    }
  }

  /** Of two tracks that differ in one respect, in either order, a slot is assigned the nearer. */
  lemma {:induction false} NearerIsTaken(near: Candidate, far: Candidate, read: Alert)
    requires near.id != far.id && Nearer(near.alert, far.alert, read) && !Refused(far.alert, read)
    ensures Assignment([read], [near, far]) == Assignment([read], [far, near]) == map[0 := near.id]
  {
    NearerIsCheaper(near.alert, far.alert, read);
    CheapestIsTaken(read, [near, far], 0);
    CheapestIsTaken(read, [far, near], 1);
  }
}
