/** The run invariant, its preservation by every input, and what it says about any run. */
module RunTheorems {
  import opened Common
  import opened Alerts
  import opened Matching
  import opened Tracks
  import opened Runs
  import opened Encounters

  ghost predicate Good(w: World) {
    Lives(w) && Current(w) && Conserved(w) && Booked(w)
  }

  // ---------------------------------------------------------------- single moves

  /** One elementary change of the world; every input is a list of them. */
  datatype Move =
    | Begin(a: Alert, snap: Snapshot, stamp: nat)
    | Absorb(k: nat, a: Alert, snap: Snapshot, close: bool, stamp: nat)
    | Miss(k: nat)
    | Finish(k: nat, seqNo: int, wall: int, reason: Correlation)

  ghost predicate Legal(w: World, m: Move) {
    match m
    case Begin(_, _, _) => true
    case Absorb(k, a, _, _, _) => k < |w.st.tracks| && MatchCost(w.st.tracks[k].alert, a).Some?
    case Miss(k) => k < |w.st.tracks|
    case Finish(k, _, _, reason) => k < |w.st.tracks| && (reason == Timeout || reason == Closed)
  }

  ghost function Apply(w: World, m: Move): World
    requires Legal(w, m)
  {
    match m
    case Begin(a, snap, stamp) => StepStart(w, a, snap, stamp)
    case Absorb(k, a, snap, close, stamp) => StepAbsorb(w, k, a, snap, close, stamp)
    case Miss(k) => StepMiss(w, k)
    case Finish(k, seqNo, wall, reason) => StepEnd(w, k, seqNo, wall, reason)
  }

  /** `w'` is `w` after the legal moves `ms`. */
  ghost predicate Leads(w: World, ms: seq<Move>, w': World)
    decreases |ms|
  {
    if |ms| == 0 then w' == w
    else Legal(w, ms[0]) && Leads(Apply(w, ms[0]), ms[1..], w')
  }

  lemma {:induction false} LeadsOn(w: World, ms: seq<Move>, v: World, m: Move)
    requires Leads(w, ms, v) && Legal(v, m)
    ensures Leads(w, ms + [m], Apply(v, m))
    decreases |ms|
  {
    if |ms| == 0 {
      assert ([m])[1..] == [];
      assert ms + [m] == [m];
    } else {
      assert (ms + [m])[1..] == ms[1..] + [m];
      LeadsOn(Apply(w, ms[0]), ms[1..], v, m);
    }
  }

  lemma {:induction false} MoveGood(w: World, m: Move)
    requires Good(w) && Legal(w, m)
    ensures Good(Apply(w, m))
  {
    match m
    case Begin(a, snap, stamp) =>
      LivesStart(w, a, snap, stamp);
      CurrentStart(w, a, snap, stamp);
      ConservedStart(w, a, snap, stamp);
      BookedStart(w, a, snap, stamp);
    case Absorb(k, a, snap, close, stamp) =>
      LivesAbsorb(w, k, a, snap, close, stamp);
      CurrentAbsorb(w, k, a, snap, close, stamp);
      ConservedAbsorb(w, k, a, snap, close, stamp);
      BookedAbsorb(w, k, a, snap, close, stamp);
    case Miss(k) =>
      LivesMiss(w, k);
      CurrentMiss(w, k);
      ConservedMiss(w, k);
      BookedMiss(w, k);
    case Finish(k, seqNo, wall, reason) =>
      LivesEnd(w, k, seqNo, wall, reason);
      CurrentEnd(w, k, seqNo, wall, reason);
      ConservedEnd(w, k, seqNo, wall, reason);
      BookedEnd(w, k, seqNo, wall, reason);
  }

  lemma {:induction false} MovesGood(w: World, ms: seq<Move>, w': World)
    requires Good(w) && Leads(w, ms, w')
    ensures Good(w')
    decreases |ms|
  {
    if |ms| == 0 {
    } else {
      MoveGood(w, ms[0]);
      MovesGood(Apply(w, ms[0]), ms[1..], w');
    }
  }

  // ---------------------------------------------------------------- slots

  /** If slot `i` is assigned the track at `k`, that track can take its alert. */
  ghost predicate Fits(w: World, snap: Snapshot, a: map<nat, nat>, i: nat, k: nat)
    requires k < |w.st.tracks|
  {
    i in a && a[i] == w.st.tracks[k].id ==>
      i < |snap.alerts| && MatchCost(w.st.tracks[k].alert, snap.alerts[i]).Some?
  }

  ghost predicate Sound(w: World, snap: Snapshot, a: map<nat, nat>) {
    && Injective(a)
    && AllHeld(a, w.st.tracks)
    && forall i: nat, k: nat {:trigger Fits(w, snap, a, i, k)} :: k < |w.st.tracks| ==> Fits(w, snap, a, i, k)
  }

  lemma {:induction false} OnePosition(st: State, j: nat, k: nat)
    requires WellFormed(st) && j < |st.tracks| && k < |st.tracks| && st.tracks[j].id == st.tracks[k].id
    ensures j == k
  {
  }

  lemma {:induction false} AssignmentIsSound(w: World, snap: Snapshot)
    requires WellFormed(w.st)
    ensures Sound(w, snap, Assignment(snap.alerts, Candidates(w.st.tracks)))
    ensures forall i :: i in Assignment(snap.alerts, Candidates(w.st.tracks)) ==> i < |snap.alerts|
  {
    var c := Candidates(w.st.tracks);
    var a := Assignment(snap.alerts, c);
    AssignedAreHeld(w.st.tracks, snap.alerts);
    AssignmentIsStable(snap.alerts, c);
    forall i | i in a ensures i < |snap.alerts| {
      var j := AssignedPair(snap.alerts, c, i);
    }
    forall i: nat, k: nat | k < |w.st.tracks| ensures Fits(w, snap, a, i, k) {
      if i in a && a[i] == w.st.tracks[k].id {
        var j := AssignedPair(snap.alerts, c, i);
        OnePosition(w.st, j, k);
      }
    }
  }

  function LastStamp(seen: map<nat, seq<Sighting>>, id: nat): int {
    var obs := Sightings(seen, id);
    if |obs| == 0 then -1 else obs[|obs| - 1].stamp
  }

  ghost predicate TakenBefore(a: map<nat, nat>, n: nat, id: nat) {
    exists i :: 0 <= i < n && i in a && a[i] == id
  }

  lemma {:induction false} TakenNext(a: map<nat, nat>, n: nat, id: nat)
    ensures TakenBefore(a, n + 1, id) <==> TakenBefore(a, n, id) || (n in a && a[n] == id)
  {
    if TakenBefore(a, n, id) {
      var i :| 0 <= i < n && i in a && a[i] == id;
    }
  }

  lemma {:induction false} NotTakenTwice(a: map<nat, nat>, n: nat)
    requires Injective(a) && n in a
    ensures !TakenBefore(a, n, a[n])
  {
  }

  /** A track of this snapshot: no misses, last seen now. */
  ghost predicate Fresh(t: Track, seen: map<nat, seq<Sighting>>, stamp: nat) {
    t.misses == 0 && LastStamp(seen, t.id) == stamp
  }

  /** An old track after `n` slots: fresh if taken, untouched otherwise. */
  ghost predicate OldFact(w: World, v: World, snap: Snapshot, a: map<nat, nat>, n: nat, k: nat)
    requires k < |w.st.tracks| <= |v.st.tracks|
  {
    && v.st.tracks[k].id == w.st.tracks[k].id
    && (if TakenBefore(a, n, w.st.tracks[k].id)
        then Fresh(v.st.tracks[k], v.seen, Stamp(w, snap))
        else v.st.tracks[k] == w.st.tracks[k]
             && Sightings(v.seen, w.st.tracks[k].id) == Sightings(w.seen, w.st.tracks[k].id))
  }

  ghost predicate NewFact(w: World, v: World, snap: Snapshot, k: nat)
    requires k < |v.st.tracks|
  {
    v.st.tracks[k].id >= w.st.nextId && Fresh(v.st.tracks[k], v.seen, Stamp(w, snap))
  }

  ghost predicate SlotFacts(w: World, v: World, snap: Snapshot, a: map<nat, nat>, n: nat) {
    && WellFormed(v.st)
    && AllHeld(a, v.st.tracks)
    && |v.st.tracks| >= |w.st.tracks| && v.st.nextId >= w.st.nextId
    && (forall k: nat {:trigger OldFact(w, v, snap, a, n, k)} :: k < |w.st.tracks| ==> OldFact(w, v, snap, a, n, k))
    && (forall k: nat {:trigger NewFact(w, v, snap, k)} :: |w.st.tracks| <= k < |v.st.tracks| ==>
        NewFact(w, v, snap, k))
  }

  /** An assigned slot meets its track as it was before the snapshot. */
  lemma {:induction false} PositionIsOld(w: World, v: World, snap: Snapshot, a: map<nat, nat>, n: nat)
    requires n in a && Sound(w, snap, a) && WellFormed(w.st) && SlotFacts(w, v, snap, a, n)
    ensures var p := PositionOf(v.st.tracks, a[n]);
            && p < |w.st.tracks| && v.st.tracks[p] == w.st.tracks[p] && w.st.tracks[p].id == a[n]
            && n < |snap.alerts| && MatchCost(v.st.tracks[p].alert, snap.alerts[n]).Some?
  {
    var p := PositionOf(v.st.tracks, a[n]);
    assert HasId(w.st.tracks, a[n]);
    var k :| 0 <= k < |w.st.tracks| && w.st.tracks[k].id == a[n];
    assert OldFact(w, v, snap, a, n, k);
    OnePosition(v.st, k, p);
    NotTakenTwice(a, n);
    assert Fits(w, snap, a, n, k);
  }

  lemma {:induction false} AbsorbOld(w: World, v: World, snap: Snapshot, a: map<nat, nat>, n: nat, p: nat,
                                     close: bool, k: nat)
    requires n in a && n < |snap.alerts| && WellFormed(w.st)
    requires k < |w.st.tracks| <= |v.st.tracks| && p < |w.st.tracks|
    requires OldFact(w, v, snap, a, n, k) && OldFact(w, v, snap, a, n, p) && w.st.tracks[p].id == a[n]
    ensures OldFact(w, StepAbsorb(v, p, snap.alerts[n], snap, close, Stamp(w, snap)), snap, a, n + 1, k)
  {
    var id := w.st.tracks[k].id;
    TakenNext(a, n, id);
    if k != p && id == a[n] {
      OnePosition(w.st, k, p);
    }
  }

  lemma {:induction false} AbsorbNew(w: World, v: World, snap: Snapshot, p: nat, a: Alert, close: bool, k: nat)
    requires WellFormed(v.st) && p < |v.st.tracks| && k < |v.st.tracks| && p != k && NewFact(w, v, snap, k)
    ensures NewFact(w, StepAbsorb(v, p, a, snap, close, Stamp(w, snap)), snap, k)
  {
    if v.st.tracks[k].id == v.st.tracks[p].id {
      OnePosition(v.st, k, p);
    }
  }

  lemma {:induction false} AbsorbShape(v: World, p: nat, a: Alert, snap: Snapshot, close: bool, stamp: nat,
                                       held: map<nat, nat>)
    requires WellFormed(v.st) && p < |v.st.tracks| && AllHeld(held, v.st.tracks)
    ensures var v' := StepAbsorb(v, p, a, snap, close, stamp);
            WellFormed(v'.st) && AllHeld(held, v'.st.tracks) && v'.st.nextId == v.st.nextId
              && |v'.st.tracks| == |v.st.tracks|
  {
    var v' := StepAbsorb(v, p, a, snap, close, stamp);
    forall i | i in held ensures HasId(v'.st.tracks, held[i]) {
      SameIds(v.st.tracks, p, v'.st.tracks[p], held[i]);
    }
  }

  lemma {:induction false} AbsorbFacts(w: World, v: World, snap: Snapshot, a: map<nat, nat>, n: nat, p: nat,
                                       close: bool)
    requires n in a && n < |snap.alerts| && WellFormed(w.st) && SlotFacts(w, v, snap, a, n)
    requires p < |w.st.tracks| && w.st.tracks[p].id == a[n]
    ensures SlotFacts(w, StepAbsorb(v, p, snap.alerts[n], snap, close, Stamp(w, snap)), snap, a, n + 1)
  {
    var m := n + 1;
    var v' := StepAbsorb(v, p, snap.alerts[n], snap, close, Stamp(w, snap));
    AbsorbShape(v, p, snap.alerts[n], snap, close, Stamp(w, snap), a);
    assert OldFact(w, v, snap, a, n, p);
    forall k: nat | k < |w.st.tracks| ensures OldFact(w, v', snap, a, m, k) {
      assert OldFact(w, v, snap, a, n, k);
      AbsorbOld(w, v, snap, a, n, p, close, k);
    }
    forall k: nat | |w.st.tracks| <= k < |v'.st.tracks| ensures NewFact(w, v', snap, k) {
      assert NewFact(w, v, snap, k);
      AbsorbNew(w, v, snap, p, snap.alerts[n], close, k);
    }
  }

  lemma {:induction false} StartFacts(w: World, v: World, snap: Snapshot, a: map<nat, nat>, n: nat)
    requires n !in a && n < |snap.alerts| && WellFormed(w.st) && SlotFacts(w, v, snap, a, n)
    ensures SlotFacts(w, StepStart(v, snap.alerts[n], snap, Stamp(w, snap)), snap, a, n + 1)
  {
    var m := n + 1;
    var v' := StepStart(v, snap.alerts[n], snap, Stamp(w, snap));
    forall i | i in a ensures HasId(v'.st.tracks, a[i]) {
      var j :| 0 <= j < |v.st.tracks| && v.st.tracks[j].id == a[i];
      assert v'.st.tracks[j].id == a[i];
    }
    forall k: nat | k < |w.st.tracks| ensures OldFact(w, v', snap, a, m, k) {
      assert OldFact(w, v, snap, a, n, k);
      TakenNext(a, n, w.st.tracks[k].id);
    }
    forall k: nat | |w.st.tracks| <= k < |v'.st.tracks| ensures NewFact(w, v', snap, k) {
      if k < |v.st.tracks| {
        assert NewFact(w, v, snap, k);
      }
    }
  }

  lemma {:induction false} SlotLeads(w: World, v: World, snap: Snapshot, a: map<nat, nat>, close: set<nat>, n: nat)
    returns (m: Move)
    requires n < |snap.alerts| && WellFormed(w.st) && Sound(w, snap, a)
    requires v == SlotWorld(w, snap, a, close, n) && SlotFacts(w, v, snap, a, n)
    ensures Legal(v, m) && Apply(v, m) == SlotWorld(w, snap, a, close, n + 1)
    ensures SlotFacts(w, Apply(v, m), snap, a, n + 1)
  {
    SlotIsAStep(w, snap, a, close, n);
    if n in a {
      PositionIsOld(w, v, snap, a, n);
      AbsorbFacts(w, v, snap, a, n, PositionOf(v.st.tracks, a[n]), n in close);
      m := Absorb(PositionOf(v.st.tracks, a[n]), snap.alerts[n], snap, n in close, Stamp(w, snap));
    } else {
      StartFacts(w, v, snap, a, n);
      m := Begin(snap.alerts[n], snap, Stamp(w, snap));
    }
  }

  /** What is known after `n` slots: legal moves led there, and every track is fresh or untouched. */
  ghost predicate ReachedSlot(w: World, snap: Snapshot, a: map<nat, nat>, close: set<nat>, n: nat, ms: seq<Move>)
    requires n <= |snap.alerts| && AllHeld(a, w.st.tracks)
  {
    var v := SlotWorld(w, snap, a, close, n);
    Leads(w, ms, v) && SlotFacts(w, v, snap, a, n)
  }

  lemma {:induction false} FirstSlot(w: World, snap: Snapshot, a: map<nat, nat>, close: set<nat>)
    requires WellFormed(w.st) && AllHeld(a, w.st.tracks)
    ensures ReachedSlot(w, snap, a, close, 0, [])
  {
    assert SlotWorld(w, snap, a, close, 0) == w;
    forall k: nat | k < |w.st.tracks| ensures OldFact(w, w, snap, a, 0, k) {
      assert !TakenBefore(a, 0, w.st.tracks[k].id);
    }
  }

  lemma {:induction false} NextSlot(w: World, snap: Snapshot, a: map<nat, nat>, close: set<nat>, n: nat, ms: seq<Move>)
    returns (more: seq<Move>)
    requires n < |snap.alerts| && WellFormed(w.st) && Sound(w, snap, a)
    requires ReachedSlot(w, snap, a, close, n, ms)
    ensures ReachedSlot(w, snap, a, close, n + 1, more)
  {
    var v := SlotWorld(w, snap, a, close, n);
    var m := SlotLeads(w, v, snap, a, close, n);
    LeadsOn(w, ms, v, m);
    more := ms + [m];
  }

  lemma {:induction false} SlotsLead(w: World, snap: Snapshot, a: map<nat, nat>, close: set<nat>, n: nat)
    returns (ms: seq<Move>)
    requires n <= |snap.alerts| && WellFormed(w.st) && Sound(w, snap, a)
    ensures ReachedSlot(w, snap, a, close, n, ms)
  {
    if n == 0 {
      FirstSlot(w, snap, a, close);
      ms := [];
    } else {
      var front := SlotsLead(w, snap, a, close, n - 1);
      ms := NextSlot(w, snap, a, close, n - 1, front);
    }
  }

  // ---------------------------------------------------------------- the end pass and close

  lemma {:induction false} TurnLeads(w: World, ms: seq<Move>, v: World, v': World, k: nat, t: Track, claimed: bool,
                                     tolerance: int, snap: Snapshot)
    returns (more: seq<Move>)
    requires Leads(w, ms, v) && PassTurn(v, v', k, t, claimed, tolerance, snap)
    ensures Leads(w, more, v')
  {
    more := ms;
    if !claimed {
      LeadsOn(w, ms, v, Miss(k));
      more := ms + [Miss(k)];
      if Missed(t).misses > tolerance {
        LeadsOn(w, more, StepMiss(v, k), Finish(k, snap.seqNo, snap.wall, Timeout));
        more := more + [Finish(k, snap.seqNo, snap.wall, Timeout)];
      }
    }
  }

  lemma {:induction false} PassStarts(w: World, a: map<nat, nat>, firstNew: nat, tolerance: int, snap: Snapshot)
    ensures PassWorld(w, a, firstNew, tolerance, snap, 0) == w
  {
    assert [] + w.st.tracks[0..] == w.st.tracks;
  }

  lemma {:induction false} NextTurnLeads(w: World, a: map<nat, nat>, firstNew: nat, tolerance: int, snap: Snapshot,
                                         n: nat, ms: seq<Move>)
    returns (more: seq<Move>)
    requires n < |w.st.tracks| && Leads(w, ms, PassWorld(w, a, firstNew, tolerance, snap, n))
    ensures Leads(w, more, PassWorld(w, a, firstNew, tolerance, snap, n + 1))
  {
    var v, v' := PassWorld(w, a, firstNew, tolerance, snap, n), PassWorld(w, a, firstNew, tolerance, snap, n + 1);
    var k := PassIsAStep(w, a, firstNew, tolerance, snap, n);
    var t := w.st.tracks[n];
    more := TurnLeads(w, ms, v, v', k, t, Claims(a, firstNew, t.id), tolerance, snap);
  }

  lemma {:induction false} PassLeads(w: World, a: map<nat, nat>, firstNew: nat, tolerance: int, snap: Snapshot, n: nat)
    returns (ms: seq<Move>)
    requires n <= |w.st.tracks|
    ensures Leads(w, ms, PassWorld(w, a, firstNew, tolerance, snap, n))
  {
    if n == 0 {
      PassStarts(w, a, firstNew, tolerance, snap);
      ms := [];
    } else {
      var front := PassLeads(w, a, firstNew, tolerance, snap, n - 1);
      ms := NextTurnLeads(w, a, firstNew, tolerance, snap, n - 1, front);
    }
  }

  lemma {:induction false} EndLeads(w: World, ms: seq<Move>, v: World, v': World, seqNo: int, wall: int)
    requires Leads(w, ms, v) && |v.st.tracks| > 0 && v' == StepEnd(v, 0, seqNo, wall, Closed)
    ensures Leads(w, ms + [Finish(0, seqNo, wall, Closed)], v')
  {
    LeadsOn(w, ms, v, Finish(0, seqNo, wall, Closed));
  }

  lemma {:induction false} CloseStarts(w: World, seqNo: int, wall: int)
    ensures CloseWorld(w, seqNo, wall, 0) == w
  {
    assert w.st.tracks[0..] == w.st.tracks;
  }

  lemma {:induction false} CloseLeads(w: World, seqNo: int, wall: int, n: nat) returns (ms: seq<Move>)
    requires n <= |w.st.tracks|
    ensures Leads(w, ms, CloseWorld(w, seqNo, wall, n))
  {
    if n == 0 {
      CloseStarts(w, seqNo, wall);
      ms := [];
    } else {
      var front := CloseLeads(w, seqNo, wall, n - 1);
      CloseIsAStep(w, seqNo, wall, n - 1);
      EndLeads(w, front, CloseWorld(w, seqNo, wall, n - 1), CloseWorld(w, seqNo, wall, n), seqNo, wall);
      ms := front + [Finish(0, seqNo, wall, Closed)];
    }
  }

  // ---------------------------------------------------------------- inputs keep the invariant

  /** The world after a snapshot, up to its count of readable snapshots. */
  ghost function Unstamped(w: World, snap: Snapshot, tolerance: int): World
    requires WellFormed(w.st)
  {
    Feed(w, snap, tolerance).(readable := w.readable)
  }

  /** Without a hold, a snapshot is its slots and then the end pass. */
  lemma {:induction false} FeedIsSlotsThenPass(w: World, v: World, snap: Snapshot, tolerance: int)
    requires WellFormed(w.st) && AllHeld(Assignment(snap.alerts, Candidates(w.st.tracks)), w.st.tracks)
    requires var c := Candidates(w.st.tracks);
             v == SlotWorld(w, snap, Assignment(snap.alerts, c), AmbiguousSlots(snap.alerts, c), |snap.alerts|)
    ensures Unstamped(w, snap, tolerance)
            == if snap.holdOpen then v
               else PassWorld(v, Assignment(snap.alerts, Candidates(w.st.tracks)), w.st.nextId, tolerance, snap,
                              |v.st.tracks|)
  {
    var c := Candidates(w.st.tracks);
    var a := Assignment(snap.alerts, c);
    var close := AmbiguousSlots(snap.alerts, c);
    SlotWorldCounts(w, snap, a, close, |snap.alerts|);
    if !snap.holdOpen {
      PassFromSlots(w, v, snap, a, close, tolerance);
    }
  }

  lemma {:induction false} PassFromSlots(w: World, v: World, snap: Snapshot, a: map<nat, nat>, close: set<nat>,
                                         tolerance: int)
    requires AllHeld(a, w.st.tracks) && v.log == w.log + Slots(w.st, snap, a, close, |snap.alerts|).1
    ensures var (kept, ends) := EndPass(v.st.tracks, a, w.st.nextId, tolerance, snap, |v.st.tracks|);
            PassWorld(v, a, w.st.nextId, tolerance, snap, |v.st.tracks|)
            == v.(st := v.st.(tracks := kept), log := w.log + (Slots(w.st, snap, a, close, |snap.alerts|).1 + ends))
  {
    var es := Slots(w.st, snap, a, close, |snap.alerts|).1;
    var (kept, ends) := EndPass(v.st.tracks, a, w.st.nextId, tolerance, snap, |v.st.tracks|);
    assert kept + v.st.tracks[|v.st.tracks|..] == kept;
    assert w.log + (es + ends) == (w.log + es) + ends;
  }

  lemma {:induction false} FeedLeads(w: World, snap: Snapshot, tolerance: int)
    returns (v: World, ms: seq<Move>, more: seq<Move>)
    requires WellFormed(w.st)
    ensures var a := Assignment(snap.alerts, Candidates(w.st.tracks));
            && AllHeld(a, w.st.tracks) && SlotFacts(w, v, snap, a, |snap.alerts|)
            && v == SlotWorld(w, snap, a, AmbiguousSlots(snap.alerts, Candidates(w.st.tracks)), |snap.alerts|)
    ensures Leads(w, ms, v) && Leads(v, more, Unstamped(w, snap, tolerance))
  {
    var c := Candidates(w.st.tracks);
    var a := Assignment(snap.alerts, c);
    AssignmentIsSound(w, snap);
    v := SlotWorld(w, snap, a, AmbiguousSlots(snap.alerts, c), |snap.alerts|);
    ms := SlotsLead(w, snap, a, AmbiguousSlots(snap.alerts, c), |snap.alerts|);
    FeedIsSlotsThenPass(w, v, snap, tolerance);
    more := [];
    if !snap.holdOpen {
      more := PassLeads(v, a, w.st.nextId, tolerance, snap, |v.st.tracks|);
    }
  }

  lemma {:induction false} GoodWithoutCount(w: World, n: nat)
    requires Good(w)
    ensures Good(w.(readable := n))
  {
    var w' := w.(readable := n);
    assert forall id: nat :: PhaseOf(w'.log, id) == PhaseOf(w.log, id);
  }

  lemma {:induction false} FeedGood(w: World, snap: Snapshot, tolerance: int)
    requires Good(w)
    ensures Good(Feed(w, snap, tolerance))
  {
    var v, ms, more := FeedLeads(w, snap, tolerance);
    MovesGood(w, ms, v);
    MovesGood(v, more, Unstamped(w, snap, tolerance));
    GoodWithoutCount(Unstamped(w, snap, tolerance), Stamp(w, snap));
    assert Feed(w, snap, tolerance) == Unstamped(w, snap, tolerance).(readable := Stamp(w, snap));
  }

  lemma {:induction false} ShutGood(w: World, seqNo: int, wall: int)
    requires Good(w)
    ensures Good(Shut(w, seqNo, wall))
  {
    var ms := CloseLeads(w, seqNo, wall, |w.st.tracks|);
    assert w.st.tracks[|w.st.tracks|..] == [];
    MovesGood(w, ms, Shut(w, seqNo, wall));
  }
}
