/**
 * The write of one document as the code runs it, from taking the lock to releasing it, and the
 * blocking half of a publish. The lock makes each such write one uninterrupted run of its thread
 * in `Publish`, which the lemmas here prove.
 */
module Writing {
  import opened Common
  import opened Publish

  /** The file operations of one write that can fail. */
  datatype Operation = Open | Fill | Mode | Land

  /** What goes wrong during one write, if anything; `tidy` is whether the clean-up unlink then works. */
  datatype Weather = Fair | Foul(at: Operation, tidy: bool)

  datatype Disk = Disk(files: Pair<Content>, last: Pair<nat>, temps: map<(Target, nat), Content>)

  function DiskOf(w: World): Disk {
    Disk(w.files, w.last, w.temps)
  }

  /** What one write does to the disk and to `_last_written`, and whether it raises. */
  function Wrote(d: Disk, t: Target, ticket: nat, weather: Weather): (r: (Disk, bool)) {
    var name := (t, ticket);
    match weather
    case Fair =>
      (if d.last.At(t) > ticket then d.(temps := d.temps[name := Whole(ticket)] - {name})
       else Disk(d.files.With(t, Whole(ticket)), d.last.With(t, ticket), d.temps[name := Whole(ticket)] - {name}),
         false)
    case Foul(at, tidy) =>
      var left := match at
        case Open => d.temps
        case Fill => d.temps[name := Torn(ticket)]
        case _ => d.temps[name := Whole(ticket)];
      (d.(temps := if tidy then left - {name} else left), true)
  }

  class StateDirectory {
    var files: Pair<Content>
    var temps: map<(Target, nat), Content>
    /** `_last_written`: the highest ticket that has landed, per target. */
    var last: Pair<nat>

    ghost function Value(): Disk
      reads this
    {
      Disk(files, last, temps)
    }

    constructor ()
      ensures Value() == DiskOf(START)
    {
      files, temps, last := Pair(Absent, Absent), map[], Pair(0, 0);
    }

    /** The handler: remove the partial file, if that works, and re-raise. */
    method Discard(name: (Target, nat), tidy: bool)
      modifies this`temps
      ensures temps == if tidy then old(temps) - {name} else old(temps)
    {
      if tidy {
        temps := temps - {name};
      }
    }

    /** `_write_atomic`, under the lock. */
    method WriteAtomic(t: Target, ticket: nat, weather: Weather) returns (raised: bool)
      modifies this
      ensures (Value(), raised) == Wrote(old(Value()), t, ticket, weather)
    {
      var name := (t, ticket);
      raised := weather.Foul?;
      if weather.Foul? && weather.at == Open {
        Discard(name, weather.tidy);
        return;
      }
      temps := temps[name := Torn(ticket)];
      if weather.Foul? && weather.at == Fill {
        Discard(name, weather.tidy);
        return;
      }
      temps := temps[name := Whole(ticket)];
      assert temps == old(temps)[name := Whole(ticket)];
      if weather.Foul? && weather.at == Mode {
        Discard(name, weather.tidy);
        return;
      }
      if last.At(t) > ticket {
        // A newer document is already on disk.
        if weather.Foul? {
          Discard(name, weather.tidy);
          return;
        }
        temps := temps - {name};
        return;
      }
      if weather.Foul? {
        Discard(name, weather.tidy);
        return;
      }
      files := files.With(t, temps[name]);
      temps := temps - {name};
      last := last.With(t, ticket);
    }

    /**
     * `_write_documents`: make sure of the directory, which can raise, then every target in turn,
     * giving up at the first that raises.
     */
    method WriteDocuments(targets: seq<Target>, ticket: nat, directory: bool, weather: seq<Weather>)
      returns (raised: bool)
      requires |weather| == |targets|
      modifies this
      ensures (Value(), raised) == if directory then WroteAll(old(Value()), targets, ticket, weather, |targets|)
                                   else (old(Value()), true)
    {
      if !directory {
        return true;
      }
      raised := false;
      var n := 0;
      while n < |targets| && !raised
        invariant n <= |targets|
        invariant (Value(), raised) == WroteAll(old(Value()), targets, ticket, weather, n)
      {
        raised := WriteAtomic(targets[n], ticket, weather[n]);
        n := n + 1;
      }
      if n < |targets| {
        GaveUp(old(Value()), targets, ticket, weather, n, |targets|);
      }
    }
  }

  /** The first `n` writes of a publish. */
  function WroteAll(d: Disk, targets: seq<Target>, ticket: nat, weather: seq<Weather>, n: nat): (Disk, bool)
    requires n <= |targets| == |weather|
  {
    if n == 0 then (d, false)
    else
      var (now, raised) := WroteAll(d, targets, ticket, weather, n - 1);
      if raised then (now, true) else Wrote(now, targets[n - 1], ticket, weather[n - 1])
  }

  lemma {:induction false} GaveUp(d: Disk, targets: seq<Target>, ticket: nat, weather: seq<Weather>, n: nat, m: nat)
    requires n <= m <= |targets| == |weather| && WroteAll(d, targets, ticket, weather, n).1
    ensures WroteAll(d, targets, ticket, weather, m) == WroteAll(d, targets, ticket, weather, n)
  {
    if n >= m {
    } else {
      GaveUp(d, targets, ticket, weather, n, m - 1);
    }
  }

  // ---------------------------------------------------------------- the same write, step by step

  function Acted(w: World, acts: seq<Act>): World {
    if |acts| == 0 then w else Step(Acted(w, acts[..|acts| - 1]), acts[|acts| - 1])
  }

  lemma {:induction false} ActedOn(w: World, acts: seq<Act>, act: Act)
    ensures Acted(w, acts + [act]) == Step(Acted(w, acts), act)
  {
    assert (acts + [act])[..|acts|] == acts;
  }

  /** Where a thread stands after `n` good operations of an uninterrupted write. */
  function Reached(n: nat): Pc {
    if n == 0 then Ready else if n == 1 then Holding else if n == 2 then Opened else if n == 3 then Written else Moded
  }

  /** The good operations up to the comparison, run alone. */
  lemma {:induction false} AloneUpTo(w: World, k: nat, n: nat) returns (acts: seq<Act>)
    requires HasCurrent(w, k) && w.jobs[k].pc == Ready && w.lock == None && n <= 4
    ensures forall act :: act in acts ==> act == Run(k)
    ensures var temps := if n <= 1 then w.temps
                         else if n == 2 then w.temps[Name(w, k) := Torn(k + 1)]
                         else w.temps[Name(w, k) := Whole(k + 1)];
            Acted(w, acts) == Moved(w, k, Reached(n)).(lock := if n == 0 then None else Some(k), temps := temps)
  {
    if n == 0 {
      acts := [];
      assert w.jobs[k := w.jobs[k].(pc := Ready)] == w.jobs;
    } else {
      acts := AloneUpTo(w, k, n - 1);
      ActedOn(w, acts, Run(k));
      acts := acts + [Run(k)];
    }
  }

  /** The thread after the comparison, about to drop its document or to land it. */
  function Compared(w: World, k: nat): World
    requires HasCurrent(w, k)
  {
    Moved(w, k, if w.last.At(Current(w, k)) > k + 1 then Dropping else Replacing)
    .(lock := Some(k), temps := w.temps[Name(w, k) := Whole(k + 1)])
  }

  lemma {:induction false} Compares(w: World, v: World, k: nat)
    requires HasCurrent(w, k) && v == Moved(w, k, Moded).(lock := Some(k), temps := w.temps[Name(w, k) := Whole(k + 1)])
    ensures Step(v, Run(k)) == Compared(w, k)
  {
    assert w.jobs[k := w.jobs[k].(pc := Moded)][k := Compared(w, k).jobs[k]] == w.jobs[k := Compared(w, k).jobs[k]];
  }

  lemma {:induction false} Drops(w: World, k: nat)
    requires HasCurrent(w, k) && w.last.At(Current(w, k)) > k + 1
    ensures var v := Step(Compared(w, k), Run(k));
            v.jobs == NextTarget(w, k).jobs && v.lock == None
              && DiskOf(v) == Wrote(DiskOf(w), Current(w, k), k + 1, Fair).0
  {
  }

  lemma {:induction false} Lands(w: World, k: nat)
    requires HasCurrent(w, k) && w.last.At(Current(w, k)) <= k + 1
    ensures var v := Step(Step(Compared(w, k), Run(k)), Run(k));
            v.jobs == NextTarget(w, k).jobs && v.lock == None
              && DiskOf(v) == Wrote(DiskOf(w), Current(w, k), k + 1, Fair).0
  {
    var v := Compared(w, k);
    assert Step(v, Run(k)).jobs == w.jobs[k := w.jobs[k].(pc := Recording)];
    assert Step(v, Run(k)).files == w.files.With(Current(w, k), Whole(k + 1));
  }

  /** The operations left after the temporary's mode is set. */
  lemma {:induction false} LandAlone(w: World, k: nat, acts: seq<Act>) returns (more: seq<Act>)
    requires HasCurrent(w, k) && w.lock == None && (forall act :: act in acts ==> act == Run(k))
    requires Acted(w, acts) == Moved(w, k, Moded).(lock := Some(k), temps := w.temps[Name(w, k) := Whole(k + 1)])
    ensures forall act :: act in more ==> act == Run(k)
    ensures DiskOf(Acted(w, more)) == Wrote(DiskOf(w), Current(w, k), k + 1, Fair).0
    ensures Acted(w, more).jobs == NextTarget(w, k).jobs && Acted(w, more).lock == None
  {
    Compares(w, Acted(w, acts), k);
    ActedOn(w, acts, Run(k));
    ActedOn(w, acts + [Run(k)], Run(k));
    more := acts + [Run(k)] + [Run(k)];
    if w.last.At(Current(w, k)) > k + 1 {
      Drops(w, k);
    } else {
      Lands(w, k);
      ActedOn(w, more, Run(k));
      more := more + [Run(k)];
    }
  }

  /** A thread holding the lock, with its temporary as the failing operation left it. */
  predicate Holds(w: World, v: World, k: nat) {
    && HasCurrent(w, k) && k < |v.jobs|
    && v == Moved(w, k, v.jobs[k].pc).(lock := Some(k), temps := v.temps)
    && var pc := v.jobs[k].pc;
    pc == Holding || pc == Opened || pc == Written || pc == Dropping || pc == Replacing
  }

  lemma {:induction false} Fails(w: World, v: World, k: nat, tidy: bool)
    requires w.lock == None && Holds(w, v, k)
    ensures Step(Step(v, Fault(k)), if tidy then Run(k) else Fault(k))
         == Moved(w, k, if tidy then Failed else Littered).(temps := if tidy then v.temps - {Name(w, k)} else v.temps)
  {
    var f := Step(v, Fault(k));
    assert f.jobs == w.jobs[k := w.jobs[k].(pc := Failing)];
  }

  /** A failing operation, and the clean-up after it. */
  lemma {:induction false} FailAlone(w: World, k: nat, acts: seq<Act>, tidy: bool) returns (more: seq<Act>)
    requires w.lock == None && Holds(w, Acted(w, acts), k) && (forall act :: act in acts ==> act == Run(k))
    ensures forall act :: act in more ==> act == Run(k) || act == Fault(k)
    ensures var temps := Acted(w, acts).temps;
            var left := if tidy then temps - {Name(w, k)} else temps;
            Acted(w, more) == Moved(w, k, if tidy then Failed else Littered).(temps := left)
  {
    var cleanUp := if tidy then Run(k) else Fault(k);
    Fails(w, Acted(w, acts), k, tidy);
    ActedOn(w, acts, Fault(k));
    ActedOn(w, acts + [Fault(k)], cleanUp);
    more := acts + [Fault(k)] + [cleanUp];
  }

  /**
   * One write under the lock is an uninterrupted run of its thread: the same disk, and the thread is
   * on to its next target exactly when the write did not raise.
   */
  lemma {:induction false} WriteIsARunOfItsThread(w: World, k: nat, weather: Weather) returns (acts: seq<Act>)
    requires HasCurrent(w, k) && w.jobs[k].pc == Ready && w.lock == None
    ensures forall act :: act in acts ==> act == Run(k) || act == Fault(k)
    ensures var (d, raised) := Wrote(DiskOf(w), Current(w, k), k + 1, weather);
            && DiskOf(Acted(w, acts)) == d && Acted(w, acts).lock == None
            && Acted(w, acts).jobs == if raised then Moved(w, k, if weather.tidy then Failed else Littered).jobs
                                      else NextTarget(w, k).jobs
  {
    match weather
    case Fair =>
      acts := AloneUpTo(w, k, 4);
      acts := LandAlone(w, k, acts);
    case Foul(at, tidy) =>
      acts := AloneUpTo(w, k, if at == Open then 1 else if at == Fill then 2 else if at == Mode then 3 else 4);
      if at == Land {
        Compares(w, Acted(w, acts), k);
        ActedOn(w, acts, Run(k));
        acts := acts + [Run(k)];
      }
      acts := FailAlone(w, k, acts, tidy);
  }

  lemma {:induction false} AfterActed(acts: seq<Act>, more: seq<Act>)
    ensures After(acts + more) == Acted(After(acts), more)
  {
    if |more| == 0 {
      assert acts + more == acts;
    } else {
      AfterActed(acts, more[..|more| - 1]);
      assert (acts + more)[..|acts + more| - 1] == acts + more[..|more| - 1];
    }
  }

  // ---------------------------------------------------------------- exactly when schema 2 is never behind

  /** Steps that threads take, as against publishes issued or withdrawn. */
  ghost predicate OfThreads(acts: seq<Act>) {
    forall k :: 0 <= k < |acts| ==> acts[k].Run? || acts[k].Fault?
  }

  /** The operation that makes the holder of the lock let go: the record if it has renamed, a failure if it has not. */
  lemma {:induction false} LetGo(w: World) returns (act: Act)
    requires Inv(w) && w.lock.Some? && w.jobs[w.lock.value].pc != Moded
    ensures act.Run? || act.Fault?
    ensures var v := Step(w, act);
            && v.lock == None && |v.jobs| == |w.jobs| && v.files == w.files
            && forall j :: 0 <= j < |w.jobs| && j != w.lock.value ==> v.jobs[j] == w.jobs[j]
  {
    var k := w.lock.value;
    assert JobOk(w, k) && Critical(w.jobs[k].pc);
    act := if w.jobs[k].pc == Recording then Run(k) else Fault(k);
  }

  lemma {:induction false} CompareFirst(w: World)
    requires Inv(w) && w.lock.Some? && w.jobs[w.lock.value].pc == Moded
    ensures var v := Step(w, Run(w.lock.value));
            && v.lock == w.lock && |v.jobs| == |w.jobs| && v.files == w.files && v.jobs[w.lock.value].pc != Moded
            && forall j :: 0 <= j < |w.jobs| && j != w.lock.value ==> v.jobs[j] == w.jobs[j]
  {
    assert JobOk(w, w.lock.value);
  }

  /** The lock is free, nothing shows differently, and job `k` has not moved. */
  ghost predicate FreedFor(w: World, v: World, k: nat) {
    && v.lock == None && |v.jobs| == |w.jobs| && v.files == w.files
    && k < |w.jobs| && v.jobs[k] == w.jobs[k]
  }

  lemma {:induction false} HolderLetsGo(w: World, k: nat) returns (act: Act)
    requires Inv(w) && k < |w.jobs| && w.jobs[k].pc == Queued && w.lock.Some? && w.jobs[w.lock.value].pc != Moded
    ensures (act.Run? || act.Fault?) && FreedFor(w, Step(w, act), k) && Inv(Step(w, act))
  {
    act := LetGo(w);
    StepKeeps(w, act);
  }

  lemma {:induction false} HolderCompares(w: World, k: nat) returns (act: Act, last: Act)
    requires Inv(w) && k < |w.jobs| && w.jobs[k].pc == Queued && w.lock.Some? && w.jobs[w.lock.value].pc == Moded
    ensures (act.Run? || act.Fault?) && (last.Run? || last.Fault?)
    ensures FreedFor(w, Step(Step(w, act), last), k) && Inv(Step(Step(w, act), last))
  {
    act := Run(w.lock.value);
    CompareFirst(w);
    StepKeeps(w, act);
    last := HolderLetsGo(Step(w, act), k);
  }

  lemma {:induction false} ActedPair(w: World, a: Act, b: Act)
    ensures Acted(w, [a]) == Step(w, a) && Acted(w, [a, b]) == Step(Step(w, a), b)
  {
    ActedOn(w, [], a);
    ActedOn(w, [a], b);
    assert [] + [a] == [a] && [a] + [b] == [a, b];
  }

  /** Whatever the holder of the lock is doing, it can let go without changing what the files show. */
  lemma {:induction false} LockIsReleased(w: World, k: nat) returns (acts: seq<Act>)
    requires Inv(w) && k < |w.jobs| && w.jobs[k].pc == Queued
    ensures OfThreads(acts) && FreedFor(w, Acted(w, acts), k) && Inv(Acted(w, acts))
  {
    if w.lock.None? {
      acts := [];
    } else if w.jobs[w.lock.value].pc == Moded {
      var act, last := HolderCompares(w, k);
      ActedPair(w, act, last);
      acts := [act, last];
    } else {
      var act := HolderLetsGo(w, k);
      ActedPair(w, act, act);
      acts := [act];
    }
  }

  lemma {:induction false} NewestStarts(w: World, k: nat)
    requires w.lock == None && k + 1 == |w.jobs| && w.jobs[k] == Job([V1], 0, Queued)
    ensures var v := Step(w, Run(k));
            v.lock == None && HasCurrent(v, k) && v.jobs[k].pc == Ready && Current(v, k) == V1 && DiskOf(v) == DiskOf(w)
  {
  }

  lemma {:induction false} NewestIsWritten(w: World)
    requires Inv(w) && w.lock == None && |w.jobs| > 0
    ensures Wrote(DiskOf(w), V1, |w.jobs|, Fair).0.files == Pair(w.files.v2, Whole(|w.jobs|))
  {
    assert TargetOk(w, V1);
  }

  lemma {:induction false} ReadyLands(v: World, k: nat, files: Pair<Content>) returns (acts: seq<Act>)
    requires HasCurrent(v, k) && v.jobs[k].pc == Ready && v.lock == None && Current(v, k) == V1
    requires Wrote(DiskOf(v), V1, k + 1, Fair).0.files == files
    ensures OfThreads(acts) && Acted(v, acts).files == files
  {
    acts := WriteIsARunOfItsThread(v, k, Fair);
    assert DiskOf(Acted(v, acts)).files == files;
    forall j | 0 <= j < |acts| ensures acts[j].Run? || acts[j].Fault? {
      assert acts[j] in acts;
    }
  }

  /** A schema-1-only publish with the newest ticket, run to its end. */
  lemma {:induction false} NewestLands(w: World, k: nat) returns (acts: seq<Act>)
    requires Inv(w) && w.lock == None && k + 1 == |w.jobs| && w.jobs[k] == Job([V1], 0, Queued)
    ensures OfThreads(acts) && Acted(w, acts).files == Pair(w.files.v2, Whole(k + 1))
  {
    NewestStarts(w, k);
    NewestIsWritten(w);
    var more := ReadyLands(Step(w, Run(k)), k, Pair(w.files.v2, Whole(k + 1)));
    ActedPair(w, Run(k), Run(k));
    ActedAll(w, [Run(k)], more);
    acts := [Run(k)] + more;
  }

  lemma {:induction false} ActedAll(w: World, acts: seq<Act>, more: seq<Act>)
    ensures Acted(w, acts + more) == Acted(Acted(w, acts), more)
  {
    if |more| == 0 {
      assert acts + more == acts;
    } else {
      ActedAll(w, acts, more[..|more| - 1]);
      assert (acts + more)[..|acts + more| - 1] == acts + more[..|more| - 1];
    }
  }

  lemma {:induction false} Issued(acts: seq<Act>, detail: bool)
    ensures var w, v := After(acts), After(acts + [Issue(detail)]);
            && v.files == w.files && |v.jobs| == |w.jobs| + 1
            && v.jobs[|w.jobs|] == Job(TargetsOf(detail), 0, Queued)
  {
    AfterOne(acts, Issue(detail));
  }

  /**
   * From any reachable state, with any publishes under way and whatever the two files show, a
   * schema-1-only publish issued next can leave the schema-2 file behind, by steps of threads alone.
   */
  lemma {:induction false} APlainPublishOvertakes(acts: seq<Act>) returns (more: seq<Act>)
    ensures OfThreads(more)
    ensures var v := After(acts + [Issue(false)] + more); Ticket(v.files.v1) > Ticket(v.files.v2)
  {
    var w, k := After(acts), |After(acts).jobs|;
    var issued := acts + [Issue(false)];
    AlwaysInv(acts);
    AlwaysInv(issued);
    Issued(acts, false);
    assert TargetOk(w, V2) && Ticket(w.files.v2) <= k;
    var release := LockIsReleased(After(issued), k);
    var land := NewestLands(Acted(After(issued), release), k);
    ActedAll(After(issued), release, land);
    more := release + land;
    AfterActed(issued, more);
  }

  /** Which publishes a run issues, in order: true for one that writes both documents. */
  function Kinds(acts: seq<Act>): seq<bool> {
    if |acts| == 0 then []
    else Kinds(acts[..|acts| - 1]) + (if acts[|acts| - 1].Issue? then [acts[|acts| - 1].detail] else [])
  }

  function Issues(kinds: seq<bool>): seq<Act> {
    if |kinds| == 0 then [] else Issues(kinds[..|kinds| - 1]) + [Issue(kinds[|kinds| - 1])]
  }

  lemma {:induction false} KindsAdd(acts: seq<Act>, more: seq<Act>)
    ensures Kinds(acts + more) == Kinds(acts) + Kinds(more)
  {
    if |more| == 0 {
      assert acts + more == acts;
    } else {
      KindsAdd(acts, more[..|more| - 1]);
      assert (acts + more)[..|acts + more| - 1] == acts + more[..|more| - 1];
    }
  }

  lemma {:induction false} OneMoreKind(acts: seq<Act>, detail: bool)
    ensures Kinds(acts + [Issue(detail)]) == Kinds(acts) + [detail]
  {
    assert (acts + [Issue(detail)])[..|acts|] == acts;
  }

  lemma {:induction false} AroundOne(kinds: seq<bool>, k: nat, front: seq<bool>, back: seq<bool>)
    requires k < |kinds| && front == kinds[..k] && back == kinds[k + 1..]
    ensures front + [kinds[k]] + back == kinds
  {
  }

  lemma {:induction false} KindsOfIssues(kinds: seq<bool>)
    ensures Kinds(Issues(kinds)) == kinds
  {
    if |kinds| == 0 {
    } else {
      var last := |kinds| - 1;
      KindsOfIssues(kinds[..last]);
      OneMoreKind(Issues(kinds[..last]), kinds[last]);
      assert kinds[..last] + [kinds[last]] == kinds;
    }
  }

  lemma {:induction false} ThreadsIssueNothing(acts: seq<Act>)
    requires OfThreads(acts)
    ensures Kinds(acts) == []
  {
    if |acts| == 0 {
    } else {
      ThreadsIssueNothing(acts[..|acts| - 1]);
    }
  }

  /** Issuing publishes changes no file. */
  lemma {:induction false} IssuesShowNothing(acts: seq<Act>, kinds: seq<bool>)
    ensures After(acts + Issues(kinds)).files == After(acts).files
  {
    if |kinds| == 0 {
      assert acts + [] == acts;
    } else {
      var front := Issues(kinds[..|kinds| - 1]);
      IssuesShowNothing(acts, kinds[..|kinds| - 1]);
      assert acts + Issues(kinds) == (acts + front) + [Issue(kinds[|kinds| - 1])];
      Issued(acts + front, kinds[|kinds| - 1]);
    }
  }

  lemma {:induction false} KindsAreIssued(acts: seq<Act>, k: nat)
    requires k < |acts| && acts[k].Issue? && !acts[k].detail
    ensures false in Kinds(acts)
  {
    if k == |acts| - 1 {
    } else {
      KindsAreIssued(acts[..|acts| - 1], k);
    }
  }

  lemma {:induction false} KindsJoin(before: seq<Act>, more: seq<Act>, after: seq<Act>)
    requires Kinds(more) == []
    ensures Kinds(before + [Issue(false)] + more + after) == Kinds(before) + [false] + Kinds(after)
  {
    KindsAdd(before + [Issue(false)] + more, after);
    KindsAdd(before + [Issue(false)], more);
    assert (before + [Issue(false)])[..|before|] == before;
    assert Kinds(before + [Issue(false)]) == Kinds(before) + [false];
  }

  lemma {:induction false} KindsOfRun(kinds: seq<bool>, k: nat, more: seq<Act>)
    requires k < |kinds| && !kinds[k] && OfThreads(more)
    ensures Kinds(Issues(kinds[..k]) + [Issue(false)] + more + Issues(kinds[k + 1..])) == kinds
  {
    KindsOfIssues(kinds[..k]);
    KindsOfIssues(kinds[k + 1..]);
    ThreadsIssueNothing(more);
    KindsJoin(Issues(kinds[..k]), more, Issues(kinds[k + 1..]));
    AroundOne(kinds, k, kinds[..k], kinds[k + 1..]);
  }

  /** A run that issues exactly `kinds`, and leaves schema 2 behind, for any list with a schema-1-only publish in it. */
  lemma {:induction false} APlainKindOvertakes(kinds: seq<bool>, k: nat) returns (acts: seq<Act>)
    requires k < |kinds| && !kinds[k]
    ensures Kinds(acts) == kinds && Ticket(After(acts).files.v1) > Ticket(After(acts).files.v2)
  {
    var before := Issues(kinds[..k]);
    var more := APlainPublishOvertakes(before);
    IssuesShowNothing(before + [Issue(false)] + more, kinds[k + 1..]);
    KindsOfRun(kinds, k, more);
    acts := before + [Issue(false)] + more + Issues(kinds[k + 1..]);
  }

  ghost predicate NeverBehind(kinds: seq<bool>) {
    forall acts: seq<Act> :: Kinds(acts) == kinds ==> Ticket(After(acts).files.v1) <= Ticket(After(acts).files.v2)
  }

  /**
   * For any list of publishes: every interleaving of them, with any failures, keeps the schema-2 file
   * at or ahead of the schema-1 file if and only if every one of them writes both documents.
   */
  lemma {:induction false} NeverBehindExactlyWhenAllDetail(kinds: seq<bool>)
    ensures NeverBehind(kinds) <==> forall k :: 0 <= k < |kinds| ==> kinds[k]
  {
    if k :| 0 <= k < |kinds| && !kinds[k] {
      var acts := APlainKindOvertakes(kinds, k);
    } else {
      forall acts: seq<Act> | Kinds(acts) == kinds
        ensures Ticket(After(acts).files.v1) <= Ticket(After(acts).files.v2)
      {
        forall act | act in acts && act.Issue? ensures act.detail {
          var k :| 0 <= k < |acts| && acts[k] == act;
          if !act.detail {
            KindsAreIssued(acts, k);
          }
        }
        DetailIsNeverBehind(acts);
      }
    }
  }

  // ---------------------------------------------------------------- what each file was asked to show

  lemma {:induction false} JobsAreKinds(acts: seq<Act>)
    ensures var jobs, kinds := After(acts).jobs, Kinds(acts);
            |jobs| == |kinds| && forall k :: 0 <= k < |jobs| ==> jobs[k].targets == TargetsOf(kinds[k])
  {
    if |acts| == 0 {
    } else {
      var front := acts[..|acts| - 1];
      JobsAreKinds(front);
      JobsAfter(After(front), acts[|acts| - 1]);
    }
  }

  /** Whatever has landed on a target was issued for it. */
  ghost predicate AskedFor(w: World, t: Target) {
    forall i :: 0 <= i < |w.landed.At(t)| ==>
      var n := w.landed.At(t)[i];
      1 <= n <= |w.jobs| && t in w.jobs[n - 1].targets
  }

  lemma {:induction false} StepAskedFor(w: World, act: Act, t: Target)
    requires AskedFor(w, t)
    ensures AskedFor(Step(w, act), t)
  {
    JobsAfter(w, act);
    LandedAfter(w, act);
    var v := Step(w, act);
    if v.landed != w.landed && Current(w, act.k) == t {
      LandsOnce(w, act.k);
    }
  }

  lemma {:induction false} LandsOnce(w: World, k: nat)
    requires HasCurrent(w, k) && w.jobs[k].pc == Replacing
    ensures var t := Current(w, k);
            RunStep(w, k).landed.At(t) == w.landed.At(t) || RunStep(w, k).landed.At(t) == w.landed.At(t) + [k + 1]
  {
  }

  lemma {:induction false} AlwaysAskedFor(acts: seq<Act>, t: Target)
    ensures AskedFor(After(acts), t)
  {
    if |acts| == 0 {
    } else {
      AlwaysAskedFor(acts[..|acts| - 1], t);
      StepAskedFor(After(acts[..|acts| - 1]), acts[|acts| - 1], t);
    }
  }

  /**
   * In every run the schema-2 file shows nothing but a publish that was asked to write it, and so
   * stays absent if none was.
   */
  lemma {:induction false} Schema2IsOnlyFromDetail(acts: seq<Act>)
    ensures var n := Ticket(After(acts).files.v2); n > 0 ==> n <= |Kinds(acts)| && Kinds(acts)[n - 1]
    ensures (forall k :: 0 <= k < |Kinds(acts)| ==> !Kinds(acts)[k]) ==> After(acts).files.v2 == Absent
  {
    AlwaysInv(acts);
    AlwaysAskedFor(acts, V2);
    JobsAreKinds(acts);
    assert TargetOk(After(acts), V2);
  }

  /** A publish that finished is shown, or a newer one is: by both files if it asked for both, else by schema 1. */
  lemma {:induction false} FinishedShowsWhatWasAsked(acts: seq<Act>, k: nat)
    requires k < |After(acts).jobs| && After(acts).jobs[k].pc == Done
    ensures k < |Kinds(acts)| && k + 1 <= Ticket(After(acts).files.v1)
    ensures Kinds(acts)[k] ==> k + 1 <= Ticket(After(acts).files.v2)
  {
    JobsAreKinds(acts);
    FinishedIsShown(acts, k, V1);
    if Kinds(acts)[k] {
      FinishedIsShown(acts, k, V2);
    }
  }
}
