/**
 * Publishing the state documents: any number of ticketed writer threads over two target files,
 * interleaved at every file operation. A write can fail at any operation, and it can outlive the
 * coroutine that asked for it.
 */
module Publish {
  import opened Common

  /** `state-v2.json` and `state.json`. */
  datatype Target = V2 | V1

  datatype Pair<T> = Pair(v2: T, v1: T) {
    function At(t: Target): T {
      if t == V2 then v2 else v1
    }

    function With(t: Target, x: T): Pair<T> {
      if t == V2 then Pair(x, v1) else Pair(v2, x)
    }
  }

  /** What a file holds: nothing, part of the document of a ticket, or all of it. */
  datatype Content = Absent | Torn(ticket: nat) | Whole(ticket: nat)

  /** Where one writer thread stands in the write of its current target. */
  datatype Pc =
    | Queued     // handed to the thread pool, not running yet
    | Withdrawn  // its await was cancelled before a thread picked it up
    | Ready      // about to take the publish lock
    | Holding    // has the lock
    | Opened     // the temporary exists and holds part of the document
    | Written    // the temporary holds the whole document
    | Moded      // its mode is set
    | Dropping   // a newer ticket has landed: about to unlink the temporary
    | Replacing  // about to rename the temporary over the target
    | Recording  // renamed, about to record the ticket
    | Failing    // raised, lock released, about to unlink the temporary
    | Failed     // gave up, leaving no temporary
    | Littered   // gave up, and could not unlink the temporary either
    | Done

  /** One publish. `targets[index]` is the one being written. */
  datatype Job = Job(targets: seq<Target>, index: nat, pc: Pc)

  /**
   * `jobs[k]` holds ticket k + 1. `last` is `_last_written`; `landed` lists, for each target, the
   * tickets renamed onto it, in order.
   */
  datatype World = World(
    jobs: seq<Job>,
    lock: Option<nat>,
    last: Pair<nat>,
    files: Pair<Content>,
    temps: map<(Target, nat), Content>,
    landed: Pair<seq<nat>>
  )

  const START: World := World([], None, Pair(0, 0), Pair(Absent, Absent), map[], Pair([], []))

  /** One step of the world; a step that is not possible changes nothing. */
  datatype Act =
    | Issue(detail: bool)  // take a ticket and hand the write to a thread
    | Withdraw(k: nat)     // cancel a write no thread has picked up
    | Run(k: nat)          // the next operation of thread k succeeds
    | Fault(k: nat)        // the next operation of thread k fails

  function TargetsOf(detail: bool): seq<Target> {
    if detail then [V2, V1] else [V1]
  }

  /** The thread of job `k` between its temporary's first byte and its rename. */
  predicate Critical(pc: Pc) {
    pc.Holding? || pc.Opened? || pc.Written? || pc.Moded? || pc.Dropping? || pc.Replacing? || pc.Recording?
  }

  predicate HasCurrent(w: World, k: nat) {
    k < |w.jobs| && w.jobs[k].index < |w.jobs[k].targets|
  }

  function Current(w: World, k: nat): Target
    requires HasCurrent(w, k)
  {
    w.jobs[k].targets[w.jobs[k].index]
  }

  function Name(w: World, k: nat): (Target, nat)
    requires HasCurrent(w, k)
  {
    (Current(w, k), k + 1)
  }

  function Moved(w: World, k: nat, pc: Pc): World
    requires k < |w.jobs|
  {
    w.(jobs := w.jobs[k := w.jobs[k].(pc := pc)])
  }

  /** On to the next target, or done. */
  function NextTarget(w: World, k: nat): World
    requires k < |w.jobs|
  {
    var job := w.jobs[k];
    w.(jobs := w.jobs[k := job.(index := job.index + 1, pc := if job.index + 1 < |job.targets| then Ready else Done)],
       lock := None)
  }

  function RunStep(w: World, k: nat): World
    requires HasCurrent(w, k)
  {
    var t := Current(w, k);
    match w.jobs[k].pc
    case Queued => Moved(w, k, Ready)
    case Ready => if w.lock.None? then Moved(w, k, Holding).(lock := Some(k)) else w
    case Holding => Moved(w, k, Opened).(temps := w.temps[Name(w, k) := Torn(k + 1)])
    case Opened => Moved(w, k, Written).(temps := w.temps[Name(w, k) := Whole(k + 1)])
    case Written => Moved(w, k, Moded)
    case Moded => Moved(w, k, if w.last.At(t) > k + 1 then Dropping else Replacing)
    case Dropping => NextTarget(w, k).(temps := w.temps - {Name(w, k)})
    case Replacing =>
      if Name(w, k) !in w.temps then w
      else Moved(w, k, Recording).(files := w.files.With(t, w.temps[Name(w, k)]), temps := w.temps - {Name(w, k)},
                                   landed := w.landed.With(t, w.landed.At(t) + [k + 1]))
    case Recording => NextTarget(w, k).(last := w.last.With(t, k + 1))
    case Failing => Moved(w, k, Failed).(temps := w.temps - {Name(w, k)})
    case _ => w
  }

  /** Creating the directory, opening, writing, changing the mode, unlinking and renaming can each fail. */
  function FaultStep(w: World, k: nat): World
    requires HasCurrent(w, k)
  {
    match w.jobs[k].pc
    case Queued => Moved(w, k, Failed)
    case Holding => Moved(w, k, Failing).(lock := None)
    case Opened => Moved(w, k, Failing).(lock := None)
    case Written => Moved(w, k, Failing).(lock := None)
    case Dropping => Moved(w, k, Failing).(lock := None)
    case Replacing => Moved(w, k, Failing).(lock := None)
    case Failing => Moved(w, k, Littered)
    case _ => w
  }

  function Step(w: World, act: Act): World {
    match act
    case Issue(detail) => w.(jobs := w.jobs + [Job(TargetsOf(detail), 0, Queued)])
    case Withdraw(k) => if k < |w.jobs| && w.jobs[k].pc == Queued then Moved(w, k, Withdrawn) else w
    case Run(k) => if HasCurrent(w, k) then RunStep(w, k) else w
    case Fault(k) => if HasCurrent(w, k) then FaultStep(w, k) else w
  }

  function After(acts: seq<Act>): World {
    if |acts| == 0 then START else Step(After(acts[..|acts| - 1]), acts[|acts| - 1])
  }

  // ---------------------------------------------------------------- the invariant

  /** The highest ticket is the last one, since tickets land in order. */
  function Top(landed: seq<nat>): nat {
    if |landed| == 0 then 0 else landed[|landed| - 1]
  }

  function Shown(landed: seq<nat>): Content {
    if |landed| == 0 then Absent else Whole(landed[|landed| - 1])
  }

  /** The lock is held by exactly the thread between its first operation under it and its last. */
  ghost predicate Locked(w: World) {
    && (w.lock.Some? ==> w.lock.value < |w.jobs|)
    && forall k :: 0 <= k < |w.jobs| ==> (Critical(w.jobs[k].pc) <==> w.lock == Some(k))
  }

  ghost predicate Rising(landed: seq<nat>, tickets: nat) {
    && (forall i :: 0 <= i < |landed| ==> 1 <= landed[i] <= tickets)
    && (forall i, j :: 0 <= i < j < |landed| ==> landed[i] <= landed[j])
  }

  ghost predicate RecordingTo(w: World, t: Target) {
    && w.lock.Some? && HasCurrent(w, w.lock.value)
    && w.jobs[w.lock.value].pc == Recording && Current(w, w.lock.value) == t
  }

  /**
   * A target shows the last document that landed on it, whole; `_last_written` lags by at most the
   * rename under way.
   */
  ghost predicate TargetOk(w: World, t: Target) {
    && Rising(w.landed.At(t), |w.jobs|)
    && w.files.At(t) == Shown(w.landed.At(t))
    && (if RecordingTo(w, t) then Top(w.landed.At(t)) == w.lock.value + 1 && w.last.At(t) <= w.lock.value + 1
        else w.last.At(t) == Top(w.landed.At(t)))
  }

  /** A target this publish is through with shows it, or a newer one. */
  ghost predicate Through(w: World, k: nat, i: nat)
    requires k < |w.jobs| && i < |w.jobs[k].targets|
  {
    k + 1 <= Top(w.landed.At(w.jobs[k].targets[i]))
  }

  ghost predicate JobOk(w: World, k: nat)
    requires k < |w.jobs|
  {
    var job := w.jobs[k];
    && (job.targets == TargetsOf(true) || job.targets == TargetsOf(false))
    && job.index <= |job.targets| && (job.index == |job.targets| <==> job.pc == Done)
    && (forall i: nat {:trigger Through(w, k, i)} :: i < job.index ==> Through(w, k, i))
    && (job.pc == Replacing ==> w.last.At(Current(w, k)) <= k + 1)
    && (job.pc == Dropping ==> w.last.At(Current(w, k)) > k + 1)
    && (job.pc == Written || job.pc == Moded || job.pc == Dropping || job.pc == Replacing ==>
          Name(w, k) in w.temps && w.temps[Name(w, k)] == Whole(k + 1))
  }

  ghost predicate Inv(w: World) {
    && Locked(w) && TargetOk(w, V2) && TargetOk(w, V1)
    && forall k: nat {:trigger JobOk(w, k)} :: k < |w.jobs| ==> JobOk(w, k)
  }

  // ---------------------------------------------------------------- a step of one thread leaves the others alone

  /** What a step of thread `k` may touch, as far as the other threads are concerned. */
  ghost predicate Apart(w: World, v: World, k: nat) {
    && k < |w.jobs| == |v.jobs|
    && (forall j :: 0 <= j < |w.jobs| && j != k ==> v.jobs[j] == w.jobs[j])
    && (forall t: Target, n: nat :: n != k + 1 && (t, n) in w.temps ==>
          (t, n) in v.temps && v.temps[(t, n)] == w.temps[(t, n)])
    && Top(w.landed.v2) <= Top(v.landed.v2) && Top(w.landed.v1) <= Top(v.landed.v1)
    && (w.last == v.last || w.lock == Some(k))
  }

  lemma {:induction false} OthersKeep(w: World, v: World, k: nat, j: nat)
    requires Locked(w) && Apart(w, v, k) && j < |w.jobs| && j != k && JobOk(w, j)
    ensures JobOk(v, j)
  {
    assert v.jobs[j] == w.jobs[j];
    forall i: nat | i < v.jobs[j].index ensures Through(v, j, i) {
      assert Through(w, j, i);
    }
  }

  lemma {:induction false} OneMoves(w: World, v: World, k: nat)
    requires Inv(w) && Apart(w, v, k) && Locked(v) && TargetOk(v, V2) && TargetOk(v, V1) && JobOk(v, k)
    ensures Inv(v)
  {
    forall j: nat | j < |v.jobs| ensures JobOk(v, j) {
      if j != k {
        assert JobOk(w, j);
        OthersKeep(w, v, k, j);
      }
    }
  }

  /** A step that renames nothing and records nothing leaves what the targets show alone. */
  ghost predicate Quiet(w: World, v: World, k: nat) {
    && k < |w.jobs| == |v.jobs|
    && (forall j :: 0 <= j < |w.jobs| && j != k ==> v.jobs[j] == w.jobs[j])
    && v.files == w.files && v.last == w.last && v.landed == w.landed
    && w.jobs[k].pc != Recording && v.jobs[k].pc != Recording
    && (v.lock == w.lock || (w.lock == None && v.lock == Some(k)) || (w.lock == Some(k) && v.lock == None))
  }

  lemma {:induction false} QuietTarget(w: World, v: World, k: nat, t: Target)
    requires Quiet(w, v, k) && TargetOk(w, t)
    ensures TargetOk(v, t)
  {
    assert RecordingTo(v, t) <==> RecordingTo(w, t);
  }

  lemma {:induction false} QuietOk(w: World, v: World, k: nat)
    requires Inv(w) && Quiet(w, v, k) && Apart(w, v, k) && Locked(v) && JobOk(v, k)
    ensures Inv(v)
  {
    QuietTarget(w, v, k, V2);
    QuietTarget(w, v, k, V1);
    OneMoves(w, v, k);
  }

  lemma {:induction false} LockMoves(w: World, v: World, k: nat)
    requires Locked(w) && k < |w.jobs| == |v.jobs|
    requires forall j :: 0 <= j < |w.jobs| && j != k ==> v.jobs[j] == w.jobs[j]
    requires w.lock == None || w.lock == Some(k) || v.lock == w.lock
    requires v.lock == if Critical(v.jobs[k].pc) then Some(k) else if w.lock == Some(k) then None else w.lock
    requires w.lock.Some? && w.lock != Some(k) ==> !Critical(v.jobs[k].pc)
    ensures Locked(v)
  {
  }

  /** The same targets behind the thread are through. */
  lemma {:induction false} ThroughKept(w: World, v: World, k: nat)
    requires k < |w.jobs| == |v.jobs| && v.jobs[k].targets == w.jobs[k].targets && v.jobs[k].index == w.jobs[k].index
    requires JobOk(w, k)
    requires Top(w.landed.v2) <= Top(v.landed.v2) && Top(w.landed.v1) <= Top(v.landed.v1)
    ensures forall i: nat {:trigger Through(v, k, i)} :: i < v.jobs[k].index ==> Through(v, k, i)
  {
    forall i: nat | i < v.jobs[k].index ensures Through(v, k, i) {
      assert Through(w, k, i);
    }
  }

  /** Every operation but the comparison, the rename, the record and the move to the next target. */
  lemma {:induction false} PlainStep(w: World, v: World, k: nat)
    requires Inv(w) && HasCurrent(w, k) && k < |v.jobs|
    requires v.jobs[k].pc != Recording && w.jobs[k].pc != Recording && v.jobs[k].pc != Done
    requires v.jobs[k].pc != Replacing && v.jobs[k].pc != Dropping
    requires v == Moved(w, k, v.jobs[k].pc).(lock := v.lock, temps := v.temps)
    requires v.lock == if Critical(v.jobs[k].pc) then Some(k) else if w.lock == Some(k) then None else w.lock
    requires w.lock.Some? && w.lock != Some(k) ==> !Critical(v.jobs[k].pc)
    requires forall t: Target, n: nat :: n != k + 1 && (t, n) in w.temps ==>
               (t, n) in v.temps && v.temps[(t, n)] == w.temps[(t, n)]
    requires v.jobs[k].pc == Written || v.jobs[k].pc == Moded ==>
               Name(w, k) in v.temps && v.temps[Name(w, k)] == Whole(k + 1)
    ensures Inv(v)
  {
    assert JobOk(w, k);
    LockMoves(w, v, k);
    ThroughKept(w, v, k);
    QuietOk(w, v, k);
  }

  lemma {:induction false} CompareStep(w: World, k: nat)
    requires Inv(w) && HasCurrent(w, k) && w.jobs[k].pc == Moded
    ensures Inv(RunStep(w, k))
  {
    var v := RunStep(w, k);
    assert JobOk(w, k);
    LockMoves(w, v, k);
    ThroughKept(w, v, k);
    QuietOk(w, v, k);
  }

  /** Moving on is sound once the current target shows this ticket or a newer one. */
  lemma {:induction false} NextJobOk(w: World, v: World, k: nat)
    requires Inv(w) && HasCurrent(w, k) && k < |v.jobs| && v.jobs[k] == NextTarget(w, k).jobs[k] && v.landed == w.landed
    requires k + 1 <= Top(w.landed.At(Current(w, k))) && w.jobs[k].pc != Done
    ensures JobOk(v, k)
  {
    assert JobOk(w, k);
    forall i: nat | i < v.jobs[k].index ensures Through(v, k, i) {
      if i < w.jobs[k].index {
        assert Through(w, k, i);
      }
    }
  }

  /** A thread that finds a newer ticket recorded drops its own document: the newer one is on the target already. */
  lemma {:induction false} DropStep(w: World, k: nat)
    requires Inv(w) && HasCurrent(w, k) && w.jobs[k].pc == Dropping
    ensures Inv(RunStep(w, k))
  {
    var v := RunStep(w, k);
    assert JobOk(w, k);
    assert TargetOk(w, Current(w, k)) && !RecordingTo(w, Current(w, k));
    NextJobOk(w, v, k);
    LockMoves(w, v, k);
    QuietOk(w, v, k);
  }

  lemma {:induction false} RisingOn(landed: seq<nat>, tickets: nat, n: nat)
    requires Rising(landed, tickets) && 1 <= n <= tickets && Top(landed) <= n
    ensures Rising(landed + [n], tickets)
  {
  }

  /** A rename lands its ticket, which is not below the last one that landed. */
  lemma {:induction false} ReplaceLands(w: World, k: nat)
    requires Inv(w) && HasCurrent(w, k) && w.jobs[k].pc == Replacing
    ensures var v, t := RunStep(w, k), Current(w, k);
            && v.landed.At(t) == w.landed.At(t) + [k + 1] && v.files.At(t) == Whole(k + 1)
            && v.last.At(t) == w.last.At(t) == Top(w.landed.At(t)) <= k + 1
            && Rising(w.landed.At(t), |w.jobs|)
            && v.lock == Some(k) && |v.jobs| == |w.jobs| && RecordingTo(v, t)
  {
    assert JobOk(w, k);
    assert TargetOk(w, Current(w, k)) && w.lock == Some(k) && !RecordingTo(w, Current(w, k));
  }

  /** The target being replaced. */
  lemma {:induction false} ReplaceCurrent(w: World, k: nat)
    requires Inv(w) && HasCurrent(w, k) && w.jobs[k].pc == Replacing
    ensures var v, t := RunStep(w, k), Current(w, k); TargetOk(v, t) && Top(w.landed.At(t)) <= Top(v.landed.At(t))
  {
    ReplaceLands(w, k);
    RisingOn(w.landed.At(Current(w, k)), |w.jobs|, k + 1);
  }

  lemma {:induction false} ReplaceTarget(w: World, k: nat, t: Target)
    requires Inv(w) && HasCurrent(w, k) && w.jobs[k].pc == Replacing
    ensures var v := RunStep(w, k); TargetOk(v, t) && Top(w.landed.At(t)) <= Top(v.landed.At(t))
  {
    if t == Current(w, k) {
      ReplaceCurrent(w, k);
    } else {
      assert TargetOk(w, t) && w.lock == Some(k) && !RecordingTo(w, t);
    }
  }

  lemma {:induction false} ReplaceStep(w: World, k: nat)
    requires Inv(w) && HasCurrent(w, k) && w.jobs[k].pc == Replacing
    ensures Inv(RunStep(w, k))
  {
    var v := RunStep(w, k);
    assert JobOk(w, k);
    ReplaceTarget(w, k, V2);
    ReplaceTarget(w, k, V1);
    LockMoves(w, v, k);
    ThroughKept(w, v, k);
    OneMoves(w, v, k);
  }

  lemma {:induction false} RecordTarget(w: World, k: nat, t: Target)
    requires Inv(w) && HasCurrent(w, k) && w.jobs[k].pc == Recording
    ensures TargetOk(RunStep(w, k), t)
  {
    assert TargetOk(w, t) && w.lock == Some(k);
  }

  lemma {:induction false} RecordStep(w: World, k: nat)
    requires Inv(w) && HasCurrent(w, k) && w.jobs[k].pc == Recording
    ensures Inv(RunStep(w, k))
  {
    var v := RunStep(w, k);
    assert w.lock == Some(k) && RecordingTo(w, Current(w, k)) && TargetOk(w, Current(w, k));
    RecordTarget(w, k, V2);
    RecordTarget(w, k, V1);
    NextJobOk(w, v, k);
    LockMoves(w, v, k);
    OneMoves(w, v, k);
  }

  /** Up to the open. */
  lemma {:induction false} StartKeeps(w: World, k: nat)
    requires Inv(w) && HasCurrent(w, k)
    requires var pc := w.jobs[k].pc; pc == Queued || (pc == Ready && w.lock.None?) || pc == Holding
    ensures Inv(RunStep(w, k))
  {
    assert JobOk(w, k);
    PlainStep(w, RunStep(w, k), k);
  }

  /** The write, the change of mode, and the removal after a failure. */
  lemma {:induction false} FileKeeps(w: World, k: nat)
    requires Inv(w) && HasCurrent(w, k)
    requires var pc := w.jobs[k].pc; pc == Opened || pc == Written || pc == Failing
    ensures Inv(RunStep(w, k))
  {
    assert JobOk(w, k);
    PlainStep(w, RunStep(w, k), k);
  }

  lemma {:induction false} RunKeeps(w: World, k: nat)
    requires Inv(w) && HasCurrent(w, k)
    ensures Inv(RunStep(w, k))
  {
    assert JobOk(w, k);
    match w.jobs[k].pc
    case Moded => CompareStep(w, k);
    case Dropping => DropStep(w, k);
    case Replacing => ReplaceStep(w, k);
    case Recording => RecordStep(w, k);
    case Queued => StartKeeps(w, k);
    case Ready => if w.lock.None? { StartKeeps(w, k); }
    case Holding => StartKeeps(w, k);
    case Opened => FileKeeps(w, k);
    case Written => FileKeeps(w, k);
    case Failing => FileKeeps(w, k);
    case _ =>
  }

  lemma {:induction false} FaultKeeps(w: World, k: nat)
    requires Inv(w) && HasCurrent(w, k)
    ensures Inv(FaultStep(w, k))
  {
    assert JobOk(w, k);
    if FaultStep(w, k) != w {
      PlainStep(w, FaultStep(w, k), k);
    }
  }

  lemma {:induction false} IssueKeeps(w: World, detail: bool)
    requires Inv(w)
    ensures Inv(Step(w, Issue(detail)))
  {
    var v := Step(w, Issue(detail));
    forall t: Target ensures TargetOk(v, t) {
      assert TargetOk(w, t) && (RecordingTo(v, t) <==> RecordingTo(w, t));
    }
    forall j: nat | j < |v.jobs| ensures JobOk(v, j) {
      if j < |w.jobs| {
        assert JobOk(w, j) && v.jobs[j] == w.jobs[j];
        forall i: nat | i < v.jobs[j].index ensures Through(v, j, i) {
          assert Through(w, j, i);
        }
      }
    }
  }

  lemma {:induction false} WithdrawKeeps(w: World, k: nat)
    requires Inv(w)
    ensures Inv(Step(w, Withdraw(k)))
  {
    if k < |w.jobs| && w.jobs[k].pc == Queued {
      assert JobOk(w, k);
      PlainStep(w, Step(w, Withdraw(k)), k);
    }
  }

  lemma {:induction false} StepKeeps(w: World, act: Act)
    requires Inv(w)
    ensures Inv(Step(w, act))
  {
    match act
    case Issue(detail) => IssueKeeps(w, detail);
    case Withdraw(k) => WithdrawKeeps(w, k);
    case Run(k) => if HasCurrent(w, k) { RunKeeps(w, k); }
    case Fault(k) => if HasCurrent(w, k) { FaultKeeps(w, k); }
  }

  lemma {:induction false} AlwaysInv(acts: seq<Act>)
    ensures Inv(After(acts))
  {
    if |acts| == 0 {
    } else {
      AlwaysInv(acts[..|acts| - 1]);
      StepKeeps(After(acts[..|acts| - 1]), acts[|acts| - 1]);
    }
  }

  // ---------------------------------------------------------------- what a reader of the files sees

  function Ticket(c: Content): nat {
    match c
    case Absent => 0
    case Torn(n) => n
    case Whole(n) => n
  }

  /** In every reachable state a target is absent or holds one whole document, the newest that ever landed on it. */
  lemma {:induction false} ReadersSeeWholeDocuments(acts: seq<Act>, t: Target)
    ensures var w := After(acts);
            && (w.files.At(t) == if |w.landed.At(t)| == 0 then Absent else Whole(Ticket(w.files.At(t))))
            && (forall n :: n in w.landed.At(t) ==> n <= Ticket(w.files.At(t)))
            && (w.files.At(t) != Absent ==> Ticket(w.files.At(t)) in w.landed.At(t))
  {
    AlwaysInv(acts);
    assert TargetOk(After(acts), t);
  }

  lemma {:induction false} StepRises(w: World, act: Act, t: Target)
    requires Inv(w)
    ensures Ticket(w.files.At(t)) <= Ticket(Step(w, act).files.At(t))
  {
    assert TargetOk(w, t);
    if act.Run? && HasCurrent(w, act.k) && w.jobs[act.k].pc == Replacing {
      assert JobOk(w, act.k);
      ReplaceTarget(w, act.k, t);
    }
  }

  /** No interleaving walks a target back to an older document. */
  lemma {:induction false} TargetsNeverGoBack(acts: seq<Act>, more: seq<Act>, t: Target)
    ensures Ticket(After(acts).files.At(t)) <= Ticket(After(acts + more).files.At(t))
  {
    if |more| == 0 {
      assert acts + more == acts;
    } else {
      TargetsNeverGoBack(acts, more[..|more| - 1], t);
      assert (acts + more)[..|acts + more| - 1] == acts + more[..|more| - 1];
      AlwaysInv(acts + more[..|more| - 1]);
      StepRises(After(acts + more[..|more| - 1]), more[|more| - 1], t);
    }
  }

  /** A publish that finished is what each of its targets shows, unless a newer one is. */
  lemma {:induction false} FinishedIsShown(acts: seq<Act>, k: nat, t: Target)
    requires var w := After(acts); k < |w.jobs| && w.jobs[k].pc == Done && t in w.jobs[k].targets
    ensures Ticket(After(acts).files.At(t)) >= k + 1
  {
    AlwaysInv(acts);
    var w := After(acts);
    assert JobOk(w, k) && TargetOk(w, t);
    var i: nat :| i < |w.jobs[k].targets| && w.jobs[k].targets[i] == t;
    assert Through(w, k, i);
  }

  /** A step adds a job only by issuing one, and never changes what a job writes. */
  lemma {:induction false} JobsAfter(w: World, act: Act)
    ensures var v := Step(w, act);
            && |v.jobs| == (if act.Issue? then |w.jobs| + 1 else |w.jobs|)
            && (forall k :: 0 <= k < |w.jobs| ==> v.jobs[k].targets == w.jobs[k].targets)
            && (act.Issue? ==> v.jobs[|w.jobs|].targets == TargetsOf(act.detail))
  {
  }

  lemma {:induction false} SameJobs(acts: seq<Act>, more: seq<Act>)
    requires forall act :: act in more ==> !act.Issue?
    ensures |After(acts + more).jobs| == |After(acts).jobs|
  {
    if |more| == 0 {
      assert acts + more == acts;
    } else {
      SameJobs(acts, more[..|more| - 1]);
      assert (acts + more)[..|acts + more| - 1] == acts + more[..|more| - 1];
      assert more[|more| - 1] in more;
      JobsAfter(After(acts + more[..|more| - 1]), more[|more| - 1]);
    }
  }

  lemma {:induction false} ShownStays(acts: seq<Act>, more: seq<Act>, t: Target)
    requires 0 < |After(acts).jobs| <= Ticket(After(acts).files.At(t))
    requires forall act :: act in more ==> !act.Issue?
    ensures After(acts + more).files.At(t) == Whole(|After(acts).jobs|)
  {
    TargetsNeverGoBack(acts, more, t);
    SameJobs(acts, more);
    AlwaysInv(acts + more);
    NothingBeyondTheLast(After(acts + more), t);
  }

  /**
   * Once the last ticket of a run has landed on a target, whatever the threads of older publishes
   * still do, and whatever becomes of its own publish, that target keeps showing it.
   */
  lemma {:induction false} TheLastTicketStays(acts: seq<Act>, more: seq<Act>, t: Target)
    requires |After(acts).jobs| in After(acts).landed.At(t)
    requires forall act :: act in more ==> !act.Issue?
    ensures After(acts + more).files.At(t) == Whole(|After(acts).jobs|)
  {
    AlwaysInv(acts);
    assert TargetOk(After(acts), t);
    ReadersSeeWholeDocuments(acts, t);
    ShownStays(acts, more, t);
  }

  /** So once the last publish of a run has finished, all of its targets keep showing it. */
  lemma {:induction false} TheLastWordStays(acts: seq<Act>, more: seq<Act>, t: Target)
    requires var w := After(acts);
             |w.jobs| > 0 && w.jobs[|w.jobs| - 1].pc == Done && t in w.jobs[|w.jobs| - 1].targets
    requires forall act :: act in more ==> !act.Issue?
    ensures After(acts + more).files.At(t) == Whole(|After(acts).jobs|)
  {
    FinishedIsShown(acts, |After(acts).jobs| - 1, t);
    ShownStays(acts, more, t);
  }

  lemma {:induction false} NothingBeyondTheLast(w: World, t: Target)
    requires Inv(w) && 0 < |w.jobs| <= Ticket(w.files.At(t))
    ensures w.files.At(t) == Whole(|w.jobs|)
  {
    assert TargetOk(w, t);
  }

  // ---------------------------------------------------------------- the two documents

  /** When the schema-1 file shows a publish that also wrote schema 2, schema 2 is not behind. */
  ghost predicate DetailAhead(w: World) {
    var n := Top(w.landed.v1);
    0 < n <= |w.jobs| && w.jobs[n - 1].targets == TargetsOf(true) ==> n <= Top(w.landed.v2)
  }

  /** Only a rename changes what has landed. */
  lemma {:induction false} LandedAfter(w: World, act: Act)
    ensures Step(w, act).landed == w.landed
         || (act.Run? && HasCurrent(w, act.k) && w.jobs[act.k].pc == Replacing && Step(w, act) == RunStep(w, act.k))
  {
  }

  /** A detail publish reaches the schema-1 file only once the schema-2 file shows it, or a newer one. */
  lemma {:induction false} DetailFirst(w: World, k: nat)
    requires HasCurrent(w, k) && JobOk(w, k) && w.jobs[k].targets == TargetsOf(true) && Current(w, k) == V1
    ensures k + 1 <= Top(w.landed.v2)
  {
    assert w.jobs[k].index == 1;
    assert Through(w, k, 0);
  }

  lemma {:induction false} DetailLands(w: World, k: nat)
    requires Inv(w) && HasCurrent(w, k) && w.jobs[k].pc == Replacing && Current(w, k) == V1
    ensures DetailAhead(RunStep(w, k))
  {
    ReplaceLands(w, k);
    assert JobOk(w, k);
    if w.jobs[k].targets == TargetsOf(true) {
      DetailFirst(w, k);
    }
  }

  lemma {:induction false} DetailStays(w: World, v: World)
    requires DetailAhead(w) && v.landed.v1 == w.landed.v1 && Top(w.landed.v2) <= Top(v.landed.v2)
    requires Top(w.landed.v1) <= |w.jobs| <= |v.jobs|
    requires forall k :: 0 <= k < |w.jobs| ==> v.jobs[k].targets == w.jobs[k].targets
    ensures DetailAhead(v)
  {
  }

  lemma {:induction false} ReplaceDetail(w: World, k: nat)
    requires Inv(w) && DetailAhead(w) && HasCurrent(w, k) && w.jobs[k].pc == Replacing
    ensures DetailAhead(RunStep(w, k))
  {
    if Current(w, k) == V1 {
      DetailLands(w, k);
    } else {
      ReplaceTarget(w, k, V2);
      JobsAfter(w, Run(k));
      assert TargetOk(w, V1);
      DetailStays(w, RunStep(w, k));
    }
  }

  lemma {:induction false} StepDetail(w: World, act: Act)
    requires Inv(w) && DetailAhead(w)
    ensures DetailAhead(Step(w, act))
  {
    LandedAfter(w, act);
    if Step(w, act).landed == w.landed {
      assert TargetOk(w, V1);
      JobsAfter(w, act);
    } else {
      ReplaceDetail(w, act.k);
    }
  }

  lemma {:induction false} AlwaysDetail(acts: seq<Act>)
    ensures DetailAhead(After(acts))
  {
    if |acts| == 0 {
    } else {
      AlwaysDetail(acts[..|acts| - 1]);
      AlwaysInv(acts[..|acts| - 1]);
      StepDetail(After(acts[..|acts| - 1]), acts[|acts| - 1]);
    }
  }

  lemma {:induction false} AllDetailJobs(acts: seq<Act>)
    requires forall act :: act in acts && act.Issue? ==> act.detail
    ensures forall k :: 0 <= k < |After(acts).jobs| ==> After(acts).jobs[k].targets == TargetsOf(true)
  {
    if |acts| == 0 {
    } else {
      AllDetailJobs(acts[..|acts| - 1]);
      assert acts[|acts| - 1] in acts;
      JobsAfter(After(acts[..|acts| - 1]), acts[|acts| - 1]);
    }
  }

  /** When every publish writes both documents, the schema-2 file is never behind the schema-1 file. */
  lemma {:induction false} DetailIsNeverBehind(acts: seq<Act>)
    requires forall act :: act in acts && act.Issue? ==> act.detail
    ensures Ticket(After(acts).files.v1) <= Ticket(After(acts).files.v2)
  {
    AlwaysDetail(acts);
    AlwaysInv(acts);
    AllDetailJobs(acts);
    assert TargetOk(After(acts), V1) && TargetOk(After(acts), V2);
  }

  /** Mixing the two kinds of publish breaks that, and only a schema-1-only publish can be what breaks it. */
  lemma {:induction false} BehindOnlyAfterAPlainPublish(acts: seq<Act>)
    requires Ticket(After(acts).files.v1) > Ticket(After(acts).files.v2)
    ensures var w := After(acts); var n := Ticket(w.files.v1);
            1 <= n <= |w.jobs| && w.jobs[n - 1].targets == TargetsOf(false)
  {
    AlwaysDetail(acts);
    AlwaysInv(acts);
    var w := After(acts);
    assert TargetOk(w, V1) && TargetOk(w, V2);
    assert JobOk(w, Ticket(w.files.v1) - 1);
  }

  // ---------------------------------------------------------------- temporaries

  /** A temporary belongs to the thread at work on it, or to one that could not unlink it. */
  ghost predicate Owned(w: World, t: Target, n: nat) {
    && n >= 1 && HasCurrent(w, n - 1) && Current(w, n - 1) == t
    && var pc := w.jobs[n - 1].pc;
    (Critical(pc) && pc != Holding && pc != Recording) || pc == Failing || pc == Littered
  }

  ghost predicate NoDebris(w: World) {
    forall t: Target, n: nat {:trigger Owned(w, t, n)} :: (t, n) in w.temps ==> Owned(w, t, n)
  }

  lemma {:induction false} RunTidies(w: World, k: nat, t: Target, n: nat)
    requires NoDebris(w) && HasCurrent(w, k) && (t, n) in RunStep(w, k).temps
    ensures Owned(RunStep(w, k), t, n)
  {
    if (t, n) in w.temps {
      assert Owned(w, t, n);
      if n != k + 1 {
        assert RunStep(w, k).jobs[n - 1] == w.jobs[n - 1];
      }
    }
  }

  lemma {:induction false} FaultTidies(w: World, k: nat, t: Target, n: nat)
    requires NoDebris(w) && HasCurrent(w, k) && (t, n) in FaultStep(w, k).temps
    ensures Owned(FaultStep(w, k), t, n)
  {
    assert Owned(w, t, n);
  }

  lemma {:induction false} StepTidies(w: World, act: Act)
    requires NoDebris(w)
    ensures NoDebris(Step(w, act))
  {
    var v := Step(w, act);
    forall t: Target, n: nat | (t, n) in v.temps ensures Owned(v, t, n) {
      match act
      case Run(k) => if HasCurrent(w, k) { RunTidies(w, k, t, n); } else { assert Owned(w, t, n); }
      case Fault(k) => if HasCurrent(w, k) { FaultTidies(w, k, t, n); } else { assert Owned(w, t, n); }
      case Issue(_) => assert Owned(w, t, n);
      case Withdraw(k) => assert Owned(w, t, n);
    }
  }

  /**
   * In every reachable state each temporary belongs to a publish that is writing it, is cleaning up
   * after a failure, or failed to clean up.
   */
  lemma {:induction false} TemporariesAreOwned(acts: seq<Act>)
    ensures NoDebris(After(acts))
  {
    if |acts| == 0 {
    } else {
      TemporariesAreOwned(acts[..|acts| - 1]);
      StepTidies(After(acts[..|acts| - 1]), acts[|acts| - 1]);
    }
  }

  /** So a publish that finished, or that failed and could unlink, left no temporary behind. */
  lemma {:induction false} NothingIsLeftBehind(acts: seq<Act>, k: nat, t: Target)
    requires var w := After(acts); k < |w.jobs| && (w.jobs[k].pc == Done || w.jobs[k].pc == Failed)
    ensures (t, k + 1) !in After(acts).temps
  {
    TemporariesAreOwned(acts);
    var owned := Owned(After(acts), t, k + 1);
    assert !owned;
  }

  lemma {:induction false} AfterOne(acts: seq<Act>, act: Act)
    ensures After(acts + [act]) == Step(After(acts), act)
  {
    assert (acts + [act])[..|acts|] == acts;
  }
}
