/** Certificate-authority ownership: snapshot, apply with rollback, cleanup. */
module CaState {
  import opened Common
  import opened CaBackend

  datatype SnapshotState = CapturedPresent | CapturedAbsent | CaptureFailed

  datatype AppliedState = NotApplied | PreExistingApplied | Applied | RemovedAgain

  datatype Ownership = NoOwner | PreExisting | FrameworkOwned | Unknown

  datatype Ledger = Ledger(
    key: Key, target: string, snapshot: SnapshotState, original: Option<string>,
    applied: AppliedState, ownership: Ownership, appliedFingerprint: Option<string>)

  datatype Decision = RemoveOwned | PreservePreExisting | AlreadyAbsent | NoAction | Conflicting | RefuseUncaptured

  /** A ledger is returned, or one of the errors is raised; only a failed rollback carries a ledger. */
  datatype Result =
    | Returned(ledger: Ledger)
    | SnapshotRefused
    | OccupiedByOther
    | RolledBack
    | NeedsRecovery(recovery: Ledger)
    | CleanupConflict
    | CleanupFailure

  function SnapshotSpec(w: World, key: Key, target: string): (Ledger, World) {
    var (r, w1) := Read(w, key);
    match r
    case Error => (Ledger(key, target, CaptureFailed, None, NotApplied, Unknown, None), w1)
    case Got(None) => (Ledger(key, target, CapturedAbsent, None, NotApplied, NoOwner, None), w1)
    case Got(Some(f)) => (Ledger(key, target, CapturedPresent, Some(f), NotApplied, NoOwner, None), w1)
  }

  function PlanSpec(l: Ledger, w: World): (Decision, World) {
    if l.snapshot.CaptureFailed? then (RefuseUncaptured, w)
    else if l.ownership.PreExisting? then (PreservePreExisting, w)
    else if !l.ownership.FrameworkOwned? then (NoAction, w)
    else
      var (r, w1) := Read(w, l.key);
      (if r.Error? then Conflicting
       else if r.value == None then AlreadyAbsent
       else if r.value != l.appliedFingerprint then Conflicting
       else RemoveOwned, w1)
  }

  function CleanupSpec(l: Ledger, w: World): (Result, World) {
    var (decision, w1) := PlanSpec(l, w);
    match decision
    case PreservePreExisting => (Returned(l), w1)
    case NoAction => (Returned(l), w1)
    case AlreadyAbsent => (Returned(l.(applied := RemovedAgain)), w1)
    case RefuseUncaptured => (CleanupFailure, w1)
    case Conflicting => (CleanupConflict, w1)
    case RemoveOwned =>
      var (removed, w2) := Remove(w1, l.key, l.target);
      if removed.Error? then (CleanupFailure, w2)
      else if !removed.value then (CleanupConflict, w2)
      else
        var (after, w3) := Read(w2, l.key);
        if after != Got(None) then (CleanupFailure, w3)
        else (Returned(l.(applied := RemovedAgain, ownership := NoOwner)), w3)
  }

  function Claimed(l: Ledger): Ledger {
    l.(applied := Applied, ownership := FrameworkOwned, appliedFingerprint := Some(l.target))
  }

  function RollbackSpec(l: Ledger, w: World): (Result, World) {
    var (decision, w1) := PlanSpec(l, w);
    if decision.AlreadyAbsent? then (RolledBack, w1)
    else if !decision.RemoveOwned? then (NeedsRecovery(l), w1)
    else
      var (r, w2) := CleanupSpec(l, w1);
      (if r.Returned? then RolledBack else NeedsRecovery(l), w2)
  }

  function ApplySpec(l: Ledger, w: World): (Result, World) {
    if l.snapshot.CaptureFailed? then (SnapshotRefused, w)
    else if !l.applied.NotApplied? then (Returned(l), w)
    else if l.original.Some? then
      if l.original.value != l.target then (OccupiedByOther, w)
      else (Returned(l.(applied := PreExistingApplied, ownership := PreExisting, appliedFingerprint := l.original)), w)
    else
      var (installed, w1) := Install(w, l.key, l.target);
      if installed.Error? then RollbackSpec(Claimed(l), w1)
      else
        var (seen, w2) := Read(w1, l.key);
        if seen == Got(Some(l.target)) then (Returned(Claimed(l)), w2) else RollbackSpec(Claimed(l), w2)
  }

  class CaStateManager {
    const backend: Backend

    constructor (backend: Backend)
      ensures this.backend == backend
    {
      this.backend := backend;
    }

    method Snapshot(key: Key, target: string) returns (l: Ledger)
      modifies backend
      ensures (l, backend.View()) == SnapshotSpec(old(backend.View()), key, target)
    {
      var r := backend.ReadCa(key);
      l := match r
           case Error => Ledger(key, target, CaptureFailed, None, NotApplied, Unknown, None)
           case Got(None) => Ledger(key, target, CapturedAbsent, None, NotApplied, NoOwner, None)
           case Got(Some(f)) => Ledger(key, target, CapturedPresent, Some(f), NotApplied, NoOwner, None);
    }

    method PlanCleanup(l: Ledger) returns (d: Decision)
      modifies backend
      ensures (d, backend.View()) == PlanSpec(l, old(backend.View()))
    {
      if l.snapshot.CaptureFailed? {
        return RefuseUncaptured;
      }
      if l.ownership.PreExisting? {
        return PreservePreExisting;
      }
      if !l.ownership.FrameworkOwned? {
        return NoAction;
      }
      var r := backend.ReadCa(l.key);
      if r.Error? {
        return Conflicting;
      }
      if r.value == None {
        return AlreadyAbsent;
      }
      d := if r.value != l.appliedFingerprint then Conflicting else RemoveOwned;
    }

    method Cleanup(l: Ledger) returns (r: Result)
      modifies backend
      ensures (r, backend.View()) == CleanupSpec(l, old(backend.View()))
    {
      var decision := PlanCleanup(l);
      match decision {
        case PreservePreExisting => return Returned(l);
        case NoAction => return Returned(l);
        case AlreadyAbsent => return Returned(l.(applied := RemovedAgain));
        case RefuseUncaptured => return CleanupFailure;
        case Conflicting => return CleanupConflict;
        case RemoveOwned =>
      }
      var removed := backend.RemoveCa(l.key, l.target);
      if removed.Error? {
        return CleanupFailure;
      }
      if !removed.value {
        return CleanupConflict;
      }
      var after := backend.ReadCa(l.key);
      if after != Got(None) {
        return CleanupFailure;
      }
      r := Returned(l.(applied := RemovedAgain, ownership := NoOwner));
    }

    /** The handler that undoes an install whose outcome is not certain. */
    method Rollback(l: Ledger) returns (r: Result)
      modifies backend
      ensures (r, backend.View()) == RollbackSpec(l, old(backend.View()))
    {
      var decision := PlanCleanup(l);
      if decision.AlreadyAbsent? {
        return RolledBack;
      }
      if !decision.RemoveOwned? {
        return NeedsRecovery(l);
      }
      r := Cleanup(l);
      r := if r.Returned? then RolledBack else NeedsRecovery(l);
    }

    method Apply(l: Ledger) returns (r: Result)
      modifies backend
      ensures (r, backend.View()) == ApplySpec(l, old(backend.View()))
    {
      if l.snapshot.CaptureFailed? {
        return SnapshotRefused;
      }
      if !l.applied.NotApplied? {
        return Returned(l);
      }
      if l.original.Some? {
        if l.original.value != l.target {
          return OccupiedByOther;
        }
        return Returned(l.(applied := PreExistingApplied, ownership := PreExisting, appliedFingerprint := l.original));
      }
      var installed := backend.InstallCa(l.key, l.target);
      if installed.Got? {
        var seen := backend.ReadCa(l.key);
        if seen == Got(Some(l.target)) {
          return Returned(Claimed(l));
        }
      }
      r := Rollback(Claimed(l));
    }
  }

  // ---------------------------------------------------------------- sessions

  datatype Command = DoApply | DoCleanup

  function Do(l: Ledger, w: World, c: Command): (Result, World) {
    if c.DoApply? then ApplySpec(l, w) else CleanupSpec(l, w)
  }

  /** The ledger a session goes on with after a result. */
  function Kept(l: Ledger, r: Result): Ledger {
    match r
    case Returned(l1) => l1
    case NeedsRecovery(l1) => l1
    case _ => l
  }

  function RunFrom(l: Ledger, w: World, commands: seq<Command>): (Ledger, World)
    decreases |commands|
  {
    if commands == [] then (l, w)
    else var (r, w1) := Do(l, w, commands[0]); RunFrom(Kept(l, r), w1, commands[1..])
  }

  /**
   * What every ledger of a session satisfies: only a slot found empty is ever owned, and then the fingerprint the plan
   * compares with is the one the removal expects.
   */
  predicate Sound(l: Ledger) {
    && (l.ownership.FrameworkOwned? ==>
          l.snapshot.CapturedAbsent? && l.appliedFingerprint == Some(l.target) && !l.applied.NotApplied?)
    && (l.snapshot.CapturedPresent? <==> l.original.Some?)
    && (l.applied.NotApplied? ==> !l.ownership.PreExisting?)
    && (l.ownership.PreExisting? ==> l.original == Some(l.target))
    && (l.snapshot.CaptureFailed? ==> l.applied.NotApplied? && l.ownership.Unknown?)
  }

  /** Everything done since `w` is an installation or removal of the target in the session's own slot. */
  ghost predicate OnlyTarget(l: Ledger, w: World, w1: World) {
    && w.trace <= w1.trace
    && forall k :: |w.trace| <= k < |w1.trace| ==>
         w1.trace[k] == Installed(l.key, l.target) || w1.trace[k] == Removed(l.key, l.target)
  }

  /** A snapshot starts a sound ledger that says what one untouched read showed. */
  lemma SnapshotIsTold(w: World, key: Key, target: string)
    ensures var (l, w1) := SnapshotSpec(w, key, target);
            && Sound(l) && l.key == key && l.target == target && l.applied.NotApplied? && !l.ownership.FrameworkOwned?
            && w1.trace == w.trace && w1.slots == Entered(w).slots
            && (l.snapshot.CaptureFailed? <==> !Now(w).NoFault?)
            && (!l.snapshot.CaptureFailed? ==> l.original == At(w1, key))
  {
  }

  /**
   * The plan removes exactly what is owned and was just seen to be the target, which is also the value the removal
   * compares with; a foreign certificate or an unreadable slot is a conflict, and only an owned ledger reads at all.
   */
  lemma PlanIsTested(l: Ledger, w: World)
    requires Sound(l)
    ensures var (d, w1) := PlanSpec(l, w);
            var owned := l.ownership.FrameworkOwned?;
            var seen := if Now(w).NoFault? then Got(At(Entered(w), l.key)) else Error;
            && (d.RemoveOwned? <==> owned && seen == Got(Some(l.target)))
            && (d.AlreadyAbsent? <==> owned && seen == Got(None))
            && (d.Conflicting? <==> owned && seen != Got(None) && seen != Got(Some(l.target)))
            && (d.RefuseUncaptured? <==> l.snapshot.CaptureFailed?)
            && (d.PreservePreExisting? <==> l.ownership.PreExisting?)
            && (!owned ==> w1 == w) && w1.trace == w.trace
  {
  }

  lemma CleanupKeepsSound(l: Ledger, w: World)
    requires Sound(l)
    ensures var (r, w1) := CleanupSpec(l, w);
            && Sound(Kept(l, r)) && Kept(l, r).(applied := l.applied, ownership := l.ownership) == l
            && OnlyTarget(l, w, w1) && (!l.snapshot.CapturedAbsent? ==> w1.trace == w.trace)
  {
  }

  lemma ApplyKeepsSound(l: Ledger, w: World)
    requires Sound(l)
    ensures var (r, w1) := ApplySpec(l, w);
            && Sound(Kept(l, r)) && Kept(l, r).key == l.key && Kept(l, r).target == l.target
            && Kept(l, r).snapshot == l.snapshot
            && OnlyTarget(l, w, w1) && (!l.snapshot.CapturedAbsent? ==> w1.trace == w.trace)
  {
    if l.snapshot.CapturedAbsent? && l.applied.NotApplied? {
      var (installed, w1) := Install(w, l.key, l.target);
      RollbackKeepsSound(Claimed(l), if installed.Error? then w1 else Read(w1, l.key).1);
    }
  }

  lemma RollbackKeepsSound(l: Ledger, w: World)
    requires Sound(l) && l.ownership.FrameworkOwned?
    ensures var (r, w1) := RollbackSpec(l, w);
            && (r == RolledBack || r == NeedsRecovery(l)) && OnlyTarget(l, w, w1)
  {
    CleanupKeepsSound(l, PlanSpec(l, w).1);
  }

  lemma {:induction false} RunKeepsSound(l: Ledger, w: World, commands: seq<Command>)
    requires Sound(l)
    ensures var (l1, w1) := RunFrom(l, w, commands);
            && Sound(l1) && OnlyTarget(l, w, w1) && (!l.snapshot.CapturedAbsent? ==> w1.trace == w.trace)
    decreases |commands|
  {
    if commands != [] {
      CleanupKeepsSound(l, w);
      ApplyKeepsSound(l, w);
      var (r, w1) := Do(l, w, commands[0]);
      RunKeepsSound(Kept(l, r), w1, commands[1..]);
    }
  }

  /**
   * Whatever other actors do to the slots between any two calls, a session installs and removes nothing but its target
   * in its own slot, and nothing at all unless its snapshot found that slot empty.
   */
  lemma NonInterference(w: World, key: Key, target: string, commands: seq<Command>)
    ensures var (l, w0) := SnapshotSpec(w, key, target);
            var (l1, w1) := RunFrom(l, w0, commands);
            && Sound(l1) && OnlyTarget(l, w, w1)
            && (l.snapshot.CapturedAbsent? <==> Now(w).NoFault? && At(Entered(w), key) == None)
            && (!l.snapshot.CapturedAbsent? ==> w1.trace == w.trace)
  {
    var (l, w0) := SnapshotSpec(w, key, target);
    RunKeepsSound(l, w0, commands);
  }

  // ---------------------------------------------------------------- outcomes when nobody interferes

  predicate Alone(w: World) { forall s :: s in w.script ==> s.tamper == None }

  /** Every slot but `key` is as it was. */
  ghost predicate OthersKept(w: World, w1: World, key: Key) {
    w1.slots - {key} == w.slots - {key}
  }

  lemma CleanupOutcome(l: Ledger, w: World)
    requires Sound(l) && Alone(w)
    ensures var (r, w1) := CleanupSpec(l, w);
            && Alone(w1) && OthersKept(w, w1, l.key)
            && (At(w1, l.key) == At(w, l.key) || (At(w, l.key) == Some(l.target) && At(w1, l.key) == None))
            && (r.Returned? && l.ownership.FrameworkOwned? ==> At(w1, l.key) == None)
            && (w.script == [] && l.ownership.FrameworkOwned? && At(w, l.key) in {None, Some(l.target)} ==> r.Returned?)
            && (w.script == [] ==> w1.script == [])
  {
  }

  /** Whatever a recovery ledger left behind, an undisturbed cleanup of it empties the slot. */
  lemma RollbackOutcome(l: Ledger, w: World)
    requires Sound(l) && l.ownership.FrameworkOwned? && Alone(w) && At(w, l.key) in {None, Some(l.target)}
    ensures var (r, w1) := RollbackSpec(l, w);
            && OthersKept(w, w1, l.key) && At(w1, l.key) in {None, Some(l.target)}
            && (r == NeedsRecovery(l) || (r == RolledBack && At(w1, l.key) == None))
            && (w.script == [] ==> r == RolledBack)
            && var (r2, w2) := CleanupSpec(l, w1.(script := []));
               r2.Returned? && At(w2, l.key) == None && OthersKept(w1, w2, l.key)
  {
    CleanupOutcome(l, PlanSpec(l, w).1);
    CleanupOutcome(l, RollbackSpec(l, w).1.(script := []));
  }

  /**
   * Applying to an empty slot returns with the target installed, or reports a rollback with the slot empty again, or
   * hands over a recovery ledger that owns what may be left - and cleaning up that ledger later empties the slot. It
   * returns exactly when neither the installation nor the read after it fails.
   */
  lemma ApplyOutcome(l: Ledger, w: World)
    requires Sound(l) && l.snapshot.CapturedAbsent? && l.applied.NotApplied?
    requires Alone(w) && At(w, l.key) == None
    ensures var (r, w1) := ApplySpec(l, w);
            && OthersKept(w, w1, l.key)
            && (r.Returned? <==> Now(w).NoFault? && Now(Entered(w)).NoFault?)
            && match r
               case Returned(l1) => At(w1, l.key) == Some(l.target) && l1 == Claimed(l)
               case RolledBack => At(w1, l.key) == None
               case NeedsRecovery(l1) =>
                 && l1 == Claimed(l) && At(w1, l.key) in {None, Some(l.target)}
                 && var (r2, w2) := CleanupSpec(l1, w1.(script := [])); r2.Returned? && At(w2, l.key) == None
               case _ => false
  {
    var (installed, w1) := Install(w, l.key, l.target);
    RollbackOutcome(Claimed(l), if installed.Error? then w1 else Read(w1, l.key).1);
  }

  /**
   * What apply makes of a slot it may not claim: it refuses a failed snapshot and a foreign certificate, adopts a
   * target that was there before, and leaves a ledger applied before as it is. None of these touches anything.
   */
  lemma ApplyKeepsHands(l: Ledger, w: World)
    requires Sound(l) && !(l.snapshot.CapturedAbsent? && l.applied.NotApplied?)
    ensures var (r, w1) := ApplySpec(l, w);
            && w1 == w
            && (r == SnapshotRefused <==> l.snapshot.CaptureFailed?)
            && (r == OccupiedByOther <==>
                  l.snapshot.CapturedPresent? && l.applied.NotApplied? && l.original != Some(l.target))
            && (l.snapshot.CapturedPresent? && l.applied.NotApplied? && l.original == Some(l.target) ==>
                  && r.Returned? && r.ledger.ownership.PreExisting? && r.ledger.applied.PreExistingApplied?
                  && r.ledger.appliedFingerprint == Some(l.target))
            && (!l.applied.NotApplied? ==> r == Returned(l))
  {
  }

  /** Whatever the snapshot found: if it is still so, an application that returns leaves the target in the slot. */
  lemma AppliedMeansInstalled(l: Ledger, w: World)
    requires Sound(l) && l.applied.NotApplied? && Alone(w) && At(w, l.key) == l.original
    ensures var (r, w1) := ApplySpec(l, w);
            r.Returned? ==> At(w1, l.key) == Some(l.target) && OthersKept(w, w1, l.key)
  {
    if l.snapshot.CapturedAbsent? {
      ApplyOutcome(l, w);
    } else {
      ApplyKeepsHands(l, w);
    }
  }

  /**
   * How cleanup ends: it refuses a failed snapshot, leaves what it does not own, and of what it owns it reports a
   * conflict exactly when the slot holds, or is left holding, something else than it may remove.
   */
  lemma CleanupAnswers(l: Ledger, w: World)
    requires Sound(l) && Alone(w)
    ensures var (r, w1) := CleanupSpec(l, w);
            var owned := l.ownership.FrameworkOwned?;
            && (l.snapshot.CaptureFailed? ==> r == CleanupFailure && w1 == w)
            && (!l.snapshot.CaptureFailed? && !owned ==> r == Returned(l) && w1 == w)
            && (owned && w.script == [] ==>
                  match At(w, l.key)
                  case None => r == Returned(l.(applied := RemovedAgain)) && w1 == w
                  case Some(f) =>
                    if f != l.target then r == CleanupConflict && w1 == w
                    else r == Returned(l.(applied := RemovedAgain, ownership := NoOwner)) && At(w1, l.key) == None)
            && (r == CleanupConflict ==> owned && w1.trace == w.trace)
  {
  }

  /**
   * Cleaning up twice is cleaning up once: after a cleanup that returned, another one changes no slot whatever fails
   * meanwhile, and undisturbed it returns the same ledger.
   */
  lemma CleanupIsIdempotent(l: Ledger, w: World, later: seq<Step>)
    requires Sound(l) && Alone(w) && forall s :: s in later ==> s.tamper == None
    ensures var (r, w1) := CleanupSpec(l, w);
            r.Returned? ==>
              var (r2, w2) := CleanupSpec(r.ledger, w1.(script := later));
              && w2.slots == w1.slots && w2.trace == w1.trace
              && (later == [] ==> r2 == r)
  {
    CleanupOutcome(l, w);
  }
}
