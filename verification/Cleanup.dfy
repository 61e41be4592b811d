/** Session cleanup: recorded changes are undone newest first, each only while the device still shows it. */
module Cleanup {
  import opened Common
  import opened CleanupWorld

  /** A payload entry as stored: missing or null, text, or something that is not text. */
  datatype Entry = NoEntry | TextEntry(text: string) | OtherEntry

  datatype Kind =
    | RestoreProxy(owned: bool, previous: Entry, applied: Entry)
    | RemoveReverseMapping(owned: bool, remote: Option<string>, local: Option<string>)
    | Elsewhere(android: bool)

  datatype Status = Pending | Completed | Failed | Conflict | Skipped {
    predicate Finished() { Completed? || Skipped? }
  }

  datatype Action = Action(kind: Kind, status: Status)

  datatype SessionStatus = Initializing | Active | CleanupRequired | Cleaning | Cleaned | CleanupFailed

  /** What carrying out one action came to. */
  datatype Verdict = Ends(status: Status) | Dies

  predicate OnAndroid(k: Kind) { !k.Elsewhere? || k.android }

  function Judge<T>(r: Reply<T>): Verdict {
    if r.Dead? then Dies else Ends(if r.Got? then Completed else Failed)
  }

  function PreviousSetting(e: Entry): Setting { if e.TextEntry? then Some(e.text) else None }

  // ---------------------------------------------------------------- one action

  function RestoreSpec(w: World, k: Kind, captured: bool): (Verdict, World)
    requires k.RestoreProxy?
  {
    if !captured || !k.owned || k.previous.OtherEntry? || !k.applied.TextEntry? || k.applied.text == "" then
      (Ends(Failed), w)
    else
      var (read, w1) := GetProxy(w);
      if !read.Got? then (Judge(read), w1)
      else if read.value == PreviousSetting(k.previous) then (Ends(Skipped), w1)
      else if read.value != Some(k.applied.text) then (Ends(Conflict), w1)
      else
        var (written, w2) := SetProxy(w1, PreviousSetting(k.previous));
        (Judge(written), w2)
  }

  function FirstFor(mappings: seq<Mapping>, remote: string): Option<Mapping> {
    if mappings == [] then None
    else if mappings[0].remote == remote then Some(mappings[0]) else FirstFor(mappings[1..], remote)
  }

  function RemoveSpec(w: World, k: Kind): (Verdict, World)
    requires k.RemoveReverseMapping?
  {
    if !k.owned || k.remote == None || k.local == None then (Ends(Failed), w)
    else
      var (listed, w1) := ListReverse(w);
      if !listed.Got? then (Judge(listed), w1)
      else
        var mapping := FirstFor(listed.value, k.remote.value);
        if mapping == None then (Ends(Skipped), w1)
        else if mapping.value.local != k.local.value then (Ends(Conflict), w1)
        else
          var (removed, w2) := RemoveReverse(w1, k.remote.value);
          (Judge(removed), w2)
  }

  function ExecuteSpec(w: World, k: Kind, captured: bool): (Verdict, World) {
    match k
    case RestoreProxy(_, _, _) => RestoreSpec(w, k, captured)
    case RemoveReverseMapping(_, _, _) => RemoveSpec(w, k)
    case Elsewhere(_) => var (r, w1) := Probe(w); (Judge(r), w1)
  }

  // ---------------------------------------------------------------- one pass

  datatype Selection = All | Only(ids: set<nat>) {
    predicate Has(i: nat) { All? || i in ids }
  }

  predicate Due(acts: seq<Action>, chosen: Selection, i: nat)
    requires i < |acts|
  {
    chosen.Has(i) && !acts[i].status.Finished()
  }

  /** Undoes the due actions below `n`, newest first; `false` when the process died on the way. */
  function UndoSpec(w: World, acts: seq<Action>, chosen: Selection, captured: bool, ready: bool, n: nat)
    : (World, seq<Action>, bool)
    requires n <= |acts|
    decreases n
  {
    if n == 0 then (w, acts, true)
    else if !Due(acts, chosen, n - 1) then UndoSpec(w, acts, chosen, captured, ready, n - 1)
    else
      var k := acts[n - 1].kind;
      var (v, w1) := if OnAndroid(k) && !ready then (Ends(Failed), w) else ExecuteSpec(w, k, captured);
      if v.Dies? then (w1, acts, false)
      else UndoSpec(w1, acts[n - 1 := Action(k, v.status)], chosen, captured, ready, n - 1)
  }

  predicate NeedsAndroid(acts: seq<Action>, chosen: Selection) {
    exists i: nat :: i < |acts| && Due(acts, chosen, i) && OnAndroid(acts[i].kind)
  }

  function PassSpec(w: World, acts: seq<Action>, chosen: Selection, captured: bool): (World, seq<Action>, bool) {
    if NeedsAndroid(acts, chosen) then
      var (r, w1) := Probe(w);
      if r.Dead? then (w1, acts, false) else UndoSpec(w1, acts, chosen, captured, r.Got?, |acts|)
    else UndoSpec(w, acts, chosen, captured, true, |acts|)
  }

  predicate AllFinished(acts: seq<Action>) { forall a :: a in acts ==> a.status.Finished() }

  datatype Session = Session(status: SessionStatus, actions: seq<Action>, captured: bool)

  /** `cleanup`: nothing for a cleaned session; a dead process leaves the session "cleaning". */
  function CleanupSpec(s: Session, w: World): (Session, World) {
    if s.status.Cleaned? && AllFinished(s.actions) then (s, w)
    else
      var (w1, acts, alive) := PassSpec(w, s.actions, All, s.captured);
      (s.(actions := acts,
          status := if !alive then Cleaning else if AllFinished(acts) then Cleaned else CleanupFailed), w1)
  }

  /** `rollback_actions`: only the chosen actions, but the session is active again only if nothing at all is left. */
  function RollbackSpec(s: Session, chosen: Selection, w: World): (Session, World) {
    var (w1, acts, alive) := PassSpec(w, s.actions, chosen, s.captured);
    (s.(actions := acts,
        status := if !alive then s.status else if AllFinished(acts) then Active else CleanupRequired), w1)
  }

  // ---------------------------------------------------------------- the executor

  class CleanupExecutor {
    const device: Device
    var status: SessionStatus
    var actions: seq<Action>
    const captured: bool

    ghost function Record(): Session
      reads this
    {
      Session(status, actions, captured)
    }

    constructor (device: Device, s: Session)
      ensures this.device == device && Record() == s
    {
      this.device, status, actions, captured := device, s.status, s.actions, s.captured;
    }

    method RestoreOwnedProxy(k: Kind) returns (v: Verdict)
      requires k.RestoreProxy?
      modifies device
      ensures (v, device.View()) == RestoreSpec(old(device.View()), k, captured)
    {
      if !captured || !k.owned || k.previous.OtherEntry? || !k.applied.TextEntry? || k.applied.text == "" {
        return Ends(Failed);
      }
      var read := device.GetSetting();
      if !read.Got? {
        return Judge(read);
      }
      if read.value == PreviousSetting(k.previous) {
        return Ends(Skipped);
      }
      if read.value != Some(k.applied.text) {
        return Ends(Conflict);
      }
      var written := device.PutSetting(PreviousSetting(k.previous));
      v := Judge(written);
    }

    method RemoveOwnedReverse(k: Kind) returns (v: Verdict)
      requires k.RemoveReverseMapping?
      modifies device
      ensures (v, device.View()) == RemoveSpec(old(device.View()), k)
    {
      if !k.owned || k.remote == None || k.local == None {
        return Ends(Failed);
      }
      var listed := device.Reverses();
      if !listed.Got? {
        return Judge(listed);
      }
      var mapping := FirstFor(listed.value, k.remote.value);
      if mapping == None {
        return Ends(Skipped);
      }
      if mapping.value.local != k.local.value {
        return Ends(Conflict);
      }
      var removed := device.DropReverse(k.remote.value);
      v := Judge(removed);
    }

    method Execute(k: Kind) returns (v: Verdict)
      modifies device
      ensures (v, device.View()) == ExecuteSpec(old(device.View()), k, captured)
    {
      match k {
        case RestoreProxy(_, _, _) => v := RestoreOwnedProxy(k);
        case RemoveReverseMapping(_, _, _) => v := RemoveOwnedReverse(k);
        case Elsewhere(_) =>
          var r := device.RequireAuthorized();
          v := Judge(r);
      }
    }

    /** The loop over the reversed ledger shared by cleanup and rollback. */
    method UndoDue(chosen: Selection, ready: bool) returns (alive: bool)
      modifies device, `actions
      ensures (device.View(), actions, alive)
           == UndoSpec(old(device.View()), old(actions), chosen, captured, ready, |old(actions)|)
    {
      var n := |actions|;
      while n > 0
        invariant 0 <= n <= |actions| == |old(actions)|
        invariant UndoSpec(old(device.View()), old(actions), chosen, captured, ready, |old(actions)|)
               == UndoSpec(device.View(), actions, chosen, captured, ready, n)
      {
        n := n - 1;
        if chosen.Has(n) && !actions[n].status.Finished() {
          var k := actions[n].kind;
          var v := Ends(Failed);
          if !OnAndroid(k) || ready {
            v := Execute(k);
          }
          if v.Dies? {
            return false;
          }
          actions := actions[n := Action(k, v.status)];
        }
      }
      alive := true;
    }

    method Pass(chosen: Selection) returns (alive: bool)
      modifies device, `actions
      ensures (device.View(), actions, alive) == PassSpec(old(device.View()), old(actions), chosen, captured)
    {
      var ready := true;
      if exists i: nat :: i < |actions| && Due(actions, chosen, i) && OnAndroid(actions[i].kind) {
        var r := device.RequireAuthorized();
        if r.Dead? {
          return false;
        }
        ready := r.Got?;
      }
      alive := UndoDue(chosen, ready);
    }

    method Cleanup()
      modifies device, this
      ensures (Record(), device.View()) == CleanupSpec(old(Record()), old(device.View()))
    {
      if status.Cleaned? && AllFinished(actions) {
        return;
      }
      status := Cleaning;
      var alive := Pass(All);
      if alive {
        status := if AllFinished(actions) then Cleaned else CleanupFailed;
      }
    }

    method RollbackActions(chosen: Selection)
      modifies device, this
      ensures (Record(), device.View()) == RollbackSpec(old(Record()), chosen, old(device.View()))
    {
      var alive := Pass(chosen);
      if alive {
        status := if AllFinished(actions) then Active else CleanupRequired;
      }
    }
  }
}
