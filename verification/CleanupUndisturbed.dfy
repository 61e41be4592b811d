/** What cleanup and rollback achieve where nothing interferes. */
module CleanupUndisturbed {
  import opened Common
  import opened CleanupWorld
  import opened Cleanup
  import opened CleanupProofs
  import opened CleanupConvergence

  // ---------------------------------------------------------------- every chosen action is attempted

  /** The process survives every call. */
  predicate Survivable(script: seq<Step>) { forall s :: s in script ==> !s.fault.DiesBefore? && !s.fault.DiesAfter? }

  lemma ExecuteDecides(w: World, k: Kind, captured: bool)
    requires Survivable(w.script)
    ensures var (v, w1) := ExecuteSpec(w, k, captured);
            v.Ends? && !v.status.Pending? && Survivable(w1.script)
  {
  }

  lemma {:induction false} UndoAttempts(w: World, acts: seq<Action>, chosen: Selection, captured: bool, ready: bool,
                                        n: nat)
    requires n <= |acts| && Survivable(w.script)
    ensures var (w1, acts1, alive) := UndoSpec(w, acts, chosen, captured, ready, n);
            && alive && |acts1| == |acts|
            && (forall i: nat :: n <= i < |acts| ==> acts1[i] == acts[i])
            && (forall i: nat :: i < n && chosen.Has(i) ==> !acts1[i].status.Pending?)
    decreases n
  {
    if n > 0 {
      if !Due(acts, chosen, n - 1) {
        UndoAttempts(w, acts, chosen, captured, ready, n - 1);
      } else {
        var k := acts[n - 1].kind;
        var (v, w1) := if OnAndroid(k) && !ready then (Ends(Failed), w) else ExecuteSpec(w, k, captured);
        ExecuteDecides(w, k, captured);
        UndoAttempts(w1, acts[n - 1 := Action(k, v.status)], chosen, captured, ready, n - 1);
      }
    }
  }

  /**
   * Unless the process dies, no chosen action is left pending, and the session's status says whether any is unfinished.
   */
  lemma RollbackAttempts(s: Session, chosen: Selection, w: World)
    requires Survivable(w.script)
    ensures var (s1, _) := RollbackSpec(s, chosen, w);
            && |s1.actions| == |s.actions|
            && (forall i: nat :: i < |s.actions| && chosen.Has(i) ==> !s1.actions[i].status.Pending?)
            && s1.status == if AllFinished(s1.actions) then Active else CleanupRequired
  {
    if NeedsAndroid(s.actions, chosen) {
      var (r, w1) := Probe(w);
      UndoAttempts(w1, s.actions, chosen, s.captured, r.Got?, |s.actions|);
    } else {
      UndoAttempts(w, s.actions, chosen, s.captured, true, |s.actions|);
    }
  }

  // ---------------------------------------------------------------- an undisturbed rollback

  /** The proxy change `k` is owned and in force, and can be undone. */
  ghost predicate InForce(w: World, k: Kind) {
    && k.RestoreProxy? && k.owned && !k.previous.OtherEntry? && k.applied.TextEntry? && k.applied.text != ""
    && AsRead(w.proxy) == Some(k.applied.text) != PreviousSetting(k.previous)
  }

  lemma {:induction false} UndoOne(w: World, acts: seq<Action>, i: nat, n: nat)
    requires w.script == [] && i < |acts| && n <= |acts|
    requires !acts[i].status.Finished() && InForce(w, acts[i].kind)
    ensures var (w1, acts1, alive) := UndoSpec(w, acts, Only({i}), true, true, n);
            && alive
            && acts1 == (if i < n then acts[i := Action(acts[i].kind, Completed)] else acts)
            && w1.proxy == (if i < n then PreviousSetting(acts[i].kind.previous) else w.proxy)
            && w1.reverses == w.reverses
    decreases n
  {
    if n > 0 {
      if n - 1 != i {
        UndoOne(w, acts, i, n - 1);
      } else {
        var (v, w1) := ExecuteSpec(w, acts[i].kind, true);
        assert v == Ends(Completed);
        NothingDue(w1, acts[i := Action(acts[i].kind, Completed)], Only({i}), n - 1);
      }
    }
  }

  lemma {:induction false} NothingDue(w: World, acts: seq<Action>, chosen: Selection, n: nat)
    requires n <= |acts| && forall i: nat :: i < n ==> !Due(acts, chosen, i)
    ensures UndoSpec(w, acts, chosen, true, true, n) == (w, acts, true)
    decreases n
  {
    if n > 0 {
      NothingDue(w, acts, chosen, n - 1);
    }
  }

  /**
   * Undisturbed, rolling back one owned proxy change that is in force puts its previous value back and completes that
   * action, and touches nothing else; the session is active again exactly if no other action is left.
   */
  lemma RollbackRestores(s: Session, w: World, i: nat)
    requires s.captured && w.script == [] && i < |s.actions|
    requires !s.actions[i].status.Finished() && InForce(w, s.actions[i].kind)
    ensures var (s1, w1) := RollbackSpec(s, Only({i}), w);
            && w1.proxy == PreviousSetting(s.actions[i].kind.previous) && w1.reverses == w.reverses
            && s1.actions == s.actions[i := Action(s.actions[i].kind, Completed)]
            && (s1.status.Active? <==> forall j: nat :: j < |s.actions| && j != i ==> s.actions[j].status.Finished())
  {
    assert Due(s.actions, Only({i}), i) && NeedsAndroid(s.actions, Only({i}));
    assert Probe(w) == (Got(()), w);
    UndoOne(w, s.actions, i, |s.actions|);
    var acts := s.actions[i := Action(s.actions[i].kind, Completed)];
    if AllFinished(acts) {
      forall j: nat | j < |s.actions| && j != i ensures s.actions[j].status.Finished() {
        assert acts[j] in acts;
      }
    }
    if forall j: nat :: j < |s.actions| && j != i ==> s.actions[j].status.Finished() {
      forall a | a in acts ensures a.status.Finished() {
        var j :| 0 <= j < |acts| && acts[j] == a;
      }
    }
  }

  // ---------------------------------------------------------------- the top of a chain

  /** Of the proxy changes exactly those from the r-th on are chosen. */
  ghost predicate FromOn(chosen: Selection, kinds: seq<Kind>, r: nat) {
    forall i: nat :: i < |kinds| && kinds[i].RestoreProxy? ==> (chosen.Has(i) <==> Rank(kinds, i) >= r)
  }

  ghost predicate TopFinished(acts: seq<Action>, kinds: seq<Kind>, r: nat, n: nat)
    requires |acts| == |kinds|
  {
    forall i: nat :: n <= i < |kinds| && kinds[i].RestoreProxy? && Rank(kinds, i) >= r ==> acts[i].status.Finished()
  }

  lemma {:induction false} UndoTop(w: World, acts: seq<Action>, kinds: seq<Kind>, p: seq<Setting>, k: nat,
                                   chosen: Selection, r: nat, n: nat)
    requires w.script == [] && Chain(kinds, p) && At(w.proxy, acts, kinds, p, k) && n <= |acts|
    requires FromOn(chosen, kinds, r) && r <= k && (k <= Rank(kinds, n) || k == r)
    requires NoneStranded(acts, kinds, k) && TopFinished(acts, kinds, r, n)
    ensures var (w1, acts1, alive) := UndoSpec(w, acts, chosen, true, true, n);
            alive && At(w1.proxy, acts1, kinds, p, r) && TopFinished(acts1, kinds, r, 0)
    decreases n
  {
    if n > 0 {
      RanksDiffer(kinds, n - 1);
      if !Due(acts, chosen, n - 1) {
        UndoTop(w, acts, kinds, p, k, chosen, r, n - 1);
      } else {
        var w1, acts1, k1 := TopStep(w, acts, kinds, p, k, r, n - 1);
        UndoTop(w1, acts1, kinds, p, k1, chosen, r, n - 1);
      }
    }
  }

  /** One of the actions from the r-th on, or an action of another kind. */
  lemma TopStep(w: World, acts: seq<Action>, kinds: seq<Kind>, p: seq<Setting>, k: nat, r: nat, i: nat)
    returns (w1: World, acts1: seq<Action>, k1: nat)
    requires w.script == [] && Chain(kinds, p) && At(w.proxy, acts, kinds, p, k)
    requires i < |acts| && !acts[i].status.Finished() && (kinds[i].RestoreProxy? ==> Rank(kinds, i) >= r)
    requires r <= k && (k <= Rank(kinds, i + 1) || k == r)
    requires NoneStranded(acts, kinds, k) && TopFinished(acts, kinds, r, i + 1)
    ensures var (v, w2) := ExecuteSpec(w, kinds[i], true);
            v.Ends? && w1 == w2 && acts1 == acts[i := Action(kinds[i], v.status)]
    ensures w1.script == [] && At(w1.proxy, acts1, kinds, p, k1) && r <= k1 && (k1 <= Rank(kinds, i) || k1 == r)
    ensures NoneStranded(acts1, kinds, k1) && TopFinished(acts1, kinds, r, i)
  {
    var v;
    RanksDiffer(kinds, i);
    v, w1, acts1, k1 := StepOnChain(w, acts, kinds, p, k, i);
    if kinds[i].RestoreProxy? {
      var _, _, _ := RestoreEffect(w, kinds, p, k, i);
    } else {
      ElsewhereLeavesProxy(w, kinds[i]);
    }
  }

  /**
   * Undisturbed, rolling back the top of a chain of proxy changes, with any other actions chosen or not, brings the
   * proxy to the value below that part and finishes its actions.
   */
  lemma RollbackUndoesTop(s: Session, w: World, kinds: seq<Kind>, p: seq<Setting>, k: nat, chosen: Selection, r: nat)
    requires s.captured && w.script == [] && Chain(kinds, p) && At(w.proxy, s.actions, kinds, p, k)
    requires FromOn(chosen, kinds, r) && r <= k && NoneStranded(s.actions, kinds, k)
    ensures var (s1, w1) := RollbackSpec(s, chosen, w);
            && At(w1.proxy, s1.actions, kinds, p, r) && AsRead(w1.proxy) == p[r]
            && TopFinished(s1.actions, kinds, r, 0)
  {
    assert Probe(w) == (Got(()), w);
    UndoTop(w, s.actions, kinds, p, k, chosen, r, |s.actions|);
  }

  // ---------------------------------------------------------------- mappings and other kinds

  /** The mapping of action `i` is listed, and no other action is about its remote end. */
  ghost predicate MappingInForce(w: World, acts: seq<Action>, i: nat)
    requires i < |acts|
  {
    var k := acts[i].kind;
    && k.RemoveReverseMapping? && k.owned && k.remote.Some? && k.local.Some?
    && FirstFor(w.reverses, k.remote.value) == Some(Mapping(k.remote.value, k.local.value))
    && forall j: nat :: j < |acts| && j != i && acts[j].kind.RemoveReverseMapping? ==> acts[j].kind.remote != k.remote
  }

  lemma ElsewhereLeavesMapping(w: World, k: Kind, captured: bool, remote: string)
    requires w.script == [] && (k.RemoveReverseMapping? ==> k.remote != Some(remote))
    ensures var (v, w1) := ExecuteSpec(w, k, captured);
            v.Ends? && w1.script == [] && FirstFor(w1.reverses, remote) == FirstFor(w.reverses, remote)
  {
    if k.RemoveReverseMapping? && k.remote.Some? {
      WithoutForgets(w.reverses, k.remote.value);
    }
  }

  lemma {:induction false} UndoMapping(w: World, acts: seq<Action>, chosen: Selection, captured: bool, i: nat, n: nat)
    requires w.script == [] && i < |acts| && n <= |acts| && Due(acts, chosen, i) && MappingInForce(w, acts, i)
    ensures var (w1, acts1, alive) := UndoSpec(w, acts, chosen, captured, true, n);
            && alive && |acts1| == |acts| && w1.script == []
            && FirstFor(w1.reverses, acts[i].kind.remote.value) ==
               (if i < n then None else Some(Mapping(acts[i].kind.remote.value, acts[i].kind.local.value)))
            && acts1[i] == (if i < n then Action(acts[i].kind, Completed) else acts[i])
    decreases n
  {
    if n > 0 {
      var remote := acts[i].kind.remote.value;
      if n - 1 == i {
        var (v, w1) := ExecuteSpec(w, acts[i].kind, captured);
        RemoveMeans(w, acts[i].kind);
        assert v == Ends(Completed);
        GoneStaysGone(w1, acts[i := Action(acts[i].kind, Completed)], chosen, captured, i, remote, n - 1);
      } else if !Due(acts, chosen, n - 1) {
        UndoMapping(w, acts, chosen, captured, i, n - 1);
      } else {
        var (v, w1) := ExecuteSpec(w, acts[n - 1].kind, captured);
        ElsewhereLeavesMapping(w, acts[n - 1].kind, captured, remote);
        UndoMapping(w1, acts[n - 1 := Action(acts[n - 1].kind, v.status)], chosen, captured, i, n - 1);
      }
    }
  }

  lemma {:induction false} GoneStaysGone(w: World, acts: seq<Action>, chosen: Selection, captured: bool, i: nat,
                                         remote: string, n: nat)
    requires w.script == [] && n <= i < |acts| && FirstFor(w.reverses, remote) == None
    requires forall j: nat :: j < n && acts[j].kind.RemoveReverseMapping? ==> acts[j].kind.remote != Some(remote)
    ensures var (w1, acts1, alive) := UndoSpec(w, acts, chosen, captured, true, n);
            && alive && |acts1| == |acts| && acts1[i] == acts[i] && w1.script == []
            && FirstFor(w1.reverses, remote) == None
    decreases n
  {
    if n > 0 {
      if !Due(acts, chosen, n - 1) {
        GoneStaysGone(w, acts, chosen, captured, i, remote, n - 1);
      } else {
        var (v, w1) := ExecuteSpec(w, acts[n - 1].kind, captured);
        ElsewhereLeavesMapping(w, acts[n - 1].kind, captured, remote);
        GoneStaysGone(w1, acts[n - 1 := Action(acts[n - 1].kind, v.status)], chosen, captured, i, remote, n - 1);
      }
    }
  }

  /**
   * Undisturbed, one pass over a ledger, in any company, removes every owned mapping that is due and listed and
   * completes its action.
   */
  lemma PassRemovesMapping(w: World, acts: seq<Action>, chosen: Selection, captured: bool, i: nat)
    requires w.script == [] && i < |acts| && Due(acts, chosen, i) && MappingInForce(w, acts, i)
    ensures var (w1, acts1, alive) := PassSpec(w, acts, chosen, captured);
            && alive && |acts1| == |acts|
            && FirstFor(w1.reverses, acts[i].kind.remote.value) == None
            && acts1[i] == Action(acts[i].kind, Completed)
  {
    assert Probe(w) == (Got(()), w);
    UndoMapping(w, acts, chosen, captured, i, |acts|);
  }

  /** With the device not authorized, nothing on it is touched, and every due action on it fails. */
  lemma {:induction false} NotReadyFails(w: World, acts: seq<Action>, chosen: Selection, captured: bool, n: nat)
    requires n <= |acts|
    ensures var (w1, acts1, alive) := UndoSpec(w, acts, chosen, captured, false, n);
            && w1.trace == w.trace && |acts1| == |acts|
            && (forall i: nat :: n <= i < |acts| ==> acts1[i] == acts[i])
            && (alive ==> forall i: nat :: i < n && Due(acts, chosen, i) && OnAndroid(acts[i].kind) ==>
                  acts1[i] == Action(acts[i].kind, Failed))
    decreases n
  {
    if n > 0 {
      if !Due(acts, chosen, n - 1) {
        NotReadyFails(w, acts, chosen, captured, n - 1);
      } else {
        var k := acts[n - 1].kind;
        var (v, w1) := if OnAndroid(k) then (Ends(Failed), w) else ExecuteSpec(w, k, captured);
        if v.Ends? {
          NotReadyFails(w1, acts[n - 1 := Action(k, v.status)], chosen, captured, n - 1);
        }
      }
    }
  }

  // ---------------------------------------------------------------- a process that dies

  /** A process that dies before anything was undone leaves every action as stored, a rollback the whole session. */
  lemma DeathKeepsSession(s: Session, chosen: Selection, w: World)
    requires NeedsAndroid(s.actions, chosen)
    requires w.script != [] && (w.script[0].fault.DiesBefore? || w.script[0].fault.DiesAfter?)
    ensures RollbackSpec(s, chosen, w).0 == s
    ensures chosen.All? ==> CleanupSpec(s, w).0 == s.(status := Cleaning)
    ensures RollbackSpec(s, chosen, w).1.trace == w.trace && CleanupSpec(s, w).1.trace == w.trace
  {
  }
}
