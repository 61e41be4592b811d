/** Repeated cleanup brings a chain of proxy changes back to the original value. */
module CleanupConvergence {
  import opened Common
  import opened CleanupWorld
  import opened Cleanup

  ghost predicate Of(acts: seq<Action>, kinds: seq<Kind>) {
    |acts| == |kinds| && forall i :: 0 <= i < |acts| ==> acts[i].kind == kinds[i]
  }

  /** Proxy changes recorded among the first `i` actions. */
  function Rank(kinds: seq<Kind>, i: nat): nat
    requires i <= |kinds|
  {
    if i == 0 then 0 else Rank(kinds, i - 1) + if kinds[i - 1].RestoreProxy? then 1 else 0
  }

  /** The proxy actions record the owned changes p[0] to p[1], p[1] to p[2], and so on. */
  ghost predicate Recorded(kinds: seq<Kind>, p: seq<Setting>) {
    && |p| == Rank(kinds, |kinds|) + 1
    && (forall j :: 0 <= j < |p| ==> AsRead(p[j]) == p[j])
    && (forall i :: 0 <= i < |kinds| && kinds[i].RestoreProxy? ==> Links(kinds, p, i))
  }

  ghost predicate Distinct(p: seq<Setting>) { forall i, j :: 0 <= i < j < |p| ==> p[i] != p[j] }

  ghost predicate Chain(kinds: seq<Kind>, p: seq<Setting>) { Recorded(kinds, p) && Distinct(p) }

  ghost predicate Links(kinds: seq<Kind>, p: seq<Setting>, i: nat)
    requires i < |kinds| && kinds[i].RestoreProxy?
  {
    var r := Rank(kinds, i);
    && r + 1 < |p| && p[r + 1].Some?
    && kinds[i].owned && !kinds[i].previous.OtherEntry? && PreviousSetting(kinds[i].previous) == p[r]
    && kinds[i].applied == TextEntry(p[r + 1].value)
  }

  /** The device shows p[k], and no change up to the k-th counts as undone. */
  ghost predicate At(proxy: Setting, acts: seq<Action>, kinds: seq<Kind>, p: seq<Setting>, k: nat) {
    && Of(acts, kinds) && k < |p| && AsRead(proxy) == p[k]
    && forall i: nat :: i < |acts| && kinds[i].RestoreProxy? && Rank(kinds, i) < k ==> !acts[i].status.Finished()
  }

  /** Moreover every later change counts as undone. */
  ghost predicate Settled(acts: seq<Action>, kinds: seq<Kind>, k: nat) {
    && Of(acts, kinds)
    && forall i: nat :: i < |acts| && kinds[i].RestoreProxy? && Rank(kinds, i) >= k ==> acts[i].status.Finished()
  }

  predicate Quiet(script: seq<Step>) { forall s :: s in script ==> s.tamper.Untouched? }

  /** No failing call takes effect. */
  predicate Clean(script: seq<Step>) {
    forall s :: s in script ==> s.tamper.Untouched? && (s.fault.NoFault? || s.fault.FailsBefore? || s.fault.DiesBefore?)
  }

  lemma ChainValues(kinds: seq<Kind>, p: seq<Setting>, i: nat, k: nat)
    requires Chain(kinds, p) && i < |kinds| && kinds[i].RestoreProxy? && k < |p|
    ensures Links(kinds, p, i)
    ensures p[k] == PreviousSetting(kinds[i].previous) <==> k == Rank(kinds, i)
    ensures p[k] == Some(kinds[i].applied.text) <==> k == Rank(kinds, i) + 1
    ensures kinds[i].applied.text != ""
  {
    var r := Rank(kinds, i);
    assert AsRead(p[r + 1]) == p[r + 1];
  }

  /** Undoing link `r` from p[k]: the device stays or goes from p[r + 1] to p[r]; "finished" means it is at p[r]. */
  lemma RestoreEffect(w: World, kinds: seq<Kind>, p: seq<Setting>, k: nat, i: nat)
    returns (v: Verdict, w1: World, k1: nat)
    requires Quiet(w.script) && Chain(kinds, p) && k < |p| && AsRead(w.proxy) == p[k]
    requires i < |kinds| && kinds[i].RestoreProxy?
    ensures (v, w1) == RestoreSpec(w, kinds[i], true) && Quiet(w1.script)
    ensures k1 < |p| && AsRead(w1.proxy) == p[k1]
    ensures k1 == k || (k == Rank(kinds, i) + 1 && k1 == Rank(kinds, i))
    ensures v.Ends? && v.status.Finished() ==> k1 == Rank(kinds, i)
    ensures Clean(w.script) ==> Clean(w1.script) && (k1 < k ==> v.Ends? && v.status.Finished())
    ensures w.script == [] ==>
              && w1.script == [] && v.Ends? && k1 == (if k == Rank(kinds, i) + 1 then Rank(kinds, i) else k)
              && (v.status.Finished() <==> k1 == Rank(kinds, i))
  {
    ChainValues(kinds, p, i, k);
    var r := RestoreSpec(w, kinds[i], true);
    v, w1 := r.0, r.1;
    k1 := if w1.proxy == Entered(Entered(w)).proxy then k else Rank(kinds, i);
  }

  lemma {:induction false} RankGrows(kinds: seq<Kind>, i: nat, j: nat)
    requires i <= j <= |kinds|
    ensures Rank(kinds, i) <= Rank(kinds, j)
    ensures i < j && kinds[i].RestoreProxy? ==> Rank(kinds, i) < Rank(kinds, j)
  {
    if i < j {
      RankGrows(kinds, i, j - 1);
    }
  }

  lemma ElsewhereLeavesProxy(w: World, k: Kind)
    requires !k.RestoreProxy? && Quiet(w.script)
    ensures var (v, w1) := ExecuteSpec(w, k, true);
            && w1.proxy == w.proxy && Quiet(w1.script) && (Clean(w.script) ==> Clean(w1.script))
            && (w.script == [] ==> v.Ends? && w1.script == [])
  {
  }

  /** One due action, whatever goes wrong, keeps the device on the chain and moves it at most one link back. */
  lemma StepOnChain(w: World, acts: seq<Action>, kinds: seq<Kind>, p: seq<Setting>, k: nat, i: nat)
    returns (v: Verdict, w1: World, acts1: seq<Action>, k1: nat)
    requires Quiet(w.script) && Chain(kinds, p) && At(w.proxy, acts, kinds, p, k)
    requires i < |acts| && !acts[i].status.Finished()
    ensures (v, w1) == ExecuteSpec(w, kinds[i], true) && Quiet(w1.script)
    ensures acts1 == if v.Ends? then acts[i := Action(kinds[i], v.status)] else acts
    ensures k1 <= k && At(w1.proxy, acts1, kinds, p, k1)
    ensures Clean(w.script) ==> Clean(w1.script) && (Settled(acts, kinds, k) ==> Settled(acts1, kinds, k1))
    ensures w.script == [] ==> w1.script == [] && v.Ends?
    ensures w.script == [] && kinds[i].RestoreProxy? && k <= Rank(kinds, i) + 1 ==> k1 <= Rank(kinds, i)
  {
    if kinds[i].RestoreProxy? {
      v, w1, k1 := RestoreEffect(w, kinds, p, k, i);
    } else {
      ElsewhereLeavesProxy(w, kinds[i]);
      var r := ExecuteSpec(w, kinds[i], true);
      v, w1, k1 := r.0, r.1, k;
    }
    acts1 := if v.Ends? then acts[i := Action(kinds[i], v.status)] else acts;
    assert Of(acts1, kinds);
    if kinds[i].RestoreProxy? {
      forall j: nat | j < |acts| && kinds[j].RestoreProxy? && j != i ensures Rank(kinds, j) != Rank(kinds, i) {
        RankGrows(kinds, if i < j then i else j, if i < j then j else i);
      }
    }
  }

  lemma {:induction false} UndoOnChain(w: World, acts: seq<Action>, kinds: seq<Kind>, p: seq<Setting>, k: nat,
                                       ready: bool, n: nat)
    returns (k1: nat)
    requires Quiet(w.script) && Chain(kinds, p) && At(w.proxy, acts, kinds, p, k) && n <= |acts|
    ensures var (w1, acts1, alive) := UndoSpec(w, acts, All, true, ready, n);
            && At(w1.proxy, acts1, kinds, p, k1)
            && (Clean(w.script) && Settled(acts, kinds, k) ==> Settled(acts1, kinds, k1))
            && (w.script == [] && ready && k <= Rank(kinds, n) ==> alive && k1 == 0)
    decreases n
  {
    k1 := k;
    if n > 0 {
      if !Due(acts, All, n - 1) {
        k1 := UndoOnChain(w, acts, kinds, p, k, ready, n - 1);
      } else if OnAndroid(kinds[n - 1]) && !ready {
        FailingKeepsChain(w.proxy, acts, kinds, p, k, n - 1);
        k1 := UndoOnChain(w, acts[n - 1 := Action(kinds[n - 1], Failed)], kinds, p, k, ready, n - 1);
      } else {
        var v, w1, acts1, k2 := StepOnChain(w, acts, kinds, p, k, n - 1);
        k1 := k2;
        if v.Ends? {
          k1 := UndoOnChain(w1, acts1, kinds, p, k2, ready, n - 1);
        }
      }
    }
  }

  lemma FailingKeepsChain(proxy: Setting, acts: seq<Action>, kinds: seq<Kind>, p: seq<Setting>, k: nat, i: nat)
    requires At(proxy, acts, kinds, p, k) && i < |acts| && !acts[i].status.Finished()
    ensures var failed := acts[i := Action(kinds[i], Failed)];
            && At(proxy, failed, kinds, p, k)
            && (Settled(acts, kinds, k) ==> Settled(failed, kinds, k))
  {
    assert Of(acts[i := Action(kinds[i], Failed)], kinds);
  }

  /** Cleanup passes, each meeting the failures of its own script. */
  function Cleanups(s: Session, w: World, scripts: seq<seq<Step>>): (Session, World)
    decreases |scripts|
  {
    if scripts == [] then (s, w)
    else var (s1, w1) := CleanupSpec(s, w.(script := scripts[0])); Cleanups(s1, w1, scripts[1..])
  }

  lemma CleanupOnChain(s: Session, w: World, kinds: seq<Kind>, p: seq<Setting>, k: nat) returns (k1: nat)
    requires s.captured && Quiet(w.script) && Chain(kinds, p) && At(w.proxy, s.actions, kinds, p, k)
    ensures var (s1, w1) := CleanupSpec(s, w);
            && s1.captured && At(w1.proxy, s1.actions, kinds, p, k1)
            && (Clean(w.script) && Settled(s.actions, kinds, k) ==> Settled(s1.actions, kinds, k1))
            && (w.script == [] ==> k1 == 0 && (AllFinished(s1.actions) ==> s1.status.Cleaned?))
  {
    k1 := k;
    if s.status.Cleaned? && AllFinished(s.actions) {
      FinishedMeansRestored(s.actions, kinds, p, k, w.proxy);
    } else if NeedsAndroid(s.actions, All) {
      var (r, w1) := Probe(w);
      if !r.Dead? {
        k1 := UndoOnChain(w1, s.actions, kinds, p, k, r.Got?, |s.actions|);
      }
    } else {
      k1 := UndoOnChain(w, s.actions, kinds, p, k, true, |s.actions|);
    }
  }

  /** There is an action for every link, so once all of them are finished the device shows p[0]. */
  lemma FinishedMeansRestored(acts: seq<Action>, kinds: seq<Kind>, p: seq<Setting>, k: nat, proxy: Setting)
    requires Chain(kinds, p) && At(proxy, acts, kinds, p, k) && AllFinished(acts)
    ensures k == 0
  {
    if k > 0 {
      NotAllFinished(acts, kinds, p, k, proxy);
    }
  }

  lemma NotAllFinished(acts: seq<Action>, kinds: seq<Kind>, p: seq<Setting>, k: nat, proxy: Setting)
    requires Chain(kinds, p) && At(proxy, acts, kinds, p, k) && k > 0
    ensures !AllFinished(acts)
  {
    var i := ActionOfRank(kinds, k - 1, |kinds|);
    assert acts[i] in acts;
  }

  lemma {:induction false} ActionOfRank(kinds: seq<Kind>, r: nat, n: nat) returns (i: nat)
    requires n <= |kinds| && r < Rank(kinds, n)
    ensures i < n && kinds[i].RestoreProxy? && Rank(kinds, i) == r
  {
    if r < Rank(kinds, n - 1) {
      i := ActionOfRank(kinds, r, n - 1);
    } else {
      i := n - 1;
    }
  }

  lemma {:induction false} CleanupsOnChain(s: Session, w: World, kinds: seq<Kind>, p: seq<Setting>, k: nat,
                                           scripts: seq<seq<Step>>)
    returns (k1: nat)
    requires s.captured && Chain(kinds, p) && At(w.proxy, s.actions, kinds, p, k)
    requires forall script :: script in scripts ==> Quiet(script)
    ensures var (s1, w1) := Cleanups(s, w, scripts);
            && s1.captured && At(w1.proxy, s1.actions, kinds, p, k1)
            && ((forall script :: script in scripts ==> Clean(script)) && Settled(s.actions, kinds, k) ==>
                  Settled(s1.actions, kinds, k1))
    decreases |scripts|
  {
    k1 := k;
    if scripts != [] {
      var w0 := w.(script := scripts[0]);
      k1 := CleanupOnChain(s, w0, kinds, p, k);
      var (s1, w1) := CleanupSpec(s, w0);
      k1 := CleanupsOnChain(s1, w1, kinds, p, k1, scripts[1..]);
    }
  }

  /** Every recorded change is still in force. */
  ghost predicate FreshRecord(s: Session, w: World, p: seq<Setting>, kinds: seq<Kind>) {
    && s.captured && Of(s.actions, kinds) && Recorded(kinds, p) && AsRead(w.proxy) == p[|p| - 1]
    && forall a :: a in s.actions ==> !a.status.Finished()
  }

  ghost predicate FreshChain(s: Session, w: World, p: seq<Setting>, kinds: seq<Kind>) {
    FreshRecord(s, w, p, kinds) && Distinct(p)
  }

  /**
   * After any number of passes with any failures - calls that fail before or after taking effect, a process that dies
   * at any call - one undisturbed pass leaves the proxy at its original value.
   */
  lemma CleanupConverges(s: Session, w: World, p: seq<Setting>, kinds: seq<Kind>, scripts: seq<seq<Step>>)
    requires FreshChain(s, w, p, kinds)
    requires forall script :: script in scripts ==> Quiet(script)
    ensures var (s1, w1) := Cleanups(s, w, scripts);
            AsRead(CleanupSpec(s1, w1.(script := [])).1.proxy) == p[0]
  {
    FreshIsAtEnd(s, w, p, kinds);
    var k := CleanupsOnChain(s, w, kinds, p, |p| - 1, scripts);
    var (s1, w1) := Cleanups(s, w, scripts);
    var k1 := CleanupOnChain(s1, w1.(script := []), kinds, p, k);
  }

  /**
   * If failing calls never took effect, that pass also leaves every proxy action finished, and the session cleaned if
   * there are no other actions.
   */
  lemma CleanFailuresConvergeFully(s: Session, w: World, p: seq<Setting>, kinds: seq<Kind>, scripts: seq<seq<Step>>)
    requires FreshChain(s, w, p, kinds)
    requires forall script :: script in scripts ==> Clean(script)
    ensures var (s1, w1) := Cleanups(s, w, scripts);
            var (s2, w2) := CleanupSpec(s1, w1.(script := []));
            && AsRead(w2.proxy) == p[0] && |s2.actions| == |kinds|
            && (forall i :: 0 <= i < |s2.actions| && kinds[i].RestoreProxy? ==> s2.actions[i].status.Finished())
            && ((forall kind :: kind in kinds ==> kind.RestoreProxy?) ==> s2.status.Cleaned?)
  {
    FreshIsAtEnd(s, w, p, kinds);
    var k := CleanupsOnChain(s, w, kinds, p, |p| - 1, scripts);
    var (s1, w1) := Cleanups(s, w, scripts);
    var k1 := CleanupOnChain(s1, w1.(script := []), kinds, p, k);
  }

  lemma FreshIsAtEnd(s: Session, w: World, p: seq<Setting>, kinds: seq<Kind>)
    requires FreshChain(s, w, p, kinds)
    ensures At(w.proxy, s.actions, kinds, p, |p| - 1) && Settled(s.actions, kinds, |p| - 1)
  {
    forall i: nat | i < |kinds| && kinds[i].RestoreProxy? ensures Rank(kinds, i) < |p| - 1 {
      RankGrows(kinds, i, |kinds|);
    }
    forall i: nat | i < |s.actions| ensures !s.actions[i].status.Finished() {
      assert s.actions[i] in s.actions;
    }
  }

  /**
   * Whatever happened before, a session reported as cleaned has its proxy back at the original value and nothing left
   * to undo.
   */
  lemma CleanReportIsHonest(s: Session, w: World, p: seq<Setting>, kinds: seq<Kind>, scripts: seq<seq<Step>>)
    requires FreshChain(s, w, p, kinds) && !s.status.Cleaned?
    requires forall script :: script in scripts ==> Quiet(script)
    ensures var (s1, w1) := Cleanups(s, w, scripts);
            s1.status.Cleaned? ==> AllFinished(s1.actions) && AsRead(w1.proxy) == p[0]
  {
    FreshIsAtEnd(s, w, p, kinds);
    var k := CleanupsOnChain(s, w, kinds, p, |p| - 1, scripts);
    var (s1, w1) := Cleanups(s, w, scripts);
    CleanedMeansFinished(s, w, scripts);
    if s1.status.Cleaned? {
      FinishedMeansRestored(s1.actions, kinds, p, k, w1.proxy);
    }
  }

  lemma {:induction false} CleanedMeansFinished(s: Session, w: World, scripts: seq<seq<Step>>)
    requires s.status.Cleaned? ==> AllFinished(s.actions)
    ensures var (s1, _) := Cleanups(s, w, scripts); s1.status.Cleaned? ==> AllFinished(s1.actions)
    decreases |scripts|
  {
    if scripts != [] {
      var (s1, w1) := CleanupSpec(s, w.(script := scripts[0]));
      CleanedMeansFinished(s1, w1, scripts[1..]);
    }
  }

  // ---------------------------------------------------------------- when an undisturbed pass finishes everything

  /** Every change above the k-th counts as undone. */
  ghost predicate NoneStranded(acts: seq<Action>, kinds: seq<Kind>, k: nat)
    requires |acts| == |kinds|
  {
    forall i: nat :: i < |kinds| && kinds[i].RestoreProxy? && Rank(kinds, i) > k ==> acts[i].status.Finished()
  }

  ghost predicate ProxiesFinished(acts: seq<Action>, kinds: seq<Kind>)
    requires |acts| == |kinds|
  {
    forall i: nat :: i < |kinds| && kinds[i].RestoreProxy? ==> acts[i].status.Finished()
  }

  /** An action stepped over while its change was already undone stays unfinished for good. */
  lemma {:induction false} UndoStrands(w: World, acts: seq<Action>, kinds: seq<Kind>, p: seq<Setting>, k: nat,
                                      ready: bool, n: nat, i: nat)
    returns (k1: nat)
    requires Quiet(w.script) && Chain(kinds, p) && At(w.proxy, acts, kinds, p, k) && n <= |acts|
    requires i < |acts| && kinds[i].RestoreProxy? && Rank(kinds, i) > k && !acts[i].status.Finished()
    ensures var (w1, acts1, _) := UndoSpec(w, acts, All, true, ready, n);
            k1 <= k && At(w1.proxy, acts1, kinds, p, k1) && !acts1[i].status.Finished()
    decreases n
  {
    k1 := k;
    if n > 0 {
      if !Due(acts, All, n - 1) {
        k1 := UndoStrands(w, acts, kinds, p, k, ready, n - 1, i);
      } else if OnAndroid(kinds[n - 1]) && !ready {
        FailingKeepsChain(w.proxy, acts, kinds, p, k, n - 1);
        k1 := UndoStrands(w, acts[n - 1 := Action(kinds[n - 1], Failed)], kinds, p, k, ready, n - 1, i);
      } else {
        var v, w1, acts1, k2 := StepOnChain(w, acts, kinds, p, k, n - 1);
        k1 := k2;
        if n - 1 == i {
          var _, _, _ := RestoreEffect(w, kinds, p, k, i);
        }
        if v.Ends? {
          k1 := UndoStrands(w1, acts1, kinds, p, k2, ready, n - 1, i);
        }
      }
    }
  }

  /** Without failures, the changes below and at the device's place come to count as undone one after the other. */
  lemma {:induction false} UndoFinishes(w: World, acts: seq<Action>, kinds: seq<Kind>, p: seq<Setting>, k: nat, n: nat)
    requires w.script == [] && Chain(kinds, p) && At(w.proxy, acts, kinds, p, k) && n <= |acts| && k <= Rank(kinds, n)
    requires NoneStranded(acts, kinds, k)
    requires forall i: nat :: n <= i < |kinds| && kinds[i].RestoreProxy? ==> acts[i].status.Finished()
    ensures var (w1, acts1, alive) := UndoSpec(w, acts, All, true, true, n);
            alive && |acts1| == |kinds| && ProxiesFinished(acts1, kinds)
    decreases n
  {
    if n > 0 {
      RanksDiffer(kinds, n - 1);
      if !Due(acts, All, n - 1) {
        UndoFinishes(w, acts, kinds, p, k, n - 1);
      } else {
        var v, w1, acts1, k1 := StepOnChain(w, acts, kinds, p, k, n - 1);
        if kinds[n - 1].RestoreProxy? {
          var _, _, _ := RestoreEffect(w, kinds, p, k, n - 1);
        } else {
          ElsewhereLeavesProxy(w, kinds[n - 1]);
        }
        UndoFinishes(w1, acts1, kinds, p, k1, n - 1);
      }
    }
  }

  lemma RanksDiffer(kinds: seq<Kind>, i: nat)
    requires i < |kinds|
    ensures kinds[i].RestoreProxy? ==> forall j: nat :: i < j < |kinds| ==> Rank(kinds, i) < Rank(kinds, j)
    ensures forall j: nat :: j < i && kinds[j].RestoreProxy? ==> Rank(kinds, j) < Rank(kinds, i)
  {
    forall j: nat | i < j < |kinds| ensures kinds[i].RestoreProxy? ==> Rank(kinds, i) < Rank(kinds, j) {
      RankGrows(kinds, i, j);
    }
    forall j: nat | j < i && kinds[j].RestoreProxy? ensures Rank(kinds, j) < Rank(kinds, i) {
      RankGrows(kinds, j, i);
    }
  }

  /**
   * An undisturbed pass finishes every proxy action exactly when every change above the device's place already counts
   * as undone before it; if there are only proxy actions, exactly then the session is reported as cleaned.
   */
  lemma PassFinishesExactly(s: Session, w: World, kinds: seq<Kind>, p: seq<Setting>, k: nat)
    requires s.captured && w.script == [] && Chain(kinds, p) && At(w.proxy, s.actions, kinds, p, k)
    ensures var (s1, _) := CleanupSpec(s, w);
            && |s1.actions| == |kinds|
            && (ProxiesFinished(s1.actions, kinds) <==> NoneStranded(s.actions, kinds, k))
            && ((forall kind :: kind in kinds ==> kind.RestoreProxy?) ==>
                  (s1.status.Cleaned? <==> NoneStranded(s.actions, kinds, k)))
  {
    var (s1, w1) := CleanupSpec(s, w);
    var k1 := CleanupOnChain(s, w, kinds, p, k);
    if !(s.status.Cleaned? && AllFinished(s.actions)) {
      assert Probe(w) == (Got(()), w);
      assert s1.actions == UndoSpec(w, s.actions, All, true, true, |s.actions|).1;
      if NoneStranded(s.actions, kinds, k) {
        UndoFinishes(w, s.actions, kinds, p, k, |s.actions|);
      } else {
        var i: nat :| i < |kinds| && kinds[i].RestoreProxy? && Rank(kinds, i) > k && !s.actions[i].status.Finished();
        var _ := UndoStrands(w, s.actions, kinds, p, k, true, |s.actions|, i);
      }
      OnlyProxies(s1.actions, kinds);
    } else {
      assert forall i: nat :: i < |kinds| ==> s.actions[i] in s.actions;
    }
  }

  lemma OnlyProxies(acts: seq<Action>, kinds: seq<Kind>)
    requires Of(acts, kinds)
    ensures AllFinished(acts) ==> ProxiesFinished(acts, kinds)
    ensures (forall kind :: kind in kinds ==> kind.RestoreProxy?) && ProxiesFinished(acts, kinds) ==> AllFinished(acts)
  {
    assert forall i: nat :: i < |acts| ==> acts[i] in acts && kinds[i] in kinds;
  }

  /** So a session that reached that point is never reported as cleaned, although its proxy is restored. */
  lemma {:induction false} StrandedNeverCleaned(s: Session, w: World, kinds: seq<Kind>, p: seq<Setting>, k: nat, i: nat,
                                               scripts: seq<seq<Step>>)
    requires s.captured && !s.status.Cleaned? && Chain(kinds, p) && At(w.proxy, s.actions, kinds, p, k)
    requires i < |kinds| && kinds[i].RestoreProxy? && Rank(kinds, i) > k && !s.actions[i].status.Finished()
    requires forall script :: script in scripts ==> Quiet(script)
    ensures !Cleanups(s, w, scripts).0.status.Cleaned?
    decreases |scripts|
  {
    if scripts != [] {
      var w0 := w.(script := scripts[0]);
      assert scripts[0] in scripts;
      assert Due(s.actions, All, i) && NeedsAndroid(s.actions, All);
      var (r, w2) := Probe(w0);
      var k1 := UndoStrands(w2, s.actions, kinds, p, k, r.Got?, |s.actions|, i);
      k1 := if r.Dead? then k else k1;
      var (s1, w1) := CleanupSpec(s, w0);
      assert s1.actions[i] in s1.actions;
      StrandedNeverCleaned(s1, w1, kinds, p, k1, i, scripts[1..]);
    }
  }

  const OK := Step(Untouched, NoFault)

  function Change(before: string, after: string): Action {
    Action(RestoreProxy(true, TextEntry(before), TextEntry(after)), Pending)
  }

  /** One write that fails after taking effect is enough to reach it: change b to c is undone but stays "failed". */
  lemma EffectfulFailureStrands()
    ensures var s := Session(CleanupRequired, [Change("a", "b"), Change("b", "c")], true);
            var w := World(Some("c"), [], [OK, OK, Step(Untouched, FailsAfter)], []);
            var (s1, w1) := CleanupSpec(s, w);
            && w1.proxy == Some("a")
            && s1.actions == [Action(Change("a", "b").kind, Completed), Action(Change("b", "c").kind, Failed)]
  {
    var acts := [Change("a", "b"), Change("b", "c")];
    var w := World(Some("c"), [], [OK, OK, Step(Untouched, FailsAfter)], []);
    var (_, w1) := Probe(w);
    assert Due(acts, All, 1) && NeedsAndroid(acts, All);
    assert w1.script == [OK, Step(Untouched, FailsAfter)];
    var (v, w2) := ExecuteSpec(w1, acts[1].kind, true);
    assert v == Ends(Failed) && w2.proxy == Some("b") && w2.script == [];
    var acts1 := acts[1 := Action(acts[1].kind, Failed)];
    var (v1, w3) := ExecuteSpec(w2, acts1[0].kind, true);
    assert v1 == Ends(Completed) && w3.proxy == Some("a");
    assert UndoSpec(w2, acts1, All, true, true, 1) == (w3, acts1[0 := Action(acts[0].kind, Completed)], true);
  }

  /** With a repeated value the original is lost: after a to b and back to a, one failed read ends with b. */
  lemma RepeatedValueIsLost()
    ensures var s := Session(CleanupRequired, [Change("a", "b"), Change("b", "a")], true);
            var w := World(Some("a"), [], [], []);
            var (s1, w1) := Cleanups(s, w, [[OK, Step(Untouched, FailsBefore)]]);
            CleanupSpec(s1, w1.(script := [])).1.proxy == Some("b")
  {
    var acts := [Change("a", "b"), Change("b", "a")];
    var s := Session(CleanupRequired, acts, true);
    var w := World(Some("a"), [], [OK, Step(Untouched, FailsBefore)], []);
    assert Due(acts, All, 1) && NeedsAndroid(acts, All);
    var w1 := World(Some("a"), [], [Step(Untouched, FailsBefore)], []);
    assert Probe(w).1 == w1;
    var acts1 := acts[1 := Action(acts[1].kind, Failed)];
    var w2 := World(Some("a"), [], [], []);
    assert ExecuteSpec(w1, acts[1].kind, true) == (Ends(Failed), w2);
    var acts2 := acts1[0 := Action(acts[0].kind, Skipped)];
    assert ExecuteSpec(w2, acts1[0].kind, true).0 == Ends(Skipped);
    assert UndoSpec(w2, acts1, All, true, true, 1).1 == acts2;
    var (s1, w3) := CleanupSpec(s, w);
    assert s1 == Session(CleanupFailed, acts2, true) && w3.proxy == Some("a") by {
      assert acts2[1] in acts2;
    }
    assert Cleanups(s, World(Some("a"), [], [], []), [[OK, Step(Untouched, FailsBefore)]]) == (s1, w3);
    var w4 := w3.(script := []);
    assert Due(acts2, All, 1) && NeedsAndroid(acts2, All) && !Due(acts2, All, 0);
    assert Probe(w4) == (Got(()), w4);
    var (v, w5) := ExecuteSpec(w4, acts2[1].kind, true);
    assert w5.proxy == Some("b") && v == Ends(Completed);
    var acts3 := acts2[1 := Action(acts[1].kind, Completed)];
    assert !Due(acts3, All, 0);
    assert UndoSpec(w5, acts3, All, true, true, 1) == (w5, acts3, true);
    assert UndoSpec(w4, acts2, All, true, true, 2) == (w5, acts3, true);
  }
}
