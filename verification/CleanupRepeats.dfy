/** Repeated cleanup restores the original value exactly when the recorded values are all different. */
module CleanupRepeats {
  import opened Common
  import opened CleanupWorld
  import opened Cleanup
  import opened CleanupConvergence

  /** A change is recorded only when the value it applies is not the one already there. */
  ghost predicate NeighboursDiffer(p: seq<Setting>) { forall j :: 0 <= j < |p| - 1 ==> p[j] != p[j + 1] }

  /** After these passes one undisturbed pass leaves the proxy at its original value. */
  ghost predicate Restored(s: Session, w: World, p: seq<Setting>, scripts: seq<seq<Step>>)
    requires p != []
  {
    var (s1, w1) := Cleanups(s, w, scripts);
    AsRead(CleanupSpec(s1, w1.(script := [])).1.proxy) == p[0]
  }

  ghost predicate AllQuiet(scripts: seq<seq<Step>>) { forall script :: script in scripts ==> Quiet(script) }

  const FAIL := Step(Untouched, FailsBefore)

  // ---------------------------------------------------------------- a pass that loses the original value

  function Max(m: nat, n: nat): nat { if m < n then n else m }

  /** Where p[i] is seen again as p[j]: the changes from the j-th on are undone, the i-th is read, all others fail. */
  function StepsFor(kinds: seq<Kind>, i: nat, j: nat, m: nat): seq<Step>
    requires m < |kinds|
  {
    match kinds[m]
    case RestoreProxy(_, _, _) =>
      if Rank(kinds, m) >= j then [OK, OK] else if Rank(kinds, m) == i then [OK] else [FAIL]
    case RemoveReverseMapping(owned, remote, local) => if !owned || remote == None || local == None then [] else [FAIL]
    case Elsewhere(_) => [FAIL]
  }

  function Attack(kinds: seq<Kind>, i: nat, j: nat, n: nat): seq<Step>
    requires n <= |kinds|
  {
    if n == 0 then [] else StepsFor(kinds, i, j, n - 1) + Attack(kinds, i, j, n - 1)
  }

  lemma {:induction false} AttackIsQuiet(kinds: seq<Kind>, i: nat, j: nat, n: nat)
    requires n <= |kinds|
    ensures Quiet(Attack(kinds, i, j, n))
  {
    if n > 0 {
      AttackIsQuiet(kinds, i, j, n - 1);
    }
  }

  lemma LinkValues(kinds: seq<Kind>, p: seq<Setting>, m: nat)
    requires Recorded(kinds, p) && m < |kinds| && kinds[m].RestoreProxy?
    ensures Links(kinds, p, m) && Rank(kinds, m + 1) == Rank(kinds, m) + 1
    ensures p[Rank(kinds, m)] == PreviousSetting(kinds[m].previous)
    ensures kinds[m].applied.TextEntry? && kinds[m].applied.text != ""
    ensures p[Rank(kinds, m) + 1] == Some(kinds[m].applied.text)
  {
    assert AsRead(p[Rank(kinds, m) + 1]) == p[Rank(kinds, m) + 1];
  }

  /** Where the i-th and the j-th value are equal, and no value before the i-th comes back. */
  ghost predicate FirstRepeat(p: seq<Setting>, i: nat, j: nat) {
    && i < j < |p| && p[i] == p[j]
    && forall x, y :: 0 <= x < i && x < y < |p| ==> p[x] != p[y]
  }

  predicate Stopped(kinds: seq<Kind>, i: nat, j: nat, m: nat)
    requires m < |kinds|
  {
    Rank(kinds, m) >= j || Rank(kinds, m) == i
  }

  lemma AttackStep(w: World, kinds: seq<Kind>, p: seq<Setting>, i: nat, j: nat, m: nat, rest: seq<Step>)
    requires Recorded(kinds, p) && NeighboursDiffer(p) && FirstRepeat(p, i, j) && m < |kinds|
    requires w.script == StepsFor(kinds, i, j, m) + rest
    requires Rank(kinds, m + 1) < |p| && AsRead(w.proxy) == p[Max(Rank(kinds, m + 1), j)]
    ensures var (v, w1) := ExecuteSpec(w, kinds[m], true);
            && v.Ends? && w1.script == rest && AsRead(w1.proxy) == p[Max(Rank(kinds, m), j)]
            && (kinds[m].RestoreProxy? ==> (v.status.Finished() <==> Stopped(kinds, i, j, m)))
  {
    match kinds[m] {
      case RestoreProxy(_, _, _) =>
        var r := Rank(kinds, m);
        LinkValues(kinds, p, m);
        if r >= j {
          assert w.script[1..] == [OK] + rest && w.script[1..][1..] == rest;
          assert p[r] != p[r + 1];
        } else {
          assert w.script[1..] == rest;
        }
      case RemoveReverseMapping(_, _, _) =>
        if StepsFor(kinds, i, j, m) != [] {
          assert w.script[1..] == rest;
        } else {
          assert w.script == rest;
        }
      case Elsewhere(_) =>
        assert w.script[1..] == rest;
    }
  }

  /**
   * The attack leaves the device at the repeated value, with exactly the i-th and the later changes counted as undone.
   */
  lemma {:induction false} AttackPass(w: World, acts: seq<Action>, kinds: seq<Kind>, p: seq<Setting>, i: nat, j: nat,
                                      n: nat)
    requires Recorded(kinds, p) && NeighboursDiffer(p) && FirstRepeat(p, i, j)
    requires Of(acts, kinds) && n <= |acts| && w.script == Attack(kinds, i, j, n)
    requires Rank(kinds, n) < |p| && AsRead(w.proxy) == p[Max(Rank(kinds, n), j)]
    requires forall m: nat :: m < n ==> !acts[m].status.Finished()
    ensures var (w1, acts1, alive) := UndoSpec(w, acts, All, true, true, n);
            && alive && AsRead(w1.proxy) == p[j] && Of(acts1, kinds)
            && (forall m: nat :: n <= m < |acts| ==> acts1[m] == acts[m])
            && (forall m: nat :: m < n && kinds[m].RestoreProxy? ==>
                (acts1[m].status.Finished() <==> Stopped(kinds, i, j, m)))
    decreases n
  {
    if n > 0 {
      AttackStep(w, kinds, p, i, j, n - 1, Attack(kinds, i, j, n - 1));
      var (v, w1) := ExecuteSpec(w, kinds[n - 1], true);
      AttackPass(w1, acts[n - 1 := Action(kinds[n - 1], v.status)], kinds, p, i, j, n - 1);
    }
  }

  // ---------------------------------------------------------------- the undisturbed pass after it

  function Place(kinds: seq<Kind>, i: nat, j: nat, n: nat): nat
    requires n <= |kinds|
  {
    if Rank(kinds, n) >= j then j else Max(Rank(kinds, n), i + 1)
  }

  lemma LateStep(w: World, kinds: seq<Kind>, p: seq<Setting>, i: nat, j: nat, m: nat)
    requires Recorded(kinds, p) && NeighboursDiffer(p) && FirstRepeat(p, i, j) && m < |kinds| && i + 1 < j
    requires w.script == [] && AsRead(w.proxy) == p[Place(kinds, i, j, m + 1)]
    requires kinds[m].RestoreProxy? ==> !Stopped(kinds, i, j, m)
    ensures var (v, w1) := ExecuteSpec(w, kinds[m], true);
            v.Ends? && w1.script == [] && AsRead(w1.proxy) == p[Place(kinds, i, j, m)]
  {
    if kinds[m].RestoreProxy? {
      var r := Rank(kinds, m);
      LinkValues(kinds, p, m);
      assert p[r] != p[r + 1];
      if r < i {
        assert p[r] != p[i + 1] && p[i] != p[i + 1];
        assert r + 1 < i ==> p[r + 1] != p[i + 1];
      }
    } else {
      ElsewhereLeavesProxy(w, kinds[m]);
    }
  }

  /** It undoes the changes between the two, then meets a value that no earlier change left behind. */
  lemma {:induction false} LatePass(w: World, acts: seq<Action>, kinds: seq<Kind>, p: seq<Setting>, i: nat, j: nat,
                                    n: nat)
    requires Recorded(kinds, p) && NeighboursDiffer(p) && FirstRepeat(p, i, j) && i + 1 < j
    requires Of(acts, kinds) && n <= |acts| && w.script == [] && AsRead(w.proxy) == p[Place(kinds, i, j, n)]
    requires forall m: nat :: m < n && kinds[m].RestoreProxy? ==>
             (acts[m].status.Finished() <==> Stopped(kinds, i, j, m))
    ensures AsRead(UndoSpec(w, acts, All, true, true, n).0.proxy) == p[i + 1]
    decreases n
  {
    if n > 0 {
      if !Due(acts, All, n - 1) {
        LatePass(w, acts, kinds, p, i, j, n - 1);
      } else {
        LateStep(w, kinds, p, i, j, n - 1);
        var (v, w1) := ExecuteSpec(w, kinds[n - 1], true);
        LatePass(w1, acts[n - 1 := Action(kinds[n - 1], v.status)], kinds, p, i, j, n - 1);
      }
    }
  }

  // ---------------------------------------------------------------- the two together

  lemma {:induction false} SomeFirstRepeat(p: seq<Setting>, n: nat, x: nat, y: nat) returns (i: nat, j: nat)
    requires n <= x < y < |p| && p[x] == p[y]
    requires forall u, v :: 0 <= u < n && u < v < |p| ==> p[u] != p[v]
    ensures FirstRepeat(p, i, j)
    decreases x - n
  {
    if v: nat :| n < v < |p| && p[n] == p[v] {
      i, j := n, v;
    } else {
      i, j := SomeFirstRepeat(p, n + 1, x, y);
    }
  }

  lemma UnfinishedOfRank(acts: seq<Action>, kinds: seq<Kind>, r: nat) returns (m: nat)
    requires Of(acts, kinds) && r < Rank(kinds, |kinds|)
    ensures m < |acts| && kinds[m].RestoreProxy? && Rank(kinds, m) == r
    ensures !acts[m].status.Finished() ==> NeedsAndroid(acts, All) && !AllFinished(acts)
  {
    m := ActionOfRank(kinds, r, |kinds|);
    if !acts[m].status.Finished() {
      assert Due(acts, All, m) && acts[m] in acts;
    }
  }

  /** What the attack leaves behind. */
  ghost predicate Attacked(s: Session, w: World, p: seq<Setting>, kinds: seq<Kind>, i: nat, j: nat)
    requires j < |p|
  {
    && s.captured && Of(s.actions, kinds) && AsRead(w.proxy) == p[j]
    && forall m: nat :: m < |kinds| && kinds[m].RestoreProxy? ==>
         (s.actions[m].status.Finished() <==> Stopped(kinds, i, j, m))
  }

  lemma AttackSucceeds(s: Session, w: World, p: seq<Setting>, kinds: seq<Kind>, i: nat, j: nat)
    requires FreshRecord(s, w, p, kinds) && NeighboursDiffer(p) && FirstRepeat(p, i, j) && i + 1 < j
    requires w.script == [OK] + Attack(kinds, i, j, |kinds|)
    ensures var (s1, w1) := CleanupSpec(s, w); Attacked(s1, w1, p, kinds, i, j)
  {
    forall m: nat | m < |s.actions| ensures !s.actions[m].status.Finished() {
      assert s.actions[m] in s.actions;
    }
    var _ := UnfinishedOfRank(s.actions, kinds, i + 1);
    assert w.script[1..] == Attack(kinds, i, j, |kinds|);
    var w2 := w.(script := w.script[1..]);
    assert Probe(w) == (Got(()), w2);
    AttackPass(w2, s.actions, kinds, p, i, j, |kinds|);
    var (w1, acts1, alive) := UndoSpec(w2, s.actions, All, true, true, |kinds|);
    assert CleanupSpec(s, w).0.actions == acts1 && CleanupSpec(s, w).1 == w1;
  }

  lemma LatePassMissesOriginal(s: Session, w: World, p: seq<Setting>, kinds: seq<Kind>, i: nat, j: nat)
    requires Recorded(kinds, p) && NeighboursDiffer(p) && FirstRepeat(p, i, j) && i + 1 < j
    requires Attacked(s, w, p, kinds, i, j) && w.script == []
    ensures AsRead(CleanupSpec(s, w).1.proxy) == p[i + 1]
  {
    var m := UnfinishedOfRank(s.actions, kinds, i + 1);
    assert Probe(w) == (Got(()), w);
    LatePass(w, s.actions, kinds, p, i, j, |kinds|);
  }

  lemma RepeatLosesOriginal(s: Session, w: World, p: seq<Setting>, kinds: seq<Kind>, i: nat, j: nat)
    requires FreshRecord(s, w, p, kinds) && NeighboursDiffer(p) && FirstRepeat(p, i, j)
    ensures !Restored(s, w, p, [[OK] + Attack(kinds, i, j, |kinds|)])
  {
    var script := [OK] + Attack(kinds, i, j, |kinds|);
    assert p[i] != p[i + 1] && i + 1 < j;
    AttackSucceeds(s, w.(script := script), p, kinds, i, j);
    var (s1, w1) := CleanupSpec(s, w.(script := script));
    assert Cleanups(s, w, [script]) == Cleanups(s1, w1, []);
    LatePassMissesOriginal(s1, w1.(script := []), p, kinds, i, j);
    assert i > 0 ==> p[0] != p[i + 1];
  }

  /**
   * For recorded changes that each changed something: whatever passes fail in whatever way, one undisturbed pass
   * afterwards restores the original value - exactly when no value occurs twice.
   */
  lemma ConvergesExactlyWhenDistinct(s: Session, w: World, p: seq<Setting>, kinds: seq<Kind>)
    requires FreshRecord(s, w, p, kinds) && NeighboursDiffer(p)
    ensures (forall scripts :: AllQuiet(scripts) ==> Restored(s, w, p, scripts)) <==> Distinct(p)
  {
    if Distinct(p) {
      forall scripts | AllQuiet(scripts) ensures Restored(s, w, p, scripts) {
        CleanupConverges(s, w, p, kinds, scripts);
      }
    } else {
      var x: nat, y: nat :| x < y < |p| && p[x] == p[y];
      var i, j := SomeFirstRepeat(p, 0, x, y);
      var script := [OK] + Attack(kinds, i, j, |kinds|);
      AttackIsQuiet(kinds, i, j, |kinds|);
      assert AllQuiet([script]);
      RepeatLosesOriginal(s, w, p, kinds, i, j);
    }
  }
}
