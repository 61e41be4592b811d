/** What cleanup guarantees over any number of passes. */
module CleanupProofs {
  import opened Common
  import opened CleanupWorld
  import opened Cleanup

  datatype Command = DoCleanup | DoRollback(chosen: Selection)

  function Do(s: Session, w: World, c: Command): (Session, World) {
    if c.DoCleanup? then CleanupSpec(s, w) else RollbackSpec(s, c.chosen, w)
  }

  function DoAll(s: Session, w: World, commands: seq<Command>): (Session, World)
    decreases |commands|
  {
    if commands == [] then (s, w)
    else var (s1, w1) := Do(s, w, commands[0]); DoAll(s1, w1, commands[1..])
  }

  // ---------------------------------------------------------------- only owned resources are touched

  predicate OwnsProxyChange(a: Action, seen: Setting, written: Setting) {
    && a.kind.RestoreProxy? && a.kind.owned && !a.status.Finished()
    && a.kind.applied.TextEntry? && seen == Some(a.kind.applied.text) && written == PreviousSetting(a.kind.previous)
  }

  predicate OwnsMapping(a: Action, listed: seq<Mapping>, remote: string) {
    && a.kind.RemoveReverseMapping? && a.kind.owned && !a.status.Finished()
    && a.kind.remote == Some(remote) && a.kind.local.Some?
    && FirstFor(listed, remote).Some? && FirstFor(listed, remote).value.local == a.kind.local.value
  }

  /** The change at `k` undoes an owned unfinished action whose effect was what the read just before showed. */
  ghost predicate Justified(trace: seq<Event>, k: nat, acts: seq<Action>)
    requires k < |trace|
  {
    match trace[k]
    case WroteProxy(v) =>
      k > 0 && trace[k - 1].SawProxy? && exists a :: a in acts && OwnsProxyChange(a, trace[k - 1].value, v)
    case RemovedReverse(r) =>
      k > 0 && trace[k - 1].SawReverses? && exists a :: a in acts && OwnsMapping(a, trace[k - 1].mappings, r)
    case _ => true
  }

  /** Everything done since `w` is justified by `acts`. */
  ghost predicate Lawful(w: World, w1: World, acts: seq<Action>) {
    && |w.trace| <= |w1.trace| && w1.trace[..|w.trace|] == w.trace
    && forall k :: |w.trace| <= k < |w1.trace| ==> Justified(w1.trace, k, acts)
  }

  /** `later` is `acts` with some unfinished actions given other statuses. */
  ghost predicate Progress(acts: seq<Action>, later: seq<Action>) {
    && |later| == |acts|
    && forall i :: 0 <= i < |acts| ==>
         later[i].kind == acts[i].kind && (acts[i].status.Finished() ==> later[i] == acts[i])
  }

  lemma ProgressKeepsJustified(trace: seq<Event>, k: nat, acts: seq<Action>, later: seq<Action>)
    requires k < |trace| && Progress(acts, later) && Justified(trace, k, later)
    ensures Justified(trace, k, acts)
  {
    match trace[k] {
      case WroteProxy(v) =>
        var a :| a in later && OwnsProxyChange(a, trace[k - 1].value, v);
        var i :| 0 <= i < |later| && later[i] == a;
        assert acts[i] in acts && OwnsProxyChange(acts[i], trace[k - 1].value, v);
      case RemovedReverse(r) =>
        var a :| a in later && OwnsMapping(a, trace[k - 1].mappings, r);
        var i :| 0 <= i < |later| && later[i] == a;
        assert acts[i] in acts && OwnsMapping(acts[i], trace[k - 1].mappings, r);
      case _ =>
    }
  }

  lemma LawfulJoin(w: World, w1: World, w2: World, acts: seq<Action>, later: seq<Action>)
    requires Lawful(w, w1, acts) && Progress(acts, later) && Lawful(w1, w2, later)
    ensures Lawful(w, w2, acts)
  {
    assert w2.trace[..|w.trace|] == w2.trace[..|w1.trace|][..|w.trace|];
    forall k | |w.trace| <= k < |w2.trace| ensures Justified(w2.trace, k, acts) {
      if k < |w1.trace| {
        assert Justified(w1.trace, k, acts);
        assert w2.trace[k] == w2.trace[..|w1.trace|][k];
        assert k > 0 ==> w2.trace[k - 1] == w2.trace[..|w1.trace|][k - 1];
      } else {
        ProgressKeepsJustified(w2.trace, k, acts, later);
      }
    }
  }

  lemma RestoreIsLawful(w: World, acts: seq<Action>, a: Action, captured: bool)
    requires a in acts && a.kind.RestoreProxy? && !a.status.Finished()
    ensures Lawful(w, RestoreSpec(w, a.kind, captured).1, acts)
  {
    var (read, w1) := GetProxy(w);
    if read.Got? && a.kind.applied.TextEntry? && read.value == Some(a.kind.applied.text) {
      assert a.kind.owned ==> OwnsProxyChange(a, read.value, PreviousSetting(a.kind.previous));
      assert w1.trace[|w.trace|] == SawProxy(read.value);
    }
  }

  lemma RemoveIsLawful(w: World, acts: seq<Action>, a: Action)
    requires a in acts && a.kind.RemoveReverseMapping? && !a.status.Finished()
    ensures Lawful(w, RemoveSpec(w, a.kind).1, acts)
  {
    var (listed, w1) := ListReverse(w);
    if listed.Got? && a.kind.remote.Some? && a.kind.local.Some? {
      var mapping := FirstFor(listed.value, a.kind.remote.value);
      if mapping.Some? && mapping.value.local == a.kind.local.value {
        assert a.kind.owned ==> OwnsMapping(a, listed.value, a.kind.remote.value);
      }
    }
  }

  /** What a read of the proxy that shows `value` and then a write of `written` leave in the trace. */
  function ProxyChange(value: Setting, written: Setting): seq<Event> { [SawProxy(value), WroteProxy(written)] }

  /**
   * What each outcome of a proxy restoration tells about the device: completed means the applied value was read and the
   * previous one is in force; skipped that the previous value was read already; a conflict that it was neither. Nothing
   * else is ever written, and a session without a captured original state or a valid owned record touches nothing.
   * Undisturbed, which of the three it is follows from the value the device shows.
   */
  lemma RestoreMeans(w: World, k: Kind, captured: bool)
    requires k.RestoreProxy?
    ensures var (v, w1) := RestoreSpec(w, k, captured);
            var applied := if k.applied.TextEntry? then Some(k.applied.text) else None;
            var previous := PreviousSetting(k.previous);
            && (v == Ends(Completed) ==> w1.trace == w.trace + ProxyChange(applied, previous) && w1.proxy == previous)
            && (v == Ends(Skipped) ==> w1.trace == w.trace + [SawProxy(previous)])
            && (v == Ends(Conflict) ==>
                  exists value :: value != previous && value != applied && w1.trace == w.trace + [SawProxy(value)])
            && (v == Ends(Failed) || v.Dies? ==>
                  w1.trace in {w.trace, w.trace + [SawProxy(applied)], w.trace + ProxyChange(applied, previous)})
            && (w1.trace != w.trace ==>
                  captured && k.owned && !k.previous.OtherEntry? && applied.Some? && applied != Some(""))
            && v != Ends(Pending)
            && (captured && k.owned && !k.previous.OtherEntry? && applied.Some? && applied != Some("") &&
                w.script == [] ==>
                  v == Ends(if AsRead(w.proxy) == previous then Skipped
                            else if AsRead(w.proxy) == applied then Completed else Conflict))
  {
    if captured && k.owned && !k.previous.OtherEntry? && k.applied.TextEntry? && k.applied.text != "" {
      var (read, w1) := GetProxy(w);
      if read.Got? {
        assert w1.trace == w.trace + [SawProxy(read.value)];
        assert w1.trace + [WroteProxy(PreviousSetting(k.previous))]
            == w.trace + ProxyChange(read.value, PreviousSetting(k.previous));
      }
    }
  }

  lemma {:induction false} WithoutForgets(mappings: seq<Mapping>, remote: string)
    ensures FirstFor(Without(mappings, remote), remote) == None
    ensures forall other :: other != remote ==> FirstFor(Without(mappings, remote), other) == FirstFor(mappings, other)
  {
    if mappings != [] {
      WithoutForgets(mappings[1..], remote);
      assert mappings == [mappings[0]] + mappings[1..];
      if mappings[0].remote != remote {
        assert Without(mappings, remote)[1..] == Without(mappings[1..], remote);
      } else {
        assert Without(mappings, remote) == Without(mappings[1..], remote);
      }
    }
  }

  /**
   * What each outcome of a mapping removal tells: completed means the list showed the owned pair and the remote end is
   * free now, every other end as it was when the removal began; skipped that the end was free; a conflict that it leads
   * elsewhere. Nothing else is ever removed. Undisturbed, which of the three it is follows from the list.
   */
  lemma RemoveMeans(w: World, k: Kind)
    requires k.RemoveReverseMapping?
    ensures var (v, w1) := RemoveSpec(w, k);
            && (w1.trace != w.trace ==> k.owned && k.remote.Some? && k.local.Some?)
            && (v == Ends(Completed) ==>
                  && FirstFor(w1.reverses, k.remote.value) == None
                  && (forall other :: other != k.remote.value ==>
                        FirstFor(w1.reverses, other) == FirstFor(Entered(Entered(w)).reverses, other))
                  && exists listed ::
                       && FirstFor(listed, k.remote.value) == Some(Mapping(k.remote.value, k.local.value))
                       && w1.trace == w.trace + [SawReverses(listed), RemovedReverse(k.remote.value)])
            && (v == Ends(Skipped) ==>
                  exists listed ::
                    FirstFor(listed, k.remote.value) == None && w1.trace == w.trace + [SawReverses(listed)])
            && (v == Ends(Conflict) ==>
                  exists listed ::
                    && FirstFor(listed, k.remote.value).Some?
                    && FirstFor(listed, k.remote.value).value.local != k.local.value
                    && w1.trace == w.trace + [SawReverses(listed)])
            && (k.owned && k.remote.Some? && k.local.Some? && w.script == [] ==>
                  match FirstFor(w.reverses, k.remote.value)
                  case None => v == Ends(Skipped)
                  case Some(mapping) => v == Ends(if mapping.local == k.local.value then Completed else Conflict))
  {
    if k.owned && k.remote.Some? && k.local.Some? {
      var (listed, w1) := ListReverse(w);
      if listed.Got? {
        assert w1.trace == w.trace + [SawReverses(listed.value)];
        assert w1.trace + [RemovedReverse(k.remote.value)]
            == w.trace + [SawReverses(listed.value), RemovedReverse(k.remote.value)];
        FirstForIsFor(listed.value, k.remote.value);
        WithoutForgets(Entered(w1).reverses, k.remote.value);
      }
    }
  }

  lemma {:induction false} FirstForIsFor(mappings: seq<Mapping>, remote: string)
    ensures var m := FirstFor(mappings, remote); m.Some? ==> m.value.remote == remote && m.value in mappings
  {
    if mappings != [] && mappings[0].remote != remote {
      FirstForIsFor(mappings[1..], remote);
    }
  }

  lemma ExecuteIsLawful(w: World, acts: seq<Action>, a: Action, captured: bool)
    requires a in acts && !a.status.Finished()
    ensures Lawful(w, ExecuteSpec(w, a.kind, captured).1, acts)
  {
    match a.kind {
      case RestoreProxy(_, _, _) => RestoreIsLawful(w, acts, a, captured);
      case RemoveReverseMapping(_, _, _) => RemoveIsLawful(w, acts, a);
      case Elsewhere(_) =>
    }
  }

  lemma {:induction false} UndoIsLawful(w: World, acts: seq<Action>, chosen: Selection, captured: bool, ready: bool,
                                        n: nat)
    requires n <= |acts|
    ensures var (w1, acts1, _) := UndoSpec(w, acts, chosen, captured, ready, n);
            && Lawful(w, w1, acts) && Progress(acts, acts1)
            && forall i: nat :: i < |acts| && !chosen.Has(i) ==> acts1[i] == acts[i]
    decreases n
  {
    if n > 0 {
      if !Due(acts, chosen, n - 1) {
        UndoIsLawful(w, acts, chosen, captured, ready, n - 1);
      } else {
        var k := acts[n - 1].kind;
        var (v, w1) := if OnAndroid(k) && !ready then (Ends(Failed), w) else ExecuteSpec(w, k, captured);
        ExecuteIsLawful(w, acts, acts[n - 1], captured);
        if v.Ends? {
          var acts1 := acts[n - 1 := Action(k, v.status)];
          UndoIsLawful(w1, acts1, chosen, captured, ready, n - 1);
          LawfulJoin(w, w1, UndoSpec(w1, acts1, chosen, captured, ready, n - 1).0, acts, acts1);
        }
      }
    }
  }

  lemma PassIsLawful(w: World, acts: seq<Action>, chosen: Selection, captured: bool)
    ensures var (w1, acts1, _) := PassSpec(w, acts, chosen, captured);
            && Lawful(w, w1, acts) && Progress(acts, acts1)
            && forall i: nat :: i < |acts| && !chosen.Has(i) ==> acts1[i] == acts[i]
  {
    if NeedsAndroid(acts, chosen) {
      var (r, w1) := Probe(w);
      UndoIsLawful(w1, acts, chosen, captured, r.Got?, |acts|);
    } else {
      UndoIsLawful(w, acts, chosen, captured, true, |acts|);
    }
  }

  /**
   * A rollback lawfully undoes chosen actions only, whatever fails; it makes the session active again only if no action
   * at all is left, and unless the process dies it says exactly whether one is.
   */
  lemma RollbackMeans(s: Session, chosen: Selection, w: World)
    ensures var (s1, w1) := RollbackSpec(s, chosen, w);
            && Lawful(w, w1, s.actions) && Progress(s.actions, s1.actions)
            && (forall i: nat :: i < |s.actions| && !chosen.Has(i) ==> s1.actions[i] == s.actions[i])
            && (s1.status == s.status || s1.status == if AllFinished(s1.actions) then Active else CleanupRequired)
            && (w.script == [] ==> s1.status == if AllFinished(s1.actions) then Active else CleanupRequired)
  {
    PassIsLawful(w, s.actions, chosen, s.captured);
    if w.script == [] {
      assert Probe(w) == (Got(()), w);
      UndisturbedSurvives(w, s.actions, chosen, s.captured, true, |s.actions|);
    }
  }

  /** The process dies only at a call that kills it. */
  lemma {:induction false} UndisturbedSurvives(w: World, acts: seq<Action>, chosen: Selection, captured: bool,
                                               ready: bool, n: nat)
    requires n <= |acts| && w.script == []
    ensures UndoSpec(w, acts, chosen, captured, ready, n).2
    decreases n
  {
    if n > 0 {
      if !Due(acts, chosen, n - 1) {
        UndisturbedSurvives(w, acts, chosen, captured, ready, n - 1);
      } else {
        var k := acts[n - 1].kind;
        var (v, w1) := if OnAndroid(k) && !ready then (Ends(Failed), w) else ExecuteSpec(w, k, captured);
        UndisturbedSurvives(w1, acts[n - 1 := Action(k, v.status)], chosen, captured, ready, n - 1);
      }
    }
  }

  /**
   * However many cleanups and rollbacks run, whatever other actors change in between and whichever calls fail, every
   * change made to the device undoes an owned action that was unfinished at the start, right after a read that showed
   * its effect; finished actions keep their status for good.
   */
  lemma {:induction false} TouchesOnlyWhatItOwns(s: Session, w: World, commands: seq<Command>)
    ensures var (s1, w1) := DoAll(s, w, commands);
            Lawful(w, w1, s.actions) && Progress(s.actions, s1.actions)
    decreases |commands|
  {
    if commands != [] {
      var (s1, w1) := Do(s, w, commands[0]);
      PassIsLawful(w, s.actions, if commands[0].DoCleanup? then All else commands[0].chosen, s.captured);
      TouchesOnlyWhatItOwns(s1, w1, commands[1..]);
      LawfulJoin(w, w1, DoAll(s1, w1, commands[1..]).1, s.actions, s1.actions);
    }
  }
}
