/** The per-device lock as a protocol of many threads and other processes, step by step. */
module LockProtocol {
  import opened Common

  /** A lock object: one `with` block enters and leaves it once. */
  datatype Lock = Lock(id: nat, key: string, session: Option<string>)

  /** A thread's table: depth and session per device key. */
  type Table = map<string, (nat, Option<string>)>

  datatype Entry = Entry(lock: Lock, reentrant: bool)

  datatype Phase =
    | Idle
    | Trying(lock: Lock)     // the lock file is open, the OS lock not yet taken
    | Locked(lock: Lock)     // the OS lock is taken, the metadata not yet written
    | Releasing(lock: Lock)  // no longer in the table, the OS lock not yet given back

  datatype Thread = Thread(held: Table, live: seq<Entry>, phase: Phase)

  /** Who has the OS lock of a key: a lock object of one of our threads, or another process. */
  datatype Holder = Ours(thread: nat, lock: nat) | Foreign

  datatype State = State(os: map<string, Holder>, threads: map<nat, Thread>)

  // ---------------------------------------------------------------- table updates

  /** A thread that holds the key may enter again under the same session, never without one. */
  predicate MayReenter(held: Table, key: string, session: Option<string>) {
    key in held && held[key].1.Some? && session == held[key].1
  }

  function Deepen(held: Table, key: string): Table
    requires key in held
  {
    held[key := (held[key].0 + 1, held[key].1)]
  }

  function Shallow(held: Table, key: string): Table {
    var depth := if key in held then held[key].0 else 0;
    if depth <= 1 then held - {key} else held[key := (depth - 1, held[key].1)]
  }

  // ---------------------------------------------------------------- steps

  datatype Step =
    | EnterAgain(thread: nat, lock: Lock)
    | Open(thread: nat, lock: Lock)
    | TakeOsLock(thread: nat)
    | GiveUp(thread: nat)
    | Publish(thread: nat)
    | PublishFails(thread: nat)
    | Exit(thread: nat)
    | Unlock(thread: nat)
    | ForeignTakes(key: string)
    | ForeignLeaves(key: string)

  predicate IsForeign(step: Step) { step.ForeignTakes? || step.ForeignLeaves? }

  predicate MayMove(os: map<string, Holder>, th: Thread, step: Step)
    requires !IsForeign(step)
  {
    match step
    case EnterAgain(_, lock) => th.phase.Idle? && MayReenter(th.held, lock.key, lock.session)
    case Open(_, lock) => th.phase.Idle? && !MayReenter(th.held, lock.key, lock.session)
    case TakeOsLock(_) => th.phase.Trying? && th.phase.lock.key !in os
    case GiveUp(_) => th.phase.Trying?
    case Publish(_) => th.phase.Locked?
    case PublishFails(_) => th.phase.Locked?
    case Exit(_) => th.phase.Idle? && th.live != []
    case Unlock(_) => th.phase.Releasing?
  }

  predicate Enabled(s: State, step: Step) {
    if step.ForeignTakes? then step.key !in s.os
    else if step.ForeignLeaves? then step.key in s.os && s.os[step.key].Foreign?
    else step.thread in s.threads && MayMove(s.os, s.threads[step.thread], step)
  }

  /** What a step makes of its own thread; exits take the innermost live object. */
  function Move(os: map<string, Holder>, th: Thread, step: Step): Thread
    requires !IsForeign(step) && MayMove(os, th, step)
  {
    match step
    case EnterAgain(_, lock) => Thread(Deepen(th.held, lock.key), th.live + [Entry(lock, true)], Idle)
    case Open(_, lock) => th.(phase := Trying(lock))
    case TakeOsLock(_) => th.(phase := Locked(th.phase.lock))
    case GiveUp(_) => th.(phase := Idle)
    case Publish(_) =>
      var lock := th.phase.lock;
      Thread(th.held[lock.key := (1, lock.session)], th.live + [Entry(lock, false)], Idle)
    case PublishFails(_) => Thread(th.held - {th.phase.lock.key}, th.live, Releasing(th.phase.lock))
    case Exit(_) =>
      var e, rest := th.live[|th.live| - 1], th.live[..|th.live| - 1];
      if e.reentrant then Thread(Shallow(th.held, e.lock.key), rest, Idle)
      else Thread(th.held - {e.lock.key}, rest, Releasing(e.lock))
    case Unlock(_) => th.(phase := Idle)
  }

  /** What it makes of the OS locks. */
  function MoveOs(os: map<string, Holder>, t: nat, th: Thread, step: Step): map<string, Holder>
    requires !IsForeign(step) && MayMove(os, th, step)
  {
    match step
    case TakeOsLock(_) => os[th.phase.lock.key := Ours(t, th.phase.lock.id)]
    case Unlock(_) => os - {th.phase.lock.key}
    case _ => os
  }

  function Next(s: State, step: Step): State
    requires Enabled(s, step)
  {
    match step
    case ForeignTakes(key) => s.(os := s.os[key := Foreign])
    case ForeignLeaves(key) => s.(os := s.os - {key})
    case _ =>
      var th := s.threads[step.thread];
      State(MoveOs(s.os, step.thread, th, step), s.threads[step.thread := Move(s.os, th, step)])
  }

  // ---------------------------------------------------------------- the invariant

  /** Live objects of the thread for the key. */
  function Depth(live: seq<Entry>, key: string): nat {
    if live == [] then 0
    else Depth(live[..|live| - 1], key) + if live[|live| - 1].lock.key == key then 1 else 0
  }

  /** The outermost live object for the key. */
  function Base(live: seq<Entry>, key: string): Lock
    requires Depth(live, key) > 0
  {
    var before := live[..|live| - 1];
    if Depth(before, key) > 0 then Base(before, key) else live[|live| - 1].lock
  }

  /** Exactly the outermost object of a key is not re-entrant, and the others share its session, which is not null. */
  predicate WellNested(live: seq<Entry>) {
    live == [] ||
    var before, e := live[..|live| - 1], live[|live| - 1];
    && WellNested(before)
    && (e.reentrant <==> Depth(before, e.lock.key) > 0)
    && (e.reentrant ==> e.lock.session.Some? && e.lock.session == Base(before, e.lock.key).session)
  }

  predicate Owning(th: Thread) { th.phase.Locked? || th.phase.Releasing? }

  /** The table records exactly the live objects. */
  ghost predicate TableOk(th: Thread) {
    && WellNested(th.live)
    && (forall key :: key in th.held <==> Depth(th.live, key) > 0)
    && (forall key :: key in th.held ==>
          th.held[key] == (Depth(th.live, key), Base(th.live, key).session))
  }

  /** The live objects of a thread own their OS locks. */
  ghost predicate LiveOwned(os: map<string, Holder>, t: nat, live: seq<Entry>) {
    forall key :: Depth(live, key) > 0 ==> key in os && os[key] == Ours(t, Base(live, key).id)
  }

  /** What thread `t` holds or is about to publish or give back, it has the OS lock for. */
  ghost predicate OwnsOk(os: map<string, Holder>, t: nat, th: Thread) {
    && LiveOwned(os, t, th.live)
    && (Owning(th) ==>
          && Depth(th.live, th.phase.lock.key) == 0
          && th.phase.lock.key in os && os[th.phase.lock.key] == Ours(t, th.phase.lock.id))
  }

  /** Every OS lock of ours belongs to a live object or to one being published or given back. */
  ghost predicate Accounted(s: State, key: string)
    requires key in s.os
  {
    s.os[key].Ours? ==> s.os[key].thread in s.threads && Uses(s.threads[s.os[key].thread], key)
  }

  predicate Uses(th: Thread, key: string) {
    Depth(th.live, key) > 0 || (Owning(th) && th.phase.lock.key == key)
  }

  ghost predicate Inv(s: State) {
    && (forall t :: t in s.threads ==> TableOk(s.threads[t]) && OwnsOk(s.os, t, s.threads[t]))
    && (forall key :: key in s.os ==> Accounted(s, key))
  }

  predicate Init(s: State) {
    && (forall t :: t in s.threads ==> s.threads[t] == Thread(map[], [], Idle))
    && (forall key :: key in s.os ==> s.os[key].Foreign?)
  }

  lemma DepthAppend(live: seq<Entry>, e: Entry, key: string)
    ensures Depth(live + [e], key) == Depth(live, key) + if e.lock.key == key then 1 else 0
    ensures Depth(live, key) > 0 ==> Base(live + [e], key) == Base(live, key)
    ensures Depth(live, key) == 0 && e.lock.key == key ==> Base(live + [e], key) == e.lock
  {
    assert (live + [e])[..|live|] == live;
  }

  lemma PushKeepsTable(held: Table, live: seq<Entry>, e: Entry, phase: Phase)
    requires TableOk(Thread(held, live, phase))
    requires e.reentrant <==> e.lock.key in held
    requires e.reentrant ==> MayReenter(held, e.lock.key, e.lock.session)
    ensures TableOk(Thread(if e.reentrant then Deepen(held, e.lock.key)
                           else held[e.lock.key := (1, e.lock.session)], live + [e], phase))
  {
    var live1 := live + [e];
    var held1 := if e.reentrant then Deepen(held, e.lock.key) else held[e.lock.key := (1, e.lock.session)];
    assert live1[..|live|] == live && live1[|live|] == e;
    forall key
      ensures key in held1 <==> Depth(live1, key) > 0
      ensures key in held1 ==> held1[key] == (Depth(live1, key), Base(live1, key).session)
    {
      DepthAppend(live, e, key);
    }
  }

  lemma PopKeepsTable(held: Table, live: seq<Entry>, phase: Phase)
    requires TableOk(Thread(held, live, phase)) && live != []
    ensures var e := live[|live| - 1];
            var held1 := if e.reentrant then Shallow(held, e.lock.key) else held - {e.lock.key};
            TableOk(Thread(held1, live[..|live| - 1], phase))
  {
    var before, e := live[..|live| - 1], live[|live| - 1];
    assert live == before + [e];
    var held1 := if e.reentrant then Shallow(held, e.lock.key) else held - {e.lock.key};
    assert e.lock.key in held && held[e.lock.key].0 == Depth(before, e.lock.key) + 1;
    forall key
      ensures key in held1 <==> Depth(before, key) > 0
      ensures key in held1 ==> held1[key] == (Depth(before, key), Base(before, key).session)
    {
      DepthAppend(before, e, key);
    }
  }

  lemma MoveKeepsTable(os: map<string, Holder>, t: nat, th: Thread, step: Step)
    requires !IsForeign(step) && MayMove(os, th, step) && TableOk(th) && OwnsOk(os, t, th)
    ensures TableOk(Move(os, th, step))
  {
    match step {
      case EnterAgain(_, lock) => PushKeepsTable(th.held, th.live, Entry(lock, true), th.phase);
      case Publish(_) => PushKeepsTable(th.held, th.live, Entry(th.phase.lock, false), th.phase);
      case Exit(_) => PopKeepsTable(th.held, th.live, th.phase);
      case _ =>
    }
  }

  lemma OwnedAfterPush(os: map<string, Holder>, t: nat, live: seq<Entry>, e: Entry)
    requires LiveOwned(os, t, live)
    requires Depth(live, e.lock.key) > 0 || (e.lock.key in os && os[e.lock.key] == Ours(t, e.lock.id))
    ensures LiveOwned(os, t, live + [e])
  {
    forall key | Depth(live + [e], key) > 0 ensures key in os && os[key] == Ours(t, Base(live + [e], key).id) {
      DepthAppend(live, e, key);
    }
  }

  lemma OwnedAfterPop(os: map<string, Holder>, t: nat, live: seq<Entry>)
    requires LiveOwned(os, t, live) && WellNested(live) && live != []
    ensures var before, e := live[..|live| - 1], live[|live| - 1];
            && LiveOwned(os, t, before)
            && (!e.reentrant ==>
                  Depth(before, e.lock.key) == 0 && e.lock.key in os && os[e.lock.key] == Ours(t, e.lock.id))
  {
    var before, e := live[..|live| - 1], live[|live| - 1];
    assert live == before + [e];
    forall key | Depth(before, key) > 0 ensures key in os && os[key] == Ours(t, Base(before, key).id) {
      DepthAppend(before, e, key);
    }
    DepthAppend(before, e, e.lock.key);
  }

  /** After its own step a thread still has the OS lock for everything it holds, publishes or gives back. */
  lemma MoveKeepsOwned(os: map<string, Holder>, t: nat, th: Thread, step: Step)
    requires !IsForeign(step) && MayMove(os, th, step) && TableOk(th) && OwnsOk(os, t, th)
    ensures OwnsOk(MoveOs(os, t, th, step), t, Move(os, th, step))
  {
    match step {
      case EnterAgain(_, lock) => OwnedAfterPush(os, t, th.live, Entry(lock, true));
      case Publish(_) => OwnedAfterPush(os, t, th.live, Entry(th.phase.lock, false));
      case Exit(_) => OwnedAfterPop(os, t, th.live);
      case _ =>
    }
  }

  /** A change of the OS locks that takes nothing from a thread leaves it what it owns. */
  lemma OthersKeepOwned(os: map<string, Holder>, os1: map<string, Holder>, t: nat, th: Thread)
    requires OwnsOk(os, t, th)
    requires forall key :: key in os && os[key].Ours? && os[key].thread == t ==> key in os1 && os1[key] == os[key]
    ensures OwnsOk(os1, t, th)
  {
  }

  /** A thread goes on using every OS lock it used, except the one it gives back. */
  lemma MoveKeepsUse(os: map<string, Holder>, t: nat, th: Thread, step: Step, key: string)
    requires !IsForeign(step) && MayMove(os, th, step) && WellNested(th.live) && Uses(th, key)
    ensures Uses(Move(os, th, step), key) || (step.Unlock? && key == th.phase.lock.key)
  {
    match step {
      case EnterAgain(_, lock) => DepthAppend(th.live, Entry(lock, true), key);
      case Publish(_) => DepthAppend(th.live, Entry(th.phase.lock, false), key);
      case Exit(_) =>
        var before, e := th.live[..|th.live| - 1], th.live[|th.live| - 1];
        assert th.live == before + [e];
        DepthAppend(before, e, key);
      case _ =>
    }
  }

  lemma StepAccounts(s: State, step: Step, key: string)
    requires Inv(s) && Enabled(s, step) && key in Next(s, step).os
    ensures Accounted(Next(s, step), key)
  {
    if key in s.os {
      assert Accounted(s, key);
    }
    if !IsForeign(step) {
      OwnStepAccounts(s, step, key);
    }
  }

  lemma OwnStepAccounts(s: State, step: Step, key: string)
    requires Inv(s) && Enabled(s, step) && !IsForeign(step) && key in Next(s, step).os
    requires key in s.os ==> Accounted(s, key)
    ensures Accounted(Next(s, step), key)
  {
    var th := s.threads[step.thread];
    assert TableOk(th) && OwnsOk(s.os, step.thread, th);
    if key in s.os && s.os[key].Ours? && s.os[key].thread == step.thread {
      MoveKeepsUse(s.os, step.thread, th, step, key);
    }
  }

  lemma NextKeepsOthers(s: State, step: Step, t: nat)
    requires Inv(s) && Enabled(s, step) && t in s.threads && (IsForeign(step) || step.thread != t)
    ensures OwnsOk(Next(s, step).os, t, s.threads[t])
  {
    if !IsForeign(step) {
      assert OwnsOk(s.os, step.thread, s.threads[step.thread]);
    }
    OthersKeepOwned(s.os, Next(s, step).os, t, s.threads[t]);
  }

  lemma StepKeepsInv(s: State, step: Step)
    requires Inv(s) && Enabled(s, step)
    ensures Inv(Next(s, step))
  {
    var s1 := Next(s, step);
    forall t | t in s1.threads ensures TableOk(s1.threads[t]) && OwnsOk(s1.os, t, s1.threads[t]) {
      if !IsForeign(step) && step.thread == t {
        var th := s.threads[t];
        MoveKeepsTable(s.os, t, th, step);
        MoveKeepsOwned(s.os, t, th, step);
      } else {
        NextKeepsOthers(s, step, t);
      }
    }
    forall key | key in s1.os ensures Accounted(s1, key) {
      StepAccounts(s, step, key);
    }
  }

  // ---------------------------------------------------------------- whole runs

  ghost predicate Run(states: seq<State>, steps: seq<Step>) {
    && |states| == |steps| + 1 && Init(states[0])
    && forall i :: 0 <= i < |steps| ==> Enabled(states[i], steps[i]) && states[i + 1] == Next(states[i], steps[i])
  }

  lemma {:induction false} RunKeepsInv(states: seq<State>, steps: seq<Step>, n: nat)
    requires Run(states, steps) && n < |states|
    ensures Inv(states[n])
  {
    if n > 0 {
      RunKeepsInv(states, steps, n - 1);
      StepKeepsInv(states[n - 1], steps[n - 1]);
    }
  }

  /** At every moment of every run at most one thread holds a key, and no other process has its OS lock then. */
  lemma MutualExclusion(states: seq<State>, steps: seq<Step>, n: nat, t: nat, u: nat, key: string)
    requires Run(states, steps) && n < |states|
    requires t in states[n].threads && key in states[n].threads[t].held
    requires u in states[n].threads && key in states[n].threads[u].held
    ensures t == u && key in states[n].os && states[n].os[key].Ours? && states[n].os[key].thread == t
  {
    RunKeepsInv(states, steps, n);
  }

  /** The recorded depth is the number of live lock objects, all of one non-null session when there are several. */
  lemma {:induction false} DepthIsLiveObjects(states: seq<State>, steps: seq<Step>, n: nat, t: nat, key: string)
    requires Run(states, steps) && n < |states| && t in states[n].threads && key in states[n].threads[t].held
    ensures var th := states[n].threads[t];
            && th.held[key].0 == Depth(th.live, key) >= 1
            && (forall i :: 0 <= i < |th.live| && th.live[i].lock.key == key ==>
                th.live[i].lock.session == th.held[key].1)
            && (th.held[key].0 > 1 ==> th.held[key].1.Some?)
  {
    RunKeepsInv(states, steps, n);
    NestedShareSession(states[n].threads[t].live, key);
  }

  lemma {:induction false} NestedShareSession(live: seq<Entry>, key: string)
    requires WellNested(live) && Depth(live, key) > 0
    ensures forall i :: 0 <= i < |live| && live[i].lock.key == key ==> live[i].lock.session == Base(live, key).session
    ensures Depth(live, key) > 1 ==> Base(live, key).session.Some?
  {
    var before, e := live[..|live| - 1], live[|live| - 1];
    if Depth(before, key) > 0 {
      NestedShareSession(before, key);
    } else {
      NoneBefore(before, key);
    }
    forall i | 0 <= i < |live| && live[i].lock.key == key ensures live[i].lock.session == Base(live, key).session {
      if i < |before| {
        assert before[i] == live[i];
      }
    }
  }

  lemma {:induction false} NoneBefore(live: seq<Entry>, key: string)
    requires Depth(live, key) == 0
    ensures forall i :: 0 <= i < |live| ==> live[i].lock.key != key
  {
    if live != [] {
      NoneBefore(live[..|live| - 1], key);
    }
  }

  /** Once every thread has left its blocks, none of our objects keeps an OS lock. */
  lemma NothingLeaks(states: seq<State>, steps: seq<Step>, n: nat)
    requires Run(states, steps) && n < |states|
    requires forall t :: t in states[n].threads ==> states[n].threads[t].live == [] && states[n].threads[t].phase.Idle?
    ensures forall key :: key in states[n].os ==> states[n].os[key].Foreign?
  {
    RunKeepsInv(states, steps, n);
    forall key | key in states[n].os ensures states[n].os[key].Foreign? {
      assert Accounted(states[n], key);
    }
  }
}
