/** The lock object itself: entering and leaving against a thread's table and the operating system's locks. */
module DeviceLocks {
  import opened Common
  import opened LockProtocol

  /** Both a lock file that cannot be opened and an OS lock not to be had in time are reported as a busy device. */
  datatype EnterResult = Entered | Unopened | Busy | MetadataFailed

  // ---------------------------------------------------------------- runs of one thread among others

  predicate Mine(os: map<string, Holder>, t: nat, key: string) { key in os && os[key].Ours? && os[key].thread == t }

  /** Between steps others may take free OS locks and give back their own; those of thread `t` stay. */
  ghost predicate Others(os: map<string, Holder>, os1: map<string, Holder>, t: nat) {
    forall key :: Mine(os, t, key) || Mine(os1, t, key) ==> key in os && key in os1 && os[key] == os1[key]
  }

  predicate May(os: map<string, Holder>, t: nat, th: Thread, step: Step) {
    !IsForeign(step) && step.thread == t && MayMove(os, th, step)
  }

  /** Thread `t` gets from `th` to `th1` by these protocol steps, each of them enabled, while others act in between. */
  ghost predicate Path(os: map<string, Holder>, t: nat, th: Thread, steps: seq<Step>, os1: map<string, Holder>,
                       th1: Thread)
    decreases |steps|
  {
    if steps == [] then Others(os, os1, t) && th1 == th
    else
      exists between ::
        && Others(os, between, t) && May(between, t, th, steps[0])
        && Path(MoveOs(between, t, th, steps[0]), t, Move(between, th, steps[0]), steps[1..], os1, th1)
  }

  lemma PathStep(os: map<string, Holder>, between: map<string, Holder>, t: nat, th: Thread, step: Step, rest: seq<Step>,
                 os1: map<string, Holder>, th1: Thread)
    requires Others(os, between, t) && May(between, t, th, step)
    requires Path(MoveOs(between, t, th, step), t, Move(between, th, step), rest, os1, th1)
    ensures Path(os, t, th, [step] + rest, os1, th1)
  {
    assert ([step] + rest)[0] == step && ([step] + rest)[1..] == rest;
  }

  lemma AgainPath(os: map<string, Holder>, t: nat, held: Table, live: seq<Entry>, lock: Lock)
    requires MayReenter(held, lock.key, lock.session)
    ensures Path(os, t, Thread(held, live, Idle), [EnterAgain(t, lock)],
                 os, Thread(Deepen(held, lock.key), live + [Entry(lock, true)], Idle))
  {
    PathStep(os, os, t, Thread(held, live, Idle), EnterAgain(t, lock), [],
             os, Thread(Deepen(held, lock.key), live + [Entry(lock, true)], Idle));
    assert [EnterAgain(t, lock)] + [] == [EnterAgain(t, lock)];
  }

  lemma BusyPath(os: map<string, Holder>, os1: map<string, Holder>, t: nat, held: Table, live: seq<Entry>, lock: Lock)
    requires !MayReenter(held, lock.key, lock.session) && Others(os, os1, t)
    ensures Path(os, t, Thread(held, live, Idle), [Open(t, lock)] + [GiveUp(t)], os1, Thread(held, live, Idle))
  {
    var idle, trying := Thread(held, live, Idle), Thread(held, live, Trying(lock));
    PathStep(os1, os1, t, trying, GiveUp(t), [], os1, idle);
    assert [GiveUp(t)] + [] == [GiveUp(t)];
    PathStep(os, os1, t, idle, Open(t, lock), [GiveUp(t)], os1, idle);
  }

  /** However a thread goes on once it has taken the OS lock. */
  lemma TakePath(os: map<string, Holder>, before: map<string, Holder>, t: nat, held: Table, live: seq<Entry>,
                 lock: Lock, rest: seq<Step>, os1: map<string, Holder>, th1: Thread)
    requires !MayReenter(held, lock.key, lock.session) && Others(os, before, t) && lock.key !in before
    requires Path(before[lock.key := Ours(t, lock.id)], t, Thread(held, live, Locked(lock)), rest, os1, th1)
    ensures Path(os, t, Thread(held, live, Idle), [Open(t, lock)] + ([TakeOsLock(t)] + rest), os1, th1)
  {
    PathStep(before, before, t, Thread(held, live, Trying(lock)), TakeOsLock(t), rest, os1, th1);
    PathStep(os, before, t, Thread(held, live, Idle), Open(t, lock), [TakeOsLock(t)] + rest, os1, th1);
  }

  lemma PublishPath(os: map<string, Holder>, t: nat, held: Table, live: seq<Entry>, lock: Lock)
    ensures Path(os, t, Thread(held, live, Locked(lock)), [Publish(t)],
                 os, Thread(held[lock.key := (1, lock.session)], live + [Entry(lock, false)], Idle))
  {
    PathStep(os, os, t, Thread(held, live, Locked(lock)), Publish(t), [],
             os, Thread(held[lock.key := (1, lock.session)], live + [Entry(lock, false)], Idle));
    assert [Publish(t)] + [] == [Publish(t)];
  }

  lemma UnlockPath(os: map<string, Holder>, t: nat, held: Table, live: seq<Entry>, lock: Lock)
    ensures Path(os, t, Thread(held, live, Releasing(lock)), [Unlock(t)], os - {lock.key}, Thread(held, live, Idle))
  {
    PathStep(os, os, t, Thread(held, live, Releasing(lock)), Unlock(t), [], os - {lock.key}, Thread(held, live, Idle));
    assert [Unlock(t)] + [] == [Unlock(t)];
  }

  lemma FailPath(os: map<string, Holder>, t: nat, held: Table, live: seq<Entry>, lock: Lock)
    ensures Path(os, t, Thread(held, live, Locked(lock)), [PublishFails(t)] + [Unlock(t)],
                 os - {lock.key}, Thread(held - {lock.key}, live, Idle))
  {
    UnlockPath(os, t, held - {lock.key}, live, lock);
    PathStep(os, os, t, Thread(held, live, Locked(lock)), PublishFails(t), [Unlock(t)],
             os - {lock.key}, Thread(held - {lock.key}, live, Idle));
  }

  lemma LeavePath(os: map<string, Holder>, t: nat, held: Table, live: seq<Entry>, lock: Lock, again: bool)
    ensures var th := Thread(held, live + [Entry(lock, again)], Idle);
            if again then Path(os, t, th, [Step.Exit(t)], os, Thread(Shallow(held, lock.key), live, Idle))
            else Path(os, t, th, [Step.Exit(t)] + [Unlock(t)], os - {lock.key}, Thread(held - {lock.key}, live, Idle))
  {
    var th := Thread(held, live + [Entry(lock, again)], Idle);
    assert (live + [Entry(lock, again)])[..|live|] == live;
    if again {
      PathStep(os, os, t, th, Step.Exit(t), [], os, Thread(Shallow(held, lock.key), live, Idle));
      assert [Step.Exit(t)] + [] == [Step.Exit(t)];
    } else {
      UnlockPath(os, t, held - {lock.key}, live, lock);
      PathStep(os, os, t, th, Step.Exit(t), [Unlock(t)], os - {lock.key}, Thread(held - {lock.key}, live, Idle));
    }
  }

  // ---------------------------------------------------------------- the objects

  /** The table each thread keeps for itself. */
  class ThreadState {
    const thread: nat
    var held: Table

    constructor (thread: nat)
      ensures this.thread == thread && held == map[]
    {
      this.thread, held := thread, map[];
    }
  }

  /** The OS locks of the lock files, changed by other threads and processes whenever this thread waits. */
  class OsLocks {
    var taken: map<string, Holder>
    var clock: nat

    constructor ()
      ensures taken == map[]
    {
      taken, clock := map[], 0;
    }

    ghost predicate Has(thread: nat, key: string)
      reads this
    {
      key in taken && taken[key].Ours? && taken[key].thread == thread
    }

    method TryLock(key: string, thread: nat, lock: nat) returns (ok: bool)
      modifies `taken
      ensures ok <==> key !in old(taken)
      ensures taken == if ok then old(taken)[key := Ours(thread, lock)] else old(taken)
    {
      ok := key !in taken;
      if ok {
        taken := taken[key := Ours(thread, lock)];
      }
    }

    method Release(key: string)
      modifies `taken
      ensures taken == old(taken) - {key}
      ensures forall t, k :: k != key ==> (Has(t, k) <==> old(Has(t, k)))
    {
      taken := taken - {key};
    }

    /** Waits; meanwhile others may take free locks and give back their own. */
    method Sleep(thread: nat, ms: nat)
      modifies this
      ensures clock >= old(clock) + ms
      ensures forall key :: old(Has(thread, key)) <==> Has(thread, key)
      ensures forall key :: Has(thread, key) ==> key in old(taken) && taken[key] == old(taken)[key]
      ensures Others(old(taken), taken, thread)
    {
      var others: map<string, Holder> := *;
      taken := map key | key in taken.Keys + others.Keys &&
                         (if key in taken && taken[key].Ours? && taken[key].thread == thread then true
                          else key in others && !(others[key].Ours? && others[key].thread == thread))
               :: if key in taken && taken[key].Ours? && taken[key].thread == thread then taken[key] else others[key];
      var passed: int :| passed >= 0;
      clock := clock + ms + passed;
    }
  }

  class DeviceLock {
    const key: string
    const session: Option<string>
    const id: nat
    const timeoutMs: nat
    var handleOpen: bool
    var acquired: bool
    var reentrant: bool

    constructor (key: string, session: Option<string>, id: nat, timeoutMs: nat)
      requires timeoutMs <= 30000
      ensures this.key == key && this.session == session && this.id == id && this.timeoutMs == timeoutMs && Unused()
    {
      this.key, this.session, this.id, this.timeoutMs := key, session, id, timeoutMs;
      handleOpen, acquired, reentrant := false, false, false;
    }

    predicate Unused()
      reads this
    {
      !handleOpen && !acquired && !reentrant
    }

    function Me(): Lock { Lock(id, key, session) }

    /** The protocol steps of entering, by how it ended. */
    ghost function StepsIn(t: nat, again: bool, r: EnterResult): seq<Step> {
      if again then [EnterAgain(t, Me())]
      else
        match r
        case Unopened => [Open(t, Me())] + [GiveUp(t)]
        case Busy => [Open(t, Me())] + [GiveUp(t)]
        case Entered => [Open(t, Me())] + ([TakeOsLock(t)] + [Publish(t)])
        case MetadataFailed => [Open(t, Me())] + ([TakeOsLock(t)] + ([PublishFails(t)] + [Unlock(t)]))
    }

    /** `__enter__`, told whether the lock file can be opened and the metadata written. */
    method Enter(ts: ThreadState, os: OsLocks, canOpen: bool, canWrite: bool) returns (r: EnterResult)
      requires Unused()
      modifies this, ts`held, os
      ensures old(MayReenter(ts.held, key, session)) ==>
                && r.Entered? && acquired && reentrant && !handleOpen
                && ts.held == Deepen(old(ts.held), key) && os.taken == old(os.taken)
      ensures !old(MayReenter(ts.held, key, session)) && r.Entered? ==>
                && acquired && !reentrant && handleOpen
                && ts.held == old(ts.held)[key := (1, session)]
                && key in os.taken && os.taken[key] == Ours(ts.thread, id)
      ensures r.Unopened? || r.Busy? ==> Unused() && ts.held == old(ts.held)
      ensures r.MetadataFailed? ==> Unused() && ts.held == old(ts.held) - {key} && key !in os.taken
      ensures r.Unopened? <==> !old(MayReenter(ts.held, key, session)) && !canOpen
      ensures r.Busy? ==> key in os.taken && os.clock >= old(os.clock) + timeoutMs
      ensures r.MetadataFailed? ==> !canWrite
      ensures !old(MayReenter(ts.held, key, session)) && r.Entered? ==> canWrite
      ensures !old(MayReenter(ts.held, key, session)) && canOpen && key !in old(os.taken) ==>
                && !r.Busy? && os.clock == old(os.clock)
                && os.taken == if r.Entered? then old(os.taken)[key := Ours(ts.thread, id)] else old(os.taken)
      ensures old(os.Has(ts.thread, key)) && !old(MayReenter(ts.held, key, session)) && canOpen ==> r.Busy?
      ensures forall k :: k != key ==> (os.Has(ts.thread, k) <==> old(os.Has(ts.thread, k)))
      ensures forall live ::
                Path(old(os.taken), ts.thread, Thread(old(ts.held), live, Idle),
                     StepsIn(ts.thread, old(MayReenter(ts.held, key, session)), r),
                     os.taken, Thread(ts.held, if r.Entered? then live + [Entry(Me(), reentrant)] else live, Idle))
    {
      if MayReenter(ts.held, key, session) {
        forall live ensures Path(os.taken, ts.thread, Thread(ts.held, live, Idle), [EnterAgain(ts.thread, Me())],
                                 os.taken, Thread(Deepen(ts.held, key), live + [Entry(Me(), true)], Idle)) {
          AgainPath(os.taken, ts.thread, ts.held, live, Me());
        }
        ts.held := Deepen(ts.held, key);
        reentrant, acquired := true, true;
        return Entered;
      }
      r := EnterAnew(ts, os, canOpen, canWrite);
    }

    method EnterAnew(ts: ThreadState, os: OsLocks, canOpen: bool, canWrite: bool) returns (r: EnterResult)
      requires Unused() && !MayReenter(ts.held, key, session)
      modifies this, ts`held, os
      ensures r.Entered? ==>
                && acquired && !reentrant && handleOpen
                && ts.held == old(ts.held)[key := (1, session)]
                && key in os.taken && os.taken[key] == Ours(ts.thread, id)
      ensures r.Unopened? || r.Busy? ==> Unused() && ts.held == old(ts.held)
      ensures r.MetadataFailed? ==> Unused() && ts.held == old(ts.held) - {key} && key !in os.taken && !canWrite
      ensures r.Unopened? <==> !canOpen
      ensures r.Busy? ==> key in os.taken && os.clock >= old(os.clock) + timeoutMs
      ensures r.Entered? ==> canWrite
      ensures canOpen && key !in old(os.taken) ==>
                && !r.Busy? && os.clock == old(os.clock)
                && os.taken == if r.Entered? then old(os.taken)[key := Ours(ts.thread, id)] else old(os.taken)
      ensures old(os.Has(ts.thread, key)) && canOpen ==> r.Busy?
      ensures forall k :: k != key ==> (os.Has(ts.thread, k) <==> old(os.Has(ts.thread, k)))
      ensures forall live ::
                Path(old(os.taken), ts.thread, Thread(old(ts.held), live, Idle), StepsIn(ts.thread, false, r),
                     os.taken, Thread(ts.held, if r.Entered? then live + [Entry(Me(), false)] else live, Idle))
    {
      ghost var held := ts.held;
      if !canOpen {
        RefusedPaths(os.taken, os.taken, ts.thread, held, Unopened);
        return Unopened;
      }
      handleOpen := true;
      var locked := WaitForOsLock(ts.thread, os);
      if !locked {
        handleOpen := false;
        RefusedPaths(old(os.taken), os.taken, ts.thread, held, Busy);
        return Busy;
      }
      ghost var taken := os.taken;
      ghost var before :| Others(old(os.taken), before, ts.thread) && key !in before
                          && taken == before[key := Ours(ts.thread, id)];
      r := Claim(ts, os, canWrite);
      forall live ensures Path(old(os.taken), ts.thread, Thread(held, live, Idle), StepsIn(ts.thread, false, r),
                               os.taken, Thread(ts.held, Lives(live, r), Idle)) {
        TakePath(old(os.taken), before, ts.thread, held, live, Me(), StepsOn(ts.thread, r),
                 os.taken, Thread(ts.held, Lives(live, r), Idle));
      }
    }

    lemma RefusedPaths(taken: map<string, Holder>, later: map<string, Holder>, t: nat, held: Table, r: EnterResult)
      requires !MayReenter(held, key, session) && Others(taken, later, t) && (r.Unopened? || r.Busy?)
      ensures forall live ::
                Path(taken, t, Thread(held, live, Idle), StepsIn(t, false, r), later, Thread(held, live, Idle))
    {
      forall live ensures Path(taken, t, Thread(held, live, Idle), StepsIn(t, false, r),
                               later, Thread(held, live, Idle)) {
        BusyPath(taken, later, t, held, live, Me());
      }
    }

    /** The live objects of the thread afterwards. */
    ghost function Lives(live: seq<Entry>, r: EnterResult): seq<Entry> {
      if r.Entered? then live + [Entry(Me(), false)] else live
    }

    /** The protocol steps after the OS lock was taken. */
    ghost function StepsOn(t: nat, r: EnterResult): seq<Step> {
      if r.Entered? then [Publish(t)] else [PublishFails(t)] + [Unlock(t)]
    }

    lemma ClaimPath(taken: map<string, Holder>, t: nat, held: Table, live: seq<Entry>, canWrite: bool)
      ensures var r := if canWrite then Entered else MetadataFailed;
              Path(taken, t, Thread(held, live, Locked(Me())), StepsOn(t, r),
                   if canWrite then taken else taken - {key},
                   Thread(if canWrite then held[key := (1, session)] else held - {key}, Lives(live, r), Idle))
    {
      PublishPath(taken, t, held, live, Me());
      FailPath(taken, t, held, live, Me());
    }

    /** With the OS lock taken: writes the metadata and the table, or gives the lock back. */
    method Claim(ts: ThreadState, os: OsLocks, canWrite: bool) returns (r: EnterResult)
      requires handleOpen && !acquired && !reentrant
      requires key in os.taken && os.taken[key] == Ours(ts.thread, id)
      modifies this, ts`held, os`taken
      ensures r == if canWrite then Entered else MetadataFailed
      ensures if r.Entered? then acquired && !reentrant && handleOpen else Unused()
      ensures ts.held == if r.Entered? then old(ts.held)[key := (1, session)] else old(ts.held) - {key}
      ensures os.taken == if r.Entered? then old(os.taken) else old(os.taken) - {key}
      ensures forall live ::
                Path(old(os.taken), ts.thread, Thread(old(ts.held), live, Locked(Me())), StepsOn(ts.thread, r),
                     os.taken, Thread(ts.held, Lives(live, r), Idle))
    {
      acquired := true;
      forall live {
        ClaimPath(os.taken, ts.thread, ts.held, live, canWrite);
      }
      if canWrite {
        ts.held := ts.held[key := (1, session)];
        r := Entered;
      } else {
        Exit(ts, os);
        r := MetadataFailed;
      }
    }

    /** Tries at once and then ten times a second until the timeout. */
    method WaitForOsLock(thread: nat, os: OsLocks) returns (locked: bool)
      modifies os
      ensures locked ==> key in os.taken && os.taken[key] == Ours(thread, id)
      ensures old(os.Has(thread, key)) ==> !locked
      ensures key !in old(os.taken) ==>
                locked && os.taken == old(os.taken)[key := Ours(thread, id)] && os.clock == old(os.clock)
      ensures !locked ==> key in os.taken && os.clock >= old(os.clock) + timeoutMs
      ensures if locked then
                exists before ::
                  Others(old(os.taken), before, thread) && key !in before && os.taken == before[key := Ours(thread, id)]
              else Others(old(os.taken), os.taken, thread)
      ensures !locked ==> forall k :: os.Has(thread, k) <==> old(os.Has(thread, k))
      ensures forall k :: k != key ==> (os.Has(thread, k) <==> old(os.Has(thread, k)))
      ensures timeoutMs == 0 ==> os.clock == old(os.clock)
    {
      var deadline := os.clock + timeoutMs;
      ghost var before := os.taken;
      locked := os.TryLock(key, thread, id);
      while !locked && os.clock < deadline
        invariant locked ==> key in os.taken && os.taken[key] == Ours(thread, id) && !old(os.Has(thread, key))
        invariant Others(old(os.taken), before, thread)
        invariant key !in old(os.taken) ==> locked && before == old(os.taken) && os.clock == old(os.clock)
        invariant !locked ==> key in os.taken
        invariant timeoutMs == 0 ==> os.clock == old(os.clock)
        invariant if locked then key !in before && os.taken == before[key := Ours(thread, id)] else os.taken == before
        invariant !locked ==> (os.Has(thread, key) <==> old(os.Has(thread, key)))
        invariant forall k :: k != key ==> (os.Has(thread, k) <==> old(os.Has(thread, k)))
        decreases !locked, deadline - os.clock
      {
        os.Sleep(thread, 100);
        before := os.taken;
        locked := os.TryLock(key, thread, id);
      }
    }

    /** `__exit__`. */
    method Exit(ts: ThreadState, os: OsLocks)
      modifies this, ts`held, os`taken
      ensures !reentrant && handleOpen == (old(reentrant) && old(handleOpen))
      ensures acquired == (old(acquired) && !old(reentrant) && !old(handleOpen))
      ensures ts.held == if old(reentrant) then Shallow(old(ts.held), key) else old(ts.held) - {key}
      ensures old(reentrant && key in ts.held && ts.held[key].0 <= 1) ==> key !in ts.held
      ensures os.taken == if !old(reentrant) && old(handleOpen) && old(acquired) then old(os.taken) - {key}
              else old(os.taken)
      ensures forall k :: k != key ==> (os.Has(ts.thread, k) <==> old(os.Has(ts.thread, k)))
      ensures old(acquired && (reentrant || handleOpen)) ==>
                forall live ::
                  Path(old(os.taken), ts.thread, Thread(old(ts.held), live + [Entry(Me(), old(reentrant))], Idle),
                       if old(reentrant) then [Step.Exit(ts.thread)] else [Step.Exit(ts.thread)] + [Unlock(ts.thread)],
                       os.taken, Thread(ts.held, live, Idle))
    {
      forall live {
        LeavePath(os.taken, ts.thread, ts.held, live, Me(), reentrant);
      }
      if reentrant {
        ts.held := Shallow(ts.held, key);
        reentrant, acquired := false, false;
        return;
      }
      ts.held := ts.held - {key};
      if handleOpen {
        if acquired {
          os.Release(key);
        }
        handleOpen := false;
        acquired := false;
      }
    }
  }
}
