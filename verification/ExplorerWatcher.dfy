/** Waiting for the user interface to settle inside the scoped package. */
module ExplorerWatcher {
  import opened Common
  import opened ExplorerPhone

  datatype Config = Config(
    maxRuntimeSeconds: nat, plateauSeconds: nat, maxStates: nat, maxActions: nat, maxDepth: nat,
    actionTimeoutSeconds: nat, maxObservationRetries: nat, maxActionFailures: nat, canaryDelivery: bool)
  {
    predicate Valid() {
      && 1 <= maxRuntimeSeconds <= 300 && 1 <= plateauSeconds <= 60 && 1 <= maxStates <= 200 && 1 <= maxActions <= 1000
      && 1 <= maxDepth <= 30 && 1 <= actionTimeoutSeconds <= 30 && maxObservationRetries <= 3
      && 1 <= maxActionFailures <= 20
    }
  }

  /** A state, the run deadline, the package boundary, an expected error, or an unexpected one. */
  datatype Observation = Seen(state: UiState) | Late | Outside | Unreadable | Broken

  const POLL_MS := 150

  /** A capture: when it began, what the activity probe said and when, and what the dump said. */
  datatype Pass = Pass(begun: nat, probe: Option<Probe>, probed: nat, dump: Option<Dump>)

  /** What a capture that ends at `clock` is to report: each step is taken only before the deadline. */
  ghost predicate Tells(p: Pass, clock: nat, hardDeadline: nat, o: Observation) {
    && p.begun <= p.probed <= clock
    && (p.probe.Some? <==> p.begun < hardDeadline)
    && (p.dump.Some? <==> p.probe == Some(InPackage) && p.probed < hardDeadline)
    && match p.probe
       case None => o.Late?
       case Some(ProbeLate) => o.Late?
       case Some(ProbeFault) => o.Unreadable?
       case Some(ProbeRaised) => o.Broken?
       case Some(OtherPackage) => if p.probed >= hardDeadline then o.Late? else o.Outside?
       case Some(InPackage) =>
         match p.dump
         case None => o.Late?
         case Some(DumpLate) => o.Late?
         case Some(DumpFault) => o.Unreadable?
         case Some(DumpRaised) => o.Broken?
         case Some(Dumped(state)) => if clock >= hardDeadline then o.Late? else o == Seen(state)
  }

  /** One look of a wait: when, what the capture said, and what became of a dialog that was to be dismissed. */
  datatype Poll = Poll(at: nat, o: Observation, d: Option<Dismissal>)

  /** How many of the first `n` looks were failures that were retried. */
  ghost function Retried(polls: seq<Poll>, n: nat): nat
    requires n <= |polls|
  {
    if n == 0 then 0 else Retried(polls, n - 1) + One(polls[n - 1].o.Unreadable? && polls[n - 1].d.Some?)
  }

  /** Look `i` settles nothing: the old screen for the first time, a dialog now gone, or a failure to be retried. */
  ghost predicate Undecided(polls: seq<Poll>, i: nat, previous: Option<string>, maxRetries: nat)
    requires i < |polls|
  {
    match polls[i].o
    case Seen(state) =>
      previous == Some(state.fingerprint) && forall j :: 0 <= j < i ==> !polls[j].o.Seen?
    case Outside => polls[i].d == Some(Dismissed)
    case Unreadable =>
      && Retried(polls, i) < maxRetries
      && polls[i].d.Some? && !polls[i].d.value.DismissLate? && !polls[i].d.value.DismissRaised?
    case Late => false
    case Broken => false
  }

  /** Look `i` settles the wait with `o`. */
  ghost predicate Decides(polls: seq<Poll>, i: nat, previous: Option<string>, maxRetries: nat, o: Observation)
    requires i < |polls|
  {
    && !Undecided(polls, i, previous, maxRetries)
    && match polls[i].d
       case None => o == polls[i].o && !o.Outside? && (o.Unreadable? ==> Retried(polls, i) >= maxRetries)
       case Some(DismissLate) => o.Late? && (polls[i].o.Outside? || Retried(polls, i) < maxRetries)
       case Some(DismissRaised) => o.Broken? && (polls[i].o.Outside? || Retried(polls, i) < maxRetries)
       case Some(_) => o.Outside? && polls[i].o.Outside?
  }

  function Sooner(a: nat, b: nat): nat { if a < b then a else b }

  /** A wait: its beginning and deadline, its looks, and, when none settled it, when they ended and a last capture. */
  datatype Wait = Wait(begun: nat, deadline: nat, polls: seq<Poll>, ended: nat, extra: Option<Observation>)

  /** Looks before the deadline, each a pause after the one before, and none but the last settling anything. */
  ghost predicate Looked(w: Wait, n: nat, previous: Option<string>, maxRetries: nat)
    requires n <= |w.polls|
  {
    && (forall i :: 0 <= i < |w.polls| ==> w.polls[i].at < w.deadline)
    && (forall i :: 0 < i < |w.polls| ==> w.polls[i].at >= w.polls[i - 1].at + POLL_MS)
    && forall i :: 0 <= i < n ==> Undecided(w.polls, i, previous, maxRetries)
  }

  ghost predicate Among(polls: seq<Poll>, o: Observation) { exists j :: 0 <= j < |polls| && polls[j].o == o }

  ghost predicate NoneSeen(polls: seq<Poll>) { forall j :: 0 <= j < |polls| ==> !polls[j].o.Seen? }

  /** Time ran out: the screen seen last, else the run's deadline, else the failure, else what one more capture says. */
  ghost predicate RanOut(w: Wait, hardDeadline: nat, o: Observation) {
    && w.ended >= w.deadline
    && (!NoneSeen(w.polls) ==> o.Seen? && Among(w.polls, o))
    && (NoneSeen(w.polls) ==>
          if w.ended >= hardDeadline then o.Late?
          else if Among(w.polls, Unreadable) then o.Unreadable?
          else w.extra == Some(o))
  }

  /** What a wait is to report. */
  ghost predicate Waited(w: Wait, previous: Option<string>, maxRetries: nat, hardDeadline: nat, o: Observation) {
    || (&& w.polls != [] && Looked(w, |w.polls| - 1, previous, maxRetries)
        && Decides(w.polls, |w.polls| - 1, previous, maxRetries, o))
    || (Looked(w, |w.polls|, previous, maxRetries) && RanOut(w, hardDeadline, o))
  }

  /** The old screen is believed only when two looks showed it, or the wait has run out. */
  lemma UnchangedIsSeenTwice(w: Wait, previous: Option<string>, maxRetries: nat, hardDeadline: nat, o: Observation)
    requires Waited(w, previous, maxRetries, hardDeadline, o)
    requires o.Seen? && previous == Some(o.state.fingerprint)
    ensures || w.ended >= w.deadline
            || exists i, j :: 0 <= i < j < |w.polls| && Unchanged(w, i, previous) && Unchanged(w, j, previous)
  {
    if w.ended < w.deadline {
      var j := |w.polls| - 1;
      assert Unchanged(w, j, previous);
      var i :| 0 <= i < j && w.polls[i].o.Seen?;
      assert Undecided(w.polls, i, previous, maxRetries) && Unchanged(w, i, previous);
    }
  }

  ghost predicate Unchanged(w: Wait, i: nat, previous: Option<string>)
    requires i < |w.polls|
  {
    w.polls[i].o.Seen? && previous == Some(w.polls[i].o.state.fingerprint)
  }

  // ---------------------------------------------------------------- a wait and what it knows so far

  /**
   * After looks that settled nothing: the old screen if it was seen, the failures retried, and whether there were any.
   */
  ghost predicate Underway(w: Wait, previous: Option<string>, maxRetries: nat, last: Option<UiState>, failed: nat,
                           sawError: bool)
  {
    && Looked(w, |w.polls|, previous, maxRetries)
    && failed == Retried(w.polls, |w.polls|) <= maxRetries
    && (last == None <==> NoneSeen(w.polls))
    && (last.Some? ==> previous == Some(last.value.fingerprint) && Among(w.polls, Seen(last.value)))
    && (sawError <==> Among(w.polls, Unreadable))
  }

  /** What a look leads to: an end of the wait, or another look. */
  ghost predicate Ends(p: Poll, previous: Option<string>, maxRetries: nat, last: Option<UiState>, failed: nat,
                       end: Option<Observation>)
  {
    match p.o
    case Seen(state) =>
      && p.d == None
      && end == (if previous == Some(state.fingerprint) && (last == None || last.value.fingerprint != state.fingerprint)
                 then None else Some(p.o))
    case Outside => p.d.Some? && Dismissing(p.d.value, Some(Outside), end)
    case Unreadable =>
      if failed >= maxRetries then p.d == None && end == Some(Unreadable)
      else p.d.Some? && Dismissing(p.d.value, None, end)
    case Late => p.d == None && end == Some(Late)
    case Broken => p.d == None && end == Some(Broken)
  }

  /** How dismissing a dialog ends the wait; `otherwise` if there was none to dismiss. */
  ghost predicate Dismissing(d: Dismissal, otherwise: Option<Observation>, end: Option<Observation>) {
    match d
    case DismissLate => end == Some(Late)
    case DismissRaised => end == Some(Broken)
    case Dismissed => end == None
    case NotDismissed => end == otherwise
    case DismissFault => end == otherwise
  }

  lemma {:induction false} RetriedBefore(polls: seq<Poll>, p: Poll, n: nat)
    requires n <= |polls|
    ensures Retried(polls + [p], n) == Retried(polls, n)
  {
    if n > 0 {
      RetriedBefore(polls, p, n - 1);
    }
  }

  lemma UndecidedBefore(polls: seq<Poll>, p: Poll, previous: Option<string>, maxRetries: nat, i: nat)
    requires i < |polls| && Undecided(polls, i, previous, maxRetries)
    ensures Undecided(polls + [p], i, previous, maxRetries)
  {
    RetriedBefore(polls, p, i);
  }

  /** The look comes in time, a pause after the one before. */
  ghost predicate InTime(w: Wait, p: Poll) {
    p.at < w.deadline && Paused(w, p.at)
  }

  /** At `now` a pause has passed since the last look. */
  ghost predicate Paused(w: Wait, now: nat) { w.polls != [] ==> now >= w.polls[|w.polls| - 1].at + POLL_MS }

  function With(w: Wait, p: Poll): Wait { w.(polls := w.polls + [p]) }

  lemma StillLooked(w: Wait, p: Poll, previous: Option<string>, maxRetries: nat)
    requires Looked(w, |w.polls|, previous, maxRetries) && InTime(w, p)
    ensures Looked(With(w, p), |w.polls|, previous, maxRetries)
  {
    forall i | 0 <= i < |w.polls| ensures Undecided(With(w, p).polls, i, previous, maxRetries) {
      UndecidedBefore(w.polls, p, previous, maxRetries, i);
    }
  }

  lemma AmongMore(polls: seq<Poll>, p: Poll, o: Observation)
    ensures Among(polls + [p], o) <==> Among(polls, o) || p.o == o
    ensures NoneSeen(polls + [p]) <==> NoneSeen(polls) && !p.o.Seen?
  {
    var more := polls + [p];
    assert more[|polls|] == p && forall j :: 0 <= j < |polls| ==> more[j] == polls[j];
  }

  lemma NewUndecided(w: Wait, p: Poll, previous: Option<string>, maxRetries: nat, last: Option<UiState>, failed: nat,
                     sawError: bool)
    requires Underway(w, previous, maxRetries, last, failed, sawError)
    requires Ends(p, previous, maxRetries, last, failed, None)
    ensures Undecided(With(w, p).polls, |w.polls|, previous, maxRetries)
    ensures Retried(With(w, p).polls, |w.polls| + 1) == failed + One(p.o.Unreadable?) <= maxRetries
  {
    RetriedBefore(w.polls, p, |w.polls|);
    assert With(w, p).polls[|w.polls|] == p;
  }

  /** A look that ends nothing. */
  lemma LookAgain(w: Wait, p: Poll, previous: Option<string>, maxRetries: nat, last: Option<UiState>, failed: nat,
                  sawError: bool)
    requires Underway(w, previous, maxRetries, last, failed, sawError) && InTime(w, p)
    requires Ends(p, previous, maxRetries, last, failed, None)
    ensures Underway(With(w, p), previous, maxRetries, if p.o.Seen? then Some(p.o.state) else last,
                     failed + One(p.o.Unreadable?), sawError || p.o.Unreadable?)
  {
    StillLooked(w, p, previous, maxRetries);
    NewUndecided(w, p, previous, maxRetries, last, failed, sawError);
    AmongMore(w.polls, p, Unreadable);
    AmongMore(w.polls, p, p.o);
    if last.Some? {
      AmongMore(w.polls, p, Seen(last.value));
    }
  }

  /** A look that ends the wait. */
  lemma LookEnds(w: Wait, p: Poll, previous: Option<string>, maxRetries: nat, last: Option<UiState>, failed: nat,
                 sawError: bool, hardDeadline: nat, o: Observation)
    requires Underway(w, previous, maxRetries, last, failed, sawError) && InTime(w, p)
    requires Ends(p, previous, maxRetries, last, failed, Some(o))
    ensures Waited(With(w, p), previous, maxRetries, hardDeadline, o)
    ensures Retried(With(w, p).polls, |w.polls| + 1) == failed + One(p.o.Unreadable? && p.d.Some?) <= maxRetries
  {
    var w1, n := With(w, p), |w.polls|;
    StillLooked(w, p, previous, maxRetries);
    RetriedBefore(w.polls, p, n);
    assert w1.polls[n] == p;
    assert last.Some? ==> Among(w.polls, Seen(last.value));
    if last.Some? {
      var j :| 0 <= j < n && w.polls[j].o == Seen(last.value);
      assert w1.polls[j].o.Seen?;
    }
    assert Decides(w1.polls, n, previous, maxRetries, o);
  }

  class UiWatcher {
    const phone: Phone
    const config: Config
    var hardDeadline: nat
    var retries: nat

    constructor (phone: Phone, config: Config)
      ensures this.phone == phone && this.config == config && retries == 0
    {
      this.phone, this.config, hardDeadline, retries := phone, config, 0, 0;
    }

    /** What stands behind an observation. */
    ghost predicate Meant(o: Observation)
      reads this, phone
    {
      match o
      case Seen(_) => true
      case Late => Lateness in phone.woes || phone.clock >= hardDeadline
      case Outside => Elsewhere in phone.woes
      case Unreadable => Unread in phone.woes
      case Broken => Surprise in phone.woes
    }

    /** `_capture`: a state is accepted only before the hard deadline. */
    method Capture() returns (o: Observation, ghost pass: Pass)
      modifies phone`clock, phone`woes, phone`seen
      ensures phone.clock >= old(phone.clock) && pass.begun >= old(phone.clock)
      ensures Tells(pass, phone.clock, hardDeadline, o) && Meant(o) && old(phone.woes) <= phone.woes
      ensures phone.seen == if pass.dump.Some? && pass.dump.value.Dumped? then old(phone.seen) + [pass.dump.value.state]
              else old(phone.seen)
      ensures phone.quiet.Some? && old(phone.clock) < hardDeadline ==>
                o == Seen(phone.quiet.value.screen) && phone.clock == old(phone.clock)
    {
      var now := phone.Now();
      pass := Pass(now, None, now, None);
      if now >= hardDeadline {
        return Late, pass;
      }
      var probe := phone.ResumedActivity();
      now := phone.Now();
      pass := Pass(pass.begun, Some(probe), now, None);
      match probe {
        case ProbeLate => return Late, pass;
        case ProbeFault => return Unreadable, pass;
        case ProbeRaised => return Broken, pass;
        case _ =>
      }
      if now >= hardDeadline {
        return Late, pass;
      }
      if probe.OtherPackage? {
        return Outside, pass;
      }
      var dump := phone.DumpUi();
      pass := pass.(dump := Some(dump));
      now := phone.Now();
      match dump
      case DumpLate => o := Late;
      case DumpFault => o := Unreadable;
      case DumpRaised => o := Broken;
      case Dumped(state) => o := if now >= hardDeadline then Late else Seen(state);
    }

    /** `_wait_for_ui`, by what its callers need to know. */
    method WaitForUi(previous: Option<string>) returns (o: Observation)
      modifies `retries, phone`clock, phone`woes, phone`seen
      ensures phone.clock >= old(phone.clock)
      ensures old(retries) <= retries <= old(retries) + config.maxObservationRetries
      ensures o.Seen? ==> |phone.seen| > |old(phone.seen)| && phone.Showed(o.state)
      ensures Meant(o)
      ensures phone.quiet.Some? && old(phone.clock) + POLL_MS < hardDeadline && config.Valid() ==>
                && o == Seen(phone.quiet.value.screen)
                && phone.clock <= old(phone.clock) + (if previous == None then 0 else POLL_MS)
    {
      ghost var w;
      o, w := WaitForUiUntil(previous);
    }

    /** After a capture outside the package or of an unreadable screen: what dismissing a dialog leads to. */
    method React(seen: Observation, failed: nat) returns (end: Option<Observation>, ghost d: Option<Dismissal>)
      requires (seen.Outside? || seen.Unreadable?) && Meant(seen)
      modifies `retries, phone`clock, phone`woes
      ensures phone.clock >= old(phone.clock) && old(phone.woes) <= phone.woes && (end.Some? ==> Meant(end.value))
      ensures retries == old(retries) + One(seen.Unreadable? && d.Some?)
      ensures Ends(Poll(0, seen, d), None, config.maxObservationRetries, None, failed, end)
    {
      if seen.Unreadable? {
        if failed >= config.maxObservationRetries {
          return Some(Unreadable), None;
        }
        retries := retries + 1;
      }
      var dismissal := phone.DismissDialog();
      d := Some(dismissal);
      match dismissal
      case DismissLate => end := Some(Late);
      case DismissRaised => end := Some(Broken);
      case Dismissed => end := None;
      case _ => end := if seen.Outside? then Some(Outside) else None;
    }

    /** One look of a wait. */
    method Look(previous: Option<string>, last: Option<UiState>, stable: nat, failed: nat)
      returns (seen: Observation, end: Option<Observation>, stable1: nat, ghost d: Option<Dismissal>)
      requires last.Some? ==> stable == 1
      modifies `retries, phone`clock, phone`woes, phone`seen
      ensures phone.clock >= old(phone.clock) && old(phone.woes) <= phone.woes
      ensures Meant(seen) && (end.Some? ==> Meant(end.value))
      ensures retries == old(retries) + One(seen.Unreadable? && d.Some?)
      ensures seen.Seen? ==> phone.seen == old(phone.seen) + [seen.state]
      ensures seen.Outside? || seen.Unreadable? ==> phone.seen == old(phone.seen)
      ensures stable1 == if !seen.Seen? then stable
              else if last.Some? && last.value.fingerprint == seen.state.fingerprint then stable + 1 else 1
      ensures forall at: nat :: Ends(Poll(at, seen, d), previous, config.maxObservationRetries, last, failed, end)
      ensures phone.quiet.Some? && old(phone.clock) < hardDeadline ==>
                seen == Seen(phone.quiet.value.screen) && phone.clock == old(phone.clock)
    {
      ghost var pass;
      seen, pass := Capture();
      end, stable1, d := Some(seen), stable, None;
      match seen {
        case Seen(state) =>
          stable1 := if last.Some? && last.value.fingerprint == state.fingerprint then stable + 1 else 1;
          if previous != None && previous.value == state.fingerprint && stable1 < 2 {
            end := None;
          }
        case Outside => end, d := React(seen, failed);
        case Unreadable => end, d := React(seen, failed);
        case _ =>
      }
    }

    /** A round of the wait: one look at `now`, and a pause unless it ends the wait. */
    method Round(previous: Option<string>, last: Option<UiState>, stable: nat, failed: nat, sawError: bool, now: nat,
                 ghost w: Wait)
      returns (end: Option<Observation>, last1: Option<UiState>, stable1: nat, failed1: nat, sawError1: bool,
               now1: nat, ghost w1: Wait)
      requires Underway(w, previous, config.maxObservationRetries, last, failed, sawError)
      requires now == phone.clock && now < w.deadline && Paused(w, now) && (last.Some? ==> stable == 1)
      requires sawError ==> Unread in phone.woes
      modifies `retries, phone`clock, phone`woes, phone`seen
      ensures phone.clock >= old(phone.clock) && w1.begun == w.begun && w1.deadline == w.deadline
      ensures retries == old(retries) - failed + Retried(w1.polls, |w1.polls|)
      ensures Retried(w1.polls, |w1.polls|) <= config.maxObservationRetries
      ensures end.Some? ==> Waited(w1, previous, config.maxObservationRetries, hardDeadline, end.value)
      ensures if end.Some? then Meant(end.value) else sawError1 ==> Unread in phone.woes
      ensures end == None ==>
                && Underway(w1, previous, config.maxObservationRetries, last1, failed1, sawError1)
                && now1 == phone.clock && now1 >= now + POLL_MS && Paused(w1, now1) && (last1.Some? ==> stable1 == 1)
      ensures end.Some? && end.value.Seen? ==> phone.seen == old(phone.seen) + [end.value.state]
      ensures end == None && last1 != last ==> last1.Some? && phone.seen == old(phone.seen) + [last1.value]
      ensures end == None && last1 == last ==> phone.seen == old(phone.seen)
      ensures phone.quiet.Some? && now < hardDeadline ==>
                if end.Some? then end == Some(Seen(phone.quiet.value.screen)) && phone.clock == now else
                  last == None && last1 == Some(phone.quiet.value.screen) && previous != None && now1 == now + POLL_MS
    {
      var seen;
      ghost var d;
      seen, end, stable1, d := Look(previous, last, stable, failed);
      ghost var p := Poll(now, seen, d);
      w1 := With(w, p);
      last1 := if seen.Seen? then Some(seen.state) else last;
      failed1, sawError1 := failed + One(seen.Unreadable?), sawError || seen.Unreadable?;
      now1 := now;
      if end.Some? {
        LookEnds(w, p, previous, config.maxObservationRetries, last, failed, sawError, hardDeadline, end.value);
      } else {
        LookAgain(w, p, previous, config.maxObservationRetries, last, failed, sawError);
        phone.Sleep(POLL_MS);
        now1 := phone.Now();
      }
    }

    method Begin() returns (deadline: nat, ghost w: Wait)
      modifies phone`clock, phone`woes
      ensures old(phone.clock) <= phone.clock && w == Wait(phone.clock, deadline, [], phone.clock, None)
      ensures deadline == Sooner(hardDeadline, phone.clock + 1000 * config.actionTimeoutSeconds)
      ensures phone.quiet.Some? ==> phone.clock == old(phone.clock)
      ensures config.Valid() && phone.clock + POLL_MS < hardDeadline ==> phone.clock + POLL_MS < deadline
    {
      var now := phone.Now();
      deadline := now + 1000 * config.actionTimeoutSeconds;
      deadline := if hardDeadline < deadline then hardDeadline else deadline;
      w := Wait(now, deadline, [], now, None);
    }

    /** The rounds of a wait; `end` when one of them ended it. */
    method Rounds(previous: Option<string>, deadline: nat, ghost w0: Wait)
      returns (end: Option<Observation>, last: Option<UiState>, sawError: bool, ghost failed: nat, ghost w: Wait)
      requires w0.polls == [] && w0.deadline == deadline && w0.begun == phone.clock
      requires config.Valid() && phone.clock + POLL_MS < hardDeadline ==> phone.clock + POLL_MS < deadline
      modifies `retries, phone`clock, phone`woes, phone`seen
      ensures phone.clock >= old(phone.clock) && w.begun == w0.begun && w.deadline == deadline
      ensures retries == old(retries) + Retried(w.polls, |w.polls|) <= old(retries) + config.maxObservationRetries
      ensures end.Some? ==> Waited(w, previous, config.maxObservationRetries, hardDeadline, end.value)
      ensures if end.Some? then Meant(end.value) else sawError ==> Unread in phone.woes
      ensures end == None ==>
                && Underway(w, previous, config.maxObservationRetries, last, failed, sawError)
                && deadline <= w.ended <= phone.clock
      ensures end.Some? && end.value.Seen? ==> |phone.seen| > |old(phone.seen)| && phone.Showed(end.value.state)
      ensures end == None && last.Some? ==> |phone.seen| > |old(phone.seen)| && phone.Showed(last.value)
      ensures end == None ==> |phone.seen| >= |old(phone.seen)|
      ensures phone.quiet.Some? && old(phone.clock) + POLL_MS < hardDeadline && config.Valid() ==>
                && end == Some(Seen(phone.quiet.value.screen))
                && phone.clock <= old(phone.clock) + (if previous == None then 0 else POLL_MS)
    {
      var stable, failures := 0, 0;
      end, last, sawError, w := None, None, false, w0;
      var now := phone.Now();
      while now < deadline
        invariant old(phone.clock) <= now == phone.clock && w.begun == w0.begun && w.deadline == deadline
        invariant Underway(w, previous, config.maxObservationRetries, last, failures, sawError) && Paused(w, now)
        invariant retries == old(retries) + failures && end == None && (sawError ==> Unread in phone.woes)
        invariant last.Some? ==> stable == 1 && |phone.seen| > |old(phone.seen)| && phone.Showed(last.value)
        invariant |phone.seen| >= |old(phone.seen)|
        invariant phone.quiet.Some? && old(phone.clock) + POLL_MS < hardDeadline && config.Valid() ==>
                    || (last == None && now == old(phone.clock))
                    || (&& last == Some(phone.quiet.value.screen) && previous != None
                        && now == old(phone.clock) + POLL_MS)
        decreases deadline as int - now as int
      {
        end, last, stable, failures, sawError, now, w := Round(previous, last, stable, failures, sawError, now, w);
        failed := failures;
        if end.Some? {
          return;
        }
      }
      failed, w := failures, w.(ended := now);
    }

    /**
     * `_wait_for_ui_until`: a state that equals the previous one is returned only once two captures agree or the wait
     * has run out; unreadable screens are retried a bounded number of times.
     */
    method WaitForUiUntil(previous: Option<string>) returns (o: Observation, ghost w: Wait)
      modifies `retries, phone`clock, phone`woes, phone`seen
      ensures phone.clock >= old(phone.clock)
      ensures w.begun >= old(phone.clock)
      ensures w.deadline == Sooner(hardDeadline, w.begun + 1000 * config.actionTimeoutSeconds)
      ensures Waited(w, previous, config.maxObservationRetries, hardDeadline, o)
      ensures retries == old(retries) + Retried(w.polls, |w.polls|) <= old(retries) + config.maxObservationRetries
      ensures o.Seen? ==> |phone.seen| > |old(phone.seen)| && phone.Showed(o.state)
      ensures Meant(o)
      ensures phone.quiet.Some? && old(phone.clock) + POLL_MS < hardDeadline && config.Valid() ==>
                && o == Seen(phone.quiet.value.screen)
                && phone.clock <= old(phone.clock) + (if previous == None then 0 else POLL_MS)
    {
      var deadline;
      deadline, w := Begin();
      var end, last, sawError;
      ghost var failed;
      end, last, sawError, failed, w := Rounds(previous, deadline, w);
      if end.Some? {
        o := end.value;
      } else {
        o, w := GiveUp(w, previous, last, failed, sawError);
      }
    }

    /** When the wait has run out. */
    method GiveUp(ghost w0: Wait, previous: Option<string>, last: Option<UiState>, ghost failed: nat, sawError: bool)
      returns (o: Observation, ghost w: Wait)
      requires Underway(w0, previous, config.maxObservationRetries, last, failed, sawError)
      requires w0.ended >= w0.deadline && w0.ended <= phone.clock && (sawError ==> Unread in phone.woes)
      modifies phone`clock, phone`woes, phone`seen
      ensures phone.clock >= old(phone.clock) && Meant(o)
      ensures w.begun == w0.begun && w.deadline == w0.deadline && w.polls == w0.polls
      ensures Waited(w, previous, config.maxObservationRetries, hardDeadline, o)
      ensures last.Some? ==> o == Seen(last.value) && phone.clock == old(phone.clock) && phone.seen == old(phone.seen)
      ensures o.Seen? && last == None ==> phone.seen == old(phone.seen) + [o.state]
    {
      w := w0;
      if last.Some? {
        return Seen(last.value), w;
      }
      var now := phone.Now();
      w := w.(ended := now);
      if now >= hardDeadline {
        return Late, w;
      }
      if sawError {
        return Unreadable, w;
      }
      ghost var pass;
      o, pass := Capture();
      w := w.(extra := Some(o));
    }
  }
}
