/** What the explorer talks to: the device, the clock and the user interface, all free to misbehave. */
module ExplorerPhone {
  import opened Common

  datatype ActionKind = Navigation | InputText | HideKeyboard | Tap | LongTap | Scroll | Back

  datatype Source =
    | NoSource
    | Traversal
    | FormRetry
    | CanaryCarrier
    | CanarySupport
    | CanarySubmit
    | CanaryDeepLink
  {
    predicate IsCanary() { CanaryCarrier? || CanarySupport? || CanarySubmit? || CanaryDeepLink? }

    predicate StartsCanary() { CanaryCarrier? || CanaryDeepLink? }
  }

  /** Done, a device error, a refusal (navigation only), the run deadline, or an error the run does not handle. */
  datatype Outcome = Done | Fault | Denied | Rejected | Cut | Raised

  datatype Dispatch = Dispatch(kind: ActionKind, source: Source, outcome: Outcome)

  datatype Node = Node(identity: string)

  /** A screen; `view` stands for all of it that is not modelled. */
  datatype UiState = UiState(fingerprint: string, activity: string, view: nat)

  /** What a (state, action) pair is known by. */
  type Pick = (string, string)

  datatype Candidate = Candidate(
    kind: ActionKind, identity: string, repeatsTitle: bool, opensMenu: bool, menuLabel: string, semantic: bool)

  datatype Form = Form(carrier: Node, supporting: Option<Node>)

  datatype Probe = InPackage | OtherPackage | ProbeFault | ProbeLate | ProbeRaised

  datatype Dump = Dumped(state: UiState) | DumpFault | DumpLate | DumpRaised

  datatype Dismissal = Dismissed | NotDismissed | DismissFault | DismissLate | DismissRaised

  datatype Process = Running(pid: int) | Absent | ProcessFault | ProcessLate | ProcessRaised

  datatype Sweep = Swept | SweepFault | SweepRaised

  /** What went wrong so far, or was asked of the run. */
  datatype Woe = Asked | Lateness | Surprise | Elsewhere | Unread | Unanswered | NoLaunch

  datatype Launch = Launched | LaunchAdbFault | LaunchOtherFault | LaunchLate | LaunchRaised

  /** Counts over the dispatches made so far. */
  datatype Tally = Tally(
    attempted: nat, executed: nat, failed: nat, unsettled: nat,
    inputs: nat, scrolls: nat, backs: nat, canaryInputs: nat, canaryAttempts: nat, canaryFaults: nat)

  function One(b: bool): nat { if b then 1 else 0 }

  function Add(t: Tally, d: Dispatch): Tally {
    Tally(
      t.attempted + 1,
      t.executed + One(d.outcome.Done? || d.outcome.Denied? || d.outcome.Rejected?),
      t.failed + One(d.outcome.Fault?),
      t.unsettled + One(d.outcome.Cut? || d.outcome.Raised?),
      t.inputs + One(d.kind.InputText? && d.outcome.Done?),
      t.scrolls + One(d.kind.Scroll? && d.outcome.Done?),
      t.backs + One(d.kind.Back? && d.outcome.Done?),
      t.canaryInputs + One(d.source.CanaryCarrier? && d.outcome.Done?),
      t.canaryAttempts + One(d.source.StartsCanary()),
      t.canaryFaults + One(d.source.IsCanary() && d.outcome.Fault?))
  }

  const ZERO := Tally(0, 0, 0, 0, 0, 0, 0, 0, 0, 0)

  /** A phone on which nothing happens: one screen, no feedback, every action works, and only sleeping takes time. */
  datatype Quiet = Quiet(screen: UiState, pid: int, offers: seq<Candidate>)

  predicate Touchable(c: Candidate) { c.kind.InputText? || c.kind.Tap? || c.kind.LongTap? }

  function OfOutcome(o: Outcome): set<Woe> {
    match o
    case Cut => {Lateness}
    case Raised => {Surprise}
    case _ => {}
  }

  function OfProbe(probe: Probe): set<Woe> {
    match probe
    case InPackage => {}
    case OtherPackage => {Elsewhere}
    case ProbeFault => {Unread}
    case ProbeLate => {Lateness}
    case ProbeRaised => {Surprise}
  }

  function OfDump(dump: Dump): set<Woe> {
    match dump
    case Dumped(_) => {}
    case DumpFault => {Unread}
    case DumpLate => {Lateness}
    case DumpRaised => {Surprise}
  }

  function OfDismissal(d: Dismissal): set<Woe> {
    match d
    case DismissLate => {Lateness}
    case DismissRaised => {Surprise}
    case _ => {}
  }

  function OfProcess(p: Process): set<Woe> {
    match p
    case ProcessFault => {Unanswered}
    case ProcessLate => {Lateness}
    case ProcessRaised => {Surprise}
    case _ => {}
  }

  /** An error that is not of the debug bridge is expected after some launches only. */
  function OfLaunch(l: Launch): set<Woe> {
    match l
    case Launched => {}
    case LaunchAdbFault => {NoLaunch}
    case LaunchOtherFault => {NoLaunch, Surprise}
    case LaunchLate => {Lateness}
    case LaunchRaised => {Surprise}
  }

  /** How often the application was to be started, and was. */
  datatype Starts = Starts(tried: nat, done: nat)

  /** What the label heuristics make of a screen, an action and the pairs tried so far. */
  datatype Heuristics = Heuristics(
    form: (UiState, Candidate, set<Pick>) -> Option<Form>,
    inputs: (UiState, Candidate, set<Pick>) -> seq<Node>)

  class Phone {
    const quiet: Option<Quiet>
    const heuristics: Heuristics
    var clock: nat
    /** Changed by `Perform` alone, once per dispatch. */
    ghost var tally: Tally
    ghost var seen: seq<UiState>
    ghost var launches: Starts
    ghost var woes: set<Woe>
    /** The candidates offered last. */
    ghost var offered: seq<Candidate>

    constructor (quiet: Option<Quiet>, heuristics: Heuristics)
      ensures this.quiet == quiet && this.heuristics == heuristics && tally == ZERO && seen == [] && woes == {}
    {
      this.quiet, this.heuristics, tally, seen, launches, woes := quiet, heuristics, ZERO, [], Starts(0, 0), {};
      offered := [];
    }

    method Now() returns (t: nat)
      modifies `clock
      ensures t == clock >= old(clock)
      ensures quiet.Some? ==> clock == old(clock)
    {
      var passed: int :| passed >= 0;
      passed := if quiet.Some? then 0 else passed;
      clock := clock + passed;
      t := clock;
    }

    method Sleep(ms: nat)
      modifies `clock
      ensures clock >= old(clock) + ms
      ensures quiet.Some? ==> clock == old(clock) + ms
    {
      var extra: int :| extra >= 0;
      extra := if quiet.Some? then 0 else extra;
      clock := clock + ms + extra;
    }

    method Perform(kind: ActionKind, source: Source) returns (outcome: Outcome)
      modifies `clock, `woes, `tally
      ensures clock >= old(clock) && woes == old(woes) + OfOutcome(outcome)
      ensures tally == Add(old(tally), Dispatch(kind, source, outcome))
      ensures outcome.Denied? || outcome.Rejected? ==> kind.Navigation?
      ensures quiet.Some? ==> outcome.Done? && clock == old(clock)
    {
      var t := Now();
      outcome := *;
      outcome := if quiet.Some? then Done else outcome;
      if !kind.Navigation? && (outcome.Denied? || outcome.Rejected?) {
        outcome := Fault;
      }
      tally := Add(tally, Dispatch(kind, source, outcome));
      woes := woes + OfOutcome(outcome);
    }

    method ResumedActivity() returns (probe: Probe)
      modifies `clock, `woes
      ensures clock >= old(clock) && woes == old(woes) + OfProbe(probe)
      ensures quiet.Some? ==> probe.InPackage? && clock == old(clock)
    {
      var t := Now();
      probe := *;
      probe := if quiet.Some? then InPackage else probe;
      woes := woes + OfProbe(probe);
    }

    method DumpUi() returns (dump: Dump)
      modifies `clock, `woes, `seen
      ensures clock >= old(clock) && woes == old(woes) + OfDump(dump)
      ensures seen == if dump.Dumped? then old(seen) + [dump.state] else old(seen)
      ensures quiet.Some? ==> dump == Dumped(quiet.value.screen) && clock == old(clock)
    {
      var t := Now();
      dump := *;
      dump := if quiet.Some? then Dumped(quiet.value.screen) else dump;
      seen := if dump.Dumped? then seen + [dump.state] else seen;
      woes := woes + OfDump(dump);
    }

    method DismissDialog() returns (d: Dismissal)
      modifies `clock, `woes
      ensures clock >= old(clock) && woes == old(woes) + OfDismissal(d)
    {
      var t := Now();
      d := *;
      woes := woes + OfDismissal(d);
    }

    method ProcessId() returns (p: Process)
      modifies `clock, `woes
      ensures clock >= old(clock) && woes == old(woes) + OfProcess(p)
      ensures quiet.Some? ==> p == Running(quiet.value.pid) && clock == old(clock)
    {
      var t := Now();
      p := *;
      p := if quiet.Some? then Running(quiet.value.pid) else p;
      woes := woes + OfProcess(p);
    }

    method LaunchApp() returns (l: Launch)
      modifies `clock, `woes, `launches
      ensures clock >= old(clock) && woes == old(woes) + OfLaunch(l)
      ensures launches == Starts(old(launches).tried + 1, old(launches).done + One(l.Launched?))
    {
      var t := Now();
      l := *;
      launches := Starts(launches.tried + 1, launches.done + One(l.Launched?));
      woes := woes + OfLaunch(l);
    }

    ghost predicate Showed(state: UiState)
      reads `seen
    {
      seen != [] && seen[|seen| - 1] == state
    }

    method RemoveWorkspace() returns (s: Sweep)
      modifies `clock, `woes
      ensures clock >= old(clock) && woes == old(woes) + (if s.SweepRaised? then {Surprise} else {})
      ensures quiet.Some? ==> s.Swept?
    {
      var t := Now();
      s := *;
      s := if quiet.Some? then Swept else s;
      woes := woes + if s.SweepRaised? then {Surprise} else {};
    }

    method StopRequested() returns (answer: bool)
      modifies `clock, `woes
      ensures clock >= old(clock) && woes == old(woes) + (if answer then {Asked} else {})
      ensures quiet.Some? ==> !answer && clock == old(clock)
    {
      answer := Observe();
      woes := woes + if answer then {Asked} else {};
    }

    /** A yes/no reading, as of new runtime feedback. */
    method Observe() returns (answer: bool)
      modifies `clock
      ensures clock >= old(clock)
      ensures quiet.Some? ==> !answer && clock == old(clock)
    {
      var t := Now();
      answer := *;
      answer := if quiet.Some? then false else answer;
    }

    /** Whether a controlled form is on the screen. */
    method FormOnScreen() returns (answer: bool)
      modifies `clock
      ensures clock >= old(clock)
      ensures quiet.Some? ==> answer && clock == old(clock)
    {
      var t := Now();
      answer := *;
      answer := quiet.Some? || answer;
    }

    method Candidates(state: UiState) returns (queue: seq<Candidate>)
      modifies `offered
      ensures offered == queue
      ensures forall c :: c in queue ==> Touchable(c)
      ensures quiet.Some? && (forall c :: c in quiet.value.offers ==> Touchable(c)) ==> queue == quiet.value.offers
    {
      queue := *;
      queue := if quiet.Some? then quiet.value.offers else queue;
      if exists c :: c in queue && !Touchable(c) {
        queue := [];
      }
      offered := queue;
    }

    /** The nearest two inputs that were not tried yet. */
    function InputsNear(state: UiState, action: Candidate, executed: set<Pick>): seq<Node> {
      var nodes := heuristics.inputs(state, action, executed);
      if |nodes| > 2 then nodes[..2] else nodes
    }
  }
}
