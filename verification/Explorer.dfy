/** The bounded UI exploration loop. */
module Explorer {
  import opened Common
  import opened ExplorerPhone
  import opened ExplorerNavigation
  import opened ExplorerWatcher

  datatype Ending =
    | Completed | StopRequested | MaxRuntime | MaxActions | MaxStates | CoveragePlateau | ActionFailureLimit
    | ActionRecoveryFailed | ProcessStateUnavailable | StateRefreshFailed | ProcessRestartFailed | PackageBoundary

  /** The run was stopped by its limits or from outside, not by something that went wrong. */
  predicate Orderly(ending: Ending) {
    ending in {Completed, StopRequested, MaxRuntime, MaxActions, MaxStates, CoveragePlateau}
  }

  /** Next iteration, `break`, or one of the three ways an exception leaves the loop. */
  datatype Flow = Go | Stop | PastDeadline | OutOfPackage | Escapes

  /** An error leaves the run, or it returns; `exit` tells how the loop was left. */
  datatype RunResult = Escaped | Finished(partial: bool, exit: Flow, cleanupFailed: bool)

  /** What a quiet phone leaves alone. */
  datatype Calm = Calm(partial: bool, pid: Option<int>, form: bool, history: seq<string>, pending: seq<Nav>)

  function Offered(fingerprint: string, queue: seq<Candidate>): set<Pick> {
    set c | c in queue :: (fingerprint, c.identity)
  }

  ghost predicate SomethingToTry(activityPlans: seq<Plan>, linkPlans: seq<Plan>) {
    exists plan :: (plan in activityPlans || plan in linkPlans) && plan.Try?
  }

  const IDLE_MS := 200

  class AndroidExplorer {
    const phone: Phone
    const watcher: UiWatcher
    const book: NavigationBook
    const config: Config
    const hasCanary: bool
    const guardActive: bool

    var attempted: nat
    var executedActions: nat
    var succeeded: nat
    var failures: nat
    var inputActions: nat
    var scrollActions: nat
    var backtracks: nat
    var canaryInputs: nat
    var canaryAttempts: nat
    var canaryDeliveries: nat
    var canaryFailures: nat
    var canarySkips: nat
    var formRetries: nat
    var duplicatesAvoided: nat
    var refreshes: nat
    var restarts: nat
    var crashes: nat
    var visited: set<string>
    var executed: set<Pick>
    var executedMenus: set<Pick>
    var retried: set<Pick>
    var scrolled: set<string>
    var discovered: set<Pick>
    var history: seq<string>
    var keyboardOpen: bool
    var partialResult: bool
    var formPending: bool
    var ending: Ending
    var current: UiState
    var previousPid: Option<int>
    var idlePlateau: nat
    /** The (state, action) pairs the traversal chose to carry out, in order. */
    ghost var picks: seq<Pick>
    /** Submitted canary forms whose effect could not be observed. */
    ghost var lostSubmits: nat

    /**
     * The counters are right but for these many inputs, scrolls, steps back and canary inputs not yet counted.
     * Every dispatch is executed, failed, or cut off before its outcome was known.
     */
    ghost predicate BooksBut(inputs: nat, scrolls: nat, backs: nat, canaries: nat)
      reads this, phone
    {
      var t := phone.tally;
      && attempted == t.attempted && executedActions == t.executed && failures == t.failed
      && inputActions + inputs == t.inputs && scrollActions + scrolls == t.scrolls && backtracks + backs == t.backs
      && canaryInputs + canaries == t.canaryInputs && canaryAttempts == t.canaryAttempts
      && canaryFailures == t.canaryFaults + lostSubmits
      && attempted == executedActions + failures + t.unsettled
      && inputActions + inputs + scrollActions + scrolls + backtracks + backs <= executedActions
      && canaryInputs + canaries <= canaryAttempts <= attempted && canaryFailures <= failures + lostSubmits
    }

    /** Every counter is the number of device-level dispatches it claims to count, and every dispatch counts once. */
    ghost predicate Books()
      reads this, phone
    {
      BooksBut(0, 0, 0, 0)
    }

    ghost predicate Limits()
      reads this
    {
      && attempted <= config.maxActions && failures <= config.maxActionFailures
      && |visited| <= config.maxStates && |history| <= config.maxDepth
      && succeeded <= attempted && canaryDeliveries <= canaryAttempts && canaryFailures <= canaryAttempts
      && (failures > 0 ==> partialResult) && (formPending ==> config.canaryDelivery && hasCanary)
      && PicksKept()
    }

    /** No pair was picked twice, and those picked count as tried. */
    ghost predicate PicksKept()
      reads `picks, `executed
    {
      NoRepeats(picks) && forall p :: p in picks ==> p in executed
    }

    ghost predicate Parts()
      reads this
    {
      config.Valid() && watcher.phone == phone && watcher.config == config
    }

    ghost predicate Valid()
      reads this, phone, book
    {
      Parts() && Books() && Limits() && book.Valid()
    }

    /** Between two dispatches of a run that goes on. */
    ghost predicate Running()
      reads this, phone, book
    {
      && Valid() && book.inFlight == None && phone.tally.unsettled == 0 && lostSubmits == 0
      && failures < config.maxActionFailures
    }

    /** The reason given for stopping is one that there is. */
    ghost predicate Justified(reason: Ending)
      reads this, phone, watcher
    {
      match reason
      case StopRequested => Asked in phone.woes
      case MaxRuntime => phone.clock + 1000 * config.actionTimeoutSeconds >= watcher.hardDeadline
      case MaxActions => attempted >= config.maxActions
      case MaxStates => |visited| >= config.maxStates && current.fingerprint !in visited
      case CoveragePlateau => attempted > 0 && idlePlateau >= 1000 * config.plateauSeconds
      case ActionFailureLimit => failures >= config.maxActionFailures
      case ActionRecoveryFailed => Unread in phone.woes
      case ProcessStateUnavailable => Unanswered in phone.woes
      case StateRefreshFailed => Lost()
      case ProcessRestartFailed => NoLaunch in phone.woes
      case PackageBoundary => Elsewhere in phone.woes
      case Completed => false
    }

    /** Something did not answer, start or come back. */
    ghost predicate Lost()
      reads phone
    {
      Unread in phone.woes || NoLaunch in phone.woes || Elsewhere in phone.woes || Unanswered in phone.woes
    }

    /** Something did not work that no run recovers from before its loop. */
    ghost predicate Failed()
      reads phone
    {
      Surprise in phone.woes || Unread in phone.woes || Unanswered in phone.woes || NoLaunch in phone.woes
    }

    /** The loop is left this way for a reason. */
    ghost predicate Warranted(flow: Flow)
      reads this, phone, watcher
    {
      match flow
      case Go => true
      case Stop => Justified(ending)
      case PastDeadline => Lateness in phone.woes || phone.clock >= watcher.hardDeadline
      case OutOfPackage => Elsewhere in phone.woes
      case Escapes => Surprise in phone.woes
    }

    /** What holds once the loop is left by `flow`. */
    ghost predicate Ended(flow: Flow)
      reads this, phone, book, watcher
    {
      && Valid() && Warranted(flow)
      && (flow.Stop? ==>
            && phone.tally.unsettled == 0 && book.inFlight == None && !ending.Completed?
            && (book.pending == [] || (ending.CoveragePlateau? && formPending)) && (Orderly(ending) || partialResult))
      && (flow.PastDeadline? ==> phone.tally.unsettled <= 1)
      && (flow.OutOfPackage? ==> phone.tally.unsettled == 0)
    }

    /** After a step: the loop goes on, is left in order, or an error that nothing expected leaves the run. */
    ghost predicate After(flow: Flow)
      reads this, phone, book, watcher
    {
      if flow.Go? then Running() else if flow.Escapes? then Warranted(flow) else Ended(flow)
    }

    ghost function Mood(): Calm
      reads this, book
    {
      Calm(partialResult, previousPid, formPending, history, book.pending)
    }

    /** A quiet phone, with time for one more look at it before the deadline. */
    ghost predicate Hushed(clock: nat)
      reads watcher
    {
      phone.quiet.Some? && clock + POLL_MS < watcher.hardDeadline
    }

    constructor (phone: Phone, config: Config, hasCanary: bool, guardActive: bool)
      requires config.Valid() && phone.tally == ZERO
      ensures this.phone == phone && this.config == config
      ensures this.hasCanary == hasCanary && this.guardActive == guardActive
      ensures fresh(watcher) && fresh(book) && attempted == 0
      ensures Running()
      ensures book.activities == [] && book.links == [] && book.pending == [] && ending.Completed? && Pristine()
      ensures restarts == crashes == refreshes == formRetries == duplicatesAvoided == idlePlateau == 0 && !keyboardOpen
    {
      this.phone, this.config, this.hasCanary, this.guardActive := phone, config, hasCanary, guardActive;
      watcher := new UiWatcher(phone, config);
      book := new NavigationBook();
      attempted, executedActions, succeeded, failures, inputActions, scrollActions, backtracks := 0, 0, 0, 0, 0, 0, 0;
      canaryInputs, canaryAttempts, canaryDeliveries, canaryFailures, canarySkips := 0, 0, 0, 0, 0;
      formRetries, duplicatesAvoided, refreshes, restarts, crashes, idlePlateau := 0, 0, 0, 0, 0, 0;
      visited, executed, executedMenus, retried, scrolled, discovered, history := {}, {}, {}, {}, {}, {}, [];
      keyboardOpen, partialResult, formPending, ending := false, false, false, Completed;
      current, previousPid := UiState("", "", 0), None;
      picks, lostSubmits := [], 0;
    }

    // -------------------------------------------------------------- one dispatch

    method PerformAction(kind: ActionKind, source: Source) returns (o: Outcome)
      requires !kind.Navigation? && !source.CanaryDeepLink?
      modifies `attempted, `executedActions, `failures, `partialResult, `canaryAttempts, `canaryFailures
      modifies phone`clock, phone`woes, phone`tally
      ensures phone.clock >= old(phone.clock)
      ensures (o.Done? || o.Fault? || o.Cut? || o.Raised?) && OfOutcome(o) <= phone.woes
      ensures phone.quiet.Some? ==> o.Done? && phone.clock == old(phone.clock)
      ensures phone.tally == Add(old(phone.tally), Dispatch(kind, source, o))
      ensures attempted == old(attempted) + 1
      ensures executedActions == old(executedActions) + One(o.Done?)
      ensures failures == old(failures) + One(o.Fault?)
      ensures partialResult == (old(partialResult) || o.Fault?)
      ensures canaryAttempts == old(canaryAttempts) + One(source.CanaryCarrier?)
      ensures canaryFailures == old(canaryFailures) + One(source.IsCanary() && o.Fault?)
    {
      CountAttempt(source);
      o := phone.Perform(kind, source);
      CountOutcome(o, source);
    }

    method CountOutcome(o: Outcome, source: Source)
      modifies `executedActions, `failures, `partialResult, `canaryFailures
      ensures executedActions == old(executedActions) + One(o.Done? || o.Denied? || o.Rejected?)
      ensures failures == old(failures) + One(o.Fault?)
      ensures partialResult == (old(partialResult) || o.Fault?)
      ensures canaryFailures == old(canaryFailures) + One(source.IsCanary() && o.Fault?)
    {
      if o.Fault? {
        RecordFailure(source);
      } else if !o.Cut? && !o.Raised? {
        executedActions := executedActions + 1;
      }
    }

    method CountAttempt(source: Source)
      modifies `attempted, `canaryAttempts
      ensures attempted == old(attempted) + 1
      ensures canaryAttempts == old(canaryAttempts) + One(source.StartsCanary())
    {
      attempted := attempted + 1;
      if source.StartsCanary() {
        canaryAttempts := canaryAttempts + 1;
      }
    }

    method RecordFailure(source: Source)
      modifies `failures, `partialResult, `canaryFailures
      ensures failures == old(failures) + 1 && partialResult
      ensures canaryFailures == old(canaryFailures) + One(source.IsCanary())
    {
      failures := failures + 1;
      partialResult := true;
      if source.IsCanary() {
        canaryFailures := canaryFailures + 1;
      }
    }

    /** After a dispatch of the traversal that was carried out but not yet counted by its kind. */
    ghost predicate Owing(kind: ActionKind, source: Source)
      reads this, phone, book
    {
      && Parts() && Limits() && book.Valid()
      && BooksBut(One(kind.InputText?), One(kind.Scroll?), One(kind.Back?), One(source.CanaryCarrier?))
      && book.inFlight == None && phone.tally.unsettled == 0 && lostSubmits == 0
      && failures < config.maxActionFailures && succeeded < attempted
    }

    /** A dispatch of the traversal within the budget. */
    method Attempt(kind: ActionKind, source: Source) returns (o: Outcome)
      requires Running() && attempted < config.maxActions && !kind.Navigation? && !source.CanaryDeepLink?
      requires source.IsCanary() && !source.StartsCanary() ==> canaryFailures < canaryAttempts
      modifies `attempted, `executedActions, `failures, `partialResult, `canaryAttempts, `canaryFailures
      modifies phone`clock, phone`woes, phone`tally
      ensures phone.clock >= old(phone.clock) && attempted == old(attempted) + 1
      ensures if o.Done? then Owing(kind, source) else Stalled(o)
      ensures canaryAttempts == old(canaryAttempts) + One(source.CanaryCarrier?)
      ensures o.Done? ==> canaryFailures == old(canaryFailures) && partialResult == old(partialResult)
      ensures phone.quiet.Some? ==> o.Done? && phone.clock == old(phone.clock)
      ensures failures == old(failures) + One(o.Fault?)
    {
      o := PerformAction(kind, source);
    }

    /** After a dispatch of the traversal that was not carried out, `o` being how it ended. */
    ghost predicate Stalled(o: Outcome)
      reads this, phone, book
    {
      && Valid() && book.inFlight == None && lostSubmits == 0
      && (o.Fault? || o.Cut? || o.Raised?) && phone.tally.unsettled == One(o.Cut? || o.Raised?)
      && OfOutcome(o) <= phone.woes
    }

    /** How the loop goes on after a dispatch whose outcome was `o`, once a device error was recovered from. */
    method Settle(o: Outcome) returns (flow: Flow)
      requires Stalled(o)
      modifies `ending, `refreshes, `partialResult, `current, watcher`retries, phone`clock, phone`woes, phone`seen
      modifies book`activities, book`links, book`pending
      ensures phone.clock >= old(phone.clock)
      ensures After(flow)
      ensures flow.Go? ==> phone.Showed(current) && o.Fault?
      ensures o.Cut? ==> flow.PastDeadline?
      ensures o.Raised? ==> flow.Escapes?
      ensures o.Fault? && old(failures) >= config.maxActionFailures ==> flow.Stop? && ending.ActionFailureLimit?
    {
      match o {
        case Fault => flow := RecoverActionFailure();
        case Cut => flow := PastDeadline;
        case _ => flow := Escapes;
      }
    }

    /** `recover_action_failure`. */
    method RecoverActionFailure() returns (flow: Flow)
      requires Valid() && phone.tally.unsettled == 0 && lostSubmits == 0
      modifies `ending, `refreshes, `partialResult, `current, watcher`retries, phone`clock, phone`woes, phone`seen
      modifies book`activities, book`links, book`pending
      ensures phone.clock >= old(phone.clock)
      ensures !flow.Escapes? ==> Valid()
      ensures Warranted(flow)
      ensures flow.Go? ==> failures < config.maxActionFailures
      ensures flow.Go? ==> refreshes == old(refreshes) + 1 && phone.Showed(current)
      ensures old(failures) >= config.maxActionFailures ==> flow.Stop? && ending.ActionFailureLimit?
      ensures flow.Stop? ==> book.pending == [] && !ending.Completed? && partialResult
    {
      if failures >= config.maxActionFailures {
        Halt(ActionFailureLimit);
        return Stop;
      }
      var o := watcher.WaitForUi(None);
      match o {
        case Seen(state) =>
          refreshes := refreshes + 1;
          current := state;
          flow := Go;
        case Unreadable =>
          StopFor(ActionRecoveryFailed);
          flow := Stop;
        case Late => flow := PastDeadline;
        case Outside => flow := OutOfPackage;
        case Broken => flow := Escapes;
      }
    }

    method StopFor(reason: Ending)
      requires Valid() && !reason.Completed?
      modifies `ending, `partialResult, book`activities, book`links, book`pending
      ensures partialResult
      ensures Valid() && book.pending == [] && ending == reason
    {
      partialResult := true;
      Halt(reason);
    }

    method Halt(reason: Ending)
      requires Valid()
      modifies `ending, book`activities, book`links, book`pending
      ensures Valid() && book.pending == [] && ending == reason
      ensures book.OnlyFlightAttempted() && (book.inFlight == None ==> book.NoneAttempted())
    {
      ending := reason;
      book.BlockPending();
    }

    /** `observe_after_action`: a process that died is started once more before the state is given up. */
    method ObserveAfterAction(previous: Option<string>) returns (flow: Flow, state: UiState)
      requires Valid() && phone.tally.unsettled == 0
      modifies `ending, `partialResult, `crashes, `restarts, `previousPid, watcher`retries, phone`clock, phone`woes,
          phone`seen
      modifies phone`launches
      modifies book`activities, book`links, book`pending
      ensures phone.clock >= old(phone.clock)
      ensures !flow.Escapes? ==> Valid()
      ensures Warranted(flow)
      ensures flow.Go? ==> phone.Showed(state)
      ensures flow.Stop? ==> book.pending == [] && ending !in {Completed, CoveragePlateau} && partialResult
      ensures Hushed(old(phone.clock)) ==>
                && flow.Go? && state == phone.quiet.value.screen && Mood() == old(Mood())
                && phone.clock <= old(phone.clock) + POLL_MS
      ensures crashes - phone.launches.tried == old(crashes - phone.launches.tried)
      ensures restarts - phone.launches.done == old(restarts - phone.launches.done)
      ensures phone.launches.tried >= old(phone.launches.tried)
    {
      state := current;
      var o := watcher.WaitForUi(previous);
      match o {
        case Seen(s) => flow, state := Go, s;
        case Late => flow := PastDeadline;
        case Broken => flow := Escapes;
        case _ => flow, state := AfterBlindness(o);
      }
    }

    /** No screen of the package was to be seen. */
    method AfterBlindness(o: Observation) returns (flow: Flow, state: UiState)
      requires Valid() && phone.tally.unsettled == 0 && (o.Outside? || o.Unreadable?)
      requires if o.Outside? then Elsewhere in phone.woes else Unread in phone.woes
      modifies `ending, `partialResult, `crashes, `restarts, `previousPid, watcher`retries
      modifies phone`clock, phone`woes, phone`seen
      modifies phone`launches
      modifies book`activities, book`links, book`pending
      ensures phone.clock >= old(phone.clock)
      ensures !flow.Escapes? ==> Valid()
      ensures Warranted(flow)
      ensures flow.Go? ==> phone.Showed(state)
      ensures flow.Stop? ==> book.pending == [] && ending !in {Completed, CoveragePlateau} && partialResult
      ensures crashes - phone.launches.tried == old(crashes - phone.launches.tried)
      ensures restarts - phone.launches.done == old(restarts - phone.launches.done)
      ensures phone.launches.tried >= old(phone.launches.tried)
    {
      state := current;
      if o.Outside? {
        flow, state := AfterBoundary();
      } else {
        StopFor(StateRefreshFailed);
        flow := Stop;
      }
    }

    /** Another package is in front: the process is still there, or has died and is started once more. */
    method AfterBoundary() returns (flow: Flow, state: UiState)
      requires Valid() && phone.tally.unsettled == 0 && Elsewhere in phone.woes
      modifies `ending, `partialResult, `crashes, `restarts, `previousPid, watcher`retries
      modifies phone`clock, phone`woes, phone`seen
      modifies phone`launches
      modifies book`activities, book`links, book`pending
      ensures phone.clock >= old(phone.clock)
      ensures !flow.Escapes? ==> Valid()
      ensures Warranted(flow)
      ensures flow.Go? ==> phone.Showed(state)
      ensures flow.Stop? ==> book.pending == [] && ending !in {Completed, CoveragePlateau} && partialResult
      ensures crashes - phone.launches.tried == old(crashes - phone.launches.tried)
      ensures restarts - phone.launches.done == old(restarts - phone.launches.done)
      ensures phone.launches.tried >= old(phone.launches.tried)
    {
      state := current;
      var alive := phone.ProcessId();
      match alive {
        case Running(_) => flow := OutOfPackage;
        case ProcessLate => flow := PastDeadline;
        case ProcessRaised => flow := Escapes;
        case ProcessFault =>
          StopFor(ProcessStateUnavailable);
          flow := Stop;
        case Absent => flow, state := RestartProcess();
      }
    }

    /** The same between two dispatches of the traversal. */
    method Watch(previous: Option<string>) returns (flow: Flow, state: UiState)
      requires Running()
      modifies `ending, `partialResult, `crashes, `restarts, `previousPid, watcher`retries, phone`clock, phone`woes,
          phone`seen
      modifies phone`launches
      modifies book`activities, book`links, book`pending
      ensures phone.clock >= old(phone.clock)
      ensures After(flow)
      ensures flow.Go? ==> phone.Showed(state)
      ensures flow.Stop? ==> !ending.CoveragePlateau?
      ensures Hushed(old(phone.clock)) ==>
                && flow.Go? && state == phone.quiet.value.screen && Mood() == old(Mood())
                && phone.clock <= old(phone.clock) + POLL_MS
      ensures crashes - phone.launches.tried == old(crashes - phone.launches.tried)
      ensures restarts - phone.launches.done == old(restarts - phone.launches.done)
      ensures phone.launches.tried >= old(phone.launches.tried)
    {
      flow, state := ObserveAfterAction(previous);
    }

    method RestartProcess() returns (flow: Flow, state: UiState)
      requires Valid() && phone.tally.unsettled == 0
      modifies `ending, `partialResult, `crashes, `restarts, `previousPid, watcher`retries, phone`clock, phone`woes,
          phone`seen
      modifies phone`launches
      modifies book`activities, book`links, book`pending
      ensures phone.clock >= old(phone.clock)
      ensures !flow.Escapes? ==> Valid()
      ensures Warranted(flow)
      ensures flow.Go? ==> phone.Showed(state)
      ensures flow.Stop? ==> book.pending == [] && ending !in {Completed, CoveragePlateau} && partialResult
      ensures !flow.OutOfPackage?
      ensures phone.launches.tried == old(phone.launches.tried) + 1
      ensures crashes == old(crashes) + 1
      ensures restarts - phone.launches.done == old(restarts - phone.launches.done)
    {
      crashes := crashes + 1;
      flow, state := Reopen();
      if flow.Stop? {
        StopFor(StateRefreshFailed);
      }
    }

    /** Starts the process and looks at its first screen. */
    method Reopen() returns (flow: Flow, state: UiState)
      requires Parts()
      modifies `restarts, `previousPid, watcher`retries, phone`clock, phone`woes, phone`seen
      modifies phone`launches
      ensures phone.clock >= old(phone.clock) && !flow.OutOfPackage?
      ensures flow.Go? ==> phone.Showed(state)
      ensures if flow.Stop? then Lost() else Warranted(flow)
      ensures phone.launches.tried == old(phone.launches.tried) + 1
      ensures restarts - phone.launches.done == old(restarts - phone.launches.done)
    {
      state := current;
      flow := Relaunch();
      if flow.Go? {
        var o := watcher.WaitForUi(None);
        match o {
          case Seen(s) => state := s;
          case Late => flow := PastDeadline;
          case Broken => flow := Escapes;
          case _ => flow := Stop;
        }
      }
    }

    method Relaunch() returns (flow: Flow)
      modifies `restarts, `previousPid, phone`clock, phone`woes
      modifies phone`launches
      ensures phone.clock >= old(phone.clock) && !flow.OutOfPackage?
      ensures if flow.Stop? then Lost() else Warranted(flow)
      ensures phone.launches.tried == old(phone.launches.tried) + 1
      ensures restarts - phone.launches.done == old(restarts - phone.launches.done)
    {
      var launch := phone.LaunchApp();
      match launch {
        case LaunchLate => flow := PastDeadline;
        case LaunchRaised => flow := Escapes;
        case Launched =>
          restarts := restarts + 1;
          var pid := phone.ProcessId();
          match pid {
            case ProcessLate => flow := PastDeadline;
            case ProcessRaised => flow := Escapes;
            case ProcessFault => flow := Stop;
            case Absent => flow, previousPid := Go, None;
            case Running(n) => flow, previousPid := Go, Some(n);
          }
        case _ => flow := Stop;
      }
    }

    /** `enter_input`. */
    method EnterInput(node: Node, state: UiState, source: Source) returns (o: Outcome)
      requires Running() && attempted < config.maxActions && !source.CanaryDeepLink?
      requires source.IsCanary() && !source.StartsCanary() ==> canaryFailures < canaryAttempts
      modifies `attempted, `executedActions, `failures, `partialResult, `canaryAttempts, `canaryFailures
      modifies `executed, `succeeded, `inputActions, `canaryInputs, `keyboardOpen
      modifies phone`clock, phone`woes, phone`tally
      ensures phone.clock >= old(phone.clock) && attempted == old(attempted) + 1
      ensures if o.Done? then Running() else Stalled(o)
      ensures !o.Done? ==> executed == old(executed) && keyboardOpen == old(keyboardOpen)
      ensures o.Done? ==> executed == old(executed) + {(state.fingerprint, node.identity)} && keyboardOpen
      ensures canaryAttempts == old(canaryAttempts) + One(source.CanaryCarrier?)
      ensures o.Done? ==> canaryFailures == old(canaryFailures)
      ensures failures == old(failures) + One(o.Fault?)
    {
      o := Attempt(InputText, source);
      if o.Done? {
        CountInput(node, state, source);
      }
    }

    method CountInput(node: Node, state: UiState, source: Source)
      modifies `executed, `succeeded, `inputActions, `canaryInputs, `keyboardOpen
      ensures executed == old(executed) + {(state.fingerprint, node.identity)} && keyboardOpen
      ensures succeeded == old(succeeded) + 1 && inputActions == old(inputActions) + 1
      ensures canaryInputs == old(canaryInputs) + One(source.CanaryCarrier?)
    {
      executed := executed + {(state.fingerprint, node.identity)};
      succeeded := succeeded + 1;
      inputActions := inputActions + 1;
      if source.CanaryCarrier? {
        canaryInputs := canaryInputs + 1;
      }
      keyboardOpen := true;
    }

    method HideTheKeyboard(source: Source) returns (o: Outcome)
      requires Running() && attempted < config.maxActions && !source.StartsCanary()
      requires source.IsCanary() ==> canaryFailures < canaryAttempts
      modifies `attempted, `executedActions, `failures, `partialResult, `canaryAttempts, `canaryFailures
      modifies `succeeded, `keyboardOpen
      modifies phone`clock, phone`woes, phone`tally
      ensures phone.clock >= old(phone.clock) && attempted == old(attempted) + 1 && !keyboardOpen
      ensures if o.Done? then Running() else Stalled(o)
      ensures canaryAttempts == old(canaryAttempts)
      ensures o.Done? ==> canaryFailures == old(canaryFailures)
      ensures failures == old(failures) + One(o.Fault?)
      ensures succeeded == old(succeeded) + One(o.Done?)
    {
      o := Attempt(HideKeyboard, source);
      keyboardOpen := false;
      if o.Done? {
        succeeded := succeeded + 1;
      }
    }

    // -------------------------------------------------------------- one iteration

    /** The inputs of the form have been entered and no keyboard covers what is to be tapped. */
    ghost predicate Filled(form: Form)
      reads this
    {
      && (current.fingerprint, form.carrier.identity) in executed
      && (form.supporting.Some? ==> (current.fingerprint, form.supporting.value.identity) in executed)
      && !keyboardOpen
    }

    /** The first `n` of these inputs have been entered. */
    ghost predicate Entered(nodes: seq<Node>, n: nat)
      requires n <= |nodes|
      reads `current, `executed
    {
      forall i :: 0 <= i < n ==> (current.fingerprint, nodes[i].identity) in executed
    }

    /** The inputs of a canary form; `filled` when the form is ready to be submitted. */
    method FillCanaryForm(form: Form) returns (filled: bool, flow: Flow)
      requires Running() && config.maxActions - attempted >= 3 + One(form.supporting.Some?)
      modifies `attempted, `executedActions, `failures, `partialResult, `canaryAttempts, `canaryFailures
      modifies `executed, `succeeded, `inputActions, `canaryInputs, `keyboardOpen, `ending, `refreshes, `current
      modifies watcher`retries, phone`clock, phone`woes, phone`tally, phone`seen, book`activities, book`links,
          book`pending
      ensures phone.clock >= old(phone.clock) && attempted > old(attempted)
      ensures filled ==> Running() && attempted < config.maxActions && current == old(current)
      ensures filled ==> canaryAttempts == old(canaryAttempts) + 1 && canaryFailures == old(canaryFailures)
      ensures !filled ==> After(flow)
      ensures filled ==> failures == old(failures)
      ensures !filled && flow.Go? ==> failures > old(failures) && phone.Showed(current)
      ensures filled ==> Filled(form)
      ensures canaryAttempts == old(canaryAttempts) + 1
    {
      var o := FillFields(form);
      filled, flow := o.Done?, Go;
      if !filled {
        flow := Settle(o);
      }
    }

    method FillFields(form: Form) returns (o: Outcome)
      requires Running() && config.maxActions - attempted >= 3 + One(form.supporting.Some?)
      modifies `attempted, `executedActions, `failures, `partialResult, `canaryAttempts, `canaryFailures
      modifies `executed, `succeeded, `inputActions, `canaryInputs, `keyboardOpen, phone`clock, phone`woes, phone`tally
      ensures phone.clock >= old(phone.clock) && attempted > old(attempted)
      ensures if o.Done? then Running() && attempted < config.maxActions else Stalled(o)
      ensures o.Done? ==> canaryAttempts == old(canaryAttempts) + 1 && canaryFailures == old(canaryFailures)
      ensures failures == old(failures) + One(o.Fault?)
      ensures o.Done? ==> Filled(form)
      ensures canaryAttempts == old(canaryAttempts) + 1
    {
      o := EnterInput(form.carrier, current, CanaryCarrier);
      if o.Done? {
        o := CompleteForm(form);
      }
    }

    /** The supporting input, and the keyboard out of the way. */
    method CompleteForm(form: Form) returns (o: Outcome)
      requires Running() && config.maxActions - attempted >= 2 + One(form.supporting.Some?)
      requires canaryFailures < canaryAttempts && (current.fingerprint, form.carrier.identity) in executed
      modifies `attempted, `executedActions, `failures, `partialResult, `canaryAttempts, `canaryFailures
      modifies `executed, `succeeded, `inputActions, `canaryInputs, `keyboardOpen, phone`clock, phone`woes, phone`tally
      ensures phone.clock >= old(phone.clock) && attempted >= old(attempted)
      ensures if o.Done? then Running() && attempted < config.maxActions && Filled(form) else Stalled(o)
      ensures canaryAttempts == old(canaryAttempts) && failures == old(failures) + One(o.Fault?)
      ensures o.Done? ==> canaryFailures == old(canaryFailures)
    {
      o := EnterSupport(form);
      if o.Done? {
        o := Uncover();
      }
    }

    method EnterSupport(form: Form) returns (o: Outcome)
      requires Running() && config.maxActions - attempted >= 2 + One(form.supporting.Some?)
      requires canaryFailures < canaryAttempts
      modifies `attempted, `executedActions, `failures, `partialResult, `canaryAttempts, `canaryFailures
      modifies `executed, `succeeded, `inputActions, `canaryInputs, `keyboardOpen, phone`clock, phone`woes, phone`tally
      ensures phone.clock >= old(phone.clock) && attempted >= old(attempted) && old(executed) <= executed
      ensures if o.Done? then Running() && config.maxActions - attempted >= 2 else Stalled(o)
      ensures canaryAttempts == old(canaryAttempts) && failures == old(failures) + One(o.Fault?)
      ensures o.Done? ==> canaryFailures == old(canaryFailures)
      ensures o.Done? && form.supporting.Some? ==> (current.fingerprint, form.supporting.value.identity) in executed
    {
      o := Done;
      if form.supporting.Some? && config.maxActions - attempted >= 3 {
        o := EnterInput(form.supporting.value, current, CanarySupport);
      }
    }

    method Uncover() returns (o: Outcome)
      requires Running() && config.maxActions - attempted >= 2 && canaryFailures < canaryAttempts
      modifies `attempted, `executedActions, `failures, `partialResult, `canaryAttempts, `canaryFailures
      modifies `succeeded, `keyboardOpen, phone`clock, phone`woes, phone`tally
      ensures phone.clock >= old(phone.clock) && attempted >= old(attempted)
      ensures if o.Done? then Running() && attempted < config.maxActions && !keyboardOpen else Stalled(o)
      ensures canaryAttempts == old(canaryAttempts) && failures == old(failures) + One(o.Fault?)
      ensures o.Done? ==> canaryFailures == old(canaryFailures)
      ensures attempted == old(attempted) + One(old(keyboardOpen))
    {
      o := Done;
      if keyboardOpen && config.maxActions - attempted >= 2 {
        o := HideTheKeyboard(CanarySupport);
      }
    }

    /** A second try of an action that did nothing, after filling the inputs near it; `done` when it came to an end. */
    method RetryWithInputs(action: Candidate, nodes: seq<Node>, before: UiState)
      returns (done: bool, flow: Flow, state: UiState)
      requires Running() && attempted < config.maxActions && action.kind in {Tap, LongTap}
      requires phone.Showed(before)
      modifies `attempted, `executedActions, `failures, `partialResult, `canaryAttempts, `canaryFailures
      modifies `executed, `succeeded, `inputActions, `canaryInputs, `keyboardOpen, `ending, `refreshes, `current
      modifies `crashes, `restarts, `previousPid, `idlePlateau
      modifies watcher`retries, phone`clock, phone`woes, phone`tally, phone`seen, book`activities, book`links,
          book`pending
      modifies phone`launches
      ensures phone.clock >= old(phone.clock) && attempted >= old(attempted)
      ensures done ==> Running() && current == old(current)
      ensures !done ==> After(flow)
      ensures done ==> failures == old(failures) && phone.Showed(state)
      ensures !done && flow.Go? ==> failures > old(failures) && phone.Showed(current)
      ensures nodes != [] ==> attempted > old(attempted)
    {
      var o := FillNearby(nodes);
      done, flow, state := TapFilled(o, action, before);
    }

    /** With the inputs filled: the second tap, if there is an action left for it. */
    method TapFilled(o: Outcome, action: Candidate, before: UiState)
      returns (done: bool, flow: Flow, state: UiState)
      requires if o.Done? then Running() else Stalled(o)
      requires action.kind in {Tap, LongTap} && phone.Showed(before)
      modifies `attempted, `executedActions, `failures, `partialResult, `canaryAttempts, `canaryFailures
      modifies `succeeded, `ending, `refreshes, `current, `crashes, `restarts, `previousPid, `idlePlateau
      modifies watcher`retries, phone`clock, phone`woes, phone`tally, phone`seen, book`activities, book`links,
          book`pending
      modifies phone`launches
      ensures phone.clock >= old(phone.clock) && attempted >= old(attempted)
      ensures done ==> Running() && current == old(current)
      ensures !done ==> After(flow)
      ensures done ==> o.Done? && failures == old(failures) && phone.Showed(state)
      ensures !done && flow.Go? ==> phone.Showed(current) && failures >= old(failures) + One(o.Done?)
      ensures !done && flow.Go? && !o.Done? ==> o.Fault?
      ensures o.Done? && old(attempted) < config.maxActions ==> attempted > old(attempted)
    {
      done, flow, state := true, Go, before;
      if !o.Done? {
        done := false;
        flow := Settle(o);
      } else if attempted < config.maxActions {
        done, flow, state := TapAgain(action);
      }
    }

    /** Fills the inputs and hides the keyboard, as far as the budget goes. */
    method FillNearby(nodes: seq<Node>) returns (o: Outcome)
      requires Running()
      modifies `attempted, `executedActions, `failures, `partialResult, `canaryAttempts, `canaryFailures
      modifies `executed, `succeeded, `inputActions, `canaryInputs, `keyboardOpen, phone`clock, phone`woes, phone`tally
      ensures phone.clock >= old(phone.clock) && attempted >= old(attempted)
      ensures if o.Done? then Running() else Stalled(o)
      ensures failures == old(failures) + One(o.Fault?)
      ensures o.Done? ==> attempted == config.maxActions || (Entered(nodes, |nodes|) && !keyboardOpen)
      ensures attempted <= old(attempted) + |nodes| + 1
      ensures nodes != [] && old(attempted) < config.maxActions ==> attempted > old(attempted)
    {
      o := EnterEach(nodes);
      if o.Done? && keyboardOpen && attempted < config.maxActions {
        o := HideTheKeyboard(FormRetry);
      }
    }

    method EnterEach(nodes: seq<Node>) returns (o: Outcome)
      requires Running()
      modifies `attempted, `executedActions, `failures, `partialResult, `canaryAttempts, `canaryFailures
      modifies `executed, `succeeded, `inputActions, `canaryInputs, `keyboardOpen, phone`clock, phone`woes, phone`tally
      ensures phone.clock >= old(phone.clock) && attempted >= old(attempted)
      ensures if o.Done? then Running() else Stalled(o)
      ensures failures == old(failures) + One(o.Fault?)
      ensures o.Done? ==> attempted == config.maxActions || Entered(nodes, |nodes|)
      ensures attempted <= old(attempted) + |nodes|
      ensures nodes != [] && old(attempted) < config.maxActions ==> attempted > old(attempted)
    {
      o := Done;
      var i := 0;
      while i < |nodes| && o.Done? && attempted < config.maxActions
        invariant phone.clock >= old(phone.clock)
        invariant 0 <= i <= |nodes| && (i == 0 ==> o.Done?) && attempted == old(attempted) + i &&
                  (o.Done? ==> Entered(nodes, i))
        invariant if o.Done? then Running() else Stalled(o)
        invariant failures == old(failures) + One(o.Fault?)
      {
        o := EnterNext(nodes, i);
        i := i + 1;
      }
    }

    method EnterNext(nodes: seq<Node>, i: nat) returns (o: Outcome)
      requires Running() && i < |nodes| && attempted < config.maxActions && Entered(nodes, i)
      modifies `attempted, `executedActions, `failures, `partialResult, `canaryAttempts, `canaryFailures
      modifies `executed, `succeeded, `inputActions, `canaryInputs, `keyboardOpen, phone`clock, phone`woes, phone`tally
      ensures phone.clock >= old(phone.clock) && attempted == old(attempted) + 1
      ensures if o.Done? then Running() && Entered(nodes, i + 1) else Stalled(o)
      ensures failures == old(failures) + One(o.Fault?)
    {
      o := EnterInput(nodes[i], current, FormRetry);
    }

    method TapAgain(action: Candidate) returns (done: bool, flow: Flow, state: UiState)
      requires Running() && attempted < config.maxActions && action.kind in {Tap, LongTap}
      modifies `attempted, `executedActions, `failures, `partialResult, `canaryAttempts, `canaryFailures
      modifies `succeeded, `ending, `refreshes, `current, `crashes, `restarts, `previousPid, `idlePlateau
      modifies watcher`retries, phone`clock, phone`woes, phone`tally, phone`seen, book`activities, book`links,
          book`pending
      modifies phone`launches
      ensures phone.clock >= old(phone.clock) && attempted >= old(attempted)
      ensures attempted > old(attempted)
      ensures done ==> Running() && current == old(current)
      ensures !done ==> After(flow)
      ensures done ==> failures == old(failures) && phone.Showed(state)
      ensures !done && flow.Go? ==> failures > old(failures) && phone.Showed(current)
    {
      var o := Press(action, FormRetry);
      done, flow, state := AfterSecondTap(o);
    }

    method AfterSecondTap(o: Outcome) returns (done: bool, flow: Flow, state: UiState)
      requires if o.Done? then Running() && succeeded < attempted else Stalled(o)
      modifies `succeeded, `ending, `refreshes, `current, `crashes, `restarts, `previousPid, `idlePlateau,
          `partialResult
      modifies watcher`retries, phone`clock, phone`woes, phone`seen, book`activities, book`links, book`pending
      modifies phone`launches
      ensures phone.clock >= old(phone.clock)
      ensures done ==> Running() && current == old(current) && o.Done? && phone.Showed(state)
      ensures !done ==> After(flow)
      ensures !done && flow.Go? ==> o.Fault? && phone.Showed(current)
    {
      done, flow, state := false, Go, current;
      if o.Done? {
        flow, state := ObserveEffect(current.fingerprint);
        done := flow.Go?;
      } else {
        flow := Settle(o);
      }
    }

    /** Looks at what a repeated tap did and counts it as a success if anything changed. */
    method ObserveEffect(previous: string) returns (flow: Flow, state: UiState)
      requires Running() && succeeded < attempted
      modifies `succeeded, `ending, `partialResult, `crashes, `restarts, `previousPid, `idlePlateau
      modifies watcher`retries, phone`clock, phone`woes, phone`seen, book`activities, book`links, book`pending
      modifies phone`launches
      ensures phone.clock >= old(phone.clock)
      ensures After(flow)
      ensures flow.Go? ==> phone.Showed(state)
      ensures succeeded <= old(succeeded) + 1 &&
              (flow.Go? && state.fingerprint != previous ==> succeeded > old(succeeded))
    {
      flow, state := Watch(Some(previous));
      if flow.Go? {
        var _ := Appraise(previous, state);
      }
    }

    /** Whether a tap did anything: another screen, or new runtime feedback. */
    method Appraise(previous: string, state: UiState) returns (effective: bool)
      requires Running() && succeeded < attempted
      modifies `succeeded, `idlePlateau, phone`clock, phone`woes
      ensures Running() && phone.clock >= old(phone.clock)
      ensures state.fingerprint != previous ==> effective
      ensures succeeded == old(succeeded) + One(effective)
    {
      var yielded := phone.Observe();
      effective := state.fingerprint != previous || yielded;
      Credit(effective);
    }

    method Credit(effective: bool)
      modifies `succeeded, `idlePlateau
      ensures succeeded == old(succeeded) + One(effective)
      ensures idlePlateau == if effective then 0 else old(idlePlateau)
    {
      if effective {
        succeeded := succeeded + 1;
        idlePlateau := 0;
      }
    }

    /** The history after a tap from `before`: a new screen is entered from the old one, unless a dispatch failed. */
    ghost predicate Followed(trail: seq<string>, before: UiState, failuresBefore: nat)
      reads `history, `current, `failures
    {
      history == if failures == failuresBefore && current.fingerprint != before.fingerprint
                 then trail + [before.fingerprint] else trail
    }

    /** A tap chosen by the traversal, submitted as a canary form where one is on screen. */
    method TapStep(action: Candidate) returns (flow: Flow)
      requires Running() && attempted < config.maxActions && |history| < config.maxDepth &&
               action.kind in {Tap, LongTap}
      modifies `attempted, `executedActions, `failures, `partialResult, `canaryAttempts, `canaryFailures
      modifies `executed, `succeeded, `inputActions, `canaryInputs, `keyboardOpen, `ending, `refreshes, `current
      modifies `crashes, `restarts, `previousPid, `idlePlateau, `formPending, `canarySkips, `canaryDeliveries
      modifies `retried, `formRetries, `history, `lostSubmits
      modifies watcher`retries, phone`clock, phone`woes, phone`tally, phone`seen, book`activities, book`links,
          book`pending
      modifies phone`launches
      ensures phone.clock >= old(phone.clock) && attempted > old(attempted)
      ensures After(flow)
      ensures flow.Go? ==> phone.Showed(current) && Followed(old(history), old(current), old(failures))
    {
      var ready, delivering;
      ready, delivering, flow := PrepareSubmit(action);
      if ready {
        flow := PressAndFollow(action, delivering);
      }
    }

    method PressAndFollow(action: Candidate, delivering: bool) returns (flow: Flow)
      requires Running() && attempted < config.maxActions && |history| < config.maxDepth &&
               action.kind in {Tap, LongTap}
      requires delivering ==> canaryFailures < canaryAttempts && canaryDeliveries < canaryAttempts
      modifies `attempted, `executedActions, `failures, `partialResult, `canaryAttempts, `canaryFailures
      modifies `executed, `succeeded, `inputActions, `canaryInputs, `keyboardOpen, `ending, `refreshes, `current
      modifies `crashes, `restarts, `previousPid, `idlePlateau, `canaryDeliveries
      modifies `retried, `formRetries, `history, `lostSubmits
      modifies watcher`retries, phone`clock, phone`woes, phone`tally, phone`seen, book`activities, book`links,
          book`pending
      modifies phone`launches
      ensures phone.clock >= old(phone.clock) && attempted > old(attempted)
      ensures After(flow)
      ensures flow.Go? ==> phone.Showed(current) && Followed(old(history), old(current), old(failures))
    {
      var previous := current.fingerprint;
      var o := Press(action, if delivering then CanarySubmit else NoSource);
      if o.Done? {
        flow := AfterTap(action, previous, delivering);
      } else {
        flow := Settle(o);
      }
    }

    method Press(action: Candidate, source: Source) returns (o: Outcome)
      requires Running() && attempted < config.maxActions && action.kind in {Tap, LongTap}
      requires source in {NoSource, FormRetry, CanarySubmit}
      requires source.CanarySubmit? ==> canaryFailures < canaryAttempts && canaryDeliveries < canaryAttempts
      modifies `attempted, `executedActions, `failures, `partialResult, `canaryAttempts, `canaryFailures
      modifies phone`clock, phone`woes, phone`tally
      ensures phone.clock >= old(phone.clock) && attempted == old(attempted) + 1
      ensures if o.Done? then Running() && succeeded < attempted else Stalled(o)
      ensures o.Done? && source.CanarySubmit? ==> canaryFailures < canaryAttempts && canaryDeliveries < canaryAttempts
      ensures failures == old(failures) + One(o.Fault?)
    {
      o := Attempt(action.kind, source);
    }

    /** The canary form that a tap of the action would submit. */
    function FormFor(action: Candidate): Option<Form>
      reads `current, `executed
    {
      if config.canaryDelivery && hasCanary then phone.heuristics.form(current, action, executed) else None
    }

    /** The budget has room for all of the form and its submission. */
    function HasRoom(form: Form): bool
      reads `attempted
    {
      attempted + 3 + One(form.supporting.Some?) <= config.maxActions
    }

    /** `ready` unless filling the form failed; `delivering` when a filled form waits to be submitted. */
    method PrepareSubmit(action: Candidate) returns (ready: bool, delivering: bool, flow: Flow)
      requires Running() && attempted < config.maxActions
      modifies `attempted, `executedActions, `failures, `partialResult, `canaryAttempts, `canaryFailures
      modifies `executed, `succeeded, `inputActions, `canaryInputs, `keyboardOpen, `ending, `refreshes, `current
      modifies `formPending, `canarySkips
      modifies watcher`retries, phone`clock, phone`woes, phone`tally, phone`seen, book`activities, book`links,
          book`pending
      ensures phone.clock >= old(phone.clock) && attempted >= old(attempted)
      ensures ready ==> Running() && attempted < config.maxActions && current == old(current)
      ensures ready && delivering ==> canaryFailures < canaryAttempts && canaryDeliveries < canaryAttempts
      ensures !ready ==> attempted > old(attempted) && After(flow)
      ensures ready ==> failures == old(failures)
      ensures !ready && flow.Go? ==> failures > old(failures) && phone.Showed(current)
      ensures old(FormFor(action)) == None ==>
                ready && !delivering && attempted == old(attempted) && formPending == old(formPending)
                && canaryAttempts == old(canaryAttempts) && canarySkips == old(canarySkips)
      ensures var form := old(FormFor(action));
              form.Some? ==>
                && !formPending && (ready ==> (delivering <==> old(HasRoom(form.value))))
                && canaryAttempts == old(canaryAttempts) + One(old(HasRoom(form.value)))
                && canarySkips == old(canarySkips) + One(!old(HasRoom(form.value)))
                && (delivering ==> ready && Filled(form.value))
    {
      ready, delivering, flow := true, false, Go;
      var form: Option<Form> := None;
      if config.canaryDelivery {
        form := phone.heuristics.form(current, action, executed);
      }
      if hasCanary && form.Some? {
        ready, delivering, flow := TryForm(form.value);
      }
    }

    /** Fills in the form if the budget has room for all of it and its submission. */
    method TryForm(form: Form) returns (ready: bool, delivering: bool, flow: Flow)
      requires Running() && attempted < config.maxActions
      modifies `attempted, `executedActions, `failures, `partialResult, `canaryAttempts, `canaryFailures
      modifies `executed, `succeeded, `inputActions, `canaryInputs, `keyboardOpen, `ending, `refreshes, `current
      modifies `formPending, `canarySkips
      modifies watcher`retries, phone`clock, phone`woes, phone`tally, phone`seen, book`activities, book`links,
          book`pending
      ensures phone.clock >= old(phone.clock) && attempted >= old(attempted)
      ensures ready ==> Running() && attempted < config.maxActions && current == old(current)
      ensures ready && delivering ==> canaryFailures < canaryAttempts && canaryDeliveries < canaryAttempts
      ensures !ready ==> attempted > old(attempted) && After(flow)
      ensures delivering ==> ready && !formPending
      ensures ready ==> failures == old(failures)
      ensures !ready && flow.Go? ==> failures > old(failures) && phone.Showed(current)
      ensures !formPending && (ready ==> (delivering <==> old(HasRoom(form))))
      ensures canaryAttempts == old(canaryAttempts) + One(old(HasRoom(form)))
      ensures canarySkips == old(canarySkips) + One(!old(HasRoom(form)))
      ensures delivering ==> Filled(form)
    {
      ready, delivering, flow := true, false, Go;
      var room := config.maxActions - attempted >= 3 + One(form.supporting.Some?);
      MeetForm(room);
      if room {
        delivering, flow := FillCanaryForm(form);
        ready := delivering;
      }
    }

    /** A form was found: it is awaited no longer, and skipped if there is no room for it. */
    method MeetForm(room: bool)
      modifies `formPending, `canarySkips
      ensures !formPending && canarySkips == old(canarySkips) + One(!room)
    {
      formPending := false;
      if !room {
        canarySkips := canarySkips + 1;
      }
    }

    method MoveOn(previous: string, state: UiState)
      requires Running() && |history| < config.maxDepth
      modifies `history, `current
      ensures Running() && current == state
      ensures history == if state.fingerprint != previous then old(history) + [previous] else old(history)
    {
      if state.fingerprint != previous {
        history := history + [previous];
      }
      current := state;
    }

    method RetryOnce(action: Candidate, nodes: seq<Node>, before: UiState)
      returns (done: bool, flow: Flow, state: UiState)
      requires Running() && action.kind in {Tap, LongTap}
      requires phone.Showed(before)
      modifies `attempted, `executedActions, `failures, `partialResult, `canaryAttempts, `canaryFailures
      modifies `executed, `succeeded, `inputActions, `canaryInputs, `keyboardOpen, `ending, `refreshes, `current
      modifies `crashes, `restarts, `previousPid, `idlePlateau, `retried, `formRetries
      modifies watcher`retries, phone`clock, phone`woes, phone`tally, phone`seen, book`activities, book`links,
          book`pending
      modifies phone`launches
      ensures phone.clock >= old(phone.clock) && attempted >= old(attempted)
      ensures done ==> Running() && current == old(current)
      ensures !done ==> After(flow)
      ensures nodes != [] && old(attempted) < config.maxActions ==>
                retried == old(retried) + {(old(current).fingerprint, action.identity)} &&
                    formRetries == old(formRetries) + 1
      ensures nodes == [] || old(attempted) >= config.maxActions ==>
                retried == old(retried) && formRetries == old(formRetries)
      ensures done ==> failures == old(failures) && phone.Showed(state)
      ensures !done && flow.Go? ==> failures > old(failures) && phone.Showed(current)
      ensures nodes != [] && old(attempted) < config.maxActions ==> attempted > old(attempted)
      ensures nodes == [] || old(attempted) >= config.maxActions ==> done && attempted == old(attempted)
    {
      done, flow, state := true, Go, before;
      if nodes != [] && attempted < config.maxActions {
        retried := retried + {(current.fingerprint, action.identity)};
        formRetries := formRetries + 1;
        done, flow, state := RetryWithInputs(action, nodes, before);
      }
    }

    method ObserveTap(previous: string, delivering: bool) returns (flow: Flow, state: UiState)
      requires Running()
      requires delivering ==> canaryFailures < canaryAttempts && canaryDeliveries < canaryAttempts
      modifies `partialResult, `canaryFailures, `ending, `crashes, `restarts, `previousPid
      modifies `canaryDeliveries, `lostSubmits
      modifies watcher`retries, phone`clock, phone`woes, phone`seen, book`activities, book`links, book`pending
      modifies phone`launches
      ensures phone.clock >= old(phone.clock)
      ensures After(flow)
      ensures canaryDeliveries == old(canaryDeliveries) + One(delivering && flow.Go?)
      ensures canaryFailures == old(canaryFailures) + One(delivering && flow.Stop?)
      ensures flow.Go? ==> phone.Showed(state)
    {
      flow, state := Watch(Some(previous));
      if delivering {
        CountDelivery(flow);
      }
    }

    method CountDelivery(flow: Flow)
      modifies `canaryFailures, `canaryDeliveries, `lostSubmits
      ensures canaryDeliveries == old(canaryDeliveries) + One(flow.Go?)
      ensures canaryFailures == old(canaryFailures) + One(flow.Stop?)
      ensures lostSubmits == if flow.Stop? then 1 else old(lostSubmits)
    {
      if flow.Stop? {
        canaryFailures := canaryFailures + 1;
        lostSubmits := 1;
      }
      if flow.Go? {
        canaryDeliveries := canaryDeliveries + 1;
      }
    }

    method AfterTap(action: Candidate, previous: string, delivering: bool) returns (flow: Flow)
      requires Running() && succeeded < attempted && |history| < config.maxDepth && action.kind in {Tap, LongTap}
      requires delivering ==> canaryFailures < canaryAttempts && canaryDeliveries < canaryAttempts
      requires previous == current.fingerprint
      modifies `attempted, `executedActions, `failures, `partialResult, `canaryAttempts, `canaryFailures
      modifies `executed, `succeeded, `inputActions, `canaryInputs, `keyboardOpen, `ending, `refreshes, `current
      modifies `crashes, `restarts, `previousPid, `idlePlateau, `canaryDeliveries
      modifies `retried, `formRetries, `history, `lostSubmits
      modifies watcher`retries, phone`clock, phone`woes, phone`tally, phone`seen, book`activities, book`links,
          book`pending
      modifies phone`launches
      ensures phone.clock >= old(phone.clock) && attempted >= old(attempted)
      ensures After(flow)
      ensures flow.Go? ==> phone.Showed(current) && Followed(old(history), old(current), old(failures))
    {
      var state;
      flow, state := ObserveTap(previous, delivering);
      if !flow.Go? {
        return;
      }
      var effective := Appraise(previous, state);
      flow := GoOn(action, previous, state, effective);
    }

    /** There are inputs near the action to be filled, and there is an action left. */
    function RetryDue(action: Candidate): bool
      reads `current, `executed, `attempted
    {
      phone.InputsNear(current, action, executed) != [] && attempted < config.maxActions
    }

    /** The tap worked, or is none that a retry would help, or was retried before. */
    predicate Settled(action: Candidate, previous: string, effective: bool, tried: set<Pick>) {
      effective || !action.semantic || (previous, action.identity) in tried
    }

    /** A retry was counted and made exactly if it was due. */
    ghost predicate Retries(due: bool, attemptedBefore: nat, retriesBefore: nat)
      reads `attempted, `formRetries
    {
      formRetries == retriesBefore + One(due) &&
          (if due then attempted > attemptedBefore else attempted == attemptedBefore)
    }

    /** On to the screen seen after the tap, or another try of a tap that did nothing. */
    method GoOn(action: Candidate, previous: string, state: UiState, effective: bool) returns (flow: Flow)
      requires Running() && |history| < config.maxDepth && action.kind in {Tap, LongTap}
      requires phone.Showed(state) && previous == current.fingerprint
      modifies `attempted, `executedActions, `failures, `partialResult, `canaryAttempts, `canaryFailures
      modifies `executed, `succeeded, `inputActions, `canaryInputs, `keyboardOpen, `ending, `refreshes, `current
      modifies `crashes, `restarts, `previousPid, `idlePlateau, `retried, `formRetries, `history
      modifies watcher`retries, phone`clock, phone`woes, phone`tally, phone`seen, book`activities, book`links,
          book`pending
      modifies phone`launches
      ensures phone.clock >= old(phone.clock) && attempted >= old(attempted)
      ensures After(flow)
      ensures flow.Go? ==> phone.Showed(current) && Followed(old(history), old(current), old(failures))
      ensures Retries(old(RetryDue(action)) && !Settled(action, previous, effective, old(retried)), old(attempted),
                      old(formRetries))
    {
      if effective || !action.semantic || (previous, action.identity) in retried {
        MoveOn(previous, state);
        flow := Go;
      } else {
        flow := AfterIdleTap(action, previous, state);
      }
    }

    /** A tap that did nothing is tried once more with the inputs near it filled in. */
    method AfterIdleTap(action: Candidate, previous: string, before: UiState) returns (flow: Flow)
      requires Running() && |history| < config.maxDepth && action.kind in {Tap, LongTap}
      requires phone.Showed(before) && previous == current.fingerprint
      modifies `attempted, `executedActions, `failures, `partialResult, `canaryAttempts, `canaryFailures
      modifies `executed, `succeeded, `inputActions, `canaryInputs, `keyboardOpen, `ending, `refreshes, `current
      modifies `crashes, `restarts, `previousPid, `idlePlateau, `retried, `formRetries, `history
      modifies watcher`retries, phone`clock, phone`woes, phone`tally, phone`seen, book`activities, book`links,
          book`pending
      modifies phone`launches
      ensures phone.clock >= old(phone.clock) && attempted >= old(attempted)
      ensures After(flow)
      ensures flow.Go? ==> phone.Showed(current) && Followed(old(history), old(current), old(failures))
      ensures Retries(old(RetryDue(action)), old(attempted), old(formRetries))
    {
      var nodes := phone.InputsNear(current, action, executed);
      var done, state;
      done, flow, state := RetryOnce(action, nodes, before);
      if done {
        MoveOn(previous, state);
        flow := Go;
      }
    }

    ghost predicate Blocked(c: Candidate)
      reads `history, `current, `executedMenus, `executed
    {
      || (|history| >= config.maxDepth && !c.kind.InputText?)
      || c.repeatsTitle
      || (c.opensMenu && (current.fingerprint, c.menuLabel) in executedMenus)
      || (current.fingerprint, c.identity) in executed
    }

    /** How many of the first `n` candidates repeat something; being too deep is no repetition. */
    ghost function Repeats(queue: seq<Candidate>, n: nat): nat
      requires n <= |queue|
      reads `history, `current, `executedMenus, `executed
    {
      if n == 0 then 0
      else
        var c := queue[n - 1];
        Repeats(queue, n - 1) + One(Blocked(c) && (|history| < config.maxDepth || c.kind.InputText?))
    }

    /** The first candidate of the queue that is neither too deep nor a repetition. */
    method PickAction(queue: seq<Candidate>) returns (pick: Option<Candidate>)
      modifies `duplicatesAvoided
      ensures pick == None ==> forall c :: c in queue ==> Blocked(c)
      ensures (forall c :: c in queue ==> c.repeatsTitle) ==> pick == None
      ensures pick == None ==> duplicatesAvoided == old(duplicatesAvoided) + Repeats(queue, |queue|)
      ensures pick.Some? ==>
                exists i :: 0 <= i < |queue| && queue[i] == pick.value && !Blocked(queue[i])
                            && (forall j :: 0 <= j < i ==> Blocked(queue[j]))
                            && duplicatesAvoided == old(duplicatesAvoided) + Repeats(queue, i)
    {
      for i := 0 to |queue|
        invariant forall j :: 0 <= j < i ==> Blocked(queue[j])
        invariant duplicatesAvoided == old(duplicatesAvoided) + Repeats(queue, i)
      {
        var c := queue[i];
        if |history| >= config.maxDepth && !c.kind.InputText? {
          continue;
        }
        if c.repeatsTitle {
          duplicatesAvoided := duplicatesAvoided + 1;
          continue;
        }
        if c.opensMenu && (current.fingerprint, c.menuLabel) in executedMenus {
          duplicatesAvoided := duplicatesAvoided + 1;
          continue;
        }
        if (current.fingerprint, c.identity) !in executed {
          return Some(c);
        }
        duplicatesAvoided := duplicatesAvoided + 1;
      }
      pick := None;
    }

    /** Carries out a picked action, after hiding an open keyboard that would be in its way. */
    method ActionStep(action: Candidate) returns (flow: Flow)
      requires Running() && attempted < config.maxActions && !Blocked(action) && Touchable(action)
      modifies `attempted, `executedActions, `failures, `partialResult, `canaryAttempts, `canaryFailures
      modifies `executed, `succeeded, `inputActions, `canaryInputs, `keyboardOpen, `ending, `refreshes, `current
      modifies `crashes, `restarts, `previousPid, `idlePlateau, `formPending, `canarySkips, `canaryDeliveries
      modifies `retried, `formRetries, `history, `lostSubmits, `picks, `executedMenus
      modifies watcher`retries, phone`clock, phone`woes, phone`tally, phone`seen, book`activities, book`links,
          book`pending
      modifies phone`launches
      ensures phone.clock >= old(phone.clock) && attempted > old(attempted)
      ensures After(flow)
      ensures picks == old(picks) || picks == old(picks) + [(old(current).fingerprint, action.identity)]
      ensures old(keyboardOpen) && !action.kind.InputText? <==> picks == old(picks)
      ensures flow.Go? ==>
                if action.kind.InputText? then
                  && history == old(history)
                  && (phone.Showed(current) || (current == old(current) && phone.seen == old(phone.seen)))
                else if old(keyboardOpen) then history == old(history) && phone.Showed(current)
                else phone.Showed(current) && Followed(old(history), old(current), old(failures))
    {
      if keyboardOpen && !action.kind.InputText? {
        flow := ClearTheScreen();
      } else {
        Choose(action);
        flow := CarryOut(action);
      }
    }

    method CarryOut(action: Candidate) returns (flow: Flow)
      requires Running() && attempted < config.maxActions && Touchable(action)
      requires !action.kind.InputText? ==> |history| < config.maxDepth
      modifies `attempted, `executedActions, `failures, `partialResult, `canaryAttempts, `canaryFailures
      modifies `executed, `succeeded, `inputActions, `canaryInputs, `keyboardOpen, `ending, `refreshes, `current
      modifies `crashes, `restarts, `previousPid, `idlePlateau, `formPending, `canarySkips, `canaryDeliveries
      modifies `retried, `formRetries, `history, `lostSubmits
      modifies watcher`retries, phone`clock, phone`woes, phone`tally, phone`seen, book`activities, book`links,
          book`pending
      modifies phone`launches
      ensures phone.clock >= old(phone.clock) && attempted > old(attempted)
      ensures After(flow)
      ensures flow.Go? ==>
                if action.kind.InputText? then
                  && history == old(history)
                  && (phone.Showed(current) || (current == old(current) && phone.seen == old(phone.seen)))
                else phone.Showed(current) && Followed(old(history), old(current), old(failures))
    {
      if action.kind.InputText? {
        flow := TypeInto(Node(action.identity));
      } else {
        flow := TapStep(action);
      }
    }

    method TypeInto(node: Node) returns (flow: Flow)
      requires Running() && attempted < config.maxActions
      modifies `attempted, `executedActions, `failures, `partialResult, `canaryAttempts, `canaryFailures
      modifies `executed, `succeeded, `inputActions, `canaryInputs, `keyboardOpen, `ending, `refreshes, `current
      modifies watcher`retries, phone`clock, phone`woes, phone`tally, phone`seen, book`activities, book`links,
          book`pending
      ensures phone.clock >= old(phone.clock) && attempted == old(attempted) + 1
      ensures After(flow)
      ensures failures == old(failures) && flow.Go? ==> current == old(current) && phone.seen == old(phone.seen)
      ensures failures != old(failures) && flow.Go? ==> phone.Showed(current)
    {
      var o := EnterInput(node, current, Traversal);
      flow := Go;
      if !o.Done? {
        flow := Settle(o);
      }
    }

    /** Hides the keyboard and looks at the screen again. */
    method ClearTheScreen() returns (flow: Flow)
      requires Running() && attempted < config.maxActions
      modifies `attempted, `executedActions, `failures, `partialResult, `canaryAttempts, `canaryFailures
      modifies `succeeded, `keyboardOpen, `ending, `refreshes, `current, `crashes, `restarts, `previousPid, `idlePlateau
      modifies watcher`retries, phone`clock, phone`woes, phone`tally, phone`seen, book`activities, book`links,
          book`pending
      modifies phone`launches
      ensures phone.clock >= old(phone.clock) && attempted == old(attempted) + 1
      ensures After(flow)
      ensures flow.Go? ==> phone.Showed(current)
    {
      idlePlateau := 0;
      var previous := current.fingerprint;
      var o := HideTheKeyboard(NoSource);
      if o.Done? {
        flow := LookAgain(Some(previous));
      } else {
        flow := Settle(o);
      }
    }

    method Choose(action: Candidate)
      requires Running() && !Blocked(action)
      modifies `executed, `executedMenus, `picks, `idlePlateau
      ensures Running() && picks == old(picks) + [(current.fingerprint, action.identity)]
      ensures executed == old(executed) + {(current.fingerprint, action.identity)}
      ensures executedMenus ==
              old(executedMenus) + if action.opensMenu then {(current.fingerprint, action.menuLabel)} else {}
      ensures idlePlateau == 0
    {
      idlePlateau := 0;
      executed := executed + {(current.fingerprint, action.identity)};
      picks := picks + [(current.fingerprint, action.identity)];
      if action.opensMenu {
        executedMenus := executedMenus + {(current.fingerprint, action.menuLabel)};
      }
    }

    /** The status of a target that was started without an error, by the screen seen afterwards. */
    function AfterOpening(nav: Nav, seen: UiState): NavStatus {
      if nav.kind.Activity? && nav.expected != Some(seen.activity) then NavStatus.Blocked else Opened
    }

    /** The status that says how an attempt went which the run survived. */
    ghost predicate Recorded(nav: Nav, o: Outcome, status: NavStatus)
      reads phone`seen, `current
    {
      match o
      case Done => phone.seen != [] && status == AfterOpening(nav, phone.seen[|phone.seen| - 1])
      case Denied => status.PermissionDenied?
      case Rejected => status.Blocked?
      case Fault => status == if nav.expected == Some(current.activity) then Opened else OutcomeUnknown
      case _ => false
    }

    /** While `nav` is being tried. */
    ghost predicate InTransit(nav: Nav)
      reads this, phone, book
    {
      Valid() && book.inFlight == Some(nav) && lostSubmits == 0
    }

    method Navigate(ghost nav: Nav, controlled: bool) returns (o: Outcome)
      requires InTransit(nav) && phone.tally.unsettled == 0
      requires attempted < config.maxActions && failures < config.maxActionFailures
      modifies `attempted, `executedActions, `failures, `partialResult, `canaryAttempts, `canaryFailures
      modifies phone`clock, phone`woes, phone`tally
      ensures phone.clock >= old(phone.clock) && attempted == old(attempted) + 1
      ensures InTransit(nav) && phone.tally.unsettled == One(o.Cut? || o.Raised?)
      ensures succeeded < attempted && (controlled ==> canaryDeliveries < canaryAttempts)
      ensures !o.Fault? ==> failures < config.maxActionFailures
      ensures OfOutcome(o) <= phone.woes
    {
      var source := if controlled then CanaryDeepLink else NoSource;
      CountAttempt(source);
      o := phone.Perform(Navigation, source);
      CountOutcome(o, source);
    }

    /** After an opened target: an activity counts only if it is the one resumed. */
    method Arrive(nav: Nav, previous: string) returns (flow: Flow, status: NavStatus)
      requires InTransit(nav) && phone.tally.unsettled == 0 && failures < config.maxActionFailures
      requires succeeded < attempted && history == []
      modifies `ending, `partialResult, `crashes, `restarts, `previousPid, `succeeded, `history, `current
      modifies watcher`retries, phone`clock, phone`woes, phone`seen, book`activities, book`links, book`pending
      modifies phone`launches
      ensures phone.clock >= old(phone.clock) && !status.Attempted?
      ensures !flow.Escapes? ==> InTransit(nav)
      ensures Warranted(flow)
      ensures flow.Stop? ==> book.pending == [] && !ending.Completed? && status.OutcomeUnknown? && partialResult
      ensures flow.Go? && status.Opened? && nav.kind.Activity? ==> nav.expected == Some(current.activity)
      ensures succeeded == old(succeeded) + One(status.Opened?)
      ensures if status.Opened? then phone.Showed(current) else current == old(current) && history == []
      ensures flow.Go? ==> phone.seen != [] && status == AfterOpening(nav, phone.seen[|phone.seen| - 1])
    {
      var state;
      flow, state := ObserveAfterAction(Some(previous));
      status := OutcomeUnknown;
      if flow.Go? {
        status := Acknowledge(nav, previous, state);
      }
    }

    method Acknowledge(nav: Nav, previous: string, state: UiState) returns (status: NavStatus)
      requires InTransit(nav) && succeeded < attempted && history == []
      modifies `succeeded, `history, `current
      ensures InTransit(nav) && status == AfterOpening(nav, state)
      ensures succeeded == old(succeeded) + One(status.Opened?)
      ensures if status.Opened? then current == state else current == old(current) && history == []
    {
      status := AfterOpening(nav, state);
      if status.Opened? {
        Land(previous, state);
      }
    }

    method Land(previous: string, state: UiState)
      modifies `succeeded, `history, `current
      ensures succeeded == old(succeeded) + 1 && current == state
      ensures history == if state.fingerprint != previous then [previous] else old(history)
    {
      succeeded := succeeded + 1;
      history := if state.fingerprint != previous then [previous] else history;
      current := state;
    }

    /** After a device error: the target may be seen to have opened all the same. */
    method ArriveAfterFault(nav: Nav, previous: string) returns (flow: Flow, status: NavStatus)
      requires InTransit(nav) && phone.tally.unsettled == 0 && succeeded < attempted && history == []
      modifies `ending, `partialResult, `refreshes, `succeeded, `history, `current
      modifies watcher`retries, phone`clock, phone`woes, phone`seen, book`activities, book`links, book`pending
      modifies phone`launches
      ensures phone.clock >= old(phone.clock) && !status.Attempted?
      ensures !flow.Escapes? ==> InTransit(nav)
      ensures Warranted(flow)
      ensures flow.Go? ==> failures < config.maxActionFailures
      ensures flow.Stop? ==> book.pending == [] && !ending.Completed? && status.OutcomeUnknown? && partialResult
      ensures flow.Go? && status.Opened? ==> nav.expected == Some(current.activity)
      ensures succeeded == old(succeeded) + One(status.Opened?)
      ensures flow.Go? ==> status == if nav.expected == Some(current.activity) then Opened else OutcomeUnknown
    {
      flow := RecoverActionFailure();
      status := OutcomeUnknown;
      if flow.Go? && nav.expected == Some(current.activity) {
        status := Opened;
        Land(previous, current);
      }
    }

    /** One queued activity or deep link. */
    method NavigationStep() returns (flow: Flow, ghost o: Outcome, ghost status: NavStatus)
      requires Running() && attempted < config.maxActions && book.pending != [] && history == []
      modifies this, book, watcher`retries, phone`clock, phone`woes, phone`tally, phone`seen
      modifies phone`launches
      ensures phone.clock >= old(phone.clock) && attempted == old(attempted) + 1
      ensures After(flow)
      ensures picks == old(picks)
      ensures flow.Go? || flow.Stop? ==>
                var nav := old(book.pending)[0];
                nav.index < |book.Entries(nav.kind)| && book.Entries(nav.kind)[nav.index] == status
      ensures flow.Stop? ==> status.OutcomeUnknown?
      ensures flow.Go? ==> Recorded(old(book.pending)[0], o, status)
    {
      var nav := TakeNext();
      var controlled := nav.kind.DeepLink? && config.canaryDelivery && hasCanary;
      var outcome := Navigate(nav, controlled);
      o := outcome;
      flow, status := FollowUp(nav, controlled, outcome);
    }

    method TakeNext() returns (nav: Nav)
      requires Running() && book.pending != []
      modifies `idlePlateau, book`pending, book`inFlight
      ensures InTransit(nav) && nav == old(book.pending)[0] && book.pending == old(book.pending)[1..]
      ensures phone.tally.unsettled == 0 && failures < config.maxActionFailures && idlePlateau == 0
    {
      idlePlateau := 0;
      nav := book.Take();
    }

    /** A navigation step, by what the loop needs to know. */
    method NavigateNext() returns (flow: Flow)
      requires Running() && attempted < config.maxActions && Navigating()
      modifies this, book, watcher`retries, phone`clock, phone`woes, phone`tally, phone`seen
      modifies phone`launches
      ensures phone.clock >= old(phone.clock) && attempted == old(attempted) + 1
      ensures After(flow)
      ensures picks == old(picks) && (flow.Go? || flow.Stop? ==> Written(old(book.pending)[0]))
    {
      ghost var outcome, status;
      flow, outcome, status := NavigationStep();
    }

    method FollowUp(nav: Nav, controlled: bool, o: Outcome) returns (flow: Flow, ghost status: NavStatus)
      requires InTransit(nav) && phone.tally.unsettled == One(o.Cut? || o.Raised?) && succeeded < attempted &&
               history == []
      requires !o.Fault? ==> failures < config.maxActionFailures
      requires OfOutcome(o) <= phone.woes
      requires controlled ==> canaryDeliveries < canaryAttempts
      modifies `ending, `partialResult, `crashes, `restarts, `previousPid, `refreshes, `succeeded, `history, `current
      modifies `canaryDeliveries, watcher`retries, phone`clock, phone`woes, phone`seen
      modifies phone`launches
      modifies book`activities, book`links, book`pending, book`inFlight
      ensures phone.clock >= old(phone.clock)
      ensures After(flow)
      ensures flow.Go? || flow.Stop? ==>
                nav.index < |book.Entries(nav.kind)| && book.Entries(nav.kind)[nav.index] == status
      ensures flow.Stop? ==> status.OutcomeUnknown?
      ensures flow.Go? ==> Recorded(nav, o, status)
    {
      status := Attempted;
      if o.Cut? {
        flow := PastDeadline;
      } else if o.Raised? {
        flow := Escapes;
      } else {
        flow, status := ResolveAndWrite(nav, controlled, o);
      }
    }

    method ResolveAndWrite(nav: Nav, controlled: bool, o: Outcome) returns (flow: Flow, ghost status: NavStatus)
      requires InTransit(nav) && phone.tally.unsettled == 0 && succeeded < attempted && history == []
      requires !o.Cut? && !o.Raised? && (!o.Fault? ==> failures < config.maxActionFailures)
      requires controlled ==> canaryDeliveries < canaryAttempts
      modifies `ending, `partialResult, `crashes, `restarts, `previousPid, `refreshes, `succeeded, `history, `current
      modifies `canaryDeliveries, watcher`retries, phone`clock, phone`woes, phone`seen
      modifies phone`launches
      modifies book`activities, book`links, book`pending, book`inFlight
      ensures phone.clock >= old(phone.clock)
      ensures After(flow)
      ensures flow.Go? || flow.Stop? ==>
                nav.index < |book.Entries(nav.kind)| && book.Entries(nav.kind)[nav.index] == status
      ensures flow.Stop? ==> status.OutcomeUnknown?
      ensures flow.Go? ==> Recorded(nav, o, status)
    {
      var outcome;
      flow, outcome := Resolve(nav, o);
      status := outcome;
      WriteDown(nav, controlled, flow, outcome);
    }

    /** Unless the loop is left by an exception, the status is written down. */
    method WriteDown(nav: Nav, controlled: bool, flow: Flow, status: NavStatus)
      requires !flow.Escapes? ==> InTransit(nav)
      requires Warranted(flow) && phone.tally.unsettled == 0 && !status.Attempted?
      requires controlled ==> canaryDeliveries < canaryAttempts
      requires flow.Go? ==> failures < config.maxActionFailures
      requires flow.Stop? ==> book.pending == [] && !ending.Completed? && partialResult
      modifies `canaryDeliveries, book`activities, book`links, book`inFlight
      ensures After(flow)
      ensures flow.Go? || flow.Stop? ==>
                nav.index < |book.Entries(nav.kind)| && book.Entries(nav.kind)[nav.index] == status
    {
      if flow.Go? || flow.Stop? {
        Conclusion(nav, controlled, status);
      }
    }

    /** Writes down how the navigation went. */
    method Conclusion(nav: Nav, controlled: bool, status: NavStatus)
      requires InTransit(nav) && !status.Attempted? && (controlled ==> canaryDeliveries < canaryAttempts)
      modifies `canaryDeliveries, book`activities, book`links, book`inFlight
      ensures Valid() && book.inFlight == None && book.pending == old(book.pending)
      ensures canaryDeliveries == old(canaryDeliveries) + One(controlled && status.Opened?)
      ensures nav.index < |book.Entries(nav.kind)| && book.Entries(nav.kind)[nav.index] == status
    {
      if controlled && status.Opened? {
        canaryDeliveries := canaryDeliveries + 1;
      }
      book.Settle(nav, status);
    }

    method Resolve(nav: Nav, o: Outcome) returns (flow: Flow, status: NavStatus)
      requires InTransit(nav) && phone.tally.unsettled == 0 && succeeded < attempted && history == []
      requires !o.Cut? && !o.Raised? && (!o.Fault? ==> failures < config.maxActionFailures)
      modifies `ending, `partialResult, `crashes, `restarts, `previousPid, `refreshes, `succeeded, `history, `current
      modifies watcher`retries, phone`clock, phone`woes, phone`seen, book`activities, book`links, book`pending
      modifies phone`launches
      ensures phone.clock >= old(phone.clock) && !status.Attempted?
      ensures !flow.Escapes? ==> InTransit(nav)
      ensures Warranted(flow)
      ensures flow.Go? ==> failures < config.maxActionFailures
      ensures flow.Stop? ==> book.pending == [] && !ending.Completed? && status.OutcomeUnknown? && partialResult
      ensures o.Denied? ==> flow.Go? && status.PermissionDenied? && phone.seen == old(phone.seen)
      ensures o.Rejected? ==> flow.Go? && status.Blocked? && phone.seen == old(phone.seen)
      ensures flow.Go? && status.Opened? && (nav.kind.Activity? || o.Fault?) ==> nav.expected == Some(current.activity)
      ensures succeeded == old(succeeded) + One(status.Opened?)
      ensures flow.Go? && o.Done? ==> phone.seen != [] && status == AfterOpening(nav, phone.seen[|phone.seen| - 1])
      ensures flow.Go? && o.Fault? ==> status == if nav.expected == Some(current.activity) then Opened
              else OutcomeUnknown
    {
      if o.Denied? {
        flow, status := Go, PermissionDenied;
      } else if o.Rejected? {
        flow, status := Go, NavStatus.Blocked;
      } else if o.Fault? {
        flow, status := ArriveAfterFault(nav, current.fingerprint);
      } else {
        flow, status := Arrive(nav, current.fingerprint);
      }
    }

    method ScrollStep() returns (flow: Flow)
      requires Running() && attempted < config.maxActions
      modifies `attempted, `executedActions, `failures, `partialResult, `canaryAttempts, `canaryFailures
      modifies `scrollActions, `backtracks, `scrolled, `idlePlateau, `succeeded, `current
      modifies `ending, `refreshes, `crashes, `restarts, `previousPid
      modifies watcher`retries, phone`clock, phone`woes, phone`tally, phone`seen, book`activities, book`links,
          book`pending
      modifies phone`launches
      ensures phone.clock >= old(phone.clock) && attempted == old(attempted) + 1
      ensures After(flow)
      ensures flow.Go? ==> phone.Showed(current)
      ensures scrolled == old(scrolled) + {old(current).fingerprint}
      ensures Hushed(old(phone.clock)) ==>
                && flow.Go? && current == phone.quiet.value.screen && Mood() == old(Mood()) && idlePlateau == 0
                && phone.clock <= old(phone.clock) + POLL_MS
    {
      var o := Scrolling();
      flow := AfterGesture(o, Some(current.fingerprint));
    }

    method Scrolling() returns (o: Outcome)
      requires Running() && attempted < config.maxActions
      modifies `attempted, `executedActions, `failures, `partialResult, `canaryAttempts, `canaryFailures
      modifies `scrollActions, `backtracks, `scrolled, `idlePlateau, phone`clock, phone`woes, phone`tally
      ensures phone.clock >= old(phone.clock) && attempted == old(attempted) + 1
      ensures if o.Done? then Running() && succeeded < attempted else Stalled(o)
      ensures scrolled == old(scrolled) + {current.fingerprint} && idlePlateau == 0
      ensures phone.quiet.Some? ==> o.Done? && phone.clock == old(phone.clock) && Mood() == old(Mood())
    {
      MarkScrolled();
      o := Gesture(Scroll);
    }

    method PopHistory()
      requires history != []
      modifies `history, `idlePlateau
      ensures history == old(history)[..|old(history)| - 1]
      ensures idlePlateau == 0
    {
      idlePlateau := 0;
      history := history[..|history| - 1];
    }

    /** A scroll or a step back. */
    method Gesture(kind: ActionKind) returns (o: Outcome)
      requires Running() && attempted < config.maxActions && (kind.Scroll? || kind.Back?)
      modifies `attempted, `executedActions, `failures, `partialResult, `canaryAttempts, `canaryFailures
      modifies `scrollActions, `backtracks, phone`clock, phone`woes, phone`tally
      ensures phone.clock >= old(phone.clock) && attempted == old(attempted) + 1
      ensures if o.Done? then Running() && succeeded < attempted else Stalled(o)
      ensures phone.quiet.Some? ==> o.Done? && phone.clock == old(phone.clock) && Mood() == old(Mood())
    {
      o := Attempt(kind, NoSource);
      if o.Done? && kind.Scroll? {
        scrollActions := scrollActions + 1;
      }
      if o.Done? && kind.Back? {
        backtracks := backtracks + 1;
      }
    }

    method MarkScrolled()
      requires Running()
      modifies `scrolled, `idlePlateau
      ensures Running() && Mood() == old(Mood())
      ensures scrolled == old(scrolled) + {current.fingerprint} && idlePlateau == 0
    {
      idlePlateau := 0;
      scrolled := scrolled + {current.fingerprint};
    }

    method BackStep() returns (flow: Flow)
      requires Running() && attempted < config.maxActions && history != []
      modifies `attempted, `executedActions, `failures, `partialResult, `canaryAttempts, `canaryFailures
      modifies `scrollActions, `backtracks, `history, `idlePlateau, `succeeded, `current
      modifies `ending, `refreshes, `crashes, `restarts, `previousPid
      modifies watcher`retries, phone`clock, phone`woes, phone`tally, phone`seen, book`activities, book`links,
          book`pending
      modifies phone`launches
      ensures phone.clock >= old(phone.clock) && attempted == old(attempted) + 1
      ensures After(flow) && (!flow.Escapes? ==> history == old(history)[..|old(history)| - 1])
      ensures flow.Go? ==> phone.Showed(current)
    {
      PopHistory();
      var o := Gesture(Back);
      flow := AfterGesture(o, None);
    }

    method AfterGesture(o: Outcome, waitFor: Option<string>) returns (flow: Flow)
      requires if o.Done? then Running() && succeeded < attempted else Stalled(o)
      modifies `ending, `partialResult, `crashes, `restarts, `previousPid, `succeeded, `current, `refreshes
      modifies watcher`retries, phone`clock, phone`woes, phone`seen, book`activities, book`links, book`pending
      modifies phone`launches
      ensures phone.clock >= old(phone.clock)
      ensures After(flow)
      ensures flow.Go? ==> phone.Showed(current)
      ensures o.Done? ==>
                && succeeded == old(succeeded) + One(flow.Go? && current.fingerprint != old(current).fingerprint)
                && (Hushed(old(phone.clock)) ==>
                      && flow.Go? && current == phone.quiet.value.screen && Mood() == old(Mood())
                      && phone.clock <= old(phone.clock) + POLL_MS)
      ensures !o.Done? ==> succeeded == old(succeeded)
    {
      if o.Done? {
        flow := Move(waitFor);
      } else {
        flow := Settle(o);
      }
    }

    /** Observes the screen and goes on from what it shows. */
    method LookAgain(waitFor: Option<string>) returns (flow: Flow)
      requires Running()
      modifies `ending, `partialResult, `crashes, `restarts, `previousPid, `current
      modifies watcher`retries, phone`clock, phone`woes, phone`seen, book`activities, book`links, book`pending
      modifies phone`launches
      ensures phone.clock >= old(phone.clock)
      ensures After(flow)
      ensures flow.Go? ==> phone.Showed(current)
      ensures flow.Stop? ==> !ending.CoveragePlateau?
      ensures Hushed(old(phone.clock)) ==>
                && flow.Go? && current == phone.quiet.value.screen && Mood() == old(Mood())
                && phone.clock <= old(phone.clock) + POLL_MS
      ensures crashes - phone.launches.tried == old(crashes - phone.launches.tried)
      ensures restarts - phone.launches.done == old(restarts - phone.launches.done)
      ensures phone.launches.tried >= old(phone.launches.tried)
    {
      var state;
      flow, state := Watch(waitFor);
      current := if flow.Go? then state else current;
    }

    /** Observes the screen after a scroll or a step back and goes on from there. */
    method Move(waitFor: Option<string>) returns (flow: Flow)
      requires Running() && succeeded < attempted
      modifies `ending, `partialResult, `crashes, `restarts, `previousPid, `succeeded, `current
      modifies watcher`retries, phone`clock, phone`woes, phone`seen, book`activities, book`links, book`pending
      modifies phone`launches
      ensures phone.clock >= old(phone.clock)
      ensures After(flow)
      ensures flow.Go? ==> phone.Showed(current)
      ensures succeeded == old(succeeded) + One(flow.Go? && current.fingerprint != old(current).fingerprint)
      ensures Hushed(old(phone.clock)) ==>
                && flow.Go? && current == phone.quiet.value.screen && Mood() == old(Mood())
                && phone.clock <= old(phone.clock) + POLL_MS
    {
      var previous := current.fingerprint;
      flow := LookAgain(waitFor);
      if flow.Go? && current.fingerprint != previous {
        succeeded := succeeded + 1;
      }
    }

    /** Nothing left to do here: wait a little, look for new runtime feedback, check the process. */
    method IdleStep() returns (flow: Flow, ghost heard: bool)
      requires Running() && (book.pending == [] || formPending)
      modifies `idlePlateau, `ending, `crashes, `restarts, `previousPid, `partialResult, `current
      modifies watcher`retries, phone`clock, phone`woes, phone`seen, book`activities, book`links, book`pending
      modifies phone`launches
      ensures phone.clock >= old(phone.clock) + IDLE_MS
      ensures After(flow)
      ensures flow.Stop? && ending.CoveragePlateau? ==> attempted > 0 && idlePlateau >= 1000 * config.plateauSeconds
      ensures phone.quiet.Some? && old(previousPid) == Some(phone.quiet.value.pid) && attempted > 0 ==>
                && Mood() == old(Mood()) && current == old(current) && idlePlateau == old(idlePlateau) + IDLE_MS
                && phone.clock == old(phone.clock) + IDLE_MS
                && if idlePlateau >= 1000 * config.plateauSeconds then flow.Stop? && ending.CoveragePlateau?
                   else flow.Go?
      ensures flow.Go? && old(phone.Showed(current)) ==> phone.Showed(current)
      ensures heard ==> flow.Go? && idlePlateau == 0 && current == old(current)
    {
      Wait();
      var yielded := phone.Observe();
      heard := yielded;
      if yielded {
        idlePlateau := 0;
        flow := Go;
      } else {
        flow := EndWait();
      }
    }

    /** Stops at the plateau, or checks the process. */
    method EndWait() returns (flow: Flow)
      requires Running() && (book.pending == [] || formPending)
      modifies `idlePlateau, `ending, `crashes, `restarts, `previousPid, `partialResult, `current
      modifies watcher`retries, phone`clock, phone`woes, phone`seen, book`activities, book`links, book`pending
      modifies phone`launches
      ensures phone.clock >= old(phone.clock)
      ensures After(flow)
      ensures flow.Stop? && ending.CoveragePlateau? ==> attempted > 0 && idlePlateau >= 1000 * config.plateauSeconds
      ensures phone.quiet.Some? && old(previousPid) == Some(phone.quiet.value.pid) && attempted > 0 ==>
                && Mood() == old(Mood()) && current == old(current) && idlePlateau == old(idlePlateau)
                && phone.clock == old(phone.clock)
                && if idlePlateau >= 1000 * config.plateauSeconds then flow.Stop? && ending.CoveragePlateau?
                   else flow.Go?
      ensures flow.Go? && old(phone.Showed(current)) ==> phone.Showed(current)
    {
      if attempted > 0 && idlePlateau >= 1000 * config.plateauSeconds {
        ending := CoveragePlateau;
        return Stop;
      }
      ghost var pid;
      flow, pid := CheckProcess();
    }

    method Wait()
      modifies `idlePlateau, phone`clock, phone`woes
      ensures phone.clock >= old(phone.clock) + IDLE_MS && idlePlateau >= old(idlePlateau) + IDLE_MS
      ensures phone.quiet.Some? ==>
                phone.clock == old(phone.clock) + IDLE_MS && idlePlateau == old(idlePlateau) + IDLE_MS
    {
      var before := phone.Now();
      phone.Sleep(IDLE_MS);
      var after := phone.Now();
      idlePlateau := idlePlateau + (after - before);
    }

    method CheckProcess() returns (flow: Flow, ghost pid: Process)
      requires Running()
      modifies `idlePlateau, `crashes, `restarts, `previousPid, `ending, `partialResult, `current
      modifies watcher`retries, phone`clock, phone`woes, phone`seen, book`activities, book`links, book`pending
      modifies phone`launches
      ensures phone.clock >= old(phone.clock)
      ensures After(flow)
      ensures flow.Stop? ==> !ending.CoveragePlateau?
      ensures phone.quiet.Some? && old(previousPid) == Some(phone.quiet.value.pid) ==>
                && flow.Go? && Mood() == old(Mood()) && idlePlateau == old(idlePlateau) && current == old(current)
                && phone.clock == old(phone.clock)
      ensures flow.Go? && old(phone.Showed(current)) ==> phone.Showed(current)
      ensures crashes - phone.launches.tried == old(crashes - phone.launches.tried)
      ensures pid.Absent? <==> phone.launches.tried > old(phone.launches.tried)
      ensures pid.Running? ==>
                && flow.Go? && previousPid == Some(pid.pid) && current == old(current) && phone.seen == old(phone.seen)
                && restarts == old(restarts) + One(old(previousPid) !in {None, Some(pid.pid)})
                && idlePlateau == if old(previousPid) in {None, Some(pid.pid)} then old(idlePlateau) else 0
      ensures pid.ProcessFault? ==> flow.Stop? && ending.ProcessStateUnavailable?
    {
      var process := phone.ProcessId();
      pid := process;
      if process.Running? {
        NoticeRestart(process.pid);
        flow := Go;
      } else {
        flow := WithoutProcess(process);
      }
    }

    /** The process is gone or cannot be asked for. */
    method WithoutProcess(pid: Process) returns (flow: Flow)
      requires Running() && !pid.Running? && OfProcess(pid) <= phone.woes
      modifies `idlePlateau, `crashes, `restarts, `previousPid, `ending, `partialResult, `current
      modifies watcher`retries, phone`clock, phone`woes, phone`seen, book`activities, book`links, book`pending
      modifies phone`launches
      ensures phone.clock >= old(phone.clock)
      ensures After(flow)
      ensures flow.Stop? ==> !ending.CoveragePlateau?
      ensures flow.Go? && old(phone.Showed(current)) ==> phone.Showed(current)
      ensures pid.Absent? <==> phone.launches.tried > old(phone.launches.tried)
      ensures crashes - phone.launches.tried == old(crashes - phone.launches.tried)
      ensures restarts - phone.launches.done == old(restarts - phone.launches.done)
      ensures pid.ProcessFault? ==> flow.Stop? && ending.ProcessStateUnavailable?
      ensures pid.ProcessLate? ==> flow.PastDeadline?
    {
      if pid.Absent? {
        flow := StartAgain();
      } else if pid.ProcessFault? {
        StopFor(ProcessStateUnavailable);
        flow := Stop;
      } else {
        flow := if pid.ProcessLate? then PastDeadline else Escapes;
      }
    }

    method NoticeRestart(pid: int)
      modifies `idlePlateau, `restarts, `previousPid
      ensures previousPid == Some(pid)
      ensures restarts == old(restarts) + One(old(previousPid) !in {None, Some(pid)})
      ensures idlePlateau == if old(previousPid) in {None, Some(pid)} then old(idlePlateau) else 0
    {
      if previousPid.Some? && previousPid.value != pid {
        idlePlateau := 0;
        restarts := restarts + 1;
      }
      previousPid := Some(pid);
    }

    method CountCrash()
      modifies `idlePlateau, `crashes
      ensures idlePlateau == 0 && crashes == old(crashes) + 1
    {
      idlePlateau, crashes := 0, crashes + 1;
    }

    method StartAgain() returns (flow: Flow)
      requires Running()
      modifies `idlePlateau, `crashes, `restarts, `previousPid, `ending, `partialResult, `current
      modifies watcher`retries, phone`clock, phone`woes, phone`seen, book`activities, book`links, book`pending
      modifies phone`launches
      ensures phone.clock >= old(phone.clock)
      ensures After(flow)
      ensures flow.Stop? ==> !ending.CoveragePlateau?
      ensures flow.Go? && old(phone.Showed(current)) ==> phone.Showed(current)
      ensures phone.launches.tried > old(phone.launches.tried)
      ensures crashes - phone.launches.tried == old(crashes - phone.launches.tried)
      ensures restarts - phone.launches.done == old(restarts - phone.launches.done)
    {
      CountCrash();
      var launch := phone.LaunchApp();
      match launch {
        case LaunchLate => flow := PastDeadline;
        case LaunchRaised => flow := Escapes;
        case LaunchOtherFault => flow := Escapes;
        case LaunchAdbFault =>
          StopFor(ProcessRestartFailed);
          flow := Stop;
        case Launched => flow := Resume();
      }
    }

    method Resume() returns (flow: Flow)
      requires Running()
      modifies `crashes, `restarts, `previousPid, `ending, `partialResult, `current
      modifies watcher`retries, phone`clock, phone`woes, phone`seen, book`activities, book`links, book`pending
      modifies phone`launches
      ensures phone.clock >= old(phone.clock)
      ensures After(flow)
      ensures flow.Stop? ==> !ending.CoveragePlateau?
      ensures flow.Go? ==> previousPid == None
      ensures flow.Go? ==> phone.Showed(current)
      ensures phone.launches.tried >= old(phone.launches.tried)
      ensures crashes - phone.launches.tried == old(crashes - phone.launches.tried)
      ensures restarts - phone.launches.done == old(restarts - phone.launches.done) + 1
    {
      restarts := restarts + 1;
      flow := LookAgain(None);
      if flow.Go? {
        previousPid := None;
      }
    }

    // -------------------------------------------------------------- a phone on which nothing happens

    /** The phone is quiet and offers nothing but repetitions of the title. */
    ghost predicate OffersNothing() {
      phone.quiet.Some? && forall c :: c in phone.quiet.value.offers ==> Touchable(c) && c.repeatsTitle
    }

    /** On a screen that offers nothing but repetitions of its title, with a controlled form and navigation waiting. */
    ghost predicate Becalmed()
      reads this, phone, book
    {
      && OffersNothing()
      && current == phone.quiet.value.screen && previousPid == Some(phone.quiet.value.pid)
      && history == [] && formPending && book.pending != [] && !partialResult
    }

    /** The screen has been visited, its actions are known, and it has been scrolled: only waiting is left. */
    ghost predicate Exhausted()
      reads this
    {
      && phone.quiet.Some?
      && current.fingerprint in visited && current.fingerprint in scrolled && attempted == 1
      && Offered(current.fingerprint, phone.quiet.value.offers) <= discovered
    }

    ghost predicate Untouched()
      reads `attempted, `visited, `scrolled
    {
      attempted == 0 && visited == {} && scrolled == {}
    }

    /** What a traversal step does there: scroll once, then wait until the plateau is reached. */
    ghost predicate Drifts(flow: Flow, scrolledBefore: bool, clockBefore: nat, idleBefore: nat)
      reads this, phone, book, watcher
    {
      && Becalmed()
      && if !scrolledBefore then
           flow.Go? && Exhausted() && idlePlateau == 0 && phone.clock <= clockBefore + POLL_MS
         else
           && phone.clock == clockBefore + IDLE_MS && Exhausted() && idlePlateau == idleBefore + IDLE_MS
           && if idlePlateau >= 1000 * config.plateauSeconds then flow.Stop? && ending.CoveragePlateau? else flow.Go?
    }

    // -------------------------------------------------------------- the loop

    /** A queued target is next: none but from the root screen, and not while a form is awaited. */
    predicate Navigating()
      reads `history, `formPending, book`pending
    {
      book.pending != [] && history == [] && !formPending
    }

    /** The target is no longer "attempted". */
    ghost predicate Written(nav: Nav)
      reads book
    {
      nav.index < |book.Entries(nav.kind)| && !book.Entries(nav.kind)[nav.index].Attempted?
    }

    method Iterate(ghost calm: bool) returns (flow: Flow, ghost idled: bool)
      requires Running() && attempted < config.maxActions
      requires |visited| < config.maxStates || current.fingerprint in visited
      requires calm ==> Becalmed() && Hushed(phone.clock) && (Exhausted() || Untouched())
      modifies this, book, watcher`retries, phone`clock, phone`woes, phone`tally, phone`seen
      modifies phone`launches, phone`offered
      ensures phone.clock >= old(phone.clock)
      ensures After(flow)
      ensures if idled then attempted == old(attempted) && phone.clock >= old(phone.clock) + IDLE_MS
              else attempted > old(attempted)
      ensures calm ==> idled == old(Exhausted()) && Drifts(flow, idled, old(phone.clock), old(idlePlateau))
      ensures old(Navigating()) ==>
                && !idled && attempted == old(attempted) + 1 && picks == old(picks)
                && (flow.Go? || flow.Stop? ==> Written(old(book.pending)[0]))
    {
      ghost var heard := Look();
      flow, idled := Act(calm);
    }

    method Act(ghost calm: bool) returns (flow: Flow, ghost idled: bool)
      requires Running() && attempted < config.maxActions
      requires calm ==> Becalmed() && Hushed(phone.clock) && current.fingerprint in visited
      requires calm ==> Exhausted() || (attempted == 0 && scrolled == {})
      modifies this, book, watcher`retries, phone`clock, phone`woes, phone`tally, phone`seen
      modifies phone`launches, phone`offered
      ensures phone.clock >= old(phone.clock)
      ensures After(flow)
      ensures if idled then attempted == old(attempted) && phone.clock >= old(phone.clock) + IDLE_MS
              else attempted > old(attempted)
      ensures calm ==> idled == old(Exhausted()) && Drifts(flow, idled, old(phone.clock), old(idlePlateau))
      ensures old(Navigating()) ==>
                && !idled && attempted == old(attempted) + 1 && picks == old(picks)
                && (flow.Go? || flow.Stop? ==> Written(old(book.pending)[0]))
    {
      idled := false;
      if Navigating() {
        flow := NavigateNext();
      } else {
        ghost var pick;
        flow, idled, pick := TraversalStep(calm);
      }
    }

    /** The best action not yet tried here, or a scroll, or a step back, or a short wait. */
    method TraversalStep(ghost calm: bool) returns (flow: Flow, ghost idled: bool, ghost pick: Option<Candidate>)
      requires Running() && attempted < config.maxActions
      requires book.pending == [] || history != [] || formPending
      requires calm ==> Becalmed() && Hushed(phone.clock) && current.fingerprint in visited
      requires calm ==> Exhausted() || (attempted == 0 && scrolled == {})
      modifies this, watcher`retries, phone`clock, phone`woes, phone`tally, phone`seen, book`activities, book`links,
          book`pending
      modifies phone`launches, phone`offered
      ensures phone.clock >= old(phone.clock)
      ensures After(flow)
      ensures pick.Some? ==> pick.value in phone.offered && !old(Blocked(pick.value))
      ensures pick == None ==> forall c :: c in phone.offered ==> old(Blocked(c))
      ensures Traversed(pick, idled, old(current).fingerprint in old(scrolled), old(history) == [], old(keyboardOpen),
                        old(picks), old(scrolled))
      ensures if idled then attempted == old(attempted) && phone.clock >= old(phone.clock) + IDLE_MS
              else attempted > old(attempted)
      ensures calm ==> idled == old(Exhausted()) && Drifts(flow, idled, old(phone.clock), old(idlePlateau))
      ensures flow.Go? && old(phone.Showed(current)) ==> phone.Showed(current)
    {
      var next := NextAction();
      pick := next;
      flow, idled := CarryOn(next, calm);
    }

    /**
     * What a traversal step may do: carry out the pick, unless a keyboard is in its way; or else scroll once in every
     * state, step back where there is a way back, and wait where there is none.
     */
    ghost predicate Traversed(pick: Option<Candidate>, idled: bool, scrolledHere: bool, atRoot: bool,
                              keyboardWasOpen: bool, picksBefore: seq<Pick>, scrolledBefore: set<string>)
      reads `picks, `scrolled
    {
      match pick
      case Some(action) =>
        && !idled && scrolled == scrolledBefore
        && (picks == picksBefore <==> keyboardWasOpen && !action.kind.InputText?)
      case None =>
        picks == picksBefore && (idled <==> scrolledHere && atRoot) && (scrolled == scrolledBefore <==> scrolledHere)
    }

    method CarryOn(pick: Option<Candidate>, ghost calm: bool) returns (flow: Flow, ghost idled: bool)
      requires Running() && attempted < config.maxActions
      requires book.pending == [] || history != [] || formPending
      requires pick.Some? ==> Touchable(pick.value) && !Blocked(pick.value)
      requires calm ==> Becalmed() && Hushed(phone.clock) && current.fingerprint in visited && pick == None
      requires calm ==> Offered(current.fingerprint, phone.quiet.value.offers) <= discovered
      requires calm ==> Exhausted() || (attempted == 0 && scrolled == {})
      modifies this, watcher`retries, phone`clock, phone`woes, phone`tally, phone`seen, book`activities, book`links,
          book`pending
      modifies phone`launches
      ensures phone.clock >= old(phone.clock)
      ensures After(flow)
      ensures Traversed(pick, idled, old(current).fingerprint in old(scrolled), old(history) == [], old(keyboardOpen),
                        old(picks), old(scrolled))
      ensures if idled then attempted == old(attempted) && phone.clock >= old(phone.clock) + IDLE_MS
              else attempted > old(attempted)
      ensures calm ==> idled == old(Exhausted()) && Drifts(flow, idled, old(phone.clock), old(idlePlateau))
      ensures flow.Go? && old(phone.Showed(current)) ==> phone.Showed(current)
    {
      idled := false;
      if pick.Some? {
        flow := ActionStep(pick.value);
      } else {
        flow, idled := MoveElsewhere();
      }
    }

    /** A scroll where there was none yet, or a step back, or a short wait. */
    method MoveElsewhere() returns (flow: Flow, ghost idled: bool)
      requires Running() && attempted < config.maxActions
      requires book.pending == [] || history != [] || formPending
      modifies `attempted, `executedActions, `failures, `partialResult, `canaryAttempts, `canaryFailures
      modifies `scrollActions, `backtracks, `scrolled, `history, `idlePlateau, `succeeded, `current
      modifies `ending, `refreshes, `crashes, `restarts, `previousPid
      modifies watcher`retries, phone`clock, phone`woes, phone`tally, phone`seen, book`activities, book`links,
          book`pending
      modifies phone`launches
      ensures phone.clock >= old(phone.clock)
      ensures After(flow)
      ensures if idled then attempted == old(attempted) && phone.clock >= old(phone.clock) + IDLE_MS
              else attempted > old(attempted)
      ensures old(Becalmed() && Hushed(phone.clock) && current.fingerprint !in scrolled) ==>
                && !idled && flow.Go? && Becalmed() && current == old(current) && idlePlateau == 0
                && attempted == old(attempted) + 1 && current.fingerprint in scrolled
                && phone.clock <= old(phone.clock) + POLL_MS
      ensures old(Becalmed() && current.fingerprint in scrolled && attempted > 0) ==>
                && idled && Becalmed() && current == old(current) && scrolled == old(scrolled)
                && idlePlateau == old(idlePlateau) + IDLE_MS && phone.clock == old(phone.clock) + IDLE_MS
                && if idlePlateau >= 1000 * config.plateauSeconds then flow.Stop? && ending.CoveragePlateau?
                   else flow.Go?
      ensures flow.Go? && old(phone.Showed(current)) ==> phone.Showed(current)
      ensures idled <==> old(current).fingerprint in old(scrolled) && old(history) == []
      ensures scrolled == old(scrolled) + if idled then {} else if old(current).fingerprint in old(scrolled) then {}
              else {old(current).fingerprint}
      ensures old(current).fingerprint in old(scrolled) && old(history) != [] && !flow.Escapes? ==>
                history == old(history)[..|old(history)| - 1]
    {
      idled := false;
      if current.fingerprint !in scrolled {
        flow := ScrollStep();
      } else if history != [] {
        flow := BackStep();
      } else {
        idled := true;
        ghost var heard;
        flow, heard := IdleStep();
      }
    }

    method NextAction() returns (pick: Option<Candidate>)
      requires Running()
      modifies `idlePlateau, `discovered, `duplicatesAvoided, phone`offered
      ensures Running() && idlePlateau <= old(idlePlateau)
      ensures pick.Some? ==> Touchable(pick.value) && !Blocked(pick.value) && pick.value in phone.offered
      ensures pick.Some? ==> !old(Blocked(pick.value))
      ensures pick == None ==> forall c :: c in phone.offered ==> old(Blocked(c))
      ensures Becalmed() ==>
                && pick == None && Offered(current.fingerprint, phone.quiet.value.offers) <= discovered
                && (old(Exhausted()) ==> idlePlateau == old(idlePlateau))
    {
      var queue := phone.Candidates(current);
      Discover(queue);
      pick := PickAction(queue);
    }

    method Discover(queue: seq<Candidate>)
      modifies `idlePlateau, `discovered
      ensures discovered == old(discovered) + Offered(current.fingerprint, queue)
      ensures idlePlateau == if Offered(current.fingerprint, queue) <= old(discovered) then old(idlePlateau) else 0
    {
      var offered := Offered(current.fingerprint, queue);
      idlePlateau := if offered <= discovered then idlePlateau else 0;
      discovered := discovered + offered;
    }

    /** Takes in the current state and any new runtime feedback. */
    method Look() returns (ghost heard: bool)
      requires Running() && (|visited| < config.maxStates || current.fingerprint in visited)
      modifies `visited, `idlePlateau, phone`clock, phone`woes
      ensures Running() && visited == old(visited) + {current.fingerprint} && phone.clock >= old(phone.clock)
      ensures idlePlateau <= old(idlePlateau)
      ensures heard || current.fingerprint !in old(visited) ==> idlePlateau == 0
      ensures phone.quiet.Some? ==>
                && phone.clock == old(phone.clock)
                && idlePlateau == if current.fingerprint in old(visited) then old(idlePlateau) else 0
      ensures old(Becalmed()) ==> Becalmed()
      ensures old(Becalmed() && Exhausted()) ==> Exhausted() && idlePlateau == old(idlePlateau)
      ensures old(Becalmed() && Untouched()) ==> attempted == 0 && scrolled == {} && !Exhausted()
    {
      Visit();
      heard := Listen();
    }

    /** New runtime feedback ends a quiet time. */
    method Listen() returns (ghost heard: bool)
      requires Running()
      modifies `idlePlateau, phone`clock
      ensures Running() && phone.clock >= old(phone.clock)
      ensures idlePlateau == if heard then 0 else old(idlePlateau)
      ensures phone.quiet.Some? ==> phone.clock == old(phone.clock) && !heard
      ensures old(Becalmed()) ==> Becalmed()
    {
      var yielded := phone.Observe();
      heard := yielded;
      idlePlateau := if yielded then 0 else idlePlateau;
    }

    method Visit()
      requires Running() && (|visited| < config.maxStates || current.fingerprint in visited)
      modifies `visited, `idlePlateau
      ensures Running() && visited == old(visited) + {current.fingerprint}
      ensures idlePlateau == if current.fingerprint in old(visited) then old(idlePlateau) else 0
      ensures old(Becalmed()) ==> Becalmed()
    {
      if current.fingerprint !in visited {
        visited := visited + {current.fingerprint};
        idlePlateau := 0;
      }
    }

    /** Why the loop may not start another iteration at `now`, if it may not. */
    method LimitReached(now: nat) returns (reason: Option<Ending>)
      requires now <= phone.clock
      modifies phone`clock, phone`woes
      ensures phone.clock >= old(phone.clock)
      ensures reason == None ==>
                && now + 1000 * config.actionTimeoutSeconds < watcher.hardDeadline && attempted < config.maxActions
                && (|visited| < config.maxStates || current.fingerprint in visited)
      ensures reason == Some(MaxRuntime) ==> now + 1000 * config.actionTimeoutSeconds >= watcher.hardDeadline
      ensures reason == Some(MaxActions) ==> attempted >= config.maxActions
      ensures reason == Some(MaxStates) ==> |visited| >= config.maxStates && current.fingerprint !in visited
      ensures phone.quiet.Some? ==> phone.clock == old(phone.clock) && reason != Some(StopRequested)
      ensures reason.Some? ==> reason.value in {StopRequested, MaxRuntime, MaxActions, MaxStates}
      ensures reason.Some? ==> Justified(reason.value)
    {
      var stop := phone.StopRequested();
      if stop {
        return Some(StopRequested);
      }
      if now >= watcher.hardDeadline || watcher.hardDeadline - now <= 1000 * config.actionTimeoutSeconds {
        return Some(MaxRuntime);
      }
      if attempted >= config.maxActions {
        return Some(MaxActions);
      }
      if |visited| >= config.maxStates && current.fingerprint !in visited {
        return Some(MaxStates);
      }
      reason := None;
    }

    /** Idle iterations that fit between the start and the last moment an iteration may begin. */
    ghost function IdleRoom(): nat {
      5 * if config.maxRuntimeSeconds > config.actionTimeoutSeconds
          then config.maxRuntimeSeconds - config.actionTimeoutSeconds else 0
    }

    /** Two attempts, and time for the plateau and one more action. */
    ghost predicate RoomForPlateau() {
      config.maxActions >= 2 && config.maxRuntimeSeconds > config.plateauSeconds + config.actionTimeoutSeconds
    }

    /** Where the loop is on a phone on which nothing happens: at its start, waiting, or at the plateau. */
    ghost predicate Adrift(flow: Flow, started: nat, idles: nat)
      reads this, phone, book
    {
      && Becalmed()
      && if flow.Go? then
           || (Untouched() && idles == 0 && phone.clock == started)
           || (&& Exhausted() && idlePlateau == IDLE_MS * idles < 1000 * config.plateauSeconds
               && phone.clock <= started + POLL_MS + IDLE_MS * idles)
         else flow.Stop? && ending.CoveragePlateau?
    }

    /** One pass through the head and the body of the loop. */
    method Lap(ghost started: nat, ghost idles: nat, ghost calm: bool) returns (flow: Flow, ghost idled: bool)
      requires Running() && watcher.hardDeadline == started + 1000 * config.maxRuntimeSeconds
      requires calm ==> RoomForPlateau() && Adrift(Go, started, idles)
      modifies this, book, watcher`retries, phone`clock, phone`woes, phone`tally, phone`seen
      modifies phone`launches, phone`offered
      ensures phone.clock >= old(phone.clock) && After(flow)
      ensures idled ==> attempted == old(attempted) && phone.clock >= old(phone.clock) + IDLE_MS
      ensures idled ==>
              old(phone.clock) + 1000 * config.actionTimeoutSeconds < started + 1000 * config.maxRuntimeSeconds
      ensures flow.Go? ==> old(attempted) < config.maxActions && (idled || attempted > old(attempted))
      ensures flow.Go? ==> attempted <= config.maxActions
      ensures flow.Go? ==> old(phone.clock) < watcher.hardDeadline
      ensures calm ==> Adrift(flow, started, idles + One(idled))
    {
      idled := false;
      var now := phone.Now();
      var reason := LimitReached(now);
      if reason.Some? {
        Halt(reason.value);
        flow := Stop;
      } else {
        flow, idled := Iterate(calm);
      }
    }

    method Explore(started: nat, ghost calm: bool) returns (flow: Flow, ghost iterations: nat)
      requires Running() && attempted == 0 && started <= phone.clock
      requires watcher.hardDeadline == started + 1000 * config.maxRuntimeSeconds
      requires calm ==> Becalmed() && Untouched() && phone.clock == started && RoomForPlateau()
      modifies this, book, watcher`retries, phone`clock, phone`woes, phone`tally, phone`seen
      modifies phone`launches, phone`offered
      ensures !flow.Go? && After(flow)
      ensures iterations <= config.maxActions + IdleRoom() + 1
      ensures calm ==> flow.Stop? && ending.CoveragePlateau? && Becalmed()
    {
      iterations := 0;
      ghost var idles: nat := 0;
      flow := Go;
      while flow.Go?
        invariant watcher.hardDeadline == started + 1000 * config.maxRuntimeSeconds
        invariant flow.Go? ==> Running() && iterations <= attempted + idles
        invariant !flow.Go? ==> After(flow)
        invariant flow.Go? ==> attempted <= config.maxActions
        invariant idles <= IdleRoom() && started + IDLE_MS * idles <= phone.clock
        invariant iterations <= config.maxActions + IdleRoom() + if flow.Go? then 0 else 1
        invariant calm ==> Adrift(flow, started, idles)
        decreases flow.Go?, config.maxActions - attempted, watcher.hardDeadline - phone.clock
      {
        iterations := iterations + 1;
        ghost var idled;
        flow, idled := Lap(started, idles, calm);
        idles := idles + One(idled);
      }
    }

    /** The process and the first screen. */
    method StartUp() returns (flow: Flow)
      requires Running()
      modifies `previousPid, `current, watcher`retries, phone`clock, phone`woes, phone`seen
      modifies phone`launches
      ensures phone.clock >= old(phone.clock)
      ensures Running()
      ensures if flow.Escapes? then Failed() else Warranted(flow)
      ensures !flow.Stop?
      ensures Hushed(old(phone.clock)) ==>
                && flow.Go? && current == phone.quiet.value.screen && previousPid == Some(phone.quiet.value.pid)
                && phone.clock == old(phone.clock)
      ensures flow.Go? ==>
                || (previousPid.Some? && phone.launches == old(phone.launches))
                || (previousPid == old(previousPid) && phone.launches.tried == old(phone.launches.tried) + 1)
    {
      flow := FindProcess();
      if flow.Go? {
        flow := FirstScreen();
      }
    }

    method FirstScreen() returns (flow: Flow)
      requires Running()
      modifies `current, watcher`retries, phone`clock, phone`woes, phone`seen
      ensures phone.clock >= old(phone.clock)
      ensures Running() && !flow.Stop?
      ensures if flow.Escapes? then Failed() else Warranted(flow)
      ensures flow.Go? ==> phone.Showed(current)
      ensures Hushed(old(phone.clock)) ==>
                flow.Go? && current == phone.quiet.value.screen && phone.clock == old(phone.clock)
    {
      var o := watcher.WaitForUi(None);
      match o {
        case Seen(state) => flow, current := Go, state;
        case Late => flow := PastDeadline;
        case Outside => flow := OutOfPackage;
        case _ => flow := Escapes;
      }
    }

    method FindProcess() returns (flow: Flow)
      modifies `previousPid, phone`clock, phone`woes
      modifies phone`launches
      ensures phone.clock >= old(phone.clock) && !flow.Stop?
      ensures if flow.Escapes? then Failed() else Warranted(flow)
      ensures flow.Go? ==> phone.launches.tried - phone.launches.done == old(phone.launches.tried - phone.launches.done)
      ensures phone.quiet.Some? ==>
                flow.Go? && previousPid == Some(phone.quiet.value.pid) && phone.clock == old(phone.clock)
      ensures flow.Go? ==>
                || (previousPid.Some? && phone.launches == old(phone.launches))
                || (previousPid == old(previousPid) && phone.launches.tried == old(phone.launches.tried) + 1)
    {
      var pid := phone.ProcessId();
      flow := Go;
      match pid {
        case ProcessLate => flow := PastDeadline;
        case ProcessFault => flow := Escapes;
        case ProcessRaised => flow := Escapes;
        case Running(n) => previousPid := Some(n);
        case Absent =>
          var launch := phone.LaunchApp();
          flow := if launch.Launched? then Go else if launch.LaunchLate? then PastDeadline else Escapes;
      }
    }

    /** One entry for each plan: waiting if it is to be tried, and otherwise as the plan says. */
    ghost predicate Planned(entries: seq<NavStatus>, plans: seq<Plan>) {
      && |entries| == |plans|
      && forall k :: 0 <= k < |plans| ==>
           && (entries[k].Attempted? <==> plans[k].Try?)
           && (plans[k].Settled? && !plans[k].status.Attempted? ==> entries[k] == plans[k].status)
    }

    method MakePlans(activityPlans: seq<Plan>, linkPlans: seq<Plan>)
      requires Running() && book.activities == [] && book.links == []
      modifies `formPending, book`activities, book`links, book`pending, phone`clock, phone`woes
      ensures Running() && phone.clock >= old(phone.clock)
      ensures phone.quiet.Some? ==>
                && phone.clock == old(phone.clock) && (config.canaryDelivery && hasCanary ==> formPending)
                && (SomethingToTry(activityPlans, linkPlans) ==> book.pending != [])
      ensures Planned(book.activities, activityPlans) && Planned(book.links, linkPlans)
      ensures formPending ==> config.canaryDelivery && hasCanary
    {
      book.Prepare(Activity, activityPlans);
      book.Prepare(DeepLink, linkPlans);
      if config.canaryDelivery && hasCanary {
        formPending := phone.FormOnScreen();
      }
    }

    /** What precedes the loop. */
    method Begin(activityPlans: seq<Plan>, linkPlans: seq<Plan>, ghost calm: bool) returns (flow: Flow, started: nat)
      requires Running() && attempted == 0 && book.activities == [] && book.links == []
      requires calm ==> Pristine() && NothingToDo() && SomethingToTry(activityPlans, linkPlans)
      modifies `previousPid, `current, `formPending, watcher`hardDeadline, watcher`retries, phone`clock, phone`woes,
          phone`seen
      modifies phone`launches
      modifies book`activities, book`links, book`pending
      ensures Running() && !flow.Stop? && started <= phone.clock &&
              (if flow.Escapes? then Failed() else !flow.Go? ==> Ended(flow))
      ensures watcher.hardDeadline == started + 1000 * config.maxRuntimeSeconds
      ensures calm ==> flow.Go? && Becalmed() && Untouched() && phone.clock == started
      ensures flow.Go? ==> Planned(book.activities, activityPlans) && Planned(book.links, linkPlans)
    {
      started := StartClock();
      flow := StartUp();
      if flow.Go? {
        MakePlans(activityPlans, linkPlans);
      }
      if calm {
        BecalmedAtStart();
      }
    }

    lemma BecalmedAtStart()
      requires Pristine() && NothingToDo() && formPending && book.pending != []
      requires current == phone.quiet.value.screen && previousPid == Some(phone.quiet.value.pid)
      ensures Becalmed() && Untouched()
    {
    }

    method StartClock() returns (started: nat)
      requires Running()
      modifies watcher`hardDeadline, phone`clock, phone`woes
      ensures Running() && started == phone.clock
      ensures watcher.hardDeadline == started + 1000 * config.maxRuntimeSeconds
      ensures phone.quiet.Some? ==> Hushed(phone.clock)
    {
      started := phone.Now();
      watcher.hardDeadline := started + 1000 * config.maxRuntimeSeconds;
    }

    /** Why a run may be left by an error: one that nothing expects, or before the loop any. */
    ghost predicate Warned(iterations: nat)
      reads phone
    {
      Surprise in phone.woes || (iterations == 0 && Failed())
    }

    /** From the first look at the process to the end of the loop. */
    method Traverse(activityPlans: seq<Plan>, linkPlans: seq<Plan>, ghost calm: bool)
      returns (flow: Flow, ghost iterations: nat)
      requires Running() && attempted == 0 && book.activities == [] && book.links == []
      requires calm ==> Pristine() && NothingToDo() && SomethingToTry(activityPlans, linkPlans)
      modifies this, book, watcher, phone`clock, phone`woes, phone`tally, phone`seen
      modifies phone`launches, phone`offered
      ensures !flow.Go? && (if flow.Escapes? then Warned(iterations) else Ended(flow))
      ensures iterations <= config.maxActions + IdleRoom() + 1
      ensures calm ==> flow.Stop? && ending.CoveragePlateau? && Becalmed()
    {
      iterations := 0;
      var started;
      flow, started := Begin(activityPlans, linkPlans, calm);
      if flow.Go? {
        flow, iterations := Explore(started, calm);
      }
    }

    /** The exception handlers and the cleanup that follow the loop. */
    method Conclude(flow: Flow) returns (r: RunResult)
      requires !flow.Go? && !flow.Escapes? && Ended(flow)
      modifies `ending, `partialResult, phone`clock, phone`woes, book`activities, book`links, book`pending
      ensures r.Finished? ==> r.exit == flow && Books() && Limits()
      ensures r.Finished? && r.exit.PastDeadline? ==> ending.MaxRuntime?
      ensures r.Finished? && r.exit.OutOfPackage? ==> ending.PackageBoundary? && r.partial
      ensures r.Finished? && r.exit.Stop? ==> ending == old(ending)
      ensures r.Finished? ==> attempted - executedActions - failures <= One(flow.PastDeadline?)
      ensures r.Finished? && !r.partial ==> failures == 0 && !r.cleanupFailed && Orderly(ending)
      ensures phone.quiet.Some? ==>
                && r.Finished?
                && (flow.Stop? && !old(partialResult) ==> !r.partial && book.pending == old(book.pending))
      ensures r.Finished? && flow.Stop? ==> (book.NoneAttempted() <==> book.pending == [])
      ensures r.Finished? && flow.Stop? && (!ending.CoveragePlateau? || !formPending) ==> book.NoneAttempted()
      ensures r.Finished? ==> book.OnlyFlightAttempted() || (ending.CoveragePlateau? && formPending)
      ensures if r.Escaped? then Surprise in phone.woes else Warranted(r.exit)
    {
      if flow.PastDeadline? {
        Halt(MaxRuntime);
      } else if flow.OutOfPackage? {
        StopFor(PackageBoundary);
      }
      if book.pending == [] {
        book.DrainedLeavesFlight();
      }
      var sweep := phone.RemoveWorkspace();
      partialResult := partialResult || sweep.SweepFault?;
      r := if sweep.SweepRaised? then Escaped else Finished(partialResult, flow, sweep.SweepFault?);
    }

    /** No field has been touched since construction. */
    ghost predicate Pristine()
      reads `attempted, `visited, `scrolled, `history, `partialResult
    {
      Untouched() && history == [] && !partialResult
    }

    /** A canary is to be delivered through a form on a screen that offers nothing but repetitions of its title. */
    ghost predicate NothingToDo() {
      config.canaryDelivery && hasCanary && RoomForPlateau() && OffersNothing()
    }

    /**
     * `run`. Whenever it returns, the budgets held, the counters agree with what was dispatched, and the result says
     * "partial" if anything failed; it never reaches the device without the traffic guard.
     */
    method Run(activityPlans: seq<Plan>, linkPlans: seq<Plan>) returns (r: RunResult, ghost iterations: nat)
      requires Running() && attempted == 0 && ending.Completed?
      requires book.activities == [] && book.links == [] && book.pending == []
      modifies this, book, watcher, phone
      ensures !guardActive ==> r.Escaped? && phone.tally == old(phone.tally)
      ensures iterations <= config.maxActions + IdleRoom() + 1
      ensures r.Finished? ==> Books() && Limits() && !r.exit.Go?
      ensures r.Finished? ==> attempted - executedActions - failures <= One(r.exit.PastDeadline?)
      ensures r.Finished? && !r.partial ==> failures == 0 && !r.cleanupFailed && Orderly(ending)
      ensures r.Finished? && r.exit.Stop? ==> (book.NoneAttempted() <==> book.pending == [])
      ensures r.Finished? && r.exit.Stop? && !(config.canaryDelivery && hasCanary) ==> book.NoneAttempted()
      ensures r.Finished? && r.exit.Stop? && (!ending.CoveragePlateau? || !formPending) ==> book.NoneAttempted()
      ensures r.Finished? ==> book.OnlyFlightAttempted() || (ending.CoveragePlateau? && formPending)
      ensures if r.Escaped? then !guardActive || Warned(iterations) else Warranted(r.exit)
      ensures old(Pristine()) && guardActive && NothingToDo() && SomethingToTry(activityPlans, linkPlans) ==>
                r.Finished? && !r.partial && r.exit.Stop? && ending.CoveragePlateau? && !book.NoneAttempted()
    {
      iterations := 0;
      if !guardActive {
        var sweep := phone.RemoveWorkspace();
        return Escaped, 0;
      }
      var flow;
      ghost var calm := Pristine() && NothingToDo() && SomethingToTry(activityPlans, linkPlans);
      flow, iterations := Traverse(activityPlans, linkPlans, calm);
      if flow.Escapes? {
        var sweep := phone.RemoveWorkspace();
        r := Escaped;
      } else {
        r := Conclude(flow);
      }
    }
  }
}
