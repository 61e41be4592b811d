# Android Security Lab: a verified model of the assessor's stateful kernels

The assessor drives an Android device, changes settings on it, watches an application at runtime and turns what it saw
into verdicts. This project models the parts of `android_assessor` whose behaviour is decided by their own code and
proves what they promise. The device, the clock, the disk and other actors are free to do anything: every call may
fail, take effect or not, or find the world changed.

| files | what they model |
|---|---|
| `Explorer.dfy`, `ExplorerPhone.dfy`, `ExplorerWatcher.dfy`, `ExplorerNavigation.dfy`, `ExplorerPlateau.dfy` | the UI exploration loop, its budgets, counters, navigation ledger, and what it may observe of a misbehaving phone |
| `AdbDeadlines.dfy` | how nested operations of the explorer's backend share deadlines |
| `AaptTree.dfy`, `AaptForest.dfy` | the one-pass parser of AAPT2 XML trees over mutable nodes, and the forest it builds |
| `DeepLinks.dfy` | the bounded expansion of intent filters into deep links |
| `CleanupWorld.dfy`, `Cleanup.dfy`, `CleanupProofs.dfy`, `CleanupConvergence.dfy`, `CleanupRepeats.dfy`, `CleanupUndisturbed.dfy` | the cleanup ledger: compare-then-undo in reverse order, rerun after any failure |
| `CaBackend.dfy`, `CaState.dfy` | certificate-authority ownership: snapshot, apply with rollback, plan, cleanup |
| `WebView.dfy` | the correlator of WebView events |
| `Crypto.dfy` | the verdicts over runtime crypto operations, with the key/IV reuse index |
| `LockProtocol.dfy`, `DeviceLocks.dfy` | the re-entrant device lock: all interleavings of its steps, and the lock object itself |
| `FeedbackReader.dfy` | the incremental reader of live observer files |
| `Storage.dfy` | the private-storage inventory and the canary probe |
| `Protection.dfy`, `ManifestPolicy.dfy` | permission protection levels, and the exported-component policy |

Objects whose methods update their fields are classes here too. Each of their methods is proved equal to a function of
the state before (the `...Spec` functions), or against a declarative statement of what it computes; the lemmas are
about those functions. Time is in integer milliseconds.

## What turned out not to hold, and exactly when it does

- Printing a forest and parsing it back does not return every forest whose children are deeper than their parent: a
  sibling deeper than an earlier sibling becomes that sibling's child (`AaptForest.DeeperSiblingIsAdopted`). Wherever
  the attributes are printed, the forest comes back if and only if it is well formed: children deeper than the parent,
  no sibling deeper than one before it, no attribute named twice (`AaptForest.RoundTrip`).
- The truncation flag of the deep links is cautious: it is raised if and only if some filter comes up when the bound is
  already reached or goes beyond it (`DeepLinks.CollectDeepLinks`), which can happen with no link lost: an activity with
  256 schemes and a second filter without any raises it (`DeepLinks.FlagMayBeRaisedForNothing`).
- Cleanup does not bring every recorded chain of proxy values back to its start. For changes that each changed
  something, which are the only ones recorded (`android_assessor/traffic.py:375-388`), it does so after every possible
  history of failing passes if and only if no value occurs twice (`CleanupRepeats.ConvergesExactlyWhenDistinct`).
- Cleanup does not always finish. An undisturbed pass finishes every proxy action if and only if every change recorded
  above the value the device shows already counts as undone, and then, if there are only proxy actions, the session is
  reported as cleaned (`CleanupConvergence.PassFinishesExactly`). A write that fails after taking effect can leave a
  change above that place unfinished, and then it stays so for good (`CleanupConvergence.EffectfulFailureStrands`,
  `CleanupConvergence.StrandedNeverCleaned`); a session that is reported as cleaned does have its original proxy back
  (`CleanupConvergence.CleanReportIsHonest`).
- A run of the explorer that is stopped may leave navigation entries as "attempted". It leaves none if and only if none
  is still waiting, which is so unless it stops at a coverage plateau, and always so if no canary is to be delivered
  through a form (`Explorer.AndroidExplorer.Run`). With such a canary there are runs that do: on a login screen whose
  button repeats the title, the run ends without any failure at a plateau, and the activity that was waiting still says
  "attempted" (`ExplorerPlateau.LoginNeverSubmitted`; the last clause of `Run` is about every phone of this kind).

## Model

| member | source | states |
|---|---|---|
| `Explorer.AndroidExplorer.Run` | android_assessor/explorer.py:1535-2488 | Whenever the run returns: attempts, states, depth and failures are within their budgets, every counter equals the number of dispatches it counts, attempts are executed or failed except for at most one cut off by the deadline, "completed" excludes any failed action, failed cleanup or ending by an error, a stopped run leaves no navigation "attempted" if and only if none is waiting, a plateau with a form pending is the only ending that leaves some, and the loop took at most maxActions + 5 (maxRuntime - actionTimeout) + 1 iterations; without the traffic guard nothing is dispatched, and on a phone on which nothing happens the plateau does leave entries "attempted"; however it ends, there is a reason for it: a limit that is reached, a request, a deadline that was reported or has passed, a screen, process or launch that failed in the way reported, another package in front, and an error leaves the run only if nothing expects it or the loop has not begun |
| `ExplorerPlateau.LoginNeverSubmitted` | android_assessor/explorer.py:1821-2350 | A run on one concrete phone that ends at a plateau, not partial, with a navigation entry still "attempted" |
| `Explorer.AndroidExplorer.Explore` | android_assessor/explorer.py:1771-2397 | The loop ends: every iteration that goes on dispatches an action or idles 200 ms, so iterations are bounded by actions and time; it is left only in a state in which counters, budgets and ledger agree; on a phone on which nothing happens it is left at the plateau |
| `Explorer.AndroidExplorer.Iterate` | android_assessor/explorer.py:1793-2397 | One iteration keeps every budget and counter and either attempts an action or lets 200 ms pass, whichever way it is left; from the root screen a queued target goes first, unless a form is awaited, and is no longer "attempted" afterwards |
| `Explorer.AndroidExplorer.TraversalStep` | android_assessor/explorer.py:1947-2397 | Of the candidates offered one not yet tried is carried out if there is any, unless a keyboard has to be hidden first; only else it scrolls, once in every state, or steps back if there is a way back, or waits |
| `Explorer.AndroidExplorer.LimitReached` | android_assessor/explorer.py:1771-1792 | An iteration starts only with time for one more action, an action left, and room for the current state; otherwise the reason reported is one that holds |
| `Explorer.AndroidExplorer.PerformAction` | android_assessor/explorer.py:1600-1618 | Exactly the counters that a dispatch with this outcome and source must move are moved, by one |
| `Explorer.AndroidExplorer.RecoverActionFailure` | android_assessor/explorer.py:1657-1688 | The run goes on after a device error only below the failure limit and from a freshly captured state; at the limit every queued navigation is blocked |
| `Explorer.AndroidExplorer.ObserveAfterAction` | android_assessor/explorer.py:1690-1741 | The state returned is the last one the phone showed, also after a restart of a dead process; every process found dead counts as one crash and is answered by one launch, every launch that succeeds counts as one restart; giving up blocks all queued navigation, marks the result partial and has a reason |
| `Explorer.AndroidExplorer.EnterInput` | android_assessor/explorer.py:1620-1648 | Done, the node counts as tried in this state and the keyboard as open; otherwise neither changes and the run is stalled with its books in order |
| `Explorer.AndroidExplorer.FillCanaryForm` | android_assessor/explorer.py:2080-2137 | A form of up to three dispatches started with room for all of them is really filled, its supporting input included, the keyboard out of the way, and leaves room for its submission; if a dispatch fails, the run goes on or ends with its books in order |
| `Explorer.AndroidExplorer.RetryWithInputs` | android_assessor/explorer.py:2204-2256 | Filling nearby inputs and tapping again stays within the action budget however far it gets; it comes to an end without any failure, in the current state, or goes on from a state shown last after a failure |
| `Explorer.AndroidExplorer.TapStep` | android_assessor/explorer.py:2060-2262 | Whenever the loop goes on, it goes on from a state the phone showed; if no dispatch failed, from the last one shown, and the state before is pushed on the history exactly when its fingerprint differs. A canary form is filled before it is submitted, and with submission and retry in one iteration every budget and counter is kept, whichever dispatch fails or is cut off |
| `Explorer.AndroidExplorer.PrepareSubmit` | android_assessor/explorer.py:2060-2150 | A canary form is filled exactly if delivery is on, there is a canary, the action would submit a form and the budget has room for all of it; one without room is counted as skipped; either way it is awaited no longer |
| `Explorer.AndroidExplorer.GoOn` | android_assessor/explorer.py:2176-2262 | A tap is retried exactly if it did nothing, is one that means something, was not retried in this state, has inputs near it and an action is left; every retry is counted and made |
| `Explorer.AndroidExplorer.ObserveTap` | android_assessor/explorer.py:2162-2175 | A submitted form is delivered exactly when the screen after it was observed, and failed exactly when observing it ended the run |
| `Explorer.AndroidExplorer.PickAction` | android_assessor/explorer.py:1947-2017 | The pick is the first candidate that is neither too deep, nor a repeated title, nor an opened menu, nor tried in this state; none means all are blocked; the repetitions passed over are counted, those too deep are not |
| `Explorer.AndroidExplorer.Choose` | android_assessor/explorer.py:1999-2017 | The (state, action) pair picked was never picked before in the run; it is recorded, and with it a menu that it opens |
| `Explorer.AndroidExplorer.ActionStep` | android_assessor/explorer.py:2018-2262 | The pick goes unrecorded if and only if an open keyboard is in its way, which is then hidden with the state and history kept; otherwise it is recorded once and the step is that of a tap or of entering text |
| `Explorer.AndroidExplorer.NavigationStep` | android_assessor/explorer.py:1821-1946 | A queued navigation costs one attempt, and the status written for it is that of its outcome: denied, rejected, opened with the resumed activity or host, failed, blocked; unless it is cut off or leaves the package exactly the entries still waiting say "attempted" afterwards |
| `Explorer.AndroidExplorer.Resolve` | android_assessor/explorer.py:1850-1932 | Denied and rejected targets are recorded as such without observing; an activity is "opened" only if it is the one resumed, also after a device error |
| `Explorer.AndroidExplorer.ScrollStep` | android_assessor/explorer.py:2264-2299 | One attempt, once per state; the run goes on from the state the phone showed last, the picks untouched |
| `Explorer.AndroidExplorer.BackStep` | android_assessor/explorer.py:2301-2319 | One attempt, one level less of history; the run goes on from the state the phone showed last |
| `Explorer.AndroidExplorer.Move` | android_assessor/explorer.py:2291-2319 | Success is counted exactly when the state observed differs from the one before |
| `Explorer.AndroidExplorer.IdleStep` | android_assessor/explorer.py:2335-2397 | Lets at least 200 ms pass without an attempt; stops for a plateau only after an attempt and a full quiet plateau |
| `Explorer.AndroidExplorer.CheckProcess` | android_assessor/explorer.py:2360-2397 | A process with another id counts as a restart and ends the quiet time, a dead one counts as a crash and is launched once, one that cannot be asked for stops the run; the loop goes on in order or stops with all navigation blocked and the result partial, never as a plateau |
| `Explorer.AndroidExplorer.Conclude` | android_assessor/explorer.py:2398-2488 | The handlers after the loop keep the ending's honesty: max_runtime for the deadline, package_boundary and partial for a foreign package, partial after any failed action or cleanup |
| `ExplorerWatcher.UiWatcher.Capture` | android_assessor/explorer.py:1169-1197 | What a capture reports for every answer of the phone, each of its steps being taken only before the hard deadline; a state is accepted only if the capture also ended before it |
| `ExplorerWatcher.UiWatcher.WaitForUiUntil` | android_assessor/explorer.py:1212-1264 | The observation returned is the one its looks lead to: each look before the deadline and a pause after the last, none but the last settling anything (the old screen seen once, a dialog dismissed, an unreadable screen within the retries); when time has run out, the screen seen, else the deadline, else the failure, else one more capture |
| `ExplorerWatcher.UnchangedIsSeenTwice` | android_assessor/explorer.py:1225-1240 | An unchanged screen is believed only when two looks showed it or the wait has run out |
| `ExplorerNavigation.NavigationBook.Queue` | android_assessor/explorer.py:1803-1846 | The entry is appended, earlier ones are kept, and it waits in the queue, as "attempted", if and only if it is to be tried; otherwise its status is that of the plan |
| `ExplorerNavigation.NavigationBook.BlockPending` | android_assessor/explorer.py:1650-1655 | Exactly the waiting entries become blocked; afterwards only one in flight can still be "attempted" |
| `AdbDeadlines.AdbExplorerBackend.BoundedTimeout` | android_assessor/explorer.py:794-809 | The timeout is the largest that oversteps neither the request, nor the run deadline, nor any enclosing operation; which deadline is reported when one has passed |
| `AdbDeadlines.AdbExplorerBackend.SetRuntimeBudget` | android_assessor/explorer.py:782-783 | The run deadline lies the budget ahead of now |
| `AdbDeadlines.AdbExplorerBackend.LogicalOperation` | android_assessor/explorer.py:785-792 | Whatever happens inside, nested operations and refusals included, every command of the operation runs within its time and that of all enclosing ones, and the deadlines are restored; if nothing is refused, every command of it was sent |
| `AaptTree.ParseXmlTree` | android_assessor/manifest.py:313-339 | For every line sequence, the linked nodes are exactly the forest that recursive descent reads off the lines, and every node holds exactly the attributes and children whose nearest shallower element it is |
| `AaptTree.OwnerOnStack` | android_assessor/manifest.py:320-333 | Popping the stack finds the nearest preceding element of strictly smaller indent |
| `AaptTree.NearestIsNearest` | android_assessor/manifest.py:320-333 | No element between a line and its owner is shallower than the line |
| `AaptTree.KidsAreNested` | android_assessor/manifest.py:313-339 | Ownership by nearest shallower element and nesting by blocks of deeper lines are the same forest |
| `AaptForest.PreorderIsLineOrder` | android_assessor/manifest.py:313-339 | The preorder of the forest is the element lines in order, each with the attribute lines it owns, for every input |
| `AaptForest.ParsedIsWellFormed` | android_assessor/manifest.py:313-339 | Every parsed forest is well formed |
| `AaptForest.RoundTrip` | android_assessor/manifest.py:313-339 | With every attribute printed at any distance from its element, parsing the dump of a forest returns the forest if and only if it is well formed |
| `AaptForest.PrintParsesToWellFormedTwin` | android_assessor/manifest.py:313-339 | A forest without repeated attribute names comes back as a well-formed forest with the same preorder, and there is only one |
| `AaptForest.DeeperSiblingIsAdopted` | android_assessor/manifest.py:320-333 | Two siblings, the second deeper, come back as parent and child |
| `Common.UniqueKeepsFirsts` | android_assessor/manifest.py:522-523 | Deduplication keeps every value once, in the order of first occurrences |
| `DeepLinks.TriplesAreExact` | android_assessor/manifest.py:556-601 | The product visits exactly the combinations in range, each once, in lexicographic order |
| `DeepLinks.FilterLinksAreTheProduct` | android_assessor/manifest.py:526-601 | The links of one filter are pairwise different and are all combinations of its schemes, authorities and paths |
| `DeepLinks.FilterLinksAreDeclared` | android_assessor/manifest.py:526-601 | On the fields: the links of a filter are exactly those with a scheme, an authority and paths that its data declare (or none where none is declared), its index and flag, and the permission that opening takes: an alias's own only, any other component's own unless it is missing or empty, and then the application's |
| `DeepLinks.LinksAreOffered` | android_assessor/manifest.py:849-866 | The links of all eligible filters are exactly those some activity or alias declares in a filter that is for viewing, browsable and default |
| `DeepLinks.DeepLinksForFilter` | android_assessor/manifest.py:526-601 | All links, or the first `remaining` ones with the flag raised exactly when there are more |
| `DeepLinks.CollectDeepLinks` | android_assessor/manifest.py:849-866 | Never more than 256 links, always the first ones of all eligible filters in order |
| `DeepLinks.FlagMeansBoundReached` | android_assessor/manifest.py:849-866 | Without the flag the list is all the links; with it there are exactly 256 |
| `DeepLinks.FlagMayBeRaisedForNothing` | android_assessor/manifest.py:855-866 | One activity with 256 schemes and a second filter without any raises the flag with nothing lost |
| `CleanupProofs.RestoreMeans` | android_assessor/cleanup.py:146-177 | Completed means that the owned applied value was read and the previous one is in force, skipped that the previous one was read, a conflict that neither was; nothing else is ever written, and nothing at all without a captured state and a valid owned record. Undisturbed, each of the three comes about exactly when the device shows that value |
| `CleanupProofs.RemoveMeans` | android_assessor/cleanup.py:180-198 | Completed means that the list showed the owned pair and its remote end is free now with all other ends as they were, skipped that it was free, a conflict that it leads elsewhere; nothing else is ever removed. Undisturbed, each of the three comes about exactly when the list shows that |
| `Cleanup.CleanupExecutor.UndoDue` | android_assessor/cleanup.py:544-590 | Due actions are undone last first; each status is stored before the next action is touched |
| `CleanupProofs.RollbackMeans` | android_assessor/cleanup.py:408-509 | A rollback lawfully undoes chosen actions only, whatever fails, and makes the session active again only if no action at all is left |
| `CleanupUndisturbed.RollbackAttempts` | android_assessor/cleanup.py:408-509 | Whatever fails, unless the process dies, no chosen action is left pending, and the session is active again exactly when no action at all is unfinished |
| `CleanupUndisturbed.RollbackRestores` | android_assessor/cleanup.py:408-509 | Undisturbed, rolling back one owned proxy change that is in force puts the previous value back and completes that action, and nothing else changes |
| `CleanupUndisturbed.RollbackUndoesTop` | android_assessor/cleanup.py:408-509 | Undisturbed, rolling back the top of a recorded chain brings the proxy to the value below that part and finishes its actions |
| `CleanupUndisturbed.PassRemovesMapping` | android_assessor/cleanup.py:180-198 | An undisturbed pass over any other actions removes an owned listed mapping and completes its action |
| `CleanupUndisturbed.NotReadyFails` | android_assessor/cleanup.py:522-590 | When the device is not ready, the device actions that are due fail and nothing is touched |
| `CleanupUndisturbed.DeathKeepsSession` | android_assessor/cleanup.py:408-590 | A process that dies before anything was undone leaves every action as stored: a rollback the whole session, a cleanup all but the status "cleaning" |
| `CleanupProofs.TouchesOnlyWhatItOwns` | android_assessor/cleanup.py:157-198 | Over any number of cleanups and rollbacks, with any outside changes and failures, every write undoes an owned unfinished action right after a read that showed its effect; finished actions are never touched again |
| `CleanupProofs.PassIsLawful` | android_assessor/cleanup.py:522-590 | One pass keeps that and leaves actions that were not chosen as they are |
| `CleanupConvergence.StepOnChain` | android_assessor/cleanup.py:544-590 | One due action, whatever goes wrong, keeps the proxy on the chain of recorded values and moves it back by at most one |
| `CleanupConvergence.CleanupConverges` | android_assessor/cleanup.py:544-607 | After any passes with failures before or after effect, or a process dying at any call, one undisturbed pass leaves the proxy at its original value |
| `CleanupConvergence.CleanFailuresConvergeFully` | android_assessor/cleanup.py:544-607 | If failing calls never took effect, that pass also finishes every proxy action and the session is clean |
| `CleanupConvergence.CleanReportIsHonest` | android_assessor/cleanup.py:511-613 | After any passes, a session reported as cleaned has every action finished and the proxy at its original value |
| `CleanupConvergence.PassFinishesExactly` | android_assessor/cleanup.py:544-607 | An undisturbed pass finishes every proxy action if and only if every change above the device's place on the chain already counts as undone; with proxy actions only, exactly then the session is cleaned |
| `CleanupConvergence.StrandedNeverCleaned` | android_assessor/cleanup.py:157-177 | Wherever on the chain the device is, an unfinished action above its place keeps the session from ever being cleaned, whatever passes follow |
| `CleanupConvergence.EffectfulFailureStrands` | android_assessor/cleanup.py:157-177 | One write that fails after taking effect reaches that point |
| `CleanupConvergence.RepeatedValueIsLost` | android_assessor/cleanup.py:157-177 | With a repeated value the original is lost |
| `CleanupRepeats.ConvergesExactlyWhenDistinct` | android_assessor/cleanup.py:157-177 | For recorded changes that each changed something: every history of failing passes is followed by restoration of the original value in one undisturbed pass, if and only if no value occurs twice |
| `CleanupRepeats.RepeatLosesOriginal` | android_assessor/cleanup.py:544-590 | For any ledger with a repeated value, mixed with actions of other kinds, a pass after which the undisturbed one misses the original value |
| `CaState.SnapshotIsTold` | android_assessor/ca_state.py:126-173 | A snapshot touches nothing and starts a sound ledger that says what one read showed, or that it failed |
| `CaState.ApplyKeepsSound` | android_assessor/ca_state.py:175-230 | Apply keeps the ledger sound and its snapshot, and installs or removes nothing but the target, and only after an empty snapshot |
| `CaState.PlanIsTested` | android_assessor/ca_state.py:232-280 | The plan removes if and only if the ledger owns the slot and the slot was just seen to hold the target, the value the removal compares with; foreign or unreadable slots are conflicts, and nothing is touched |
| `CaState.CleanupKeepsSound` | android_assessor/ca_state.py:282-322 | Cleanup changes only what the ledger says of application and ownership, keeps it sound, and removes nothing but the target, and only after an empty snapshot |
| `CaState.NonInterference` | android_assessor/ca_state.py:175-322 | With other actors changing slots between any two calls, any sequence of apply and cleanup installs and removes only the session's target in its own slot, and nothing unless the snapshot found it empty |
| `CaState.RunKeepsSound` | android_assessor/ca_state.py:175-322 | Every reachable owned ledger has an absent snapshot and an applied fingerprint equal to its target |
| `CaState.ApplyOutcome` | android_assessor/ca_state.py:192-230 | Without interference but with any faults and an empty snapshot, apply returns exactly when neither installing nor reading back fails, and then with the target installed; or it reports a rollback with the slot empty, or hands over a recovery ledger whose cleanup empties it |
| `CaState.ApplyKeepsHands` | android_assessor/ca_state.py:175-191 | A snapshot that failed is refused, one that found another certificate is reported as occupied, one that found the target is adopted as pre-existing, and a ledger applied before is returned as it is; in none of these is anything touched |
| `CaState.AppliedMeansInstalled` | android_assessor/ca_state.py:175-230 | For every sound ledger in an undisturbed slot, apply that returns leaves the target installed |
| `CaState.CleanupAnswers` | android_assessor/ca_state.py:282-322 | Cleanup refuses a failed snapshot and leaves what it does not own; of what it owns, undisturbed, it returns when the slot is empty, removes the target and gives up ownership, or reports a conflict and touches nothing when the slot holds another certificate |
| `CaState.CleanupOutcome` | android_assessor/ca_state.py:282-322 | Cleanup either leaves the slot or empties it of the target, and a returned cleanup of an owned ledger leaves it empty |
| `CaState.CleanupIsIdempotent` | android_assessor/ca_state.py:270-322 | After a cleanup that returned, another one changes no slot whatever fails meanwhile, and undisturbed it returns the same ledger |
| `WebView.Correlate` | android_assessor/rules.py:1680-1790 | An instance is reported if and only if some prefix of the events leaves it in the reported condition, and a proceed is matched if and only if its handler's latest earlier SSL event is a callback |
| `WebView.StateSaysWhatTraceSays` | android_assessor/rules.py:1690-1775 | The incremental state of an instance satisfies a condition exactly when the latest events about it say so |
| `WebView.EverMeansSome` | android_assessor/rules.py:1732-1775 | Checking after some events only (never after a removal) finds every prefix that matters |
| `WebView.TrackSsl` | android_assessor/rules.py:1778-1790 | The set of open callbacks is that of handlers whose last SSL event is a callback |
| `WebView.Evaluate` | android_assessor/rules.py:1791-1857 | The verdict of each of the three rules in terms of the whole trace |
| `Crypto.Analyze` | android_assessor/crypto_analysis.py:250-583 | Evidence is refused if and only if its provenance is inconsistent or mixed; otherwise the report has, in order, exactly the rules that hold of something, or PASS, or missing coverage |
| `Crypto.SqueezeKeeps` | android_assessor/crypto_analysis.py:298-303 | Digest names are compared by their capital letters and digits, character by character |
| `Crypto.FindReuse` | android_assessor/crypto_analysis.py:445-467 | The one-pass index finds exactly the operations that share key and IV with one of another id, each id once in order of appearance |
| `Crypto.ReuseIsPairwise` | android_assessor/crypto_analysis.py:445-489 | CRYPTO-REUSED-IV is reported if and only if two executed encryptions with different ids share non-null key and IV, for exactly the ids in such a pair |
| `Crypto.ReportsWhatHolds` | android_assessor/crypto_analysis.py:283-567 | A rule is reported if and only if it holds of an executed operation, for exactly the ids it holds of |
| `Crypto.PassMeansNothingHolds` | android_assessor/crypto_analysis.py:568-583 | PASS is reported if and only if something was executed and no rule holds of any operation or pair |
| `Crypto.PassOnFields` | android_assessor/crypto_analysis.py:283-583 | PASS, rule conditions spelled out on the fields: something was executed, no executed operation is weak in algorithm, digest, mode, padding, key, IV, iterations or context, and no two encryptions with different ids share key and IV |
| `Crypto.ReportedStatuses` | android_assessor/crypto_analysis.py:283-583 | Weak digests, low iteration counts and static keys are potential, missing context or coverage is inconclusive, and results are eligible exactly when some operation was not simulated |
| `LockProtocol.RunKeepsInv` | android_assessor/device_lock.py:91-187 | The lock's invariant holds at every moment of every interleaving of enter and exit steps of any number of threads and other processes |
| `LockProtocol.MutualExclusion` | android_assessor/device_lock.py:91-187 | At most one thread holds a key, and it owns the OS lock |
| `LockProtocol.DepthIsLiveObjects` | android_assessor/device_lock.py:91-187 | The recorded depth is the number of live lock objects, and all objects at depth above 1 share one non-null session |
| `LockProtocol.NothingLeaks` | android_assessor/device_lock.py:146-187 | Once every thread has left its blocks no OS lock is kept |
| `DeviceLocks.DeviceLock.Enter` | android_assessor/device_lock.py:91-144 | Re-entry if and only if the thread holds the key for the same non-null session; a lock file that cannot be opened is reported apart; a free device is entered at once, and only one that is held when the time-out has passed is busy; a failed entry leaves table and objects as they were; each outcome is the effect of enabled protocol steps of this thread with others acting in between |
| `DeviceLocks.DeviceLock.WaitForOsLock` | android_assessor/device_lock.py:115-123 | A free key is taken without waiting; giving up means that the time-out has passed and the key is held; without a time-out nothing is waited for |
| `DeviceLocks.DeviceLock.Exit` | android_assessor/device_lock.py:146-187 | Undoes one level and frees the OS lock exactly when the object owns it, by the protocol's own steps |
| `FeedbackReader.RuntimeFeedbackCollector.NewLines` | android_assessor/explorer.py:2645-2669 | The lines completed by this read, with the rest kept for the next one, whatever the file does |
| `FeedbackReader.TextIsItsLines` | android_assessor/explorer.py:2660-2669 | Text is its complete lines with their breaks, followed by the tail that is kept |
| `FeedbackReader.OddFiles` | android_assessor/explorer.py:2645-2669 | A missing or oversized file gives nothing and changes nothing; one that has become shorter is read from its start with the old tail forgotten; one that cannot be read loses nothing but the tail of a longer one |
| `FeedbackReader.EventsAdd` | android_assessor/explorer.py:2671-2697 | A batch of lines adds exactly the categories and methods of its events, and counts every event once |
| `FeedbackReader.RequestsAdd` | android_assessor/explorer.py:2698-2710 | A batch of lines adds exactly the hosts of its requests |
| `FeedbackReader.RuntimeFeedbackCollector.Poll` | android_assessor/explorer.py:2671-2710 | The accumulated feedback grows by exactly the events and hosts of the new lines |
| `FeedbackReader.LinesJoin` | android_assessor/explorer.py:2660-2669 | The lines of two pieces are those of the first and those of its tail with the second |
| `FeedbackReader.IncrementalIsBatch` | android_assessor/explorer.py:2645-2669 | However the polls of an append-only file fall, the lines returned are the complete lines of what was read and the buffer is its tail |
| `FeedbackReader.FeedbackIsBatch` | android_assessor/explorer.py:2671-2710 | The feedback after any polls is that of one batch pass over those lines |
| `Storage.ListStorage` | android_assessor/private_storage.py:818-883 | At most max_entries rows, the cut of the round robin over both roots, each root an order-preserving prefix of its entries and at least its fair half; each of the five limitations is reported exactly when it applies, and "completed" if and only if every line was understood and every entry is listed |
| `Storage.CutIsFair` | android_assessor/private_storage.py:870-876 | Cutting the round robin anywhere leaves prefixes of both roots shared as evenly as they last |
| `Storage.NamedByLines` | android_assessor/private_storage.py:818-865 | The entries of a root are exactly what the lines name below it: by the relative path below the internal root, or below the external root only, marked as such |
| `Storage.OutsideBothRoots` | android_assessor/private_storage.py:836-848 | A path counts as outside exactly when it goes on from neither root |
| `Storage.CandidatesAreSearchable` | android_assessor/private_storage.py:665-690 | Searched is exactly each regular file below a root, not behind a link, with a size within the bound and an admitted suffix |
| `Storage.ProbeExactCanary` | android_assessor/private_storage.py:928-991 | The byte and count budgets hold, "completed" exactly if all searchable entries fit into them and every search ends with an answer, and then each has its verdict; a time-out or an error is reported exactly when a command ended so |
| `Protection.DecodeFlags` | android_assessor/manifest_analysis.py:82-103 | Every set bit above the base is accounted for once: the flags and the base sum to the level |
| `Protection.ProtectionDetails` | android_assessor/manifest_analysis.py:47-131 | Class, base, flags and the default of a permission on the fields: missing, not defined here, defined without a level and so normal by default, or as the bits or tokens of its level say; signature-only exactly if the application defines it with base level signature |
| `Protection.ClassOnLevel` | android_assessor/manifest_analysis.py:84-119 | Each class on the number or the first token of a level |
| `Protection.MergeDefinitions` | android_assessor/manifest_analysis.py:890-905 | Each defined name has the level all its definitions agree on, or the conflict marker because two disagree |
| `ManifestPolicy.ComponentBoundaries` | android_assessor/manifest_analysis.py:199-282 | Every operation is guarded by the first value present in its chain of fallbacks, path permissions before the provider's own before the application's |
| `ManifestPolicy.ConflictingNames` | android_assessor/manifest_analysis.py:957-972 | Exactly the components described in more than one way apart from the archive they came from |
| `ManifestPolicy.EvaluateCategory` | android_assessor/manifest_analysis.py:973-1093 | The category's status in terms of which components are open, doubtful or contradictory |
| `ManifestPolicy.Analyze` | android_assessor/manifest_analysis.py:922-1172 | PASS if and only if there is a component inventory, unrestricted coverage, nothing contradicted, and every component that matters is not exported or protected on its own fields; POTENTIAL if and only if an uncontradicted one that matters is exposed, whatever the coverage; otherwise inconclusive |
| `ManifestPolicy.VerdictOnFields` | android_assessor/manifest_analysis.py:946-1093 | On the fields of the components alone: a category is open if and only if an uncontradicted exported component that matters has an operation without a permission or behind one that its definitions agree to be weak; it passes if and only if nothing is contradicted and every component that matters is not exported, or is exported with the first present value of each of its chains (a provider's for reading, for writing and for every path item) a permission whose definitions all have base level signature |

## Left out

- ADB, Frida, AAPT2, subprocesses and the file system: calls return any result; of compare-and-remove and of timeouts only the contract is kept.
- UI hierarchy parsing, label heuristics and input classification of the explorer: a state offers any finite queue of candidates, and forms and inputs are any functions of screen, action and the pairs tried.
- Explorer trace, metrics, skip records and the contents of runtime feedback: only whether feedback changed is modelled.
- Cleanup timing of the explorer's workspace: it runs outside the run deadline.
- Regular expressions, XML and JSON parsing, hashing, redaction: lines, fields and fingerprints are values, and `lex`, `parse` and `host` are parameters.
- AaptForest.RoundTrip: attribute values are not lexed.
- CleanupConvergence.CleanupConverges: the session store is atomic and does not fail, the device lock is held, and settings are compared as stripped text. Outside changes between calls are in `CleanupProofs`, not in the convergence results.
- Removal of remote files and stopping of processes: one action kind that ends as done or failed without touching proxy or mappings.
- CaState.NonInterference: a crash that loses the ledger between two commands is not modelled; malformed fingerprints count as read errors.
- WebView.Correlate: settings named like the two internal state entries are excluded; the execution gate and the evidence lists are not modelled.
- LockProtocol.MutualExclusion: each lock object is entered once and blocks nest; the contents of the metadata file are not modelled.
- FeedbackReader.IncrementalIsBatch: text is ASCII with `\n` breaks only; how the state files name the observed file is not modelled.
- ManifestPolicy.VerdictOnFields: assumes that the conflict marker does not lex to a level with a base, as is the case for the marker in use; launcher detection and the effective export flag are fields of a component.
- Crypto details payloads, titles and confidence: only rule, status, ids and eligibility are modelled; the extraction of operations from events is not.
- Other manifest checks, reports, the command line, root detection, the log collector, IPC quotas and scope handling: they would only add easy members.
