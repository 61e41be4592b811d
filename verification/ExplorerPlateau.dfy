/** A run that ends at a plateau and leaves a navigation entry undecided. */
module ExplorerPlateau {
  import opened Common
  import opened ExplorerPhone
  import opened ExplorerNavigation
  import opened ExplorerWatcher
  import opened Explorer

  /** Runs a new explorer with one activity to open on a phone on which nothing happens. */
  method RunQuietly(explorer: AndroidExplorer, activity: Plan) returns (r: RunResult)
    requires activity.Try? && explorer.phone.quiet.Some? && explorer.guardActive && explorer.NothingToDo()
    requires explorer.Pristine() && explorer.ending.Completed? && explorer.lostSubmits == 0 && explorer.failures == 0
    requires explorer.Parts() && explorer.BooksBut(0, 0, 0, 0) && explorer.Limits() &&
             explorer.phone.tally.unsettled == 0
    requires explorer.book.Valid() && explorer.book.inFlight == None && explorer.book.pending == []
    requires explorer.book.activities == [] && explorer.book.links == []
    modifies explorer, explorer.book, explorer.watcher, explorer.phone
    ensures r.Finished? && r.exit.Stop? && !r.partial && explorer.ending.CoveragePlateau?
    ensures !explorer.book.NoneAttempted()
  {
    assert activity in [activity];
    ghost var iterations;
    r, iterations := explorer.Run([activity], []);
  }

  /**
   * The login screen stays as it is; its button repeats the title of the activity, so it is never tapped, and the form
   * it would submit keeps the one activity to open waiting until the plateau.
   */
  method LoginNeverSubmitted() returns (explorer: AndroidExplorer, r: RunResult)
    ensures r.Finished? && r.exit.Stop? && !r.partial && explorer.ending.CoveragePlateau?
    ensures !explorer.book.NoneAttempted()
  {
    var button := Candidate(Tap, "login_title", true, false, "", true);
    var nothing := Heuristics((_, _, _) => None, (_, _, _) => []);
    var phone := new Phone(Some(Quiet(UiState("login", "LoginActivity", 0), 4711, [button])), nothing);
    var config := Config(60, 5, 20, 10, 5, 5, 1, 3, true);
    explorer := new AndroidExplorer(phone, config, true, true);
    assert explorer.config == config && explorer.phone == phone;
    assert Touchable(button) && button.repeatsTitle;
    assert explorer.RoomForPlateau();
    assert explorer.NothingToDo();
    r := RunQuietly(explorer, Try(Some("SettingsActivity")));
  }
}
