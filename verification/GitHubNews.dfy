/** What keeps a check result from being announced twice. */
module GitHubNews {
  import opened Options
  import opened Events
  import opened GitHubApi
  import opened GitHubPoll
  import opened GitHubWatch
  import Truth = GitHubTruth

  predicate Result(checks: ChecksState) {
    checks == Passed || checks == Failed
  }

  predicate Says(e: ForgeEvent, task: int, checks: ChecksState) {
    || (checks == Passed && e.ChecksPassed? && e.task == task)
    || (checks == Failed && e.ChecksFailed? && e.task == task)
  }

  predicate Announces(note: Note, task: int, checks: ChecksState) {
    note.Said? && Says(note.event, task, checks)
  }

  predicate StoresAnother(note: Note, task: int, checks: ChecksState) {
    note.Stored? && note.task == task && note.checks != checks
  }

  /** The result has been announced, and no other stored since. */
  predicate Standing(log: seq<Note>, task: int, checks: ChecksState) {
    if log == [] then false
    else if Announces(log[|log| - 1], task, checks) then true
    else if StoresAnother(log[|log| - 1], task, checks) then false
    else Standing(log[..|log| - 1], task, checks)
  }

  predicate Afresh(log: seq<Note>, task: int, checks: ChecksState) {
    log == [] ||
    (Afresh(log[..|log| - 1], task, checks)
     && (Announces(log[|log| - 1], task, checks) ==> !Standing(log[..|log| - 1], task, checks)))
  }

  /** A step that loses no check state read for this task, and does not delete it while one is being stored or told. */
  ghost predicate Kept(w: World, action: Action, task: int)
    requires Enabled(w, action)
  {
    match action
    case WriteChecks(ok) => ok || w.stage.link.task != task
    case DeleteTask(gone) => gone != task || !Finishing(w, task)
    case _ => true
  }

  predicate Finishing(w: World, task: int) {
    (w.stage.Recorded? || w.stage.Telling?) && Busy(w, task)
  }

  predicate Underway(w: World, task: int) {
    Polling(w.stage) && w.stage.link.task == task
  }

  predicate Busy(w: World, task: int) {
    match w.stage
    case Resting => false
    case Found(link, _) => link.task == task
    case Answered(link, _, _) => link.task == task
    case Recorded(link, _, _) => link.task == task
    case Telling(event) => event.TaskId() == Some(task)
  }

  ghost predicate KeptRun(actions: seq<Action>, task: int)
    decreases |actions|
  {
    && Legal(START, actions)
    && (actions != [] ==>
          KeptRun(actions[..|actions| - 1], task) && Kept(End(actions[..|actions| - 1]), actions[|actions| - 1], task))
  }

  /** Whatever is known of the task's checks is this. */
  ghost predicate KnownAs(w: World, task: int, checks: ChecksState) {
    && (task in w.links ==> w.links[task].checks == checks)
    && (forall i :: 0 <= i < |w.left| && w.left[i].task == task ==> w.left[i].checks == checks)
    && (Underway(w, task) ==> w.stage.link.checks == checks)
    && !(w.stage.Telling? && Says(w.stage.event, task, checks))
  }

  ghost predicate News(w: World, task: int, checks: ChecksState) {
    && Afresh(w.log, task, checks)
    && OneEach(w.left)
    && (Busy(w, task) ==> forall i :: 0 <= i < |w.left| ==> w.left[i].task != task)
    && (Standing(w.log, task, checks) ==> KnownAs(w, task, checks))
    && (w.stage.Recorded? && w.stage.link.task == task ==> task in w.links)
    && (w.stage.Telling? && Says(w.stage.event, task, checks) ==> task in w.links && w.links[task].checks == checks)
  }

  lemma Logged(log: seq<Note>, note: Note, task: int, checks: ChecksState)
    requires Afresh(log, task, checks) && (Announces(note, task, checks) ==> !Standing(log, task, checks))
    ensures Afresh(log + [note], task, checks)
    ensures Standing(log + [note], task, checks)
            == (Announces(note, task, checks) || (Standing(log, task, checks) && !StoresAnother(note, task, checks)))
  {
    assert (log + [note])[..|log|] == log;
  }

  lemma InsertedIsNews(w: World, inserted: int, task: int, checks: ChecksState)
    requires Afresh(w.log, task, checks) && Result(checks)
    ensures var log := w.log + Inserted(w, inserted);
            && Afresh(log, task, checks)
            && Standing(log, task, checks) == (Standing(w.log, task, checks) && !(inserted == task && task !in w.links))
  {
    if inserted in w.links {
      assert w.log + Inserted(w, inserted) == w.log;
    } else {
      Logged(w.log, Stored(inserted, NoChecks), task, checks);
    }
  }

  /** Rows change, without this task's checks changing unless it is inserted. */
  lemma RowsNews(w: World, w': World, task: int, checks: ChecksState)
    requires News(w, task, checks) && Afresh(w'.log, task, checks) && w'.left == w.left && w'.stage == w.stage
    requires Standing(w'.log, task, checks) ==> Standing(w.log, task, checks)
    requires task in w.links ==> task in w'.links && w'.links[task].checks == w.links[task].checks
    requires task !in w.links && task in w'.links ==> !Standing(w'.log, task, checks)
    ensures News(w', task, checks)
  {
  }

  lemma RoutesNews(w: World, action: Action, task: int, checks: ChecksState)
    requires action.OpenPull? || action.SetIssue?
    requires News(w, task, checks) && Result(checks)
    ensures News(After(w, action), task, checks)
  {
    InsertedIsNews(w, action.task, task, checks);
    if action.OpenPull? {
      Logged(w.log + Inserted(w, action.task), Opened(action.task), task, checks);
    }
    RowsNews(w, After(w, action), task, checks);
  }

  lemma ListNews(w: World, open: seq<Link>, task: int, checks: ChecksState)
    requires Enabled(w, List(open)) && News(w, task, checks)
    ensures News(After(w, List(open)), task, checks)
  {
    assert forall i :: 0 <= i < |open| ==> IsOpen(w.links, open[i].task);
  }

  lemma ReadNews(w: World, w': World, task: int, checks: ChecksState)
    requires News(w, task, checks) && w.stage == Resting && w.left != [] && w'.left == w.left[1..]
    requires w'.links == w.links && w'.log == w.log
    requires w'.stage == Resting || (w'.stage.Found? && w'.stage.link == w.left[0])
    ensures News(w', task, checks)
  {
    assert forall i :: 0 <= i < |w'.left| ==> w'.left[i] == w.left[i + 1];
  }

  lemma ChecksNews(w: World, w': World, task: int, checks: ChecksState)
    requires News(w, task, checks) && w.stage.Found? && w'.links == w.links && w'.log == w.log
    requires w'.left == w.left || w'.left == []
    requires w'.stage == Resting || (w'.stage.Answered? && w'.stage.link == w.stage.link)
    ensures News(w', task, checks)
  {
  }

  lemma AskingNews(w: World, action: Action, task: int, checks: ChecksState)
    requires Enabled(w, action) && AsksGitHub(action) && News(w, task, checks)
    ensures News(After(w, action), task, checks)
  {
    if action.LosePull? || action.AskPull? {
      ReadNews(w, After(w, action), task, checks);
    } else if w.stage.Found? {
      ChecksNews(w, After(w, action), task, checks);
    }
  }

  lemma AsideNews(w: World, action: Action, task: int, checks: ChecksState)
    requires Enabled(w, action) && Aside(action) && Kept(w, action, task) && News(w, task, checks)
    ensures News(After(w, action), task, checks)
  {
  }

  lemma WritePullNews(w: World, ok: bool, task: int, checks: ChecksState)
    requires Enabled(w, WritePull(ok)) && News(w, task, checks) && Result(checks)
    ensures News(After(w, WritePull(ok)), task, checks)
  {
    InsertedIsNews(w, w.stage.link.task, task, checks);
  }

  /** The row written is another task's, or what was read of this one is stored. */
  lemma ChecksSetNews(w: World, w': World, task: int, checks: ChecksState)
    requires News(w, task, checks) && Result(checks) && w.stage.Recorded?
    requires w.stage.link.task in w.links && w'.links == ChecksSet(w.links, w.stage.link.task, w.stage.checks)
    requires w'.log == w.log + [Stored(w.stage.link.task, w.stage.checks)] && w'.left == w.left && w'.stage == Resting
    ensures News(w', task, checks)
    ensures w.stage.link.task == task && w.stage.checks == checks ==> w'.links[task].checks == checks
    ensures w.stage.link.task == task && w.stage.checks == checks && w.stage.link.checks != checks ==> !Standing(w'.log, task, checks)
  {
    Logged(w.log, Stored(w.stage.link.task, w.stage.checks), task, checks);
  }

  /** What is to be told says what has just been stored, and was not known before. */
  lemma TurnNews(w: World, event: ForgeEvent, task: int, checks: ChecksState)
    requires News(w, task, checks) && w.stage == Resting
    requires event.TaskId() == Some(task) ==> forall i :: 0 <= i < |w.left| ==> w.left[i].task != task
    requires Says(event, task, checks) ==> task in w.links && w.links[task].checks == checks && !Standing(w.log, task, checks)
    ensures News(w.(stage := Telling(event)), task, checks)
  {
  }

  /** Nothing is stored, of another task. */
  lemma UnstoredNews(w: World, task: int, checks: ChecksState)
    requires News(w, task, checks) && w.stage.Recorded? && w.stage.link.task != task
    ensures News(w.(stage := Resting), task, checks)
  {
  }

  lemma EventSays(link: Link, pull: Pull, read: ChecksState, task: int, checks: ChecksState)
    requires Result(checks)
    ensures var event := EventFor(Compare(link, StateOf(pull), read), link.task, pull.number, pull.url);
            event.Some? ==> event.value.TaskId() == Some(link.task)
                            && (Says(event.value, task, checks) ==> link.task == task && read == checks != link.checks)
  {
  }

  lemma WriteChecksNews(w: World, ok: bool, task: int, checks: ChecksState)
    requires Enabled(w, WriteChecks(ok)) && Kept(w, WriteChecks(ok), task) && News(w, task, checks) && Result(checks)
    ensures News(After(w, WriteChecks(ok)), task, checks)
  {
    var (link, pull) := (w.stage.link, w.stage.pull);
    var event := EventFor(Compare(link, StateOf(pull), w.stage.checks), link.task, pull.number, pull.url);
    var next := After(w, WriteChecks(ok)).(stage := Resting);
    if ok && link.task in w.links {
      ChecksSetNews(w, next, task, checks);
    } else {
      UnstoredNews(w, task, checks);
    }
    EventSays(link, pull, w.stage.checks, task, checks);
    if event.Some? {
      TurnNews(next, event.value, task, checks);
    }
  }

  lemma TellNews(w: World, ok: bool, task: int, checks: ChecksState)
    requires Enabled(w, Tell(ok)) && News(w, task, checks) && Result(checks)
    ensures News(After(w, Tell(ok)), task, checks)
  {
    Logged(w.log, Said(w.stage.event), task, checks);
  }

  lemma StepNews(w: World, action: Action, task: int, checks: ChecksState)
    requires Enabled(w, action) && Kept(w, action, task) && Result(checks) && News(w, task, checks)
    ensures News(After(w, action), task, checks)
  {
    if AsksGitHub(action) {
      AskingNews(w, action, task, checks);
    } else if Aside(action) {
      AsideNews(w, action, task, checks);
    } else {
      match action
      case OpenPull(_, _, _, _) => RoutesNews(w, action, task, checks);
      case SetIssue(_, _) => RoutesNews(w, action, task, checks);
      case List(open) => ListNews(w, open, task, checks);
      case WritePull(ok) => WritePullNews(w, ok, task, checks);
      case WriteChecks(ok) => WriteChecksNews(w, ok, task, checks);
      case Tell(ok) => TellNews(w, ok, task, checks);
      case Crash =>
    }
  }

  lemma {:induction false} RunNews(actions: seq<Action>, task: int, checks: ChecksState)
    requires KeptRun(actions, task) && Result(checks)
    ensures News(End(actions), task, checks)
    decreases |actions|
  {
    if actions == [] {
    } else {
      var before := actions[..|actions| - 1];
      RunNews(before, task, checks);
      StepNews(End(before), actions[|actions| - 1], task, checks);
    }
  }

  lemma {:induction false} AfreshAt(log: seq<Note>, n: nat, task: int, checks: ChecksState)
    requires Afresh(log, task, checks) && n < |log| && Announces(log[n], task, checks)
    ensures !Standing(log[..n], task, checks)
  {
    if n == |log| - 1 {
    } else {
      AfreshAt(log[..|log| - 1], n, task, checks);
      assert log[..|log| - 1][..n] == log[..n];
    }
  }

  lemma {:induction false} StandsFrom(log: seq<Note>, i: nat, n: nat, task: int, checks: ChecksState)
    requires i < n <= |log| && Announces(log[i], task, checks)
    requires forall k :: i < k < n ==> !StoresAnother(log[k], task, checks)
    ensures Standing(log[..n], task, checks)
  {
    assert log[..n][..n - 1] == log[..n - 1];
    if i + 1 == n {
    } else {
      StandsFrom(log, i, n - 1, task, checks);
    }
  }

  /** The result is announced twice, and no other stored in between. */
  ghost predicate Repeats(log: seq<Note>, task: int, checks: ChecksState, i: nat, j: nat) {
    && i < j < |log| && Announces(log[i], task, checks) && Announces(log[j], task, checks)
    && forall k :: i < k < j ==> !StoresAnother(log[k], task, checks)
  }

  /** Whatever is lost for other tasks: no result of this one is announced twice without a different one stored between the two. */
  lemma AnnouncedOnceEach(actions: seq<Action>, task: int, checks: ChecksState, i: nat, j: nat)
    requires KeptRun(actions, task) && Result(checks)
    ensures !Repeats(End(actions).log, task, checks, i, j)
  {
    var log := End(actions).log;
    RunNews(actions, task, checks);
    if Repeats(log, task, checks, i, j) {
      AfreshAt(log, j, task, checks);
      StandsFrom(log, i, j, task, checks);
    }
  }

  // ---- what one lost write costs ----

  ghost predicate RepeatsOn(actions: seq<Action>, task: int, checks: ChecksState, i: nat, j: nat, lossy: bool) {
    Legal(START, actions) && Result(checks) && (lossy || KeptRun(actions, task)) && Repeats(End(actions).log, task, checks, i, j)
  }

  /** Some run repeats a result, with or without losing what was read for its task. */
  ghost predicate CanRepeat(lossy: bool) {
    exists actions, task, checks, i, j :: RepeatsOn(actions, task, checks, i, j, lossy)
  }

  lemma LegalOn(actions: seq<Action>, action: Action)
    requires Legal(START, actions) && Enabled(End(actions), action)
    ensures Legal(START, actions + [action]) && End(actions + [action]) == After(End(actions), action)
  {
    assert (actions + [action])[..|actions|] == actions;
  }

  const RED: seq<Run> := [Run("completed", Some("failure"))]
  const REDNESS: Note := Said(ChecksFailed(1, 7, "u"))

  /** A pass over the one row, whose failed checks are read, not stored, and announced. */
  function LosingPass(): seq<Action> {
    [List([Truth.ROW]), AskPull(true), AskChecks(true), WritePull(true), WriteChecks(false), Tell(true)]
  }

  ghost predicate Red(listing: Watched<Option<Pull>>, runs: Watched<seq<Run>>) {
    !StillTagged(listing) && listing.now.body == Some(Truth.PULL) && !StillTagged(runs) && runs.now.body == RED
  }

  lemma LosingPassReads(listing: Watched<Option<Pull>>, runs: Watched<seq<Run>>, heads: seq<Head>, log: seq<Note>)
    requires Red(listing, runs)
    ensures var w := Truth.Single(listing, runs, heads, [], Resting, log);
            var moved := heads + [Head(1, Some("c"))];
            var w1 := w.(left := [Truth.ROW]);
            var w2 := Truth.Single(Asked(listing, true), runs, moved, [], Found(Truth.ROW, Truth.PULL), log);
            var w3 := Truth.Single(Asked(listing, true), Asked(runs, true), moved, [], Answered(Truth.ROW, Truth.PULL, Failed), log);
            && Enabled(w, List([Truth.ROW])) && After(w, List([Truth.ROW])) == w1
            && Enabled(w1, AskPull(true)) && After(w1, AskPull(true)) == w2
            && Enabled(w2, AskChecks(true)) && After(w2, AskChecks(true)) == w3
  {
    Truth.OneIsListed();
    assert [Truth.ROW][1..] == [];
    assert Failing(RED[0]) && Rolled(RED) == Failed;
  }

  lemma LosingPassLoses(listing: Watched<Option<Pull>>, runs: Watched<seq<Run>>, heads: seq<Head>, log: seq<Note>)
    ensures var w3 := Truth.Single(listing, runs, heads, [], Answered(Truth.ROW, Truth.PULL, Failed), log);
            var w4 := w3.(stage := Recorded(Truth.ROW, Truth.PULL, Failed));
            var w5 := w3.(stage := Telling(ChecksFailed(1, 7, "u")));
            && Enabled(w3, WritePull(true)) && After(w3, WritePull(true)) == w4
            && Enabled(w4, WriteChecks(false)) && After(w4, WriteChecks(false)) == w5
            && Enabled(w5, Tell(true)) && After(w5, Tell(true)) == w3.(stage := Resting, log := log + [REDNESS])
  {
    assert log + [] == log;
  }

  lemma LosingPassRuns(actions: seq<Action>, listing: Watched<Option<Pull>>, runs: Watched<seq<Run>>, heads: seq<Head>, log: seq<Note>)
    returns (more: seq<Action>)
    requires Legal(START, actions) && End(actions) == Truth.Single(listing, runs, heads, [], Resting, log) && Red(listing, runs)
    ensures Legal(START, more)
    ensures End(more) == Truth.Single(Asked(listing, true), Asked(runs, true), heads + [Head(1, Some("c"))], [], Resting, log + [REDNESS])
  {
    LosingPassReads(listing, runs, heads, log);
    LosingPassLoses(Asked(listing, true), Asked(runs, true), heads + [Head(1, Some("c"))], log);
    more := actions;
    LegalOn(more, List([Truth.ROW]));
    more := more + [List([Truth.ROW])];
    LegalOn(more, AskPull(true));
    more := more + [AskPull(true)];
    LegalOn(more, AskChecks(true));
    more := more + [AskChecks(true)];
    LegalOn(more, WritePull(true));
    more := more + [WritePull(true)];
    LegalOn(more, WriteChecks(false));
    more := more + [WriteChecks(false)];
    LegalOn(more, Tell(true));
    more := more + [Tell(true)];
  }

  lemma RedOpening() returns (actions: seq<Action>)
    ensures Legal(START, actions)
    ensures End(actions) == Truth.Single(Truth.LISTING, Unasked(Doc("r0", RED)), Truth.ONCE, [], Resting, Truth.OPENED)
  {
    actions := [];
    LegalOn(actions, PublishListing(1, Doc("l", Some(Truth.PULL))));
    actions := actions + [PublishListing(1, Doc("l", Some(Truth.PULL)))];
    LegalOn(actions, PublishRuns("c", Doc("r0", RED)));
    actions := actions + [PublishRuns("c", Doc("r0", RED))];
    LegalOn(actions, OpenPull(1, 7, "u", "c"));
    actions := actions + [OpenPull(1, 7, "u", "c")];
    assert [] + [Stored(1, NoChecks)] + [Opened(1)] == Truth.OPENED;
    assert End(actions).links == map[1 := Truth.ROW] && End(actions).heads == Truth.ONCE;
  }

  /** GitHub moves on to other versions of the same. */
  lemma Retagged(listing: Watched<Option<Pull>>, runs: Watched<seq<Run>>, heads: seq<Head>, log: seq<Note>)
    requires listing.sent == Some("l") && runs.sent == Some("r0")
    ensures var w := Truth.Single(listing, runs, heads, [], Resting, log);
            var (listing', runs') := (Replaced(listing, Doc("l1", Some(Truth.PULL))), Replaced(runs, Doc("r1", RED)));
            && After(After(w, PublishListing(1, Doc("l1", Some(Truth.PULL)))), PublishRuns("c", Doc("r1", RED)))
               == Truth.Single(listing', runs', heads, [], Resting, log)
            && Red(listing', runs')
  {
  }

  lemma LossRepeats()
    ensures CanRepeat(true)
  {
    var actions := RedOpening();
    var listing, runs := Truth.LISTING, Unasked(Doc("r0", RED));
    actions := LosingPassRuns(actions, listing, runs, Truth.ONCE, Truth.OPENED);
    listing, runs := Asked(listing, true), Asked(runs, true);
    var heads, log := Truth.ONCE + [Head(1, Some("c"))], Truth.OPENED + [REDNESS];
    Retagged(listing, runs, heads, log);
    LegalOn(actions, PublishListing(1, Doc("l1", Some(Truth.PULL))));
    actions := actions + [PublishListing(1, Doc("l1", Some(Truth.PULL)))];
    LegalOn(actions, PublishRuns("c", Doc("r1", RED)));
    actions := actions + [PublishRuns("c", Doc("r1", RED))];
    actions := LosingPassRuns(actions, Replaced(listing, Doc("l1", Some(Truth.PULL))), Replaced(runs, Doc("r1", RED)), heads, log);
    assert Repeats(log + [REDNESS], 1, Failed, 2, 3);
    assert RepeatsOn(actions, 1, Failed, 2, 3, true);
  }

  /** A result is ever announced twice running exactly if what was read for its task may be lost. */
  lemma RepeatsIffLossy(lossy: bool)
    ensures CanRepeat(lossy) <==> lossy
  {
    if CanRepeat(lossy) {
      var actions, task, checks, i, j :| RepeatsOn(actions, task, checks, i, j, lossy);
      assert RepeatsOn(actions, task, checks, i, j, lossy);
      if !lossy {
        AnnouncedOnceEach(actions, task, checks, i, j);
      }
    }
    if lossy {
      LossRepeats();
    }
  }
}
