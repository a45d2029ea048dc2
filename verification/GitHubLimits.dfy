/** What it takes for a stored state to be other than what was served: one witness for each thing that can go wrong. */
module GitHubLimits {
  import opened Options
  import opened Events
  import opened GitHubApi
  import opened GitHubPoll
  import opened GitHubWatch
  import opened GitHubTruth
  import News = GitHubNews

  const RED: Doc<seq<Run>> := Doc("r0", News.RED)

  lemma RedIsFailed()
    ensures Rolled(RED.body) == Failed
  {
    assert Failing(RED.body[0]);
  }

  /** A row at rest says something else than what was last served for its commit. */
  ghost predicate Misled(w: World, task: int) {
    task in w.links && !Underway(w, task) && !Faithful(w, w.links[task])
  }

  ghost predicate Misleads(actions: seq<Action>, task: int, returning: bool, sharing: bool, losing: bool) {
    && Legal(START, actions) && (losing || WrittenRun(actions))
    && (returning || NoneReturns(End(actions).heads)) && (sharing || NoneShared(End(actions).heads))
    && Misled(End(actions), task)
  }

  /** Some run misleads, if tasks may return to a commit, or share one, or writes may be lost. */
  ghost predicate CanMislead(returning: bool, sharing: bool, losing: bool) {
    exists actions, task :: Misleads(actions, task, returning, sharing, losing)
  }

  /** A row without checks at a commit whose last runs failed. */
  lemma RedUnnoticed(w: World, task: int)
    requires task in w.links && w.links[task].head == Some("c") && w.links[task].checks == NoChecks
    requires w.runs == map["c" := Asked(Unasked(RED), true)] && !Underway(w, task)
    ensures Misled(w, task)
  {
    RedIsFailed();
  }

  /** A second task is opened at the commit just read for the first. */
  lemma SharingMisleads()
    ensures CanMislead(false, true, false)
  {
    var actions := ReadRun(RED);
    var w := After(FirstRead(RED), OpenPull(2, 8, "v", "c"));
    RunOn(actions, FirstRead(RED), OpenPull(2, 8, "v", "c"), w);
    RedUnnoticed(w, 2);
    assert Misleads(actions + [OpenPull(2, 8, "v", "c")], 2, false, true, false);
  }

  /** What was read has been recorded, but for its checks, */
  const RECORDED: World := FirstRead(RED).(stage := Recorded(ROW, PULL, Failed))

  lemma RedIsRecorded()
    ensures Goes(FirstRead(RED), WritePull(true), RECORDED)
  {
    RedIsFailed();
    assert OPENED + [] == OPENED;
  }

  const TOLD: Stage := Telling(ChecksFailed(1, 7, "u"))

  /** but they are not stored. */
  lemma RedIsLost()
    ensures Enabled(RECORDED, WriteChecks(false)) && After(RECORDED, WriteChecks(false)) == RECORDED.(stage := TOLD)
  {
  }

  /** Read, and not stored. */
  lemma RedLost() returns (actions: seq<Action>)
    ensures Legal(START, actions) && End(actions) == RECORDED.(stage := TOLD)
  {
    actions := ReadRun(RED);
    RedIsRecorded();
    RunOn(actions, FirstRead(RED), WritePull(true), RECORDED);
    actions := actions + [WritePull(true)];
    RedIsLost();
    News.LegalOn(actions, WriteChecks(false));
    actions := actions + [WriteChecks(false)];
  }

  lemma LosingMisleads()
    ensures CanMislead(false, false, true)
  {
    var actions := RedLost();
    RedUnnoticed(RECORDED.(stage := TOLD), 1);
    assert Misleads(actions, 1, false, false, true);
  }

  // ---- a head that goes back ----

  /** A run without deletions, with nothing lost and every answer readable, and the world it leads to. */
  ghost predicate Comes(actions: seq<Action>, w: World) {
    Leads(actions, w) && forall i :: 0 <= i < |actions| ==> !actions[i].DeleteTask?
  }

  lemma ComeOn(actions: seq<Action>, w: World, action: Action, w': World)
    requires Comes(actions, w) && Goes(w, action, w') && !action.DeleteTask?
    ensures Comes(actions + [action], w')
  {
    RunOn(actions, w, action, w');
  }

  /** At rest with one open row, whose listing GitHub has changed to this pull request. */
  ghost predicate Polls(w: World, row: Link, pull: Pull) {
    && w.links == map[1 := row] && row.task == 1 && row.state == Some(Open) && w.stage == Resting && w.left == []
    && 1 in w.listings && !StillTagged(w.listings[1]) && w.listings[1].now.body == Some(pull)
    && StateOf(pull) == Open && pull.sha in w.runs
  }

  /** What is made of the runs: the row's own checks if they are unchanged. */
  function Reading(w: World, row: Link, pull: Pull): ChecksState
    requires pull.sha in w.runs
  {
    if StillTagged(w.runs[pull.sha]) then row.checks else Rolled(w.runs[pull.sha].now.body)
  }

  function Moved(row: Link, pull: Pull): Link {
    row.(number := Some(pull.number), url := Some(pull.url), state := Some(Open), head := Some(pull.sha))
  }

  lemma ListingGoes(w: World, row: Link, pull: Pull)
    requires Polls(w, row, pull)
    ensures Goes(w, List([row]), w.(left := [row]))
  {
    assert row in [row];
  }

  function LinkFound(w: World, row: Link, pull: Pull): World
    requires 1 in w.listings
  {
    w.(listings := w.listings[1 := Asked(w.listings[1], true)], heads := w.heads + [Head(1, Some(pull.sha))], left := [],
       stage := Found(row, pull))
  }

  lemma FindingGoes(w: World, row: Link, pull: Pull)
    requires Polls(w, row, pull)
    ensures Goes(w.(left := [row]), AskPull(true), LinkFound(w, row, pull))
  {
    assert [row][1..] == [];
  }

  function RunsRead(w: World, row: Link, pull: Pull): World
    requires pull.sha in w.runs && 1 in w.listings
  {
    LinkFound(w, row, pull).(runs := w.runs[pull.sha := Asked(w.runs[pull.sha], true)], stage := Answered(row, pull, Reading(w, row, pull)))
  }

  lemma ReadingGoes(w: World, row: Link, pull: Pull)
    requires Polls(w, row, pull)
    ensures Goes(LinkFound(w, row, pull), AskChecks(true), RunsRead(w, row, pull))
  {
  }

  function PullWritten(w: World, row: Link, pull: Pull): World
    requires pull.sha in w.runs && 1 in w.listings
  {
    RunsRead(w, row, pull).(links := map[1 := Moved(row, pull)], stage := Recorded(row, pull, Reading(w, row, pull)))
  }

  lemma WritingPullGoes(w: World, row: Link, pull: Pull)
    requires Polls(w, row, pull)
    ensures Goes(RunsRead(w, row, pull), WritePull(true), PullWritten(w, row, pull))
  {
    assert w.log + [] == w.log;
    assert w.links[1 := Moved(row, pull)] == map[1 := Moved(row, pull)];
  }

  /** What a whole poll comes to, but for what it says. */
  ghost predicate PolledAs(w: World, w': World, row: Link, pull: Pull)
    requires Polls(w, row, pull)
  {
    && w'.links == map[1 := Moved(row, pull).(checks := Reading(w, row, pull))] && w'.stage == Resting && w'.left == []
    && w'.listings == w.listings[1 := Asked(w.listings[1], true)]
    && w'.runs == w.runs[pull.sha := Asked(w.runs[pull.sha], true)] && w'.heads == w.heads + [Head(1, Some(pull.sha))]
  }

  lemma WritingChecksGoes(w: World, row: Link, pull: Pull) returns (w': World)
    requires Polls(w, row, pull)
    ensures Goes(PullWritten(w, row, pull), WriteChecks(true), w')
    ensures PolledAs(w, w'.(stage := Resting), row, pull) && (w'.stage.Telling? || w'.stage == Resting)
  {
    w' := After(PullWritten(w, row, pull), WriteChecks(true));
    assert map[1 := Moved(row, pull)][1 := Moved(row, pull).(checks := Reading(w, row, pull))]
        == map[1 := Moved(row, pull).(checks := Reading(w, row, pull))];
  }

  lemma TellingGoes(w: World) returns (w': World)
    requires w.stage.Telling?
    ensures Goes(w, Tell(true), w') && w' == w.(stage := Resting, log := w'.log)
  {
    w' := After(w, Tell(true));
  }

  /** A whole poll of the one row. */
  lemma PollComes(actions: seq<Action>, w: World, row: Link, pull: Pull) returns (more: seq<Action>, w': World)
    requires Comes(actions, w) && Polls(w, row, pull)
    ensures Comes(more, w') && PolledAs(w, w', row, pull)
  {
    ListingGoes(w, row, pull);
    FindingGoes(w, row, pull);
    ReadingGoes(w, row, pull);
    WritingPullGoes(w, row, pull);
    ComeOn(actions, w, List([row]), w.(left := [row]));
    more := actions + [List([row])];
    ComeOn(more, w.(left := [row]), AskPull(true), LinkFound(w, row, pull));
    more := more + [AskPull(true)];
    ComeOn(more, LinkFound(w, row, pull), AskChecks(true), RunsRead(w, row, pull));
    more := more + [AskChecks(true)];
    ComeOn(more, RunsRead(w, row, pull), WritePull(true), PullWritten(w, row, pull));
    more := more + [WritePull(true)];
    w' := WritingChecksGoes(w, row, pull);
    ComeOn(more, PullWritten(w, row, pull), WriteChecks(true), w');
    more := more + [WriteChecks(true)];
    if w'.stage.Telling? {
      var told := TellingGoes(w');
      ComeOn(more, w', Tell(true), told);
      more, w' := more + [Tell(true)], told;
    }
  }

  const AWAY: Pull := Pull(7, "u", "open", None, "d")

  /** Opened at one commit, */
  lemma Opening() returns (actions: seq<Action>)
    ensures Comes(actions, Single(LISTING, Unasked(RED), ONCE, [], Resting, OPENED))
  {
    OpeningGoes(RED);
    var w1 := START.(listings := map[1 := LISTING]);
    var w2 := w1.(runs := map["c" := Unasked(RED)]);
    var w3 := Single(LISTING, Unasked(RED), ONCE, [], Resting, OPENED);
    actions := [PublishListing(1, Doc("l", Some(PULL)))];
    assert [] + actions == actions;
    ComeOn([], START, actions[0], w1);
    ComeOn(actions, w1, PublishRuns("c", RED), w2);
    actions := actions + [PublishRuns("c", RED)];
    ComeOn(actions, w2, OpenPull(1, 7, "u", "c"), w3);
    actions := actions + [OpenPull(1, 7, "u", "c")];
  }

  /** and its failed runs there stored. */
  lemma FirstCommit() returns (actions: seq<Action>, w: World)
    ensures Comes(actions, w) && w.links == map[1 := ROW.(checks := Failed)] && w.stage == Resting && w.left == []
    ensures w.listings == map[1 := Asked(LISTING, true)] && w.runs == map["c" := Asked(Unasked(RED), true)] && w.heads == TWICE
  {
    actions := Opening();
    RedIsFailed();
    actions, w := PollComes(actions, Single(LISTING, Unasked(RED), ONCE, [], Resting, OPENED), ROW, PULL);
  }
  /** GitHub has the pull request at another commit, whose runs it has too. */
  lemma MovesTo(actions: seq<Action>, w: World, doc: Doc<Option<Pull>>) returns (more: seq<Action>, w': World)
    requires Comes(actions, w) && 1 in w.listings
    ensures Comes(more, w') && w' == w.(listings := w.listings[1 := Replaced(w.listings[1], doc)])
  {
    w' := After(w, PublishListing(1, doc));
    ComeOn(actions, w, PublishListing(1, doc), w');
    more := actions + [PublishListing(1, doc)];
  }

  /** Its pull request moves to another commit, with other runs. */
  lemma Away() returns (actions: seq<Action>, w: World)
    ensures Comes(actions, w) && Polls(w, ROW.(checks := Failed), AWAY)
    ensures w.listings.Keys == {1} && w.listings[1].now.tag == "l1"
    ensures w.runs == map["c" := Asked(Unasked(RED), true), "d" := Unasked(GREEN)] && w.heads == TWICE
  {
    actions, w := FirstCommit();
    actions, w := MovesTo(actions, w, Doc("l1", Some(AWAY)));
    var runs := map["c" := Asked(Unasked(RED), true), "d" := Unasked(GREEN)];
    ComeOn(actions, w, PublishRuns("d", GREEN), w.(runs := runs));
    actions, w := actions + [PublishRuns("d", GREEN)], w.(runs := runs);
  }

  lemma GreenIsPassed()
    ensures Rolled(GREEN.body) == Passed
  {
  }

  /** At another commit, its passed runs are stored. */
  lemma SecondCommit() returns (actions: seq<Action>, w: World)
    ensures Comes(actions, w) && w.links == map[1 := Moved(ROW, AWAY).(checks := Passed)] && w.stage == Resting && w.left == []
    ensures w.listings.Keys == {1} && w.listings[1].sent == Some("l1")
    ensures w.runs == map["c" := Asked(Unasked(RED), true), "d" := Asked(Unasked(GREEN), true)]
    ensures w.heads == TWICE + [Head(1, Some("d"))]
  {
    actions, w := Away();
    GreenIsPassed();
    actions, w := PollComes(actions, w, ROW.(checks := Failed), AWAY);
  }

  /** Back at the first, whose runs have not changed, and are answered as unchanged: the second's result stays. */
  lemma BackAgain() returns (actions: seq<Action>, w: World)
    ensures Comes(actions, w) && w.links == map[1 := ROW.(checks := Passed)] && w.stage == Resting
    ensures w.runs == map["c" := Asked(Unasked(RED), true), "d" := Asked(Unasked(GREEN), true)]
    ensures w.heads == TWICE + [Head(1, Some("d")), Head(1, Some("c"))]
  {
    actions, w := SecondCommit();
    actions, w := MovesTo(actions, w, Doc("l2", Some(PULL)));
    actions, w := PollComes(actions, w, Moved(ROW, AWAY).(checks := Passed), PULL);
  }

  /** A run from the start on which a head goes back to an earlier commit, and nothing else is amiss: nothing lost, shared or deleted, and every tag honest. */
  ghost predicate GoesBack(actions: seq<Action>, task: int) {
    && Misleads(actions, task, true, false, false) && AllTagsTell(End(actions))
    && (forall i :: 0 <= i < |actions| ==> !actions[i].DeleteTask? && Readable(actions[i]))
  }

  lemma OtherResultStays(w: World)
    requires w.links == map[1 := ROW.(checks := Passed)] && w.stage == Resting
    requires w.runs == map["c" := Asked(Unasked(RED), true), "d" := Asked(Unasked(GREEN), true)]
    ensures Misled(w, 1) && AllTagsTell(w)
  {
    RedIsFailed();
  }

  lemma HeadGoesBack()
    ensures exists actions, task :: GoesBack(actions, task)
  {
    var actions, w := BackAgain();
    OtherResultStays(w);
    assert GoesBack(actions, 1);
  }

  lemma ReturningMisleads()
    ensures CanMislead(true, false, false)
  {
    HeadGoesBack();
    var actions, task :| GoesBack(actions, task);
    assert Misleads(actions, task, true, false, false);
  }

  /** Each of the three conditions under which stored is what was last served is needed: a row can be misled exactly if one of them is lifted. */
  lemma MisledIff(returning: bool, sharing: bool, losing: bool)
    ensures CanMislead(returning, sharing, losing) <==> returning || sharing || losing
  {
    if CanMislead(returning, sharing, losing) {
      var actions, task :| Misleads(actions, task, returning, sharing, losing);
      assert Misleads(actions, task, returning, sharing, losing);
      if !returning && !sharing && !losing {
        StoredIsLastServed(actions, task);
      }
    }
    if returning {
      ReturningMisleads();
      var actions, task :| Misleads(actions, task, true, false, false);
      assert Misleads(actions, task, returning, sharing, losing);
    } else if sharing {
      SharingMisleads();
      var actions, task :| Misleads(actions, task, false, true, false);
      assert Misleads(actions, task, returning, sharing, losing);
    } else if losing {
      LosingMisleads();
    }
  }
}
