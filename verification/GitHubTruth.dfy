/** What keeps a stored check state true of GitHub, and what keeps a result from being announced twice. */
module GitHubTruth {
  import opened Options
  import opened Events
  import opened GitHubApi
  import opened GitHubPoll
  import opened GitHubWatch

  // ---- the commits a task has been at ----

  function LastHead(heads: seq<Head>, task: int): Option<string> {
    if heads == [] then None
    else if heads[|heads| - 1].task == task then heads[|heads| - 1].sha
    else LastHead(heads[..|heads| - 1], task)
  }

  /** No task comes back to a commit after another one, or after its deletion. */
  ghost predicate NoneReturns(heads: seq<Head>) {
    forall i, j, k :: 0 <= i < j < k < |heads| && heads[i] == heads[k] && heads[i].sha.Some? && heads[j].task == heads[i].task
                      ==> heads[j] == heads[i]
  }

  /** No two tasks are ever at one commit. */
  ghost predicate NoneShared(heads: seq<Head>) {
    forall i, j :: 0 <= i < |heads| && 0 <= j < |heads| && heads[i].sha.Some? && heads[i].sha == heads[j].sha
                   ==> heads[i].task == heads[j].task
  }

  ghost predicate Straight(heads: seq<Head>) {
    NoneReturns(heads) && NoneShared(heads)
  }

  lemma StraightSoFar(heads: seq<Head>, more: seq<Head>)
    requires Straight(heads + more)
    ensures Straight(heads)
  {
    var all := heads + more;
    assert forall i :: 0 <= i < |heads| ==> all[i] == heads[i];
  }

  lemma LastHeadSnoc(heads: seq<Head>, head: Head, task: int)
    ensures LastHead(heads + [head], task) == if head.task == task then head.sha else LastHead(heads, task)
  {
    assert (heads + [head])[..|heads|] == heads;
  }

  lemma {:induction false} LastHeadIsOne(heads: seq<Head>, task: int)
    ensures LastHead(heads, task).Some? ==> Head(task, LastHead(heads, task)) in heads
  {
    if heads == [] {
    } else {
      LastHeadIsOne(heads[..|heads| - 1], task);
    }
  }

  lemma {:induction false} LastHeadSince(heads: seq<Head>, i: nat, task: int, sha: string)
    requires i < |heads| && heads[i] == Head(task, Some(sha))
    requires forall j :: i < j < |heads| && heads[j].task == task ==> heads[j] == heads[i]
    ensures LastHead(heads, task) == Some(sha)
  {
    if i == |heads| - 1 {
    } else {
      LastHeadSince(heads[..|heads| - 1], i, task, sha);
    }
  }

  predicate Seen(heads: seq<Head>, sha: string) {
    exists i :: 0 <= i < |heads| && heads[i].sha == Some(sha)
  }

  /** A commit seen before that turns up again was its task's last one all along. */
  lemma SeenAgain(heads: seq<Head>, task: int, sha: string)
    requires Straight(heads + [Head(task, Some(sha))]) && Seen(heads, sha)
    ensures LastHead(heads, task) == Some(sha)
  {
    var all := heads + [Head(task, Some(sha))];
    var i :| 0 <= i < |heads| && heads[i].sha == Some(sha);
    assert all[i] == heads[i] && all[|heads|] == Head(task, Some(sha));
    assert heads[i] == Head(task, Some(sha));
    forall j | i < j < |heads| && heads[j].task == task ensures heads[j] == heads[i] {
      assert all[j] == heads[j];
    }
    LastHeadSince(heads, i, task, sha);
  }

  // ---- what a row says of the runs last served for its head ----

  predicate Known(w: World, sha: string) {
    sha in w.runs && w.runs[sha].last.Some?
  }

  predicate Faithful(w: World, link: Link) {
    link.head.Some? && Known(w, link.head.value) ==> link.checks == Rolled(w.runs[link.head.value].last.value)
  }

  /** A task's last commit, once its runs have been served, is the one this link has. */
  predicate AtHead(w: World, task: int, link: Link) {
    var last := LastHead(w.heads, task);
    last.Some? && Known(w, last.value) ==> link.head == last
  }

  predicate HeadSeen(w: World, task: int, link: Link) {
    link.head.Some? ==> Head(task, link.head) in w.heads
  }

  predicate Sure(w: World, task: int, link: Link) {
    HeadSeen(w, task, link) && AtHead(w, task, link) && Faithful(w, link)
  }

  predicate Underway(w: World, task: int) {
    (w.stage.Answered? || w.stage.Recorded?) && w.stage.link.task == task
  }

  ghost predicate RowsSure(w: World) {
    forall task :: task in w.links ==> HeadSeen(w, task, w.links[task]) && (!Underway(w, task) ==> Sure(w, task, w.links[task]))
  }

  ghost predicate ListedSure(w: World) {
    forall i :: 0 <= i < |w.left| ==> Sure(w, w.left[i].task, w.left[i])
  }

  /** A task at a commit has a row, and no runs are known but of commits some task was at. */
  ghost predicate HeadsHave(w: World) {
    && (forall task :: LastHead(w.heads, task).Some? ==> task in w.links)
    && (forall sha :: Known(w, sha) ==> Seen(w.heads, sha))
  }

  /** If the runs of a task's last commit are known, it is the commit being polled. */
  predicate PollsLast(w: World, task: int, sha: string) {
    var last := LastHead(w.heads, task);
    last.Some? && Known(w, last.value) ==> last.value == sha
  }

  /** The row as recorded: at the commit polled, or at one nothing is known of. */
  predicate RecordedAt(w: World, task: int, sha: string) {
    task in w.links ==>
      && (w.links[task].head.Some? && Known(w, w.links[task].head.value) ==> w.links[task].head == Some(sha))
      && (LastHead(w.heads, task) == Some(sha) && Known(w, sha) ==> w.links[task].head == Some(sha))
  }

  ghost predicate StageSure(w: World) {
    match w.stage
    case Found(link, pull) =>
      && Head(link.task, Some(pull.sha)) in w.heads && PollsLast(w, link.task, pull.sha)
      && Faithful(w, link) && (Known(w, pull.sha) ==> link.head == Some(pull.sha))
    case Answered(link, pull, checks) =>
      && Head(link.task, Some(pull.sha)) in w.heads && PollsLast(w, link.task, pull.sha)
      && (Known(w, pull.sha) ==> checks == Rolled(w.runs[pull.sha].last.value))
    case Recorded(link, pull, checks) =>
      && Head(link.task, Some(pull.sha)) in w.heads && PollsLast(w, link.task, pull.sha)
      && (Known(w, pull.sha) ==> checks == Rolled(w.runs[pull.sha].last.value))
      && RecordedAt(w, link.task, pull.sha)
    case _ => true
  }

  ghost predicate AllSure(w: World) {
    RowsSure(w) && ListedSure(w) && HeadsHave(w) && StageSure(w)
  }

  /** No write of the step is lost, but to a row that is gone. */
  predicate Written(w: World, action: Action)
    requires Enabled(w, action)
  {
    match action
    case WritePull(ok) => ok || w.stage.link.task !in w.links
    case WriteChecks(ok) => ok || w.stage.link.task !in w.links
    case _ => true
  }

  ghost predicate WrittenRun(actions: seq<Action>)
    decreases |actions|
  {
    && Legal(START, actions)
    && (actions != [] ==>
          WrittenRun(actions[..|actions| - 1]) && Written(End(actions[..|actions| - 1]), actions[|actions| - 1]))
  }

  /** What is known of runs is no more than it was. */
  ghost predicate KnowsNoMore(w: World, w': World) {
    forall sha :: Known(w', sha) ==> Known(w, sha) && w'.runs[sha].last == w.runs[sha].last
  }

  lemma SureIfListed(w: World, link: Link)
    requires ListedSure(w) && link in w.left
    ensures Sure(w, link.task, link)
  {
    var i :| 0 <= i < |w.left| && w.left[i] == link;
  }

  /** Steps that neither move a row nor a commit. */
  lemma QuietlySure(w: World, w': World)
    requires AllSure(w) && KnowsNoMore(w, w') && w'.links == w.links && w'.heads == w.heads
    requires forall i :: 0 <= i < |w'.left| ==> w'.left[i] in w.left
    requires w'.stage == w.stage || (w'.stage == Resting && (w.stage.Found? || !Polling(w.stage))) || (w'.stage == Resting && forall sha :: !Known(w', sha))
    ensures AllSure(w')
  {
    forall i | 0 <= i < |w'.left| ensures Sure(w', w'.left[i].task, w'.left[i]) {
      SureIfListed(w, w'.left[i]);
    }
  }

  // ---- what every step keeps ----

  /** Where a task goes to a commit, whatever else moves: links of it that were sure still are. */
  lemma MovedSure(w: World, w': World, moved: Head, task: int, link: Link)
    requires AllSure(w) && Straight(w'.heads) && w'.heads == w.heads + [moved] && w'.runs == w.runs
    requires Sure(w, task, link)
    ensures Sure(w', task, link)
  {
    LastHeadSnoc(w.heads, moved, task);
    if moved.task == task && moved.sha.Some? && Known(w, moved.sha.value) {
      SeenAgain(w.heads, task, moved.sha.value);
    }
  }

  lemma MovedHeadsHave(w: World, w': World, moved: Head)
    requires AllSure(w) && Straight(w'.heads) && w'.heads == w.heads + [moved] && w'.runs == w.runs
    requires forall task :: task in w.links && !(task == moved.task && moved.sha.None?) ==> task in w'.links
    requires moved.sha.Some? ==> moved.task in w'.links
    ensures HeadsHave(w')
  {
    forall task | LastHead(w'.heads, task).Some? ensures task in w'.links {
      LastHeadSnoc(w.heads, moved, task);
    }
    forall sha | Known(w', sha) ensures Seen(w'.heads, sha) {
      assert Known(w, sha) && Seen(w.heads, sha);
      var i :| 0 <= i < |w.heads| && w.heads[i].sha == Some(sha);
      assert w'.heads[i] == w.heads[i];
    }
  }

  lemma MovedStage(w: World, w': World, moved: Head)
    requires AllSure(w) && Straight(w'.heads) && w'.heads == w.heads + [moved] && w'.runs == w.runs && w'.stage == w.stage
    requires w.stage.Recorded? ==>
               var t := w.stage.link.task;
               t in w'.links ==> if moved.task == t then w'.links[t].head == moved.sha else t in w.links && w'.links[t].head == w.links[t].head
    ensures StageSure(w')
  {
    if Polling(w.stage) {
      LastHeadSnoc(w.heads, moved, w.stage.link.task);
      if moved.task == w.stage.link.task && moved.sha.Some? && Known(w, moved.sha.value) {
        SeenAgain(w.heads, moved.task, moved.sha.value);
      }
    }
  }

  lemma OpenedRowSure(w: World, w': World, moved: Head, row: Link)
    requires AllSure(w) && Straight(w'.heads) && w'.heads == w.heads + [moved] && w'.runs == w.runs && moved.sha.Some?
    requires row.head == moved.sha
    requires moved.task in w.links ==> row.checks == w.links[moved.task].checks
    requires !Underway(w, moved.task)
    ensures Sure(w', moved.task, row)
  {
    LastHeadSnoc(w.heads, moved, moved.task);
    assert moved in w'.heads;
    if Known(w, moved.sha.value) {
      SeenAgain(w.heads, moved.task, moved.sha.value);
      assert Sure(w, moved.task, w.links[moved.task]);
    }
  }

  lemma OpenKeepsSure(w: World, to: int, number: int, url: string, sha: string)
    requires AllSure(w) && Straight(After(w, OpenPull(to, number, url, sha)).heads)
    ensures AllSure(After(w, OpenPull(to, number, url, sha)))
  {
    var w', moved := After(w, OpenPull(to, number, url, sha)), Head(to, Some(sha));
    assert moved in w'.heads;
    forall task | task in w'.links
      ensures HeadSeen(w', task, w'.links[task]) && (!Underway(w', task) ==> Sure(w', task, w'.links[task]))
    {
      if task != to {
        assert w'.links[task] == w.links[task];
        if !Underway(w, task) {
          MovedSure(w, w', moved, task, w.links[task]);
        }
      } else if !Underway(w, to) {
        OpenedRowSure(w, w', moved, w'.links[to]);
      }
    }
    forall i | 0 <= i < |w'.left| ensures Sure(w', w'.left[i].task, w'.left[i]) {
      MovedSure(w, w', moved, w.left[i].task, w.left[i]);
    }
    MovedHeadsHave(w, w', moved);
    MovedStage(w, w', moved);
  }

  lemma DeleteKeepsSure(w: World, task: int)
    requires AllSure(w) && Straight(After(w, DeleteTask(task)).heads)
    ensures AllSure(After(w, DeleteTask(task)))
  {
    var w', moved := After(w, DeleteTask(task)), Head(task, None);
    forall other | other in w'.links
      ensures HeadSeen(w', other, w'.links[other]) && (!Underway(w', other) ==> Sure(w', other, w'.links[other]))
    {
      if !Underway(w, other) {
        MovedSure(w, w', moved, other, w.links[other]);
      }
    }
    forall i | 0 <= i < |w'.left| ensures Sure(w', w'.left[i].task, w'.left[i]) {
      MovedSure(w, w', moved, w.left[i].task, w.left[i]);
    }
    MovedHeadsHave(w, w', moved);
    MovedStage(w, w', moved);
  }

  lemma IssueKeepsSure(w: World, task: int, issue: int)
    requires AllSure(w)
    ensures AllSure(After(w, SetIssue(task, issue)))
  {
  }

  /** The listing names a commit: the link taken up for it is sure of it. */
  lemma AskKeepsSure(w: World, tagged: bool)
    requires AllSure(w) && Enabled(w, AskPull(tagged)) && Straight(After(w, AskPull(tagged)).heads)
    ensures AllSure(After(w, AskPull(tagged)))
  {
    var w' := After(w, AskPull(tagged));
    assert forall i :: 0 <= i < |w'.left| ==> w'.left[i] == w.left[i + 1];
    if FindsPull(w) {
      var link := w.left[0];
      var pull := w.listings[link.task].now.body.value;
      var moved := Head(link.task, Some(pull.sha));
      forall task | task in w'.links
        ensures HeadSeen(w', task, w'.links[task]) && (!Underway(w', task) ==> Sure(w', task, w'.links[task]))
      {
        MovedSure(w, w', moved, task, w.links[task]);
      }
      forall i | 0 <= i < |w'.left| ensures Sure(w', w'.left[i].task, w'.left[i]) {
        MovedSure(w, w', moved, w.left[i + 1].task, w.left[i + 1]);
      }
      MovedHeadsHave(w, w', moved);
      MovedSure(w, w', moved, link.task, link);
      LastHeadSnoc(w.heads, moved, link.task);
      assert moved in w'.heads;
    } else {
      QuietlySure(w, w');
    }
  }

  /** Nobody else is at the commit whose runs are asked for. */
  lemma OthersElsewhere(w: World, task: int, sha: string, other: int, link: Link)
    requires NoneShared(w.heads) && Head(task, Some(sha)) in w.heads && other != task && HeadSeen(w, other, link)
    ensures link.head != Some(sha) && LastHead(w.heads, other) != Some(sha)
  {
    LastHeadIsOne(w.heads, other);
  }

  lemma OthersStaySure(w: World, w': World, task: int, sha: string, other: int, link: Link)
    requires NoneShared(w.heads) && Head(task, Some(sha)) in w.heads && other != task && HeadSeen(w, other, link)
    requires w'.heads == w.heads && forall x :: Known(w', x) && x != sha ==> Known(w, x) && w'.runs[x] == w.runs[x]
    ensures HeadSeen(w', other, link)
    ensures Sure(w, other, link) ==> Sure(w', other, link)
  {
    OthersElsewhere(w, task, sha, other, link);
  }

  lemma ChecksKeepSure(w: World, tagged: bool)
    requires AllSure(w) && Straight(w.heads) && Paid(w, 0) && Enabled(w, AskChecks(tagged))
    ensures AllSure(After(w, AskChecks(tagged)))
  {
    var w', link, sha := After(w, AskChecks(tagged)), w.stage.link, w.stage.pull.sha;
    forall task | task in w'.links
      ensures HeadSeen(w', task, w'.links[task]) && (!Underway(w', task) ==> Sure(w', task, w'.links[task]))
    {
      if task != link.task {
        OthersStaySure(w, w', link.task, sha, task, w.links[task]);
      }
    }
    forall i | 0 <= i < |w'.left| ensures Sure(w', w'.left[i].task, w'.left[i]) {
      assert Sure(w, w.left[i].task, w.left[i]);
      OthersStaySure(w, w', link.task, sha, w.left[i].task, w.left[i]);
    }
    forall x | Known(w', x) ensures Seen(w'.heads, x) {
      if x == sha {
        var i :| 0 <= i < |w.heads| && w.heads[i] == Head(link.task, Some(sha));
        assert w'.heads[i].sha == Some(sha);
      }
    }
  }

  lemma WritePullKeepsSure(w: World, ok: bool)
    requires AllSure(w) && Enabled(w, WritePull(ok)) && Written(w, WritePull(ok))
    ensures AllSure(After(w, WritePull(ok)))
  {
  }

  lemma WriteChecksKeepsSure(w: World, ok: bool)
    requires AllSure(w) && Enabled(w, WriteChecks(ok)) && Written(w, WriteChecks(ok))
    ensures AllSure(After(w, WriteChecks(ok)))
  {
  }

  lemma ListKeepsSure(w: World, open: seq<Link>)
    requires AllSure(w) && Enabled(w, List(open))
    ensures AllSure(After(w, List(open)))
  {
    forall i | 0 <= i < |open| ensures Sure(w, open[i].task, open[i]) {
      assert IsOpen(w.links, open[i].task);
    }
  }

  lemma StepKeepsSure(w: World, action: Action)
    requires AllSure(w) && Paid(w, 0) && Enabled(w, action) && Written(w, action) && Straight(After(w, action).heads)
    ensures AllSure(After(w, action))
  {
    match action
    case OpenPull(to, number, url, sha) => OpenKeepsSure(w, to, number, url, sha);
    case DeleteTask(task) => DeleteKeepsSure(w, task);
    case SetIssue(task, issue) => IssueKeepsSure(w, task, issue);
    case AskPull(tagged) => AskKeepsSure(w, tagged);
    case AskChecks(tagged) => ChecksKeepSure(w, tagged);
    case WritePull(ok) => WritePullKeepsSure(w, ok);
    case WriteChecks(ok) => WriteChecksKeepsSure(w, ok);
    case List(open) => ListKeepsSure(w, open);
    case _ => QuietlySure(w, After(w, action));
  }

  lemma HeadsGrow(w: World, action: Action)
    requires Enabled(w, action)
    ensures w.heads <= After(w, action).heads
  {
  }

  lemma {:induction false} StaysSure(actions: seq<Action>)
    requires WrittenRun(actions) && Straight(End(actions).heads)
    ensures AllSure(End(actions))
    decreases |actions|
  {
    if actions == [] {
    } else {
      var before, action := actions[..|actions| - 1], actions[|actions| - 1];
      var w := End(before);
      HeadsGrow(w, action);
      StraightSoFar(w.heads, After(w, action).heads[|w.heads|..]);
      assert w.heads + After(w, action).heads[|w.heads|..] == After(w, action).heads;
      StaysSure(before);
      RunPays(before, 0);
      StepKeepsSure(w, action);
    }
  }

  /**
   With no write lost, and no task coming back to a commit or sharing one:
   whenever no poll of it is being written, a task's stored state is the roll-up
   of the runs last served for its stored head, through any mix of fresh,
   unchanged, unreadable and failed answers.
   */
  lemma StoredIsLastServed(actions: seq<Action>, task: int)
    requires WrittenRun(actions) && Straight(End(actions).heads)
    requires task in End(actions).links && !Underway(End(actions), task)
    ensures Faithful(End(actions), End(actions).links[task])
  {
    StaysSure(actions);
  }

  // ---- and so of what GitHub has ----

  /** Answers carry their tags, and their bodies can be read. */
  predicate Readable(action: Action) {
    match action
    case AskChecks(tagged) => tagged
    case LoseChecks(kept) => !kept
    case _ => true
  }

  ghost predicate RunsInStep(w: World) {
    forall sha :: sha in w.runs ==> InStep(w.runs[sha])
  }

  lemma StepInStep(w: World, action: Action)
    requires RunsInStep(w) && Enabled(w, action) && Readable(action)
    ensures RunsInStep(After(w, action))
  {
  }

  lemma {:induction false} StaysRunsInStep(actions: seq<Action>)
    requires Legal(START, actions) && forall i :: 0 <= i < |actions| ==> Readable(actions[i])
    ensures RunsInStep(End(actions))
    decreases |actions|
  {
    if actions == [] {
    } else {
      StaysRunsInStep(actions[..|actions| - 1]);
      StepInStep(End(actions[..|actions| - 1]), actions[|actions| - 1]);
    }
  }

  ghost predicate AllTagsTell(w: World) {
    forall sha :: sha in w.runs ==> TagsTell(w.runs[sha].past)
  }

  /** A run on which GitHub answers honestly and nothing written is lost. */
  ghost predicate Sound(actions: seq<Action>) {
    && WrittenRun(actions) && Straight(End(actions).heads) && AllTagsTell(End(actions))
    && forall i :: 0 <= i < |actions| ==> Readable(actions[i])
  }

  lemma AskedIsRead(w: World)
    requires AllSure(w) && RunsInStep(w) && AllTagsTell(w) && Enabled(w, AskChecks(true))
    ensures After(w, AskChecks(true)).stage.checks == Rolled(w.runs[w.stage.pull.sha].now.body)
    ensures After(w, AskChecks(true)).runs[w.stage.pull.sha].last == Some(w.runs[w.stage.pull.sha].now.body)
  {
    AskedIsCurrent(w.runs[w.stage.pull.sha], true);
  }

  /** On every such run: whatever the answer, fresh or unchanged, what a poll makes of it is what GitHub's runs for that commit come to now. */
  lemma ReadingIsCurrent(actions: seq<Action>)
    requires Sound(actions) && Enabled(End(actions), AskChecks(true))
    ensures var w := End(actions); After(w, AskChecks(true)).stage.checks == Rolled(w.runs[w.stage.pull.sha].now.body)
  {
    StaysSure(actions);
    StaysRunsInStep(actions);
    AskedIsRead(End(actions));
  }

  /** A poll of the next link can go through: GitHub has its listing, and the runs of any commit the listing names. */
  ghost predicate CanPoll(w: World) {
    Enabled(w, AskPull(true)) && (FindsPull(w) ==> w.listings[w.left[0].task].now.body.value.sha in w.runs)
  }

  /** One poll with nothing failing and nothing else going on. */
  ghost function WholePoll(w: World): World
    requires CanPoll(w)
  {
    var asked := After(w, AskPull(true));
    if FindsPull(w) then After(After(After(asked, AskChecks(true)), WritePull(true)), WriteChecks(true)) else asked
  }

  /** What GitHub answers such a poll. */
  function AnswersTo(w: World): Answers
    requires w.left != [] && w.left[0].task in w.listings
    requires FindsPull(w) ==> w.listings[w.left[0].task].now.body.value.sha in w.runs
  {
    if !FindsPull(w) then PullUnchanged
    else
      var pull := w.listings[w.left[0].task].now.body.value;
      Read(pull, if StillTagged(w.runs[pull.sha]) then Unchanged else Fresh(w.runs[pull.sha].now.body))
  }

  /** Undisturbed, the steps of a poll come to what the poll as written does to the row, and have the same to tell. */
  lemma WholePollIsAsWritten(w: World)
    requires CanPoll(w) && w.links[w.left[0].task] == w.left[0]
    ensures var (links, event) := Polled(w.links, w.left[0], AnswersTo(w));
            && WholePoll(w).links == links
            && WholePoll(w).stage == if event.Some? then Telling(event.value) else Resting
  {
    if FindsPull(w) {
      var link, pull := w.left[0], w.listings[w.left[0].task].now.body.value;
      var read := After(After(w, AskPull(true)), AskChecks(true));
      assert read.links == w.links && read.stage == Answered(link, pull, ReadingOf(link, AnswersTo(w).checks));
      WritesAsWritten(read, link, pull, read.stage.checks);
    }
  }

  lemma WritesAsWritten(w: World, link: Link, pull: Pull, checks: ChecksState)
    requires w.stage == Answered(link, pull, checks) && link.task in w.links
    ensures var event := EventFor(Compare(link, StateOf(pull), checks), link.task, pull.number, pull.url);
            var w' := After(After(w, WritePull(true)), WriteChecks(true));
            && w'.links == ChecksSet(PullSet(w.links, link.task, pull.number, pull.url, StateOf(pull), pull.sha), link.task, checks)
            && w'.stage == if event.Some? then Telling(event.value) else Resting
  {
  }

  lemma FoundPollWrites(w: World)
    requires CanPoll(w) && FindsPull(w)
    ensures var (w', task, pull) := (WholePoll(w), w.left[0].task, w.listings[w.left[0].task].now.body.value);
            var read := After(After(w, AskPull(true)), AskChecks(true));
            && w'.heads == read.heads == After(w, AskPull(true)).heads && w'.runs == read.runs
            && task in w'.links && w'.links[task].head == Some(pull.sha) && w'.links[task].checks == read.stage.checks
  {
  }

  lemma FoundPollIsCurrent(w: World)
    requires AllSure(w) && RunsInStep(w) && AllTagsTell(w) && CanPoll(w) && FindsPull(w) && Straight(WholePoll(w).heads)
    ensures var (w', task, pull) := (WholePoll(w), w.left[0].task, w.listings[w.left[0].task].now.body.value);
            && task in w'.links && w'.links[task].head == Some(pull.sha) && w'.runs[pull.sha].now == w.runs[pull.sha].now
            && w'.links[task].checks == Rolled(w.runs[pull.sha].now.body)
  {
    FoundPollWrites(w);
    AskKeepsSure(w, true);
    AskedIsRead(After(w, AskPull(true)));
  }

  lemma UnchangedPollKeeps(w: World, task: int, sha: string)
    requires AllSure(w) && CanPoll(w) && !FindsPull(w) && task in w.links && w.links[task].head == Some(sha) && Known(w, sha)
    ensures WholePoll(w).links == w.links && WholePoll(w).runs == w.runs
    ensures w.links[task].checks == Rolled(w.runs[sha].last.value)
  {
    assert Sure(w, task, w.links[task]);
  }

  /**
   After any poll that goes through, a row whose commit has been asked about
   says what GitHub has for it now exactly when the listing was answered with a
   pull request, or the commit's runs still come to what they did when last
   asked for. An unchanged listing is where new results go unnoticed.
   */
  lemma PollIsCurrentIff(actions: seq<Action>, sha: string)
    requires Sound(actions) && CanPoll(End(actions)) && Straight(WholePoll(End(actions)).heads)
    requires var (w', task) := (WholePoll(End(actions)), End(actions).left[0].task);
             task in w'.links && w'.links[task].head == Some(sha) && Known(w', sha)
    ensures var (w, w', task) := (End(actions), WholePoll(End(actions)), End(actions).left[0].task);
            && sha in w.runs && w'.runs[sha].now == w.runs[sha].now
            && (w'.links[task].checks == Rolled(w.runs[sha].now.body)
                <==> FindsPull(w) || (Known(w, sha) && Rolled(w.runs[sha].last.value) == Rolled(w.runs[sha].now.body)))
  {
    var w, task := End(actions), End(actions).left[0].task;
    StaysSure(actions);
    StaysRunsInStep(actions);
    if FindsPull(w) {
      FoundPollIsCurrent(w);
    } else {
      assert WholePoll(w) == After(w, AskPull(true));
      UnchangedPollKeeps(w, task, sha);
    }
  }

  // ---- a result nobody notices ----

  /**
   From any daemon at rest whose listing GitHub has not changed: a commit's runs
   come to something new, the next pass polls its link with nothing failing,
   and the row, like the log, is as it was.
   */
  lemma UnchangedListingMissesResult(w: World, open: seq<Link>, sha: string, doc: Doc<seq<Run>>)
    requires w.stage == Resting && w.left == [] && ListsOpen(w.links, open) && open != []
    requires open[0].task in w.listings && StillTagged(w.listings[open[0].task])
    requires open[0].head == Some(sha) && sha in w.runs && Rolled(doc.body) != open[0].checks
    ensures var (changed, task) := (After(w, PublishRuns(sha, doc)), open[0].task);
            && Enabled(changed, List(open)) && CanPoll(After(changed, List(open)))
            && var w' := WholePoll(After(changed, List(open)));
               && task in w'.links && w'.links[task] == w.links[task] && w'.log == w.log && w'.stage == Resting
               && w'.links[task].checks != Rolled(w'.runs[sha].now.body)
  {
    assert IsOpen(w.links, open[0].task);
  }

  /** The same from the very beginning, on a run on which all is honest and nothing is lost. */
  ghost predicate Unnoticed(actions: seq<Action>, task: int, sha: string) {
    && Sound(actions) && CanPoll(End(actions)) && End(actions).left[0].task == task
    && var w' := WholePoll(End(actions));
       && Straight(w'.heads) && w'.stage == Resting && task in w'.links && w'.links[task].head == Some(sha) && Known(w', sha)
       && w'.links[task].checks != Rolled(w'.runs[sha].now.body)
  }

  ghost predicate Goes(w: World, action: Action, w': World) {
    Enabled(w, action) && Written(w, action) && Readable(action) && After(w, action) == w'
  }

  /** A run so far, with nothing lost and every answer readable, and the world it leads to. */
  ghost predicate Leads(actions: seq<Action>, w: World) {
    WrittenRun(actions) && (forall i :: 0 <= i < |actions| ==> Readable(actions[i])) && End(actions) == w
  }

  lemma RunOn(actions: seq<Action>, w: World, action: Action, w': World)
    requires Leads(actions, w) && Goes(w, action, w')
    ensures Leads(actions + [action], w')
  {
    assert (actions + [action])[..|actions|] == actions;
  }

  const PULL: Pull := Pull(7, "u", "open", None, "c")
  const ROW: Link := Link(1, None, Some(7), Some("u"), Some(Open), Some("c"), NoChecks)
  const GREEN: Doc<seq<Run>> := Doc("r1", [Run("completed", Some("success"))])

  /** One task, its pull request open at one commit. */
  function Single(
      listing: Watched<Option<Pull>>, runs: Watched<seq<Run>>, heads: seq<Head>, left: seq<Link>, stage: Stage, log: seq<Note>): World
  {
    World(map[1 := ROW], map[1 := listing], map["c" := runs], heads, left, stage, log)
  }

  lemma OneIsListed()
    ensures ListsOpen(map[1 := ROW], [ROW])
  {
    assert ROW in [ROW];
  }

  const LISTING: Watched<Option<Pull>> := Unasked(Doc("l", Some(PULL)))
  const RUNS: Watched<seq<Run>> := Unasked(Doc("r0", []))
  const OPENED: seq<Note> := [Stored(1, NoChecks), Opened(1)]
  const ONCE: seq<Head> := [Head(1, Some("c"))]
  const TWICE: seq<Head> := [Head(1, Some("c")), Head(1, Some("c"))]

  lemma OpeningGoes(doc: Doc<seq<Run>>)
    ensures var w1 := START.(listings := map[1 := LISTING]);
            var w2 := w1.(runs := map["c" := Unasked(doc)]);
            var w3 := Single(LISTING, Unasked(doc), ONCE, [], Resting, OPENED);
            && Goes(START, PublishListing(1, Doc("l", Some(PULL))), w1) && Goes(w1, PublishRuns("c", doc), w2)
            && Goes(w2, OpenPull(1, 7, "u", "c"), w3) && Goes(w3, List([ROW]), w3.(left := [ROW]))
  {
    OneIsListed();
    assert [] + [Stored(1, NoChecks)] + [Opened(1)] == OPENED;
  }

  lemma AskingGoes(doc: Doc<seq<Run>>)
    ensures var w1 := Single(LISTING, Unasked(doc), ONCE, [ROW], Resting, OPENED);
            var w2 := Single(Asked(LISTING, true), Unasked(doc), TWICE, [], Found(ROW, PULL), OPENED);
            Goes(w1, AskPull(true), w2) && Goes(w2, AskChecks(true), FirstRead(doc))
  {
    assert ONCE + [Head(1, Some("c"))] == TWICE && [ROW][1..] == [];
  }

  /** The one row's runs have been asked for, and nothing written yet. */
  function FirstRead(doc: Doc<seq<Run>>): World {
    Single(Asked(LISTING, true), Asked(Unasked(doc), true), TWICE, [], Answered(ROW, PULL, Rolled(doc.body)), OPENED)
  }

  lemma ReadRun(doc: Doc<seq<Run>>) returns (actions: seq<Action>)
    ensures Leads(actions, FirstRead(doc))
  {
    OpeningGoes(doc);
    AskingGoes(doc);
    var w1 := START.(listings := map[1 := LISTING]);
    var w2 := w1.(runs := map["c" := Unasked(doc)]);
    var w3 := Single(LISTING, Unasked(doc), ONCE, [], Resting, OPENED);
    var w4 := Single(Asked(LISTING, true), Unasked(doc), TWICE, [], Found(ROW, PULL), OPENED);
    actions := [PublishListing(1, Doc("l", Some(PULL)))];
    assert [] + actions == actions;
    RunOn([], START, actions[0], w1);
    RunOn(actions, w1, PublishRuns("c", doc), w2);
    actions := actions + [PublishRuns("c", doc)];
    RunOn(actions, w2, OpenPull(1, 7, "u", "c"), w3);
    actions := actions + [OpenPull(1, 7, "u", "c")];
    RunOn(actions, w3, List([ROW]), w3.(left := [ROW]));
    actions := actions + [List([ROW])];
    RunOn(actions, w3.(left := [ROW]), AskPull(true), w4);
    actions := actions + [AskPull(true)];
    RunOn(actions, w4, AskChecks(true), FirstRead(doc));
    actions := actions + [AskChecks(true)];
  }

  lemma WritingGoes()
    ensures var w1 := Single(Asked(LISTING, true), Asked(RUNS, true), TWICE, [], Answered(ROW, PULL, NoChecks), OPENED);
            var w2 := w1.(stage := Recorded(ROW, PULL, NoChecks));
            Goes(w1, WritePull(true), w2) && Goes(w2, WriteChecks(true), w2.(stage := Resting, log := OPENED + [Stored(1, NoChecks)]))
  {
    assert OPENED + [] == OPENED;
  }

  /** The runs come to something new, and the next pass lists the row. */
  lemma ChangingGoes(log: seq<Note>)
    ensures var w1 := Single(Asked(LISTING, true), Asked(RUNS, true), TWICE, [], Resting, log);
            var w2 := After(w1, PublishRuns("c", GREEN));
            Goes(w1, PublishRuns("c", GREEN), w2) && Goes(w2, List([ROW]), After(w2, List([ROW])))
  {
    OneIsListed();
  }

  /** Opened, and polled through once: both tags are held, and there were no runs yet. */
  lemma PolledRun() returns (actions: seq<Action>, log: seq<Note>)
    ensures Leads(actions, Single(Asked(LISTING, true), Asked(RUNS, true), TWICE, [], Resting, log))
  {
    actions := ReadRun(Doc("r0", []));
    WritingGoes();
    var w := FirstRead(Doc("r0", []));
    log := OPENED + [Stored(1, NoChecks)];
    RunOn(actions, w, WritePull(true), w.(stage := Recorded(ROW, PULL, NoChecks)));
    actions := actions + [WritePull(true)];
    RunOn(actions, w.(stage := Recorded(ROW, PULL, NoChecks)), WriteChecks(true), w.(stage := Resting, log := log));
    actions := actions + [WriteChecks(true)];
  }

  lemma HonestSoFar(listed: World)
    requires listed.heads == TWICE && listed.runs == map["c" := Replaced(Asked(RUNS, true), GREEN)]
    ensures Straight(listed.heads) && AllTagsTell(listed)
  {
  }

  lemma StillUnnoticed(log: seq<Note>)
    ensures var w := Single(Asked(LISTING, true), Asked(RUNS, true), TWICE, [], Resting, log);
            var listed := After(After(w, PublishRuns("c", GREEN)), List([ROW]));
            && Straight(listed.heads) && AllTagsTell(listed) && CanPoll(listed) && listed.left[0].task == 1
            && var w' := WholePoll(listed);
               && w'.heads == TWICE && w'.stage == Resting && 1 in w'.links && w'.links[1] == ROW && Known(w', "c")
               && w'.links[1].checks != Rolled(w'.runs["c"].now.body)
  {
    var w := Single(Asked(LISTING, true), Asked(RUNS, true), TWICE, [], Resting, log);
    OneIsListed();
    UnchangedListingMissesResult(w, [ROW], "c", GREEN);
    HonestSoFar(After(After(w, PublishRuns("c", GREEN)), List([ROW])));
  }

  lemma ResultGoesUnnoticed()
    ensures exists actions, task, sha :: Unnoticed(actions, task, sha)
  {
    var actions, log := PolledRun();
    var w := Single(Asked(LISTING, true), Asked(RUNS, true), TWICE, [], Resting, log);
    ChangingGoes(log);
    StillUnnoticed(log);
    RunOn(actions, w, PublishRuns("c", GREEN), After(w, PublishRuns("c", GREEN)));
    actions := actions + [PublishRuns("c", GREEN)];
    RunOn(actions, After(w, PublishRuns("c", GREEN)), List([ROW]), After(After(w, PublishRuns("c", GREEN)), List([ROW])));
    actions := actions + [List([ROW])];
    assert Unnoticed(actions, 1, "c");
  }
}
