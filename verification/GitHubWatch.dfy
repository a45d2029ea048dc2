/**
 The poller and the routes at once, on every run: whatever fails, and whatever
 else writes a row between two steps of a poll.
 */
module GitHubWatch {
  import opened Options
  import opened Events
  import opened GitHubApi
  import opened GitHubPoll

  /** What has been written and said, in order. */
  datatype Note = Opened(task: int) | Stored(task: int, checks: ChecksState) | Said(event: ForgeEvent)

  /** How far the poll of one link has got: its pull request found, its checks answered, the pull recorded, then the checks. */
  datatype Stage =
    | Resting
    | Found(link: Link, pull: Pull)
    | Answered(link: Link, pull: Pull, checks: ChecksState)
    | Recorded(link: Link, pull: Pull, checks: ChecksState)
    | Telling(event: ForgeEvent)

  /** A commit opened or found for a task; none once the task is deleted. */
  datatype Head = Head(task: int, sha: Option<string>)

  /**
   `listings` and `runs` are what GitHub has of each task's pull request and of
   each commit's check runs, with the tag the client holds for it; `heads` is
   every commit a task has been at; `left` is what the pass listed and has not
   polled.
   */
  datatype World = World(
    links: Links, listings: map<int, Watched<Option<Pull>>>, runs: map<string, Watched<seq<Run>>>,
    heads: seq<Head>, left: seq<Link>, stage: Stage, log: seq<Note>)

  datatype Action =
    // GitHub changes.
    | PublishListing(task: int, listing: Doc<Option<Pull>>)
    | PublishRuns(sha: string, doc: Doc<seq<Run>>)
    // The route that opens a pull request, once GitHub has opened it.
    | OpenPull(task: int, number: int, url: string, sha: string)
    | SetIssue(task: int, issue: int)
    | DeleteTask(task: int)
    | List(open: seq<Link>)
    // The task is gone or the request failed; a body that cannot be read leaves its tag behind.
    | LosePull(kept: bool)
    | AskPull(tagged: bool)
    | LoseChecks(kept: bool)
    | AskChecks(tagged: bool)
    // Out of budget: so is the whole pass.
    | Abandon
    | WritePull(ok: bool)
    | WriteChecks(ok: bool)
    | Tell(ok: bool)
    // A rejected token drops the client and its tags.
    | NewClient
    | Crash

  ghost predicate Enabled(w: World, action: Action) {
    match action
    case List(open) => w.stage == Resting && w.left == [] && ListsOpen(w.links, open)
    case LosePull(_) => w.stage == Resting && w.left != []
    case AskPull(_) => w.stage == Resting && w.left != [] && w.left[0].task in w.links && w.left[0].task in w.listings
    case LoseChecks(_) => w.stage.Found?
    case AskChecks(_) => w.stage.Found? && w.stage.pull.sha in w.runs
    case Abandon => w.stage == Resting || w.stage.Found?
    case WritePull(_) => w.stage.Answered?
    case WriteChecks(_) => w.stage.Recorded?
    case Tell(_) => w.stage.Telling?
    case NewClient => w.stage == Resting
    case _ => true
  }

  /** A row inserted starts out with no checks. */
  function Inserted(w: World, task: int): seq<Note> {
    if task in w.links then [] else [Stored(task, NoChecks)]
  }

  function Published<K(==), T(!new, ==)>(all: map<K, Watched<T>>, key: K, doc: Doc<T>): map<K, Watched<T>> {
    all[key := if key in all then Replaced(all[key], doc) else Unasked(doc)]
  }

  /** The tag of a body that could not be read is sent from then on. */
  function Garbled<K(==), T(!new, ==)>(all: map<K, Watched<T>>, key: K): map<K, Watched<T>> {
    if key in all then all[key := all[key].(sent := Some(all[key].now.tag))] else all
  }

  function Untagged<K, T(!new, ==)>(all: map<K, Watched<T>>): map<K, Watched<T>> {
    map key | key in all :: all[key].(sent := None)
  }

  /** A daemon that starts again has been given nothing yet. */
  function Forgotten<K, T(!new, ==)>(all: map<K, Watched<T>>): map<K, Watched<T>> {
    map key | key in all :: all[key].(sent := None, last := None)
  }

  /** Asking for the listing finds a pull request only if there is one and the answer is fresh. */
  predicate FindsPull(w: World)
    requires w.left != [] && w.left[0].task in w.listings
  {
    !StillTagged(w.listings[w.left[0].task]) && w.listings[w.left[0].task].now.body.Some?
  }

  function PullAsked(w: World, tagged: bool): World
    requires w.left != [] && w.left[0].task in w.listings
  {
    var (link, listing) := (w.left[0], w.listings[w.left[0].task]);
    var asked := w.(left := w.left[1..], listings := w.listings[link.task := Asked(listing, tagged)]);
    if FindsPull(w) then
      asked.(stage := Found(link, listing.now.body.value), heads := w.heads + [Head(link.task, Some(listing.now.body.value.sha))])
    else asked
  }

  function ChecksAsked(w: World, tagged: bool): World
    requires w.stage.Found? && w.stage.pull.sha in w.runs
  {
    var (link, pull, runs) := (w.stage.link, w.stage.pull, w.runs[w.stage.pull.sha]);
    w.(runs := w.runs[pull.sha := Asked(runs, tagged)],
       stage := Answered(link, pull, if StillTagged(runs) then link.checks else Rolled(runs.now.body)))
  }

  function After(w: World, action: Action): World
    requires Enabled(w, action)
  {
    match action
    case PublishListing(task, listing) => w.(listings := Published(w.listings, task, listing))
    case PublishRuns(sha, doc) => w.(runs := Published(w.runs, sha, doc))
    case OpenPull(task, number, url, sha) =>
      w.(links := PullSet(w.links, task, number, url, Open, sha), log := w.log + Inserted(w, task) + [Opened(task)],
         heads := w.heads + [Head(task, Some(sha))])
    case SetIssue(task, issue) => w.(links := IssueSet(w.links, task, issue), log := w.log + Inserted(w, task))
    case DeleteTask(task) => w.(links := w.links - {task}, heads := w.heads + [Head(task, None)])
    case List(open) => w.(left := open)
    case LosePull(kept) =>
      w.(left := w.left[1..], listings := if kept then Garbled(w.listings, w.left[0].task) else w.listings)
    case AskPull(tagged) => PullAsked(w, tagged)
    case LoseChecks(kept) => w.(stage := Resting, runs := if kept then Garbled(w.runs, w.stage.pull.sha) else w.runs)
    case AskChecks(tagged) => ChecksAsked(w, tagged)
    case Abandon => w.(left := [], stage := Resting)
    case WritePull(ok) =>
      var (link, pull) := (w.stage.link, w.stage.pull);
      if !ok then w.(stage := Resting)
      else
        w.(links := PullSet(w.links, link.task, pull.number, pull.url, StateOf(pull), pull.sha),
           log := w.log + Inserted(w, link.task), stage := Recorded(link, pull, w.stage.checks))
    case WriteChecks(ok) =>
      var (link, pull, checks) := (w.stage.link, w.stage.pull, w.stage.checks);
      var event := EventFor(Compare(link, StateOf(pull), checks), link.task, pull.number, pull.url);
      var next := w.(stage := if event.Some? then Telling(event.value) else Resting);
      if ok && link.task in w.links then
        next.(links := ChecksSet(w.links, link.task, checks), log := w.log + [Stored(link.task, checks)])
      else next
    case Tell(ok) => w.(stage := Resting, log := if ok then w.log + [Said(w.stage.event)] else w.log)
    case NewClient => w.(listings := Untagged(w.listings), runs := Untagged(w.runs))
    case Crash => w.(listings := Forgotten(w.listings), runs := Forgotten(w.runs), left := [], stage := Resting)
  }

  ghost predicate Legal(w: World, actions: seq<Action>)
    decreases |actions|, 0
  {
    actions == [] ||
    (Legal(w, actions[..|actions| - 1]) && Enabled(Run(w, actions[..|actions| - 1]), actions[|actions| - 1]))
  }

  ghost function Run(w: World, actions: seq<Action>): World
    requires Legal(w, actions)
    decreases |actions|, 1
  {
    if actions == [] then w else After(Run(w, actions[..|actions| - 1]), actions[|actions| - 1])
  }

  const START: World := World(map[], map[], map[], [], [], Resting, [])

  ghost function End(actions: seq<Action>): World
    requires Legal(START, actions)
  {
    Run(START, actions)
  }

  // ---- endings are announced no more often than pull requests are opened ----

  function Opens(log: seq<Note>, task: int): nat {
    if log == [] then 0
    else Opens(log[..|log| - 1], task) + if log[|log| - 1] == Opened(task) then 1 else 0
  }

  predicate IsEnding(e: ForgeEvent, task: int) {
    (e.PrMerged? || e.PrClosed?) && e.task == task
  }

  function Endings(log: seq<Note>, task: int): nat {
    if log == [] then 0
    else
      Endings(log[..|log| - 1], task)
      + if log[|log| - 1].Said? && IsEnding(log[|log| - 1].event, task) then 1 else 0
  }

  lemma Noted(log: seq<Note>, note: Note, task: int)
    ensures Opens(log + [note], task) == Opens(log, task) + if note == Opened(task) then 1 else 0
    ensures Endings(log + [note], task) == Endings(log, task) + if note.Said? && IsEnding(note.event, task) then 1 else 0
  {
    assert (log + [note])[..|log|] == log;
  }

  lemma InsertedIsNoNews(w: World, inserted: int, task: int)
    ensures var log := w.log + Inserted(w, inserted);
            Opens(log, task) == Opens(w.log, task) && Endings(log, task) == Endings(w.log, task)
  {
    if inserted in w.links {
      assert w.log + Inserted(w, inserted) == w.log;
    } else {
      Noted(w.log, Stored(inserted, NoChecks), task);
    }
  }

  /** A poll of the task has its row as it was listed, and has not written it yet. */
  ghost predicate InFlight(w: World, task: int) {
    || ((w.stage.Found? || w.stage.Answered?) && w.stage.link.task == task)
    || (exists i :: 0 <= i < |w.left| && w.left[i].task == task)
  }

  /** An ending read, and not yet announced. */
  predicate Ending(w: World, task: int) {
    match w.stage
    case Recorded(link, pull, _) => link.task == task && StateOf(pull) != Open
    case Telling(event) => IsEnding(event, task)
    case _ => false
  }

  ghost function Owed(w: World, task: int): nat {
    (if IsOpen(w.links, task) || InFlight(w, task) then 1 else 0) + (if Ending(w, task) then 1 else 0)
  }

  predicate Polling(stage: Stage) {
    stage.Found? || stage.Answered? || stage.Recorded?
  }

  ghost predicate OneEach(left: seq<Link>) {
    forall i, j :: 0 <= i < j < |left| ==> left[i].task != left[j].task
  }

  ghost predicate Paid(w: World, task: int) {
    && OneEach(w.left)
    && (forall i :: 0 <= i < |w.left| ==> w.left[i].state == Some(Open))
    && (Polling(w.stage) ==>
          w.stage.link.state == Some(Open) && forall i :: 0 <= i < |w.left| ==> w.left[i].task != w.stage.link.task)
    && (w.stage.Telling? && IsEnding(w.stage.event, task) ==> forall i :: 0 <= i < |w.left| ==> w.left[i].task != task)
    && Endings(w.log, task) + Owed(w, task) <= Opens(w.log, task)
  }

  /** A change to the rows alone pays for the pull requests it opens by noting them. */
  lemma RowsPay(w: World, w': World, count: nat, task: int)
    requires Paid(w, task) && w'.left == w.left && w'.stage == w.stage
    requires IsOpen(w'.links, task) ==> IsOpen(w.links, task) || count > 0
    requires Endings(w'.log, task) == Endings(w.log, task)
    requires Opens(w'.log, task) == Opens(w.log, task) + count
    ensures Paid(w', task)
  {
    assert InFlight(w', task) <==> InFlight(w, task);
  }

  lemma OpenPays(w: World, to: int, number: int, url: string, sha: string, task: int)
    requires Paid(w, task)
    ensures Paid(After(w, OpenPull(to, number, url, sha)), task)
  {
    InsertedIsNoNews(w, to, task);
    Noted(w.log + Inserted(w, to), Opened(to), task);
    RowsPay(w, After(w, OpenPull(to, number, url, sha)), if to == task then 1 else 0, task);
  }

  lemma IssueOpensNone(links: Links, to: int, issue: int, task: int)
    ensures IsOpen(IssueSet(links, to, issue), task) <==> IsOpen(links, task)
  {
  }

  lemma IssuePays(w: World, to: int, issue: int, task: int)
    requires Paid(w, task)
    ensures Paid(After(w, SetIssue(to, issue)), task)
  {
    InsertedIsNoNews(w, to, task);
    IssueOpensNone(w.links, to, issue, task);
    RowsPay(w, After(w, SetIssue(to, issue)), 0, task);
  }

  lemma ListPays(w: World, open: seq<Link>, task: int)
    requires Enabled(w, List(open)) && Paid(w, task)
    ensures Paid(After(w, List(open)), task)
  {
    var w' := After(w, List(open));
    if i :| 0 <= i < |open| && open[i].task == task {
      assert IsOpen(w.links, open[i].task);
    }
  }

  /** Reading takes the first listed link's place in the pass. */
  lemma ReadPays(w: World, w': World, task: int)
    requires Paid(w, task) && w.stage == Resting && w.left != [] && w'.left == w.left[1..]
    requires w'.links == w.links && w'.log == w.log
    requires w'.stage == Resting || (w'.stage.Found? && w'.stage.link == w.left[0])
    ensures Paid(w', task)
  {
    assert forall i :: 0 <= i < |w'.left| ==> w'.left[i] == w.left[i + 1];
    if InFlight(w', task) && !w'.stage.Found? {
      var i :| 0 <= i < |w'.left| && w'.left[i].task == task;
      assert w.left[i + 1].task == task;
    }
    if w'.stage.Found? && w'.stage.link.task == task {
      assert w.left[0].task == task;
    }
    if i :| 0 <= i < |w'.left| && w'.left[i].task == task {
      assert w.left[i + 1].task == task;
    }
  }

  /** An answer, or none, moves the poll of one link on without a write. */
  lemma ChecksPay(w: World, w': World, task: int)
    requires Paid(w, task) && w.stage.Found? && w'.links == w.links && w'.log == w.log
    requires w'.left == w.left || w'.left == []
    requires w'.stage == Resting || (w'.stage.Answered? && w'.stage.link == w.stage.link)
    ensures Paid(w', task)
  {
  }

  lemma WritePullPays(w: World, ok: bool, task: int)
    requires Enabled(w, WritePull(ok)) && Paid(w, task)
    ensures Paid(After(w, WritePull(ok)), task)
  {
    var link := w.stage.link;
    InsertedIsNoNews(w, link.task, task);
    assert InFlight(w, link.task);
  }

  lemma ChecksOpenNone(links: Links, to: int, checks: ChecksState, task: int)
    ensures IsOpen(ChecksSet(links, to, checks), task) <==> IsOpen(links, task)
  {
  }

  /** What a recorded poll has to tell is the ending it recorded, or no ending. */
  lemma TurnToTelling(w: World, event: Option<ForgeEvent>, task: int)
    requires Paid(w, task) && w.stage.Recorded?
    requires var (link, pull, checks) := (w.stage.link, w.stage.pull, w.stage.checks);
             event == EventFor(Compare(link, StateOf(pull), checks), link.task, pull.number, pull.url)
    ensures Paid(w.(stage := if event.Some? then Telling(event.value) else Resting), task)
  {
  }

  lemma WriteChecksPays(w: World, ok: bool, task: int)
    requires Enabled(w, WriteChecks(ok)) && Paid(w, task)
    ensures Paid(After(w, WriteChecks(ok)), task)
  {
    var (link, pull, checks) := (w.stage.link, w.stage.pull, w.stage.checks);
    var event := EventFor(Compare(link, StateOf(pull), checks), link.task, pull.number, pull.url);
    var stage := if event.Some? then Telling(event.value) else Resting;
    TurnToTelling(w, event, task);
    var next := w.(stage := stage);
    if ok && link.task in w.links {
      ChecksOpenNone(w.links, link.task, checks, task);
      Noted(w.log, Stored(link.task, checks), task);
      RowsPay(next, After(w, WriteChecks(ok)), 0, task);
    }
  }

  predicate AsksGitHub(action: Action) {
    action.LosePull? || action.AskPull? || action.LoseChecks? || action.AskChecks? || action.Abandon?
  }

  lemma AskingPays(w: World, action: Action, task: int)
    requires Enabled(w, action) && AsksGitHub(action) && Paid(w, task)
    ensures Paid(After(w, action), task)
  {
    if action.LosePull? || action.AskPull? {
      ReadPays(w, After(w, action), task);
    } else if w.stage.Found? {
      ChecksPay(w, After(w, action), task);
    }
  }

  /** Neither the poller nor the rows it reads move. */
  predicate Aside(action: Action) {
    action.PublishListing? || action.PublishRuns? || action.DeleteTask? || action.NewClient?
  }

  lemma AsidePays(w: World, action: Action, task: int)
    requires Enabled(w, action) && Aside(action) && Paid(w, task)
    ensures Paid(After(w, action), task)
  {
    RowsPay(w, After(w, action), 0, task);
  }

  lemma TellPays(w: World, ok: bool, task: int)
    requires Enabled(w, Tell(ok)) && Paid(w, task)
    ensures Paid(After(w, Tell(ok)), task)
  {
    Noted(w.log, Said(w.stage.event), task);
    var w' := After(w, Tell(ok));
    assert w'.left == w.left && w'.links == w.links;
    assert InFlight(w', task) <==> InFlight(w, task);
    assert Endings(w'.log, task) + Owed(w', task) <= Endings(w.log, task) + Owed(w, task);
  }

  lemma StepPays(w: World, action: Action, task: int)
    requires Enabled(w, action) && Paid(w, task)
    ensures Paid(After(w, action), task)
  {
    if AsksGitHub(action) {
      AskingPays(w, action, task);
    } else if Aside(action) {
      AsidePays(w, action, task);
    } else {
      match action
      case OpenPull(to, number, url, sha) => OpenPays(w, to, number, url, sha, task);
      case SetIssue(to, issue) => IssuePays(w, to, issue, task);
      case List(open) => ListPays(w, open, task);
      case WritePull(ok) => WritePullPays(w, ok, task);
      case WriteChecks(ok) => WriteChecksPays(w, ok, task);
      case Tell(ok) => TellPays(w, ok, task);
      case Crash =>
    }
  }

  lemma {:induction false} RunPays(actions: seq<Action>, task: int)
    requires Legal(START, actions)
    ensures Paid(End(actions), task)
    decreases |actions|
  {
    if actions == [] {
    } else {
      RunPays(actions[..|actions| - 1], task);
      StepPays(End(actions[..|actions| - 1]), actions[|actions| - 1], task);
    }
  }

  /**
   On every run, whatever fails: a task's merges and closings are announced no
   more often than a pull request was opened for it, and one that is still open
   has its own yet to come.
   */
  lemma EndingsNeverOutrunOpenings(actions: seq<Action>, task: int)
    requires Legal(START, actions)
    ensures var w := End(actions);
            Endings(w.log, task) + (if IsOpen(w.links, task) then 1 else 0) <= Opens(w.log, task)
  {
    RunPays(actions, task);
  }
}
