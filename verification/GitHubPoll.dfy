/**
 Following open pull requests: what is stored of each, what is announced, and
 what other requests may do to the same row between two steps of a poll.
 */
module GitHubPoll {
  import opened Options
  import opened Events
  import opened GitHubApi

  datatype PrState = Open | Merged | Closed

  /** A task's row. */
  datatype Link = Link(
    task: int, issue: Option<int>, number: Option<int>, url: Option<string>, state: Option<PrState>,
    head: Option<string>, checks: ChecksState)

  type Links = map<int, Link>

  datatype Pull = Pull(number: int, url: string, state: string, mergedAt: Option<string>, sha: string)

  datatype Change = NowMerged | NowClosed | NowPassed | NowFailed | Quiet

  /** A merge is reported as a closed pull request with a merge time. */
  function StateOf(pull: Pull): PrState {
    if pull.mergedAt.Some? then Merged else if pull.state == "closed" then Closed else Open
  }

  /** Only transitions are news, and an ending outranks a check result. */
  function Compare(before: Link, state: PrState, checks: ChecksState): Change {
    if state == Merged && before.state != Some(Merged) then NowMerged
    else if state == Closed && before.state != Some(Closed) then NowClosed
    else if checks != before.checks then
      match checks {
        case Failed => NowFailed
        case Passed => NowPassed
        case _ => Quiet
      }
    else Quiet
  }

  function EventFor(change: Change, task: int, number: int, url: string): Option<ForgeEvent> {
    match change
    case NowMerged => Some(PrMerged(task, number, url))
    case NowClosed => Some(PrClosed(task, number, url))
    case NowPassed => Some(ChecksPassed(task, number, url))
    case NowFailed => Some(ChecksFailed(task, number, url))
    case Quiet => None
  }

  function EmptyLink(task: int): Link {
    Link(task, None, None, None, None, None, NoChecks)
  }

  function RowOf(links: Links, task: int): Link {
    if task in links then links[task] else EmptyLink(task)
  }

  /** The upserts keep whatever else the row says. */
  function PullSet(links: Links, task: int, number: int, url: string, state: PrState, sha: string): Links {
    links[task := RowOf(links, task).(number := Some(number), url := Some(url), state := Some(state), head := Some(sha))]
  }

  function IssueSet(links: Links, task: int, issue: int): Links {
    links[task := RowOf(links, task).(issue := Some(issue))]
  }

  function ChecksSet(links: Links, task: int, checks: ChecksState): Links {
    if task in links then links[task := links[task].(checks := checks)] else links
  }

  predicate IsOpen(links: Links, task: int) {
    task in links && links[task].state == Some(Open)
  }

  // ---- the store and the poll as they are written ----

  class LinkStore {
    var links: Links

    ghost predicate Valid()
      reads this
    {
      forall task :: task in links ==> links[task].task == task
    }

    method SetTaskPull(task: int, number: int, url: string, state: PrState, sha: string)
      requires Valid()
      modifies this
      ensures Valid() && links == PullSet(old(links), task, number, url, state, sha)
      ensures task in links && links.Keys == old(links).Keys + {task}
      ensures links[task] == Link(task, if task in old(links) then old(links)[task].issue else None, Some(number), Some(url), Some(state),
                                  Some(sha), if task in old(links) then old(links)[task].checks else NoChecks)
      ensures forall other :: other in old(links) && other != task ==> links[other] == old(links)[other]
    {
      if task !in links {
        links := links[task := EmptyLink(task)];
      }
      var row := links[task];
      links := links[task := Link(task, row.issue, Some(number), Some(url), Some(state), Some(sha), row.checks)];
    }

    method SetTaskChecks(task: int, checks: ChecksState)
      requires Valid()
      modifies this
      ensures Valid() && links == ChecksSet(old(links), task, checks)
      ensures links == if task in old(links) then old(links)[task := old(links)[task].(checks := checks)] else old(links)
    {
      if task in links {
        links := links[task := links[task].(checks := checks)];
      }
    }

    /** The rows still worth asking about, in the order of their tasks. */
    method TasksWithOpenPulls(last: nat) returns (open: seq<Link>)
      requires Valid() && forall task :: task in links ==> 1 <= task <= last
      ensures ListsOpen(links, open)
    {
      open := [];
      for task := 1 to last + 1
        invariant forall i :: 0 <= i < |open| ==> IsOpen(links, open[i].task) && open[i] == links[open[i].task] && open[i].task < task
        invariant forall t :: 1 <= t < task && IsOpen(links, t) ==> links[t] in open
        invariant forall i, j :: 0 <= i < j < |open| ==> open[i].task < open[j].task
      {
        if task in links && links[task].state == Some(Open) {
          open := open + [links[task]];
        }
      }
    }
  }

  ghost predicate ListsOpen(links: Links, open: seq<Link>) {
    && (forall i :: 0 <= i < |open| ==> IsOpen(links, open[i].task) && open[i] == links[open[i].task])
    && (forall task :: IsOpen(links, task) ==> links[task] in open)
    && (forall i, j :: 0 <= i < j < |open| ==> open[i].task < open[j].task)
  }

  /** What GitHub says to one poll's two requests. An empty list of pull requests reads as an unchanged one. */
  datatype Answers = PullUnchanged | PullFailed | ChecksFailedToLoad(pull: Pull) | Read(pull: Pull, checks: Conditional<seq<Run>>)

  function ReadingOf(link: Link, checks: Conditional<seq<Run>>): ChecksState {
    if checks.Fresh? then Rolled(checks.body) else link.checks
  }

  /** One poll of one link with nothing else going on and no write failing. */
  function Polled(links: Links, link: Link, answers: Answers): (Links, Option<ForgeEvent>) {
    if !answers.Read? || answers.checks.Failure? then (links, None)
    else
      var pull, checks := answers.pull, ReadingOf(link, answers.checks);
      (ChecksSet(PullSet(links, link.task, pull.number, pull.url, StateOf(pull), pull.sha), link.task, checks),
       EventFor(Compare(link, StateOf(pull), checks), link.task, pull.number, pull.url))
  }

  method PollTask(store: LinkStore, link: Link, answers: Answers) returns (event: Option<ForgeEvent>)
    requires store.Valid()
    modifies store
    ensures store.Valid() && (store.links, event) == Polled(old(store.links), link, answers)
  {
    if !answers.Read? {
      return None;
    }
    var checks := link.checks;
    match answers.checks {
      case Failure => return None;
      case Unchanged =>
      case Fresh(runs) => checks := RollUp(runs);
    }
    var pull := answers.pull;
    var change := Compare(link, StateOf(pull), checks);
    store.SetTaskPull(link.task, pull.number, pull.url, StateOf(pull), pull.sha);
    store.SetTaskChecks(link.task, checks);
    event := EventFor(change, link.task, pull.number, pull.url);
  }

  /** The row has just come to an end it was not at before. */
  predicate Ended(before: Link, after: Link) {
    after.state != before.state && (after.state == Some(Merged) || after.state == Some(Closed))
  }

  /**
   What a poll announces is read off the row before and the row after: an ending
   reached, or else a result that is new; a result that comes with an ending is
   stored without a word. No other row is touched, nor this one's issue.
   */
  lemma PollSaysWhatChanged(links: Links, link: Link, answers: Answers)
    requires link.task in links && links[link.task] == link && answers.Read? && !answers.checks.Failure?
    ensures var (after, event) := Polled(links, link, answers);
            var (pull, task) := (answers.pull, link.task);
            && after.Keys == links.Keys && (forall other :: other in links && other != task ==> after[other] == links[other])
            && var row := after[task];
               && row == Link(link.task, link.issue, Some(pull.number), Some(pull.url), row.state, Some(pull.sha), row.checks)
               && (row.state == Some(Merged) <==> pull.mergedAt.Some?)
               && (row.state == Some(Closed) <==> pull.mergedAt.None? && pull.state == "closed")
               && (row.state == Some(Open) <==> pull.mergedAt.None? && pull.state != "closed")
               && (row.checks == match answers.checks case Fresh(runs) => Rolled(runs) case _ => link.checks)
               && (event == Some(PrMerged(task, pull.number, pull.url)) <==> Ended(link, row) && row.state == Some(Merged))
               && (event == Some(PrClosed(task, pull.number, pull.url)) <==> Ended(link, row) && row.state == Some(Closed))
               && (event == Some(ChecksPassed(task, pull.number, pull.url)) <==> !Ended(link, row) && row.checks == Passed != link.checks)
               && (event == Some(ChecksFailed(task, pull.number, pull.url)) <==> !Ended(link, row) && row.checks == Failed != link.checks)
               && (event.None? <==> !Ended(link, row) && (row.checks == link.checks || row.checks == Running || row.checks == NoChecks))
  {
  }

  // ---- what a row says of the runs last served for its head ----

  type Served = map<string, seq<Run>>

  ghost predicate Truthful(link: Link, served: Served) {
    link.head.Some? && link.head.value in served ==> link.checks == Rolled(served[link.head.value])
  }

  function ServedSince(served: Served, answers: Answers): Served
    requires answers.Read?
  {
    if answers.checks.Fresh? then served[answers.pull.sha := answers.checks.body] else served
  }

  /** What a poll leaves is true, given what has been served for each commit. */
  ghost predicate TrueOf(links: Links, link: Link, answers: Answers, served: Served)
    requires link.task in links && links[link.task] == link && answers.Read? && !answers.checks.Failure?
  {
    Truthful(Polled(links, link, answers).0[link.task], ServedSince(served, answers))
  }

  /** What had been served before, if the row was true of it and an unchanged answer has something to be unchanged from. */
  ghost predicate MayHaveServed(link: Link, answers: Answers, served: Served)
    requires answers.Read?
  {
    Truthful(link, served) && (answers.checks.Unchanged? ==> answers.pull.sha in served)
  }

  lemma PollIsTrueOf(links: Links, link: Link, answers: Answers, served: Served)
    requires link.task in links && links[link.task] == link && answers.Read? && !answers.checks.Failure?
    requires MayHaveServed(link, answers, served)
    ensures TrueOf(links, link, answers, served)
            <==> (answers.checks.Unchanged? && link.head != Some(answers.pull.sha)
                  ==> Rolled(served[answers.pull.sha]) == link.checks)
  {
  }

  /** Runs that come to something else. */
  function Otherwise(checks: ChecksState): (runs: seq<Run>)
    ensures Rolled(runs) != checks
  {
    if checks == NoChecks then [Run("queued", None)] else []
  }

  /**
   Whatever had been served before, one poll leaves the row saying what was last
   served for its head, exactly when an unchanged answer is about the head the
   row already had.
   */
  lemma PollIsTruthfulIff(links: Links, link: Link, answers: Answers)
    requires link.task in links && links[link.task] == link && answers.Read? && !answers.checks.Failure?
    ensures (forall served :: MayHaveServed(link, answers, served) ==> TrueOf(links, link, answers, served))
            <==> (answers.checks.Unchanged? ==> link.head == Some(answers.pull.sha))
  {
    forall served | MayHaveServed(link, answers, served) && (answers.checks.Unchanged? ==> link.head == Some(answers.pull.sha))
      ensures TrueOf(links, link, answers, served)
    {
      PollIsTrueOf(links, link, answers, served);
    }
    if answers.checks.Unchanged? && link.head != Some(answers.pull.sha) {
      var served := map[answers.pull.sha := Otherwise(link.checks)];
      assert MayHaveServed(link, answers, served);
      PollIsTrueOf(links, link, answers, served);
      assert !TrueOf(links, link, answers, served);
    }
  }

  /**
   A head that goes back to an earlier commit: read fresh, left for another, and
   answered as unchanged, its row says what the other's runs came to.
   */
  lemma RecurringHead(links: Links, task: int, a: Pull, b: Pull, runsA: seq<Run>, runsB: seq<Run>)
    requires task in links && links[task].task == task && a.sha != b.sha
    ensures var first := Polled(links, links[task], Read(a, Fresh(runsA))).0;
            var second := Polled(first, first[task], Read(b, Fresh(runsB))).0;
            var third := Polled(second, second[task], Read(a, Unchanged)).0;
            var served := map[a.sha := runsA, b.sha := runsB];
            && Truthful(first[task], served) && Truthful(second[task], served)
            && (Truthful(third[task], served) <==> Rolled(runsA) == Rolled(runsB))
  {
  }
}
