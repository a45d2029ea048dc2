/**
 Starting, stopping, polling and reconciling sessions at once, as a step system
 over the rows: whoever's conditional close wins announces it, nobody else.
 */
module Sessions {
  import opened Options
  import opened Events
  import opened SessionStore
  import Tracker

  type Outcome = Tracker.Outcome

  /** One request, poll or reconciliation between two of its awaits. */
  datatype Proc =
    // The row is inserted; tmux is being asked for the session.
    | Creating(session: int, task: int)
    // tmux has it; it is still to be announced.
    | Launched(session: int, task: int)
    // tmux has been listed, the rows not yet read.
    | Listed(names: set<string>)
    // Both have been read; these rows are still to be compared.
    | Checking(names: set<string>, left: seq<int>)
    // The session is believed over; `ending` is what a poll saw, if it was one.
    | Closing(session: int, task: int, status: AgentStatus, reason: StopReason, ending: Option<Outcome>)
    // The conditional close won and is still to be announced.
    | Won(session: int, task: int, reason: StopReason, ending: Option<Outcome>)
    // How it ended is still to be reported.
    | Reporting(session: int, task: int, outcome: Outcome)
    // A changed status is still to be written, then announced.
    | Changing(session: int, task: int, outcome: Outcome)
    | Changed(session: int, task: int, outcome: Outcome)
    // The change is announced; the pane is being captured for what else there is to say.
    | Telling(session: int, task: int, outcome: Outcome)

  /** The daemon, what tmux has, and who won each close. */
  datatype Daemon = Daemon(
    rows: Rows, running: set<string>, procs: map<int, Proc>, events: seq<ForgeEvent>, winners: map<int, StopReason>)

  datatype Action =
    | StartInsert(proc: int, session: int, task: int)
    | CreateOk(proc: int, pid: Option<int>)
    | CreateFailed(proc: int, now: int)
    | AnnounceStart(proc: int)
    | StopAsked(proc: int, session: int)
    | List(proc: int)
    | ReadRows(proc: int, left: seq<int>)
    | CheckNext(proc: int, closer: int, pid: Option<int>)
    | Observe(proc: int, session: int, outcome: Outcome)
    | Close(proc: int, now: int)
    | AnnounceStop(proc: int)
    | Report(proc: int)
    | WriteStatus(proc: int)
    | AnnounceChange(proc: int)
    | AnnounceDetail(proc: int, tail: string)
    // tmux sessions come and go by themselves.
    | Outside(running: set<string>)
    | Crash
    | DeleteTask(task: int)

  predicate Enabled(d: Daemon, action: Action) {
    match action
    case StartInsert(proc, session, _) => proc !in d.procs && session !in d.rows
    // tmux refuses a name it already runs.
    case CreateOk(proc, _) => proc in d.procs && d.procs[proc].Creating? && TmuxName(d.procs[proc].task) !in d.running
    case CreateFailed(proc, _) => proc in d.procs && d.procs[proc].Creating?
    case AnnounceStart(proc) => proc in d.procs && d.procs[proc].Launched?
    case StopAsked(proc, session) => proc !in d.procs && Live(d.rows, session)
    case List(proc) => proc !in d.procs
    case ReadRows(proc, left) =>
      proc in d.procs && d.procs[proc].Listed? && ListsLive(d.rows, left)
    case CheckNext(proc, closer, _) =>
      proc in d.procs && closer !in d.procs && d.procs[proc].Checking? && d.procs[proc].left != []
    // The session was live in some snapshot; by now it may have ended.
    case Observe(proc, session, _) => proc !in d.procs && session in d.rows
    case Close(proc, _) => proc in d.procs && d.procs[proc].Closing?
    case AnnounceStop(proc) => proc in d.procs && d.procs[proc].Won?
    case Report(proc) => proc in d.procs && d.procs[proc].Reporting?
    case WriteStatus(proc) => proc in d.procs && d.procs[proc].Changing?
    case AnnounceChange(proc) => proc in d.procs && d.procs[proc].Changed?
    case AnnounceDetail(proc, _) => proc in d.procs && d.procs[proc].Telling?
    case Outside(_) => true
    case Crash => true
    // The route refuses while the task has a live session; its rows go with the task.
    case DeleteTask(task) => forall id :: id in d.rows && d.rows[id].task == task ==> !Live(d.rows, id)
  }

  /** Exactly the live rows, oldest first. */
  predicate ListsLive(rows: Rows, left: seq<int>) {
    && (forall id :: id in left ==> Live(rows, id))
    && (forall id :: id in rows && Live(rows, id) ==> id in left)
    && (forall i, j :: 0 <= i < j < |left| ==> left[i] < left[j])
  }

  /** How a session's ending is reported once its row is closed. */
  function EndingEvents(task: int, session: int, outcome: Outcome): seq<ForgeEvent> {
    (if outcome.changedFrom.Some? then [StatusChanged(task, session, outcome.changedFrom.value, outcome.status)] else [])
    + (if outcome.status == Error then [AgentError(task, session, TmuxName(task) + " exited unexpectedly")]
       else if outcome.changedFrom.Some? && outcome.changedFrom.value != Idle then [TaskFinished(task, session)]
       else [])
  }

  /** What a changed status announces. `tail` is the pane as it last looked. */
  function ChangeEvents(task: int, session: int, outcome: Outcome, tail: string): seq<ForgeEvent> {
    if outcome.changedFrom.None? then []
    else [StatusChanged(task, session, outcome.changedFrom.value, outcome.status)] + DetailEvents(task, session, outcome, tail)
  }

  /** A question, or an error. */
  function DetailEvents(task: int, session: int, outcome: Outcome, tail: string): seq<ForgeEvent> {
    (if outcome.enteredWaiting then [AgentWaiting(task, session, tail)] else [])
    + (if outcome.status == Error then [AgentError(task, session, tail)] else [])
  }

  function After(d: Daemon, action: Action): Daemon
    requires Enabled(d, action)
  {
    match action
    case StartInsert(proc, session, task) =>
      if NameInUse(d.rows, TmuxName(task)) then d
      else d.(rows := d.rows[session := NewRow(task)], procs := d.procs[proc := Creating(session, task)])
    case CreateOk(proc, pid) =>
      var p := d.procs[proc];
      d.(running := d.running + {TmuxName(p.task)}, rows := PidSet(d.rows, p.session, pid),
         procs := d.procs[proc := Launched(p.session, p.task)])
    // Nothing ever ran, so nothing announces stopping.
    case CreateFailed(proc, now) =>
      d.(rows := Closed(d.rows, d.procs[proc].session, Error, now), procs := d.procs - {proc})
    case AnnounceStart(proc) =>
      var p := d.procs[proc];
      d.(procs := d.procs - {proc}, events := d.events + [SessionStarted(p.task, p.session, TmuxName(p.task))])
    case StopAsked(proc, session) =>
      d.(procs := d.procs[proc := Closing(session, d.rows[session].task, Stopped, Requested, None)])
    case List(proc) => d.(procs := d.procs[proc := Listed(d.running)])
    case ReadRows(proc, left) => d.(procs := StillToCompare(d.procs, proc, d.procs[proc].names, left))
    case CheckNext(proc, closer, pid) => Checked(d, proc, closer, pid)
    case Observe(proc, session, outcome) =>
      var task := d.rows[session].task;
      if outcome.processEnded then
        d.(procs := d.procs[proc := Closing(session, task, outcome.status, Exited, Some(outcome))])
      else if outcome.changedFrom.Some? then d.(procs := d.procs[proc := Changing(session, task, outcome)])
      else d
    case Close(proc, now) => ClosedBy(d, proc, now)
    case AnnounceStop(proc) =>
      var p := d.procs[proc];
      d.(procs := Continued(d, proc), events := d.events + [SessionStopped(p.task, p.session, p.reason)])
    case Report(proc) =>
      var p := d.procs[proc];
      d.(procs := d.procs - {proc}, events := d.events + EndingEvents(p.task, p.session, p.outcome))
    case WriteStatus(proc) =>
      var p := d.procs[proc];
      d.(rows := StatusSet(d.rows, p.session, p.outcome.status), procs := d.procs[proc := Changed(p.session, p.task, p.outcome)])
    case AnnounceChange(proc) =>
      var p := d.procs[proc];
      var changed :=
        if p.outcome.changedFrom.Some? then [StatusChanged(p.task, p.session, p.outcome.changedFrom.value, p.outcome.status)] else [];
      d.(procs := d.procs[proc := Telling(p.session, p.task, p.outcome)], events := d.events + changed)
    case AnnounceDetail(proc, tail) =>
      var p := d.procs[proc];
      d.(procs := d.procs - {proc}, events := d.events + DetailEvents(p.task, p.session, p.outcome, tail))
    case Outside(running) => d.(running := running)
    case Crash => d.(procs := map[])
    case DeleteTask(task) => d.(rows := map id | id in d.rows && d.rows[id].task != task :: d.rows[id])
  }

  /** A reconciliation with no row left to compare is over. */
  function StillToCompare(procs: map<int, Proc>, proc: int, names: set<string>, left: seq<int>): map<int, Proc> {
    if left == [] then procs - {proc} else procs[proc := Checking(names, left)]
  }

  /** A row whose tmux session was listed is adopted; any other is to be closed as vanished. */
  function Checked(d: Daemon, proc: int, closer: int, pid: Option<int>): Daemon
    requires proc in d.procs && d.procs[proc].Checking? && d.procs[proc].left != []
  {
    var (id, names) := (d.procs[proc].left[0], d.procs[proc].names);
    var procs := StillToCompare(d.procs, proc, names, d.procs[proc].left[1..]);
    if id !in d.rows then d.(procs := procs)
    else if d.rows[id].name in names then d.(rows := PidSet(d.rows, id, pid), procs := procs)
    else d.(procs := procs[closer := Closing(id, d.rows[id].task, Stopped, Vanished, None)])
  }

  /** The close decides: the winner announces, a loser of a poll still reports, any other loser is done. */
  function ClosedBy(d: Daemon, proc: int, now: int): Daemon
    requires proc in d.procs && d.procs[proc].Closing?
  {
    var p := d.procs[proc];
    if Live(d.rows, p.session) then
      d.(rows := Closed(d.rows, p.session, p.status, now),
         procs := d.procs[proc := Won(p.session, p.task, p.reason, p.ending)],
         winners := d.winners[p.session := p.reason])
    else d.(procs := Continued(d, proc))
  }

  function Continued(d: Daemon, proc: int): map<int, Proc>
    requires proc in d.procs && (d.procs[proc].Closing? || d.procs[proc].Won?)
  {
    var p := d.procs[proc];
    if p.ending.Some? then d.procs[proc := Reporting(p.session, p.task, p.ending.value)] else d.procs - {proc}
  }

  const BOOT: Daemon := Daemon(map[], {}, map[], [], map[])

  predicate Legal(d: Daemon, actions: seq<Action>)
    decreases |actions|
  {
    actions != [] ==> Enabled(d, actions[0]) && Legal(After(d, actions[0]), actions[1..])
  }

  function Run(d: Daemon, actions: seq<Action>): Daemon
    requires Legal(d, actions)
    decreases |actions|
  {
    if actions == [] then d else Run(After(d, actions[0]), actions[1..])
  }

  // ---- what every step keeps ----

  /** Apart from a start, no step adds a row, renames one or revives one. */
  ghost predicate Narrower(rows: Rows, later: Rows) {
    forall id :: id in later ==>
      id in rows && later[id].name == rows[id].name && later[id].task == rows[id].task && (Live(later, id) ==> Live(rows, id))
  }

  lemma StepNarrows(d: Daemon, action: Action)
    requires Enabled(d, action) && !action.StartInsert?
    ensures Narrower(d.rows, After(d, action).rows)
  {
  }

  lemma NarrowerKeepsNames(rows: Rows, later: Rows)
    requires NamesInv(rows) && Narrower(rows, later)
    ensures NamesInv(later)
  {
  }

  lemma NamesKept(d: Daemon, action: Action)
    requires NamesInv(d.rows) && Enabled(d, action)
    ensures NamesInv(After(d, action).rows)
  {
    if !action.StartInsert? {
      StepNarrows(d, action);
      NarrowerKeepsNames(d.rows, After(d, action).rows);
    } else if !NameInUse(d.rows, TmuxName(action.task)) {
      InsertKeepsNames(d.rows, action.session, action.task);
    }
  }

  lemma RowsKept(d: Daemon, action: Action)
    requires Enabled(d, action) && !action.DeleteTask?
    ensures Keeps(d.rows, After(d, action).rows)
  {
  }

  ghost predicate Ended(d: Daemon, session: int) {
    session in d.rows && d.rows[session].ended.Some?
  }

  ghost predicate Unannounced(events: seq<ForgeEvent>, session: int) {
    forall i :: 0 <= i < |events| && events[i].SessionStopped? ==> events[i].session != session
  }

  /** A winner's session has ended, is recorded as its own, and has not been announced; nobody else holds it. */
  ghost predicate WinnersInv(d: Daemon) {
    && (forall s :: s in d.winners ==> Ended(d, s))
    && (forall p :: p in d.procs && d.procs[p].Won? ==> Holder(d, d.procs[p]))
    && (forall p, q :: p in d.procs && q in d.procs && p != q && d.procs[p].Won? && d.procs[q].Won?
          ==> d.procs[p].session != d.procs[q].session)
  }

  ghost predicate Holder(d: Daemon, p: Proc)
    requires p.Won?
  {
    p.session in d.winners && d.winners[p.session] == p.reason && Unannounced(d.events, p.session)
  }

  /** Every announced stop is the recorded winner's, and no session's stop is announced twice. */
  ghost predicate StopsInv(d: Daemon) {
    && (forall i :: 0 <= i < |d.events| && d.events[i].SessionStopped? ==>
          d.events[i].session in d.winners && d.winners[d.events[i].session] == d.events[i].reason)
    && (forall i, j :: 0 <= i < j < |d.events| && d.events[i].SessionStopped? && d.events[j].SessionStopped?
          ==> d.events[i].session != d.events[j].session)
  }

  lemma EndedKept(d: Daemon, action: Action, s: int)
    requires Enabled(d, action) && !action.DeleteTask? && Ended(d, s)
    ensures Ended(After(d, action), s)
  {
    RowsKept(d, action);
  }

  lemma WinnersGrow(d: Daemon, action: Action)
    requires Enabled(d, action)
    ensures forall s :: s in After(d, action).winners && s !in d.winners ==> Ended(After(d, action), s)
    ensures (forall s :: s in d.winners ==> Ended(d, s)) ==>
              forall s :: s in d.winners ==> s in After(d, action).winners && After(d, action).winners[s] == d.winners[s]
  {
  }

  /** Only an announcement adds a stop to the log, and then exactly the one its winner holds. */
  lemma StopsAdded(d: Daemon, action: Action)
    requires Enabled(d, action)
    ensures d.events <= After(d, action).events
    ensures !action.AnnounceStop? ==>
              forall i :: |d.events| <= i < |After(d, action).events| ==> !After(d, action).events[i].SessionStopped?
    ensures action.AnnounceStop? ==>
              var p := d.procs[action.proc];
              After(d, action).events == d.events + [SessionStopped(p.task, p.session, p.reason)]
  {
  }

  /** Who holds a won close after a step held it before, or has just won it. */
  lemma WonFrom(d: Daemon, action: Action, p: int)
    requires Enabled(d, action) && p in After(d, action).procs && After(d, action).procs[p].Won?
    ensures p in d.procs
    ensures d.procs[p].Won? ==> After(d, action).procs[p] == d.procs[p] && action != AnnounceStop(p)
    ensures !d.procs[p].Won? ==>
              && action.Close? && action.proc == p && d.procs[p].Closing? && Live(d.rows, d.procs[p].session)
              && After(d, action).procs[p].session == d.procs[p].session
              && After(d, action).winners == d.winners[d.procs[p].session := After(d, action).procs[p].reason]
  {
  }

  lemma HolderKept(d: Daemon, action: Action, p: int)
    requires WinnersInv(d) && StopsInv(d) && Enabled(d, action)
    requires p in After(d, action).procs && After(d, action).procs[p].Won?
    ensures Holder(After(d, action), After(d, action).procs[p])
  {
    WonFrom(d, action, p);
    WinnersGrow(d, action);
    StopsAdded(d, action);
    if d.procs[p].Won? {
      assert Holder(d, d.procs[p]);
    } else {
      assert d.procs[p].session !in d.winners;
      assert After(d, action).events == d.events;
    }
  }

  lemma OneHolder(d: Daemon, action: Action, p: int, q: int)
    requires WinnersInv(d) && Enabled(d, action) && p != q
    requires p in After(d, action).procs && After(d, action).procs[p].Won?
    requires q in After(d, action).procs && After(d, action).procs[q].Won?
    ensures After(d, action).procs[p].session != After(d, action).procs[q].session
  {
    WonFrom(d, action, p);
    WonFrom(d, action, q);
    assert d.procs[p].Won? ==> Holder(d, d.procs[p]);
    assert d.procs[q].Won? ==> Holder(d, d.procs[q]);
  }

  lemma WinnersKept(d: Daemon, action: Action)
    requires WinnersInv(d) && StopsInv(d) && Enabled(d, action) && !action.DeleteTask?
    ensures WinnersInv(After(d, action))
  {
    var d' := After(d, action);
    WinnersGrow(d, action);
    forall s | s in d'.winners ensures Ended(d', s) {
      if s in d.winners {
        EndedKept(d, action, s);
      }
    }
    forall p | p in d'.procs && d'.procs[p].Won? ensures Holder(d', d'.procs[p]) {
      HolderKept(d, action, p);
    }
    forall p, q | p in d'.procs && q in d'.procs && p != q && d'.procs[p].Won? && d'.procs[q].Won?
      ensures d'.procs[p].session != d'.procs[q].session
    {
      OneHolder(d, action, p, q);
    }
  }

  lemma StopsKept(d: Daemon, action: Action)
    requires WinnersInv(d) && StopsInv(d) && Enabled(d, action)
    ensures StopsInv(After(d, action))
  {
    WinnersGrow(d, action);
    StopsAdded(d, action);
    if action.AnnounceStop? {
      assert Holder(d, d.procs[action.proc]);
    }
  }

  ghost predicate Inv(d: Daemon) {
    NamesInv(d.rows) && WinnersInv(d) && StopsInv(d)
  }

  predicate NoDeletes(actions: seq<Action>) {
    forall i :: 0 <= i < |actions| ==> !actions[i].DeleteTask?
  }

  lemma {:induction false} RunKeeps(d: Daemon, actions: seq<Action>)
    requires Legal(d, actions) && NoDeletes(actions) && Inv(d)
    ensures Inv(Run(d, actions)) && Keeps(d.rows, Run(d, actions).rows)
    decreases |actions|
  {
    if actions == [] {
    } else {
      NamesKept(d, actions[0]);
      RowsKept(d, actions[0]);
      WinnersKept(d, actions[0]);
      StopsKept(d, actions[0]);
      RunKeeps(After(d, actions[0]), actions[1..]);
    }
  }

  lemma {:induction false} RunKeepsNames(d: Daemon, actions: seq<Action>)
    requires Legal(d, actions) && NamesInv(d.rows)
    ensures NamesInv(Run(d, actions).rows)
    decreases |actions|
  {
    if actions == [] {
    } else {
      NamesKept(d, actions[0]);
      RunKeepsNames(After(d, actions[0]), actions[1..]);
    }
  }

  // ---- whole runs ----

  /** Under every interleaving, deletions included, a task never has two live sessions. */
  lemma OneLiveSessionPerTask(actions: seq<Action>, a: int, b: int)
    requires Legal(BOOT, actions)
    requires var rows := Run(BOOT, actions).rows; Live(rows, a) && Live(rows, b) && rows[a].task == rows[b].task
    ensures a == b
  {
    RunKeepsNames(BOOT, actions);
  }

  ghost predicate Spares(actions: seq<Action>, task: int) {
    forall i :: 0 <= i < |actions| ==> actions[i] != DeleteTask(task)
  }

  lemma EndedRowKept(d: Daemon, action: Action, s: int)
    requires Enabled(d, action) && Ended(d, s) && action != DeleteTask(d.rows[s].task)
    ensures var d' := After(d, action);
            Ended(d', s) && d'.rows[s].task == d.rows[s].task
            && d'.rows[s].status == d.rows[s].status && d'.rows[s].ended == d.rows[s].ended
  {
    if !action.DeleteTask? {
      RowsKept(d, action);
    }
  }

  lemma {:induction false} StaysEnded(d: Daemon, actions: seq<Action>, s: int)
    requires Legal(d, actions) && Ended(d, s) && Spares(actions, d.rows[s].task)
    ensures var now := Run(d, actions).rows;
            s in now && now[s].status == d.rows[s].status && now[s].ended == d.rows[s].ended
    decreases |actions|
  {
    if actions == [] {
    } else {
      EndedRowKept(d, actions[0], s);
      StaysEnded(After(d, actions[0]), actions[1..], s);
    }
  }

  /**
   A session that has ended keeps its status and its time of ending, whatever
   came before and whatever follows, unless its own task is deleted.
   */
  lemma EndedIsFinal(before: seq<Action>, after: seq<Action>, s: int)
    requires Legal(BOOT, before) && Legal(Run(BOOT, before), after)
    requires Ended(Run(BOOT, before), s) && Spares(after, Run(BOOT, before).rows[s].task)
    ensures var was, now := Run(BOOT, before).rows, Run(Run(BOOT, before), after).rows;
            s in now && now[s].status == was[s].status && now[s].ended == was[s].ended
  {
    StaysEnded(Run(BOOT, before), after, s);
  }

  function StopsOf(events: seq<ForgeEvent>, session: int): nat {
    if events == [] then 0
    else StopsOf(events[..|events| - 1], session)
         + if events[|events| - 1].SessionStopped? && events[|events| - 1].session == session then 1 else 0
  }

  lemma {:induction false} AtMostOne(events: seq<ForgeEvent>, session: int)
    requires forall i, j :: 0 <= i < j < |events| && events[i].SessionStopped? && events[j].SessionStopped?
               ==> events[i].session != events[j].session
    ensures StopsOf(events, session) <= 1
    ensures Unannounced(events, session) ==> StopsOf(events, session) == 0
  {
    if events == [] {
    } else {
      AtMostOne(events[..|events| - 1], session);
    }
  }

  /** A session's stop is announced at most once, with the reason of the one close that won, and only once its row has ended. */
  lemma StoppedAtMostOnce(actions: seq<Action>, s: int)
    requires Legal(BOOT, actions) && NoDeletes(actions)
    ensures var d := Run(BOOT, actions);
            && StopsOf(d.events, s) <= 1
            && (forall i :: 0 <= i < |d.events| && d.events[i].SessionStopped? && d.events[i].session == s ==>
                  Ended(d, s) && s in d.winners && d.events[i].reason == d.winners[s])
  {
    RunKeeps(BOOT, actions);
    AtMostOne(Run(BOOT, actions).events, s);
  }

  /** How often a row is inserted under an id. */
  function Insertions(d: Daemon, actions: seq<Action>, s: int): nat
    requires Legal(d, actions)
    decreases |actions|
  {
    if actions == [] then 0
    else Inserts(d, actions[0], s) + Insertions(After(d, actions[0]), actions[1..], s)
  }

  function Inserts(d: Daemon, action: Action, s: int): nat {
    if action.StartInsert? && action.session == s && !NameInUse(d.rows, TmuxName(action.task)) then 1 else 0
  }

  ghost function WonFor(d: Daemon, s: int): set<int> {
    set p | p in d.procs && d.procs[p].Won? && d.procs[p].session == s
  }

  /** Stops announced, closes won and still to be announced, and a row that may yet be closed. */
  ghost function StopsDue(d: Daemon, s: int): nat {
    StopsOf(d.events, s) + |WonFor(d, s)| + if Live(d.rows, s) then 1 else 0
  }

  lemma {:induction false} StopsConcat(events: seq<ForgeEvent>, more: seq<ForgeEvent>, s: int)
    ensures StopsOf(events + more, s) == StopsOf(events, s) + StopsOf(more, s)
  {
    if more == [] {
      assert events + more == events;
    } else {
      StopsConcat(events, more[..|more| - 1], s);
      assert (events + more)[..|events + more| - 1] == events + more[..|more| - 1];
    }
  }

  lemma {:induction false} NoStops(events: seq<ForgeEvent>, s: int)
    requires forall i :: 0 <= i < |events| ==> !events[i].SessionStopped?
    ensures StopsOf(events, s) == 0
  {
    if events == [] {
    } else {
      NoStops(events[..|events| - 1], s);
    }
  }

  /** What a step announces of stops. */
  lemma StopsAfter(d: Daemon, action: Action, s: int)
    requires Enabled(d, action)
    ensures StopsOf(After(d, action).events, s)
         == StopsOf(d.events, s) + if action.AnnounceStop? && d.procs[action.proc].session == s then 1 else 0
  {
    StopsAdded(d, action);
    var d' := After(d, action);
    var more := d'.events[|d.events|..];
    assert d'.events == d.events + more;
    StopsConcat(d.events, more, s);
    if action.AnnounceStop? {
      var p := d.procs[action.proc];
      assert more == [SessionStopped(p.task, p.session, p.reason)];
      assert more[..0] == [];
    } else {
      NoStops(more, s);
    }
  }

  lemma WonAfter(d: Daemon, action: Action, s: int)
    requires Enabled(d, action)
    ensures var was, now := WonFor(d, s), WonFor(After(d, action), s);
            if action.AnnounceStop? && d.procs[action.proc].session == s then |now| == |was| - 1
            else if action.Close? && d.procs[action.proc].session == s && Live(d.rows, s) then |now| <= |was| + 1
            else |now| <= |was|
  {
    var was, now := WonFor(d, s), WonFor(After(d, action), s);
    forall p | p in now ensures p in was || (action.Close? && action.proc == p && d.procs[p].session == s && Live(d.rows, s)) {
      WonFrom(d, action, p);
    }
    if action.AnnounceStop? {
      assert now == was - {action.proc};
    } else if action.Close? {
      assert now <= was + {action.proc};
      Smaller(now, was + {action.proc});
      if !(d.procs[action.proc].session == s && Live(d.rows, s)) {
        Smaller(now, was);
      }
    } else {
      Smaller(now, was);
    }
  }

  lemma {:induction false} Smaller(a: set<int>, b: set<int>)
    requires a <= b
    ensures |a| <= |b|
  {
    assert b == a + (b - a);
  }

  lemma LiveAfter(d: Daemon, action: Action, s: int)
    requires Enabled(d, action)
    ensures Live(After(d, action).rows, s) ==> Live(d.rows, s) || Inserts(d, action, s) == 1
    ensures Inserts(d, action, s) == 1 ==> !Live(d.rows, s)
    ensures action.Close? && d.procs[action.proc].session == s ==> !Live(After(d, action).rows, s)
  {
    if !action.StartInsert? {
      StepNarrows(d, action);
    }
  }

  lemma StepDue(d: Daemon, action: Action, s: int)
    requires Enabled(d, action)
    ensures StopsDue(After(d, action), s) <= StopsDue(d, s) + Inserts(d, action, s)
  {
    StopsAfter(d, action, s);
    WonAfter(d, action, s);
    LiveAfter(d, action, s);
  }

  lemma {:induction false} RunDue(d: Daemon, actions: seq<Action>, s: int)
    requires Legal(d, actions)
    ensures StopsDue(Run(d, actions), s) <= StopsDue(d, s) + Insertions(d, actions, s)
    decreases |actions|
  {
    if actions == [] {
    } else {
      StepDue(d, actions[0], s);
      RunDue(After(d, actions[0]), actions[1..], s);
    }
  }

  /** On every run, deletions and all: a session id is announced stopped no more often than a row was inserted under it, and one still live has its own stop to come. */
  lemma StopsNeverOutrunStarts(actions: seq<Action>, s: int)
    requires Legal(BOOT, actions)
    ensures var d := Run(BOOT, actions);
            StopsOf(d.events, s) + (if Live(d.rows, s) then 1 else 0) <= Insertions(BOOT, actions, s)
  {
    RunDue(BOOT, actions, s);
    assert WonFor(BOOT, s) == {};
  }

  /** The stop of the session has been announced, or is about to be. */
  ghost predicate ToldOrTelling(d: Daemon, s: int) {
    || (exists i :: 0 <= i < |d.events| && d.events[i].SessionStopped? && d.events[i].session == s)
    || (exists p :: p in d.procs && d.procs[p].Won? && d.procs[p].session == s)
  }

  lemma WonStays(d: Daemon, action: Action, p: int)
    requires Enabled(d, action) && !action.Crash? && p in d.procs && d.procs[p].Won?
    ensures ToldOrTelling(After(d, action), d.procs[p].session)
  {
    var d' := After(d, action);
    if action == AnnounceStop(p) {
      StopsAdded(d, action);
      var last := d'.events[|d.events|];
      assert last.SessionStopped? && last.session == d.procs[p].session;
    } else {
      assert p in d'.procs && d'.procs[p] == d.procs[p];
    }
  }

  lemma OnlyClosesWin(d: Daemon, action: Action, s: int)
    requires Enabled(d, action) && s in After(d, action).winners && s !in d.winners
    ensures action.Close? && After(d, action).procs[action.proc].Won? && After(d, action).procs[action.proc].session == s
  {
  }

  lemma StepTells(d: Daemon, action: Action, s: int)
    requires Enabled(d, action) && !action.Crash? && (s in d.winners ==> ToldOrTelling(d, s)) && s in After(d, action).winners
    ensures ToldOrTelling(After(d, action), s)
  {
    var d' := After(d, action);
    if s in d.winners {
      StopsAdded(d, action);
      if i :| 0 <= i < |d.events| && d.events[i].SessionStopped? && d.events[i].session == s {
        assert d'.events[i] == d.events[i];
      } else {
        var p :| p in d.procs && d.procs[p].Won? && d.procs[p].session == s;
        WonStays(d, action, p);
      }
    } else {
      OnlyClosesWin(d, action, s);
    }
  }

  predicate NoCrash(actions: seq<Action>) {
    forall i :: 0 <= i < |actions| ==> !actions[i].Crash?
  }

  lemma {:induction false} RunTells(d: Daemon, actions: seq<Action>, s: int)
    requires Legal(d, actions) && NoCrash(actions) && (s in d.winners ==> ToldOrTelling(d, s))
    ensures s in Run(d, actions).winners ==> ToldOrTelling(Run(d, actions), s)
    decreases |actions|
  {
    if actions == [] {
    } else {
      if s in After(d, actions[0]).winners {
        StepTells(d, actions[0], s);
      }
      RunTells(After(d, actions[0]), actions[1..], s);
    }
  }

  /** Unless the daemon crashes in between, every close that won is announced, or still about to be. */
  lemma EveryWinIsTold(actions: seq<Action>, s: int)
    requires Legal(BOOT, actions) && NoCrash(actions)
    ensures var d := Run(BOOT, actions); s in d.winners ==> ToldOrTelling(d, s)
  {
    RunTells(BOOT, actions, s);
  }

  // ---- where the promise is weaker than it reads ----

  lemma RunCons(d: Daemon, action: Action, rest: seq<Action>)
    requires Enabled(d, action) && Legal(After(d, action), rest)
    ensures Legal(d, [action] + rest) && Run(d, [action] + rest) == Run(After(d, action), rest)
  {
    assert ([action] + rest)[1..] == rest;
  }

  lemma RunUncons(d: Daemon, a: seq<Action>, b: seq<Action>)
    requires a != [] && Legal(d, a)
    ensures Enabled(d, a[0]) && Legal(After(d, a[0]), a[1..]) && Run(d, a) == Run(After(d, a[0]), a[1..])
    ensures a + b == [a[0]] + (a[1..] + b)
  {
  }

  lemma {:induction false} RunConcat(d: Daemon, a: seq<Action>, b: seq<Action>)
    requires Legal(d, a) && Legal(Run(d, a), b)
    ensures Legal(d, a + b) && Run(d, a + b) == Run(Run(d, a), b)
    decreases |a|
  {
    if a == [] {
      assert a + b == b;
    } else {
      RunUncons(d, a, b);
      RunConcat(After(d, a[0]), a[1..], b);
      RunCons(d, a[0], a[1..] + b);
    }
  }

  /** A session with id 1 is started for `task`, */
  function Birth(task: int): seq<Action> {
    [StartInsert(1, 1, task)] + ([CreateOk(1, None)] + ([AnnounceStart(1)] + []))
  }

  /** and stopped. */
  function Death(): seq<Action> {
    [StopAsked(1, 1)] + ([Close(1, 0)] + ([AnnounceStop(1)] + []))
  }

  function Life(task: int): seq<Action> {
    Birth(task) + Death()
  }

  lemma BirthRuns(d: Daemon, task: int)
    requires d.rows == map[] && d.procs == map[] && TmuxName(task) !in d.running
    ensures Legal(d, Birth(task))
    ensures var d' := Run(d, Birth(task));
            && d'.procs == map[] && d'.rows == map[1 := NewRow(task)] && d'.running == d.running + {TmuxName(task)}
            && d'.events == d.events + [SessionStarted(task, 1, TmuxName(task))]
  {
    var d1 := After(d, StartInsert(1, 1, task));
    var d2 := After(d1, CreateOk(1, None));
    assert d2.rows == map[1 := NewRow(task)];
    var d3 := After(d2, AnnounceStart(1));
    assert d3.procs == map[];
    RunCons(d2, AnnounceStart(1), []);
    RunCons(d1, CreateOk(1, None), [AnnounceStart(1)] + []);
    RunCons(d, StartInsert(1, 1, task), [CreateOk(1, None)] + ([AnnounceStart(1)] + []));
  }

  lemma DeathRuns(d: Daemon, task: int)
    requires d.procs == map[] && d.rows == map[1 := NewRow(task)]
    ensures Legal(d, Death())
    ensures var d' := Run(d, Death());
            && d'.procs == map[] && d'.rows == map[1 := NewRow(task).(status := Stopped, ended := Some(0))]
            && d'.running == d.running
            && d'.events == d.events + [SessionStopped(task, 1, Requested)]
  {
    var d1 := After(d, StopAsked(1, 1));
    var d2 := After(d1, Close(1, 0));
    var d3 := After(d2, AnnounceStop(1));
    assert d3.procs == map[];
    RunCons(d2, AnnounceStop(1), []);
    RunCons(d1, Close(1, 0), [AnnounceStop(1)] + []);
    RunCons(d, StopAsked(1, 1), [Close(1, 0)] + ([AnnounceStop(1)] + []));
  }

  lemma LifeRuns(d: Daemon, task: int)
    requires d.rows == map[] && d.procs == map[] && TmuxName(task) !in d.running
    ensures Legal(d, Life(task))
    ensures var d' := Run(d, Life(task));
            && d'.procs == map[] && d'.rows == map[1 := NewRow(task).(status := Stopped, ended := Some(0))]
            && d'.running == d.running + {TmuxName(task)}
            && d'.events == d.events + [SessionStarted(task, 1, TmuxName(task)), SessionStopped(task, 1, Requested)]
  {
    BirthRuns(d, task);
    DeathRuns(Run(d, Birth(task)), task);
    RunConcat(d, Birth(task), Death());
  }

  /** Some run, with or without tasks being deleted, announces one session id as stopped more than once. */
  ghost predicate CanStopTwice(deleting: bool) {
    exists actions, s :: StopsTwice(deleting, actions, s)
  }

  ghost predicate StopsTwice(deleting: bool, actions: seq<Action>, s: int) {
    Legal(BOOT, actions) && (deleting || NoDeletes(actions)) && StopsOf(Run(BOOT, actions).events, s) > 1
  }

  lemma StopsSnoc(events: seq<ForgeEvent>, event: ForgeEvent, s: int)
    ensures StopsOf(events + [event], s) == StopsOf(events, s) + if event.SessionStopped? && event.session == s then 1 else 0
  {
    assert (events + [event])[..|events|] == events;
  }

  lemma LifeStopsOnce(events: seq<ForgeEvent>, task: int)
    ensures StopsOf(events + [SessionStarted(task, 1, TmuxName(task)), SessionStopped(task, 1, Requested)], 1)
         == StopsOf(events, 1) + 1
  {
    var started, stopped := SessionStarted(task, 1, TmuxName(task)), SessionStopped(task, 1, Requested);
    StopsSnoc(events, started, 1);
    StopsSnoc(events + [started], stopped, 1);
    assert events + [started, stopped] == (events + [started]) + [stopped];
  }

  lemma AnotherLife(d: Daemon)
    requires d.procs == map[] && TmuxName(6) !in d.running && d.rows == map[1 := NewRow(5).(status := Stopped, ended := Some(0))]
    ensures Legal(d, [DeleteTask(5)] + Life(6))
    ensures StopsOf(Run(d, [DeleteTask(5)] + Life(6)).events, 1) == StopsOf(d.events, 1) + 1
  {
    var d' := After(d, DeleteTask(5));
    assert d'.rows == map[];
    LifeRuns(d', 6);
    LifeStopsOnce(d.events, 6);
    RunCons(d, DeleteTask(5), Life(6));
  }

  lemma DeletingReusesIds()
    ensures CanStopTwice(true)
  {
    LifeRuns(BOOT, 5);
    LifeStopsOnce(BOOT.events, 5);
    var d := Run(BOOT, Life(5));
    assert StopsOf(d.events, 1) == 1;
    if TmuxName(6) == TmuxName(5) {
      NameInjective(6, 5);
    }
    AnotherLife(d);
    RunConcat(BOOT, Life(5), [DeleteTask(5)] + Life(6));
    assert StopsTwice(true, Life(5) + ([DeleteTask(5)] + Life(6)), 1);
  }

  /**
   "Only one of them announces it" holds per row. Row ids are not: once a task
   is deleted with its rows, the table hands the freed id out again, and that is
   the only way a session id is ever announced stopped twice.
   */
  lemma StopsTwiceIffDeleting(deleting: bool)
    ensures CanStopTwice(deleting) <==> deleting
  {
    if CanStopTwice(deleting) {
      var actions, s :| StopsTwice(deleting, actions, s);
      assert StopsTwice(deleting, actions, s);
      if !deleting {
        StoppedAtMostOnce(actions, s);
      }
    }
    if deleting {
      DeletingReusesIds();
    }
  }
}
