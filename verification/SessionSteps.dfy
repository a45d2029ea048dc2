/** The operations as they are written are what the step system does when nobody disturbs them. */
module SessionSteps {
  import opened Options
  import opened Events
  import opened SessionStore
  import opened Sessions
  import opened Poller
  import Manager = SessionManager

  /** These steps, one after the other, lead there. */
  ghost predicate Leads(d: Daemon, actions: seq<Action>, d': Daemon) {
    Legal(d, actions) && Run(d, actions) == d'
  }

  lemma First(d: Daemon, action: Action, rest: seq<Action>, d': Daemon)
    requires Enabled(d, action) && Leads(After(d, action), rest, d')
    ensures Leads(d, [action] + rest, d')
  {
    RunCons(d, action, rest);
  }

  lemma None(d: Daemon)
    ensures Leads(d, [], d)
  {
  }

  /** The rows, the log and what is under way agree; nothing else has changed. */
  predicate Shows(d: Daemon, b: Manager.Book) {
    d.rows == b.rows && d.events == b.events
  }

  lemma Grouped(a: seq<ForgeEvent>, b: seq<ForgeEvent>, c: seq<ForgeEvent>)
    ensures (a + b) + c == a + (b + c)
  {
  }

  lemma ChangeInSteps(d: Daemon, p: int, id: int, o: Outcome, tail: string) returns (actions: seq<Action>, d': Daemon)
    requires p !in d.procs && id in d.rows && !o.processEnded && o.changedFrom.Some?
    ensures Leads(d, actions, d') && d'.procs == d.procs && d'.running == d.running
    ensures d'.rows == StatusSet(d.rows, id, o.status) && d'.events == d.events + ChangeEvents(d.rows[id].task, id, o, tail)
  {
    var d1 := After(d, Observe(p, id, o));
    var d2 := After(d1, WriteStatus(p));
    var d3 := After(d2, AnnounceChange(p));
    d' := After(d3, AnnounceDetail(p, tail));
    var task := d.rows[id].task;
    Grouped(d.events, [StatusChanged(task, id, o.changedFrom.value, o.status)], DetailEvents(task, id, o, tail));
    assert d'.procs == d.procs;
    None(d');
    First(d3, AnnounceDetail(p, tail), [], d');
    First(d2, AnnounceChange(p), [AnnounceDetail(p, tail)] + [], d');
    First(d1, WriteStatus(p), [AnnounceChange(p)] + ([AnnounceDetail(p, tail)] + []), d');
    actions := [Observe(p, id, o)] + ([WriteStatus(p)] + ([AnnounceChange(p)] + ([AnnounceDetail(p, tail)] + [])));
    First(d, Observe(p, id, o), [WriteStatus(p)] + ([AnnounceChange(p)] + ([AnnounceDetail(p, tail)] + [])), d');
  }

  /** Closing a row, and saying so if it was still live. */
  lemma CloseInSteps(d: Daemon, p: int, now: int) returns (actions: seq<Action>, d': Daemon)
    requires p in d.procs && d.procs[p].Closing?
    ensures var q := d.procs[p];
            && Leads(d, actions, d') && d'.running == d.running && d'.rows == Closed(d.rows, q.session, q.status, now)
            && d'.procs == (if q.ending.Some? then d.procs[p := Reporting(q.session, q.task, q.ending.value)] else d.procs - {p})
            && d'.events == d.events + if Live(d.rows, q.session) then [SessionStopped(q.task, q.session, q.reason)] else []
  {
    var q := d.procs[p];
    var d1 := After(d, Close(p, now));
    if Live(d.rows, q.session) {
      d' := After(d1, AnnounceStop(p));
      None(d');
      First(d1, AnnounceStop(p), [], d');
      actions := [Close(p, now)] + ([AnnounceStop(p)] + []);
      First(d, Close(p, now), [AnnounceStop(p)] + [], d');
    } else {
      d' := d1;
      None(d');
      actions := [Close(p, now)] + [];
      First(d, Close(p, now), [], d');
    }
  }

  lemma EndingInSteps(d: Daemon, p: int, id: int, o: Outcome, now: int) returns (actions: seq<Action>, d': Daemon)
    requires p !in d.procs && id in d.rows && o.processEnded
    ensures Leads(d, actions, d') && d'.procs == d.procs && d'.running == d.running
    ensures d'.rows == Closed(d.rows, id, o.status, now)
    ensures var task := d.rows[id].task;
            d'.events == d.events + (if Live(d.rows, id) then [SessionStopped(task, id, Exited)] else []) + EndingEvents(task, id, o)
  {
    var d1 := After(d, Observe(p, id, o));
    var closing, d2 := CloseInSteps(d1, p, now);
    d' := After(d2, Report(p));
    assert d'.procs == d.procs;
    None(d');
    First(d2, Report(p), [], d');
    RunConcat(d1, closing, [Report(p)] + []);
    actions := [Observe(p, id, o)] + (closing + ([Report(p)] + []));
    First(d, Observe(p, id, o), closing + ([Report(p)] + []), d');
  }

  /** Asked to stop, a session ends as stopped, at its user's request. */
  lemma StopInSteps(d: Daemon, b: Manager.Book, p: int, id: int, now: int) returns (actions: seq<Action>, d': Daemon)
    requires Shows(d, b) && p !in d.procs && Live(d.rows, id)
    ensures Leads(d, actions, d') && Shows(d', Manager.ClosedAs(b, id, Stopped, Requested, now))
    ensures d'.procs == d.procs && d'.running == d.running
  {
    var d1 := After(d, StopAsked(p, id));
    var closing;
    closing, d' := CloseInSteps(d1, p, now);
    assert d'.procs == d.procs;
    actions := [StopAsked(p, id)] + closing;
    First(d, StopAsked(p, id), closing, d');
  }

  /** A start that tmux takes up is announced, with its pid; one that it refuses is closed as an error, and nothing is said of it. */
  lemma StartInSteps(d: Daemon, p: int, id: int, task: int, pid: Option<int>, now: int)
    requires p !in d.procs && id !in d.rows && !NameInUse(d.rows, TmuxName(task)) && TmuxName(task) !in d.running
    ensures var row := SessionRow(task, TmuxName(task), Option<int>.None, Idle, Option<int>.None);
            && Leads(d, [StartInsert(p, id, task)] + ([CreateOk(p, pid)] + ([AnnounceStart(p)] + [])),
                     d.(rows := d.rows[id := row.(pid := pid)], running := d.running + {TmuxName(task)},
                        events := d.events + [SessionStarted(task, id, TmuxName(task))]))
            && Leads(d, [StartInsert(p, id, task)] + ([CreateFailed(p, now)] + []),
                     d.(rows := d.rows[id := row.(status := Error, ended := Some(now))]))
  {
    var d1 := After(d, StartInsert(p, id, task));
    var d2 := After(d1, CreateOk(p, pid));
    var d3 := After(d2, AnnounceStart(p));
    assert d3.procs == d.procs;
    None(d3);
    First(d2, AnnounceStart(p), [], d3);
    First(d1, CreateOk(p, pid), [AnnounceStart(p)] + [], d3);
    First(d, StartInsert(p, id, task), [CreateOk(p, pid)] + ([AnnounceStart(p)] + []), d3);
    var failed := After(d1, CreateFailed(p, now));
    assert failed.procs == d.procs;
    None(failed);
    First(d1, CreateFailed(p, now), [], failed);
    First(d, StartInsert(p, id, task), [CreateFailed(p, now)] + [], failed);
  }

  /** One reading of a session, step by step with nobody else about, leaves the rows and says what the reading as written does. */
  lemma ReadingInSteps(d: Daemon, b: Manager.Book, p: int, id: int, look: Look, tail: string, now: int)
    returns (actions: seq<Action>, d': Daemon)
    requires Shows(d, b) && p !in d.procs && id in d.rows
    ensures Leads(d, actions, d') && Shows(d', Manager.ReadOne(b, id, look, tail, now))
    ensures d'.procs == d.procs && d'.running == d.running
  {
    var o := Examined(Manager.BeliefIn(b, id), look).1;
    if o.processEnded {
      actions, d' := EndingInSteps(d, p, id, o, now);
      assert d.events + [] == d.events;
    } else if o.changedFrom.Some? {
      actions, d' := ChangeInSteps(d, p, id, o, tail);
    } else {
      d' := d;
      None(d);
      First(d, Observe(p, id, o), [], d);
      actions := [Observe(p, id, o)] + [];
    }
  }

  /** Comparing one row with what tmux listed, likewise. */
  lemma ComparingInSteps(
      d: Daemon, b: Manager.Book, p: int, closer: int, names: set<string>, left: seq<int>, pids: map<int, Option<int>>, now: int)
    returns (actions: seq<Action>, d': Daemon)
    requires Shows(d, b) && p in d.procs && d.procs[p] == Checking(names, left) && left != [] && closer !in d.procs
    requires left[0] in d.rows && left[0] in pids
    ensures Leads(d, actions, d') && Shows(d', Manager.Compared(b, left[0], names, pids, now))
    ensures d'.procs == StillToCompare(d.procs, p, names, left[1..]) && d'.running == d.running
  {
    var id, check := left[0], CheckNext(p, closer, pids[left[0]]);
    var d1 := After(d, check);
    if d.rows[id].name in names {
      d' := d1;
      None(d');
      actions := [check] + [];
      First(d, check, [], d');
    } else {
      var closing;
      closing, d' := CloseInSteps(d1, closer, now);
      assert d'.procs == StillToCompare(d.procs, p, names, left[1..]);
      assert d.events + [] == d.events;
      actions := [check] + closing;
      First(d, check, closing, d');
    }
  }
}
