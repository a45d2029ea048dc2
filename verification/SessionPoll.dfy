/**
 What a session's own events say, one after the other, when its polls, its
 comparisons with tmux and its ending follow one another, and the daemon may
 restart between any two of them and forget what it believed.
 */
module SessionPoll {
  import opened Options
  import opened Events
  import opened SessionStore
  import opened Tracker
  import opened Poller
  import opened SessionManager
  import Sessions

  datatype Action =
    | Begin(id: int, task: int)
    | Read(id: int, look: Look, tail: string, now: int)
    | Compare(id: int, names: set<string>, pids: map<int, Option<int>>, now: int)
    | Stop(id: int, now: int)
    | Restart

  ghost predicate Enabled(b: Book, action: Action) {
    match action
    case Begin(id, task) => id !in b.rows && !NameInUse(b.rows, TmuxName(task))
    case Read(id, _, _, _) => Live(b.rows, id)
    case Compare(id, _, _, _) => Live(b.rows, id)
    case Stop(id, _) => Live(b.rows, id)
    case Restart => true
  }

  function After(b: Book, action: Action): Book
    requires Enabled(b, action)
  {
    match action
    case Begin(id, task) =>
      b.(rows := b.rows[id := NewRow(task)], events := b.events + [SessionStarted(task, id, TmuxName(task))])
    case Read(id, look, tail, now) => ReadOne(b, id, look, tail, now)
    case Compare(id, names, pids, now) => Compared(b, id, names, pids, now)
    case Stop(id, now) => ClosedAs(b, id, Stopped, Requested, now)
    case Restart => b.(trackers := map[])
  }

  ghost predicate Legal(b: Book, actions: seq<Action>)
    decreases |actions|, 0
  {
    actions == [] ||
    (Legal(b, actions[..|actions| - 1]) && Enabled(Run(b, actions[..|actions| - 1]), actions[|actions| - 1]))
  }

  ghost function Run(b: Book, actions: seq<Action>): Book
    requires Legal(b, actions)
    decreases |actions|, 1
  {
    if actions == [] then b else After(Run(b, actions[..|actions| - 1]), actions[|actions| - 1])
  }

  // ---- one session's events ----

  function Mine(events: seq<ForgeEvent>, id: int): seq<ForgeEvent> {
    if events == [] then []
    else
      var last := events[|events| - 1];
      Mine(events[..|events| - 1], id) + (if last.SessionId() == Some(id) then [last] else [])
  }

  /** The status a reader of these events would hold: a session begins idle. */
  function LastTold(mine: seq<ForgeEvent>): AgentStatus {
    if mine == [] then Idle
    else if mine[|mine| - 1].StatusChanged? then mine[|mine| - 1].to
    else LastTold(mine[..|mine| - 1])
  }

  /** Adding `e` to these events tells a change only from what was last told, and a question only right after a change into waiting. */
  ghost predicate Follows(mine: seq<ForgeEvent>, e: ForgeEvent) {
    && (e.StatusChanged? ==> e.from == LastTold(mine) != e.to)
    && (e.AgentWaiting? <==> AsksNext(mine))
  }

  /** The last of these events is a change into waiting. */
  predicate AsksNext(mine: seq<ForgeEvent>) {
    mine != [] && mine[|mine| - 1].StatusChanged? && mine[|mine| - 1].to == Waiting
  }

  ghost predicate Story(mine: seq<ForgeEvent>) {
    mine == [] || (Story(mine[..|mine| - 1]) && Follows(mine[..|mine| - 1], mine[|mine| - 1]))
  }

  /** The row says what was last told, unless it ended by being stopped or by vanishing. */
  ghost predicate RowIsTold(row: SessionRow, mine: seq<ForgeEvent>) {
    || LastTold(mine) == row.status
    || (row.ended.Some? && mine != [] && mine[|mine| - 1].SessionStopped? && mine[|mine| - 1].reason != Exited)
  }

  ghost predicate Inv(b: Book, id: int) {
    var mine := Mine(b.events, id);
    && Told(mine)
    && (id !in b.rows ==> mine == [] && id !in b.trackers)
    && (id in b.rows ==> RowIsTold(b.rows[id], mine))
    && (id in b.trackers ==> Live(b.rows, id) && b.trackers[id].status == b.rows[id].status)
  }

  lemma {:induction false} MineConcat(events: seq<ForgeEvent>, more: seq<ForgeEvent>, id: int)
    ensures Mine(events + more, id) == Mine(events, id) + Mine(more, id)
  {
    if more == [] {
      assert events + more == events;
    } else {
      MineConcat(events, more[..|more| - 1], id);
      assert (events + more)[..|events + more| - 1] == events + more[..|more| - 1];
    }
  }

  lemma {:induction false} MineAll(events: seq<ForgeEvent>, id: int)
    requires forall i :: 0 <= i < |events| ==> events[i].SessionId() == Some(id)
    ensures Mine(events, id) == events
  {
    if events == [] {
    } else {
      MineAll(events[..|events| - 1], id);
    }
  }

  lemma {:induction false} MineNone(events: seq<ForgeEvent>, id: int)
    requires forall i :: 0 <= i < |events| ==> events[i].SessionId() != Some(id)
    ensures Mine(events, id) == []
  {
    if events == [] {
    } else {
      MineNone(events[..|events| - 1], id);
    }
  }

  // ---- adding to a session's events ----

  /** A story with no question left half announced. */
  ghost predicate Told(mine: seq<ForgeEvent>) {
    Story(mine) && !AsksNext(mine)
  }

  lemma TellOne(mine: seq<ForgeEvent>, e: ForgeEvent)
    requires Story(mine) && Follows(mine, e)
    ensures Story(mine + [e])
    ensures LastTold(mine + [e]) == if e.StatusChanged? then e.to else LastTold(mine)
    ensures AsksNext(mine + [e]) <==> e.StatusChanged? && e.to == Waiting
  {
    assert (mine + [e])[..|mine|] == mine;
  }

  lemma TellAtMostOne(mine: seq<ForgeEvent>, more: seq<ForgeEvent>)
    requires Story(mine) && |more| <= 1 && (more != [] ==> Follows(mine, more[0]))
    ensures Story(mine + more)
    ensures LastTold(mine + more) == if more != [] && more[0].StatusChanged? then more[0].to else LastTold(mine)
    ensures AsksNext(mine + more) <==> if more == [] then AsksNext(mine) else more[0].StatusChanged? && more[0].to == Waiting
  {
    if more == [] {
      assert mine + more == mine;
    } else {
      assert more == [more[0]];
      TellOne(mine, more[0]);
    }
  }

  // ---- what one step adds ----

  lemma Untouched(b: Book, b': Book, more: seq<ForgeEvent>, id: int)
    requires Inv(b, id) && b'.events == b.events + more
    requires forall i :: 0 <= i < |more| ==> more[i].SessionId() != Some(id)
    requires id in b'.rows <==> id in b.rows
    requires id in b.rows ==> b'.rows[id].status == b.rows[id].status && b'.rows[id].ended == b.rows[id].ended
    requires id in b'.trackers ==> id in b.trackers && b'.trackers[id] == b.trackers[id]
    ensures Inv(b', id)
  {
    MineConcat(b.events, more, id);
    MineNone(more, id);
    assert Mine(b'.events, id) == Mine(b.events, id);
  }

  /** A change the tracker reports is one from the status it held, and it is a question exactly when it is into waiting. */
  lemma ReadSettles(b: Belief, look: Look)
    ensures var (b', o) := Examined(b, look);
            && o.status == b'.status && o.changedFrom == (if b'.status == b.status then None else Some(b.status))
            && (o.enteredWaiting <==> b'.status == Waiting != b.status)
            && (o.processEnded <==> look.Gone?) && (o.processEnded ==> o.status != Waiting)
  {
  }

  /** What is announced of a session still running leaves the reader with the status it now has. */
  lemma TellChanged(mine: seq<ForgeEvent>, task: int, id: int, o: Outcome, tail: string)
    requires Told(mine) && o.changedFrom == Some(LastTold(mine)) && o.status != LastTold(mine)
    requires o.enteredWaiting <==> o.status == Waiting
    ensures var said := mine + Sessions.ChangeEvents(task, id, o, tail); Told(said) && LastTold(said) == o.status
  {
    var more := Sessions.ChangeEvents(task, id, o, tail);
    var said := mine + [more[0]];
    TellOne(mine, more[0]);
    if |more| > 1 {
      TellOne(said, more[1]);
      assert mine + more == said + [more[1]];
    } else {
      assert mine + more == said;
    }
  }

  lemma TellEnded(mine: seq<ForgeEvent>, task: int, id: int, o: Outcome)
    requires Told(mine) && o.status != Waiting
    requires o.changedFrom == if o.status == LastTold(mine) then None else Some(LastTold(mine))
    ensures var said := mine + ([SessionStopped(task, id, Exited)] + Sessions.EndingEvents(task, id, o));
            Told(said) && LastTold(said) == o.status
  {
    var stopped, ending := SessionStopped(task, id, Exited), Sessions.EndingEvents(task, id, o);
    var changed := if o.changedFrom.Some? then [StatusChanged(task, id, o.changedFrom.value, o.status)] else [];
    var last := ending[|changed|..];
    assert mine + ([stopped] + ending) == ((mine + [stopped]) + changed) + last;
    TellOne(mine, stopped);
    TellAtMostOne(mine + [stopped], changed);
    TellAtMostOne((mine + [stopped]) + changed, last);
  }

  /** Everything one reading announces. */
  function ReadEvents(task: int, id: int, o: Outcome, tail: string): seq<ForgeEvent> {
    if o.processEnded then [SessionStopped(task, id, Exited)] + Sessions.EndingEvents(task, id, o)
    else Sessions.ChangeEvents(task, id, o, tail)
  }

  lemma ReadEventsAreMine(task: int, id: int, o: Outcome, tail: string)
    ensures var more := ReadEvents(task, id, o, tail); forall i :: 0 <= i < |more| ==> more[i].SessionId() == Some(id)
  {
  }

  lemma ReadAdds(b: Book, id: int, look: Look, tail: string, now: int)
    requires Live(b.rows, id)
    ensures var b' := ReadOne(b, id, look, tail, now);
            var (belief, o) := Examined(BeliefIn(b, id), look);
            var row := b.rows[id];
            && b'.events == b.events + ReadEvents(row.task, id, o, tail)
            && b'.rows == b.rows[id := if o.processEnded then row.(status := o.status, ended := Some(now))
                                      else if o.changedFrom.Some? then row.(status := o.status) else row]
            && b'.trackers == if o.processEnded then b.trackers - {id} else b.trackers[id := belief]
  {
    var o := Examined(BeliefIn(b, id), look).1;
    if !o.processEnded && o.changedFrom.None? {
      assert b.events + [] == b.events;
    }
  }

  lemma ReadKeeps(b: Book, id: int, look: Look, tail: string, now: int)
    requires Inv(b, id) && Live(b.rows, id)
    ensures Inv(ReadOne(b, id, look, tail, now), id)
  {
    var mine, task := Mine(b.events, id), b.rows[id].task;
    var o := Examined(BeliefIn(b, id), look).1;
    ReadSettles(BeliefIn(b, id), look);
    ReadAdds(b, id, look, tail, now);
    var more := ReadEvents(task, id, o, tail);
    MineConcat(b.events, more, id);
    ReadEventsAreMine(task, id, o, tail);
    MineAll(more, id);
    if o.processEnded {
      TellEnded(mine, task, id, o);
    } else if o.changedFrom.Some? {
      TellChanged(mine, task, id, o, tail);
    } else {
      assert mine + more == mine;
    }
  }

  lemma ClosedKeeps(b: Book, id: int, reason: StopReason, now: int)
    requires Inv(b, id) && Live(b.rows, id) && reason != Exited
    ensures Inv(ClosedAs(b, id, Stopped, reason, now), id)
  {
    var stopped := SessionStopped(b.rows[id].task, id, reason);
    MineConcat(b.events, [stopped], id);
    MineAll([stopped], id);
    TellOne(Mine(b.events, id), stopped);
  }

  lemma StartTold(started: ForgeEvent)
    requires started.SessionStarted?
    ensures Told([started]) && LastTold([started]) == Idle
  {
    TellOne([], started);
    assert [] + [started] == [started];
  }

  lemma BeginKeeps(b: Book, id: int, started: ForgeEvent, row: SessionRow)
    requires Inv(b, id) && id !in b.rows && row.status == Idle && row.ended.None?
    requires started.SessionStarted? && started.session == id
    ensures Inv(b.(rows := b.rows[id := row], events := b.events + [started]), id)
  {
    MineConcat(b.events, [started], id);
    MineAll([started], id);
    assert Mine(b.events + [started], id) == [started];
    StartTold(started);
  }

  lemma OthersUntouched(b: Book, action: Action, id: int)
    requires Enabled(b, action) && !action.Restart? && action.id != id && Inv(b, id)
    ensures Inv(After(b, action), id)
  {
    var b' := After(b, action);
    match action
    case Begin(it, task) => Untouched(b, b', [SessionStarted(task, it, TmuxName(task))], id);
    case Read(it, look, tail, now) =>
      ReadAdds(b, it, look, tail, now);
      var o := Examined(BeliefIn(b, it), look).1;
      ReadEventsAreMine(b.rows[it].task, it, o, tail);
      Untouched(b, b', ReadEvents(b.rows[it].task, it, o, tail), id);
    case Stop(it, now) => ClosedTouchesOne(b, it, Requested, now, id);
    case Compare(it, names, pids, now) =>
      if b.rows[it].name in names {
        assert b.events + [] == b.events;
        Untouched(b, b', [], id);
      } else {
        ClosedTouchesOne(b, it, Vanished, now, id);
      }
  }

  lemma ClosedTouchesOne(b: Book, it: int, reason: StopReason, now: int, id: int)
    requires it != id && Live(b.rows, it) && Inv(b, id)
    ensures Inv(ClosedAs(b, it, Stopped, reason, now), id)
  {
    Untouched(b, ClosedAs(b, it, Stopped, reason, now), [SessionStopped(b.rows[it].task, it, reason)], id);
  }

  lemma StepKeeps(b: Book, action: Action, id: int)
    requires Enabled(b, action) && Inv(b, id)
    ensures Inv(After(b, action), id)
  {
    if action.Restart? {
      assert b.events + [] == b.events;
      Untouched(b, After(b, action), [], id);
    } else if action.id != id {
      OthersUntouched(b, action, id);
    } else {
      match action
      case Begin(_, task) => BeginKeeps(b, id, SessionStarted(task, id, TmuxName(task)), NewRow(task));
      case Read(_, look, tail, now) => ReadKeeps(b, id, look, tail, now);
      case Stop(_, now) => ClosedKeeps(b, id, Requested, now);
      case Compare(_, names, pids, now) =>
        if b.rows[id].name in names {
          assert b.events + [] == b.events;
          Untouched(b, After(b, action), [], id);
        } else {
          ClosedKeeps(b, id, Vanished, now);
        }
    }
  }

  lemma {:induction false} RunKeeps(actions: seq<Action>, id: int)
    requires Legal(EMPTY, actions)
    ensures Inv(Run(EMPTY, actions), id)
    decreases |actions|
  {
    if actions == [] {
    } else {
      RunKeeps(actions[..|actions| - 1], id);
      StepKeeps(Run(EMPTY, actions[..|actions| - 1]), actions[|actions| - 1], id);
    }
  }

  const EMPTY: Book := Book(map[], map[], [])

  lemma {:induction false} StoryAt(mine: seq<ForgeEvent>, i: nat)
    requires Story(mine) && i < |mine|
    ensures Follows(mine[..i], mine[i])
  {
    if i == |mine| - 1 {
    } else {
      StoryAt(mine[..|mine| - 1], i);
      assert mine[..|mine| - 1][..i] == mine[..i];
    }
  }

  /**
   On every run, restarts and all, a session's changes form one chain from idle
   to the status its row holds, unless it was stopped or vanished.
   */
  lemma ChangesFormAChain(actions: seq<Action>, id: int)
    requires Legal(EMPTY, actions)
    ensures var b := Run(EMPTY, actions);
            var mine := Mine(b.events, id);
            && (forall i :: 0 <= i < |mine| && mine[i].StatusChanged? ==> mine[i].from == LastTold(mine[..i]) != mine[i].to)
            && (id in b.rows ==> RowIsTold(b.rows[id], mine))
  {
    RunKeeps(actions, id);
    var mine := Mine(Run(EMPTY, actions).events, id);
    forall i | 0 <= i < |mine| ensures Follows(mine[..i], mine[i]) {
      StoryAt(mine, i);
    }
  }

  /** Its questions are announced one for one: each right after a change into waiting, and each such change right before one. */
  lemma QuestionsFollowChanges(actions: seq<Action>, id: int)
    requires Legal(EMPTY, actions)
    ensures var mine := Mine(Run(EMPTY, actions).events, id);
            && (mine != [] ==> !mine[0].AgentWaiting? && !AsksNext(mine))
            && (forall i :: 0 < i < |mine| ==>
                  (mine[i].AgentWaiting? <==> mine[i - 1].StatusChanged? && mine[i - 1].to == Waiting))
  {
    RunKeeps(actions, id);
    var mine := Mine(Run(EMPTY, actions).events, id);
    forall i | 0 <= i < |mine| ensures Follows(mine[..i], mine[i]) {
      StoryAt(mine, i);
    }
  }

  /** However often the daemon restarts, no status is told twice in a row. */
  lemma NothingIsToldTwice(actions: seq<Action>, id: int, i: nat, j: nat)
    requires Legal(EMPTY, actions)
    requires i < j < |Mine(Run(EMPTY, actions).events, id)|
    requires var mine := Mine(Run(EMPTY, actions).events, id);
             mine[i].StatusChanged? && mine[j].StatusChanged? && mine[i].to == mine[j].to
    ensures var mine := Mine(Run(EMPTY, actions).events, id);
            exists k :: i < k < j && mine[k].StatusChanged? && mine[k].to != mine[j].to
  {
    ChangesFormAChain(actions, id);
    var mine := Mine(Run(EMPTY, actions).events, id);
    if forall k :: i < k < j && mine[k].StatusChanged? ==> mine[k].to == mine[j].to {
      StillTold(mine, i, j, mine[j].to);
    }
  }

  lemma {:induction false} StillTold(mine: seq<ForgeEvent>, i: nat, j: nat, status: AgentStatus)
    requires i < j <= |mine| && mine[i].StatusChanged? && mine[i].to == status
    requires forall k :: i < k < j && mine[k].StatusChanged? ==> mine[k].to == status
    ensures LastTold(mine[..j]) == status
  {
    assert mine[..j][..j - 1] == mine[..j - 1];
    if i + 1 == j {
    } else {
      StillTold(mine, i, j - 1, status);
    }
  }
}
