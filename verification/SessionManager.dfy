/** Polling, closing and reconciling sessions as they are written, one step after the other. */
module SessionManager {
  import opened Options
  import opened Events
  import opened SessionStore
  import opened Tracker
  import opened Poller
  import Sessions

  /** The rows, what the poller believes about them, and what was announced. */
  datatype Book = Book(rows: Rows, trackers: map<int, Belief>, events: seq<ForgeEvent>)

  /** A session not seen before, or not since the daemon restarted, is believed to be what its row says. */
  function BeliefIn(b: Book, id: int): Belief
    requires id in b.rows
  {
    if id in b.trackers then b.trackers[id] else New(b.rows[id].status)
  }

  /** Ends a row if it is still live; only then is there anything to announce. */
  function ClosedAs(b: Book, id: int, status: AgentStatus, reason: StopReason, now: int): Book
    requires id in b.rows
  {
    Book(Closed(b.rows, id, status, now), b.trackers - {id},
         if Live(b.rows, id) then b.events + [SessionStopped(b.rows[id].task, id, reason)] else b.events)
  }

  /** One session read once, and acted on. `tail` is what a last capture shows. */
  function ReadOne(b: Book, id: int, look: Look, tail: string, now: int): Book
    requires id in b.rows
  {
    var (belief, outcome) := Examined(BeliefIn(b, id), look);
    var seen := b.(trackers := b.trackers[id := belief]);
    var task := b.rows[id].task;
    if outcome.processEnded then
      var closed := ClosedAs(seen, id, outcome.status, Exited, now);
      closed.(events := closed.events + Sessions.EndingEvents(task, id, outcome))
    else if outcome.changedFrom.Some? then
      seen.(rows := StatusSet(seen.rows, id, outcome.status),
            events := seen.events + Sessions.ChangeEvents(task, id, outcome, tail))
    else seen
  }

  // ---- what one reading says and leaves ----

  /** The status a process leaves behind. */
  function Ending(exitCode: Option<int>): AgentStatus {
    if exitCode.Some? && exitCode.value != 0 then Error else Stopped
  }

  /**
   The reading of a session whose process has gone: a live row ends, with the
   status its exit code means, and its belief is forgotten. Said of it, in order:
   that it stopped, if it was live; the change, if it is one; and then that it
   failed, or that it finished if it was not idle, or nothing.
   */
  lemma EndingSays(b: Book, id: int, exitCode: Option<int>, tail: string, now: int)
    requires id in b.rows
    ensures var (was, status, row) := (BeliefIn(b, id).status, Ending(exitCode), b.rows[id]);
            var c := ReadOne(b, id, Gone(exitCode), tail, now);
            && c.events == b.events
               + (if row.ended.None? then [SessionStopped(row.task, id, Exited)] else [])
               + (if was != status then [StatusChanged(row.task, id, was, status)] else [])
               + (if exitCode.Some? && exitCode.value != 0 then [AgentError(row.task, id, TmuxName(row.task) + " exited unexpectedly")]
                  else if was != Idle && was != Stopped then [TaskFinished(row.task, id)]
                  else [])
            && id !in c.trackers
            && c.rows == if row.ended.None? then b.rows[id := row.(status := status, ended := Some(now))] else b.rows
  {
  }

  /** So it is told as an error exactly if the exit code is one, and as finished exactly if it is not and the session was doing something. */
  lemma EndsEitherWay(b: Book, id: int, exitCode: Option<int>, tail: string, now: int)
    requires id in b.rows
    ensures var more := ReadOne(b, id, Gone(exitCode), tail, now).events[|b.events|..];
            var was := BeliefIn(b, id).status;
            && ((exists e :: e in more && e.AgentError?) <==> exitCode.Some? && exitCode.value != 0)
            && ((exists e :: e in more && e.TaskFinished?) <==> (exitCode.None? || exitCode.value == 0) && was != Idle && was != Stopped)
            && (forall i, j :: 0 <= i < j < |more| ==> more[i] != more[j])
  {
    var stopped, changed, last := EndingParts(b, id, exitCode, tail, now);
    Appended(b.events, stopped, changed, last);
    OneOfEach(stopped, changed, last);
  }

  lemma EndingParts(b: Book, id: int, exitCode: Option<int>, tail: string, now: int)
    returns (stopped: seq<ForgeEvent>, changed: seq<ForgeEvent>, last: seq<ForgeEvent>)
    requires id in b.rows
    ensures ReadOne(b, id, Gone(exitCode), tail, now).events == b.events + stopped + changed + last
    ensures |stopped| <= 1 && |changed| <= 1 && |last| <= 1
    ensures stopped != [] ==> stopped[0].SessionStopped?
    ensures changed != [] ==> changed[0].StatusChanged?
    ensures last != [] ==> last[0].AgentError? || last[0].TaskFinished?
    ensures last != [] && last[0].AgentError? <==> exitCode.Some? && exitCode.value != 0
    ensures var was := BeliefIn(b, id).status;
            last != [] && last[0].TaskFinished? <==> (exitCode.None? || exitCode.value == 0) && was != Idle && was != Stopped
  {
    EndingSays(b, id, exitCode, tail, now);
    var (was, status, row) := (BeliefIn(b, id).status, Ending(exitCode), b.rows[id]);
    stopped := if row.ended.None? then [SessionStopped(row.task, id, Exited)] else [];
    changed := if was != status then [StatusChanged(row.task, id, was, status)] else [];
    last :=
      if exitCode.Some? && exitCode.value != 0 then [AgentError(row.task, id, TmuxName(row.task) + " exited unexpectedly")]
      else if was != Idle && was != Stopped then [TaskFinished(row.task, id)] else [];
  }

  lemma Appended(events: seq<ForgeEvent>, a: seq<ForgeEvent>, b: seq<ForgeEvent>, c: seq<ForgeEvent>)
    ensures (events + a + b + c)[|events|..] == a + b + c
  {
  }

  lemma OneOfEach(stopped: seq<ForgeEvent>, changed: seq<ForgeEvent>, last: seq<ForgeEvent>)
    requires |stopped| <= 1 && |changed| <= 1 && |last| <= 1
    requires stopped != [] ==> stopped[0].SessionStopped?
    requires changed != [] ==> changed[0].StatusChanged?
    requires last != [] ==> last[0].AgentError? || last[0].TaskFinished?
    ensures var more := stopped + changed + last;
            && ((exists e :: e in more && e.AgentError?) <==> last != [] && last[0].AgentError?)
            && ((exists e :: e in more && e.TaskFinished?) <==> last != [] && last[0].TaskFinished?)
            && (forall i, j :: 0 <= i < j < |more| ==> more[i] != more[j])
  {
    var more := stopped + changed + last;
    if last != [] {
      assert more[|more| - 1] == last[0];
    }
  }

  /**
   The reading of a session whose process lives: nothing ends, and what is newly
   believed of it is written and told, with the pane's tail for a question or an error.
   */
  lemma LivingSays(b: Book, id: int, activity: Option<int>, seen: Option<AgentStatus>, tail: string, now: int)
    requires id in b.rows
    ensures var c := ReadOne(b, id, Pane(activity, seen), tail, now);
            && id in c.trackers
            && var (was, is', row) := (BeliefIn(b, id).status, c.trackers[id].status, b.rows[id]);
               && c.events == b.events
                  + (if was != is' then [StatusChanged(row.task, id, was, is')] else [])
                  + (if was != is' && is' == AgentStatus.Waiting then [AgentWaiting(row.task, id, tail)] else [])
                  + (if was != is' && is' == Error then [AgentError(row.task, id, tail)] else [])
               && c.rows == if was != is' && row.ended.None? then b.rows[id := row.(status := is')] else b.rows
  {
  }

  /** What comparing one row with tmux's list does to it. */
  function Compared(b: Book, id: int, names: set<string>, pids: map<int, Option<int>>, now: int): Book
    requires id in b.rows
  {
    if b.rows[id].name in names then
      b.(rows := if id in pids then PidSet(b.rows, id, pids[id]) else b.rows)
    else ClosedAs(b, id, Stopped, Vanished, now)
  }

  /** What others may do while a reconciliation waits: start, stop or read a session. */
  datatype Doing = Starts(task: int) | Stops(id: int, now: int) | Reads(id: int, look: Look, tail: string, now: int)

  class SessionManager {
    const store: SessionStore
    var trackers: map<int, Belief>
    var events: seq<ForgeEvent>

    ghost function State(): Book
      reads this, store
    {
      Book(store.rows, trackers, events)
    }

    constructor (store: SessionStore)
      requires store.Valid()
      ensures this.store == store && State() == Book(store.rows, map[], [])
    {
      this.store, trackers, events := store, map[], [];
    }

    method CloseRow(id: int, status: AgentStatus, reason: StopReason, now: int)
      requires store.Valid() && id in store.rows
      modifies this, store`rows
      ensures store.Valid() && State() == ClosedAs(old(State()), id, status, reason, now)
    {
      var won := store.CloseSession(id, status, now);
      if won {
        events := events + [SessionStopped(store.rows[id].task, id, reason)];
      }
      trackers := trackers - {id};
    }

    method ReadSession(id: int, look: Look, tail: string, now: int)
      requires store.Valid() && id in store.rows
      modifies this, store`rows
      ensures store.Valid() && State() == ReadOne(old(State()), id, look, tail, now)
    {
      var tracker := new Tracker(store.rows[id].status);
      if id in trackers {
        tracker.status, tracker.stalePolls := trackers[id].status, trackers[id].stale;
        tracker.pending, tracker.lastActivity := trackers[id].pending, trackers[id].lastActivity;
      }
      var outcome := Examine(tracker, look);
      trackers := trackers[id := tracker.State()];
      var task := store.rows[id].task;
      if outcome.processEnded {
        CloseRow(id, outcome.status, Exited, now);
        events := events + Sessions.EndingEvents(task, id, outcome);
        return;
      }
      if outcome.changedFrom.None? {
        return;
      }
      store.SetSessionStatus(id, outcome.status);
      events := events + Sessions.ChangeEvents(task, id, outcome, tail);
    }

    method CompareRow(id: int, names: set<string>, pids: map<int, Option<int>>, now: int) returns (adopted: bool)
      requires store.Valid() && id in store.rows
      modifies this, store`rows
      ensures store.Valid() && State() == Compared(old(State()), id, names, pids, now)
      ensures adopted <==> old(store.rows[id].name) in names
    {
      adopted := store.rows[id].name in names;
      if !adopted {
        CloseRow(id, Stopped, Vanished, now);
      } else if id in pids {
        store.SetSessionPid(id, pids[id]);
      }
    }

    method Meanwhile(doings: seq<Doing>, ghost names: set<string>)
      requires store.Valid()
      modifies this, store
      ensures store.Valid() && Grown(old(State()), State(), names)
      ensures doings == [] ==> State() == old(State())
    {
      ghost var start := State();
      for i := 0 to |doings|
        invariant store.Valid() && Grown(start, State(), names)
        invariant i == 0 ==> State() == start
      {
        ghost var was := State();
        match doings[i] {
          case Starts(task) =>
            var started := store.StartSession(task);
            if started.Some? {
              StartGrows(was, started.value, task, names);
            }
          case Stops(id, now) =>
            if id in store.rows {
              CloseRow(id, Stopped, Requested, now);
              CloseGrows(was, id, Stopped, Requested, now, names);
            }
          case Reads(id, look, tail, now) =>
            if id in store.rows {
              ReadSession(id, look, tail, now);
              ReadGrows(was, id, look, tail, now, names);
            }
        }
        GrownThen(start, was, State(), names);
      }
    }

    /** One row compared, after whatever others do before it is. */
    method CompareNext(id: int, names: set<string>, pids: map<int, Option<int>>, now: int, doings: seq<Doing>) returns (adopted: bool)
      requires store.Valid() && id in store.rows
      modifies this, store
      ensures store.Valid() && Grown(old(State()), State(), names)
      ensures Live(store.rows, id) ==> store.rows[id].name in names
      ensures adopted <==> old(store.rows[id].name) in names
      ensures doings == [] ==> State() == Compared(old(State()), id, names, pids, now)
    {
      ghost var start := State();
      Meanwhile(doings, names);
      ghost var was := State();
      adopted := CompareRow(id, names, pids, now);
      CompareGrows(was, id, names, pids, now);
      GrownThen(start, was, State(), names);
    }

    /** The `k`-th row compared, and the name it goes by. */
    method CompareAt(
        ids: seq<int>, k: nat, names: set<string>, pids: map<int, Option<int>>, now: int, meanwhile: seq<seq<Doing>>,
        ghost start: Book, ghost tally: Tally)
      returns (kept: bool, name: string)
      requires store.Valid() && k < |ids| && Distinct(ids) && forall id :: id in ids ==> Live(start.rows, id)
      requires Comparing(start, State(), ids, k, names, pids, now, meanwhile, tally)
      modifies this, store
      ensures store.Valid() && Comparing(start, State(), ids, k + 1, names, pids, now, meanwhile, Counted(tally, name, kept))
    {
      ghost var was := State();
      StillThere(start, was, ids, k, names, pids, now, meanwhile, tally);
      name := store.rows[ids[k]].name;
      kept := CompareNext(ids[k], names, pids, now, if k < |meanwhile| then meanwhile[k] else []);
      ComparedNext(start, was, State(), ids, k, names, pids, now, meanwhile, tally);
    }

    /** `meanwhile` is what others do before each row is compared. */
    method CompareRows(ids: seq<int>, names: set<string>, pids: map<int, Option<int>>, now: int, meanwhile: seq<seq<Doing>>)
      returns (adopted: nat, vanished: nat, claimed: set<string>)
      requires store.Valid() && Distinct(ids) && forall id :: id in ids ==> Live(store.rows, id)
      modifies this, store
      ensures store.Valid()
      ensures Comparing(old(State()), State(), ids, |ids|, names, pids, now, meanwhile, Tally(adopted, vanished, claimed))
    {
      adopted, vanished, claimed := 0, 0, {};
      ghost var start := State();
      NothingSoFar(start, ids, names, pids, now, meanwhile);
      for k := 0 to |ids|
        invariant store.Valid() && Comparing(start, State(), ids, k, names, pids, now, meanwhile, Tally(adopted, vanished, claimed))
      {
        ghost var tally := Tally(adopted, vanished, claimed);
        var kept, name := CompareAt(ids, k, names, pids, now, meanwhile, start, tally);
        if kept {
          adopted := adopted + 1;
          claimed := claimed + {name};
        } else {
          vanished := vanished + 1;
        }
        assert Tally(adopted, vanished, claimed) == Counted(tally, name, kept);
      }
    }

    /**
     Whatever others start, stop and read meanwhile: every row live at first that
     tmux did not list has ended, and each row that ended, whoever ended it, is
     announced stopped once, as vanished only if it was not listed. With nobody
     else about, every live row tmux has is kept, every other is ended as
     vanished, and nothing else changes but recorded pids.
     */
    method Reconcile(names: set<string>, pids: map<int, Option<int>>, now: int, first: seq<Doing>, meanwhile: seq<seq<Doing>>)
      returns (adopted: nat, vanished: nat, unclaimed: nat)
      requires store.Valid()
      modifies this, store
      ensures store.Valid() && Grown(old(State()), State(), names)
      ensures forall id :: Live(old(store.rows), id) && Live(store.rows, id) ==> store.rows[id].name in names
      ensures first == [] && Quiet(meanwhile) ==>
                && Reconciled(old(store.rows), store.rows, names, now)
                && Announces(old(events), events, old(store.rows), names) && |events| == |old(events)| + vanished
                && adopted + vanished == |set id | id in old(store.rows) && Live(old(store.rows), id)|
                && unclaimed == |set name | name in names && SESSION_PREFIX <= name && !NameInUse(old(store.rows), name)|
    {
      ghost var begin := State();
      Meanwhile(first, names);
      var ids := store.LiveSessions();
      ghost var start := State();
      var claimed;
      adopted, vanished, claimed := CompareRows(ids, names, pids, now, meanwhile);
      AllCompared(start, State(), ids, names, pids, now, meanwhile, Tally(adopted, vanished, claimed));
      GrownThen(begin, start, State(), names);
      unclaimed := |Strangers(names, claimed)|;
      StrangersAre(start.rows, ids, names);
      CountLive(start.rows, ids);
      PassReconciles(start, ids, names, pids, now);
    }
  }

  /** The first `k` rows have been compared. */
  ghost predicate SoFar(start: Book, c: Book, ids: seq<int>, k: nat, names: set<string>)
    requires k <= |ids|
  {
    && Grown(start, c, names)
    && (forall i :: 0 <= i < |ids| ==> ids[i] in c.rows && ids[i] in start.rows && c.rows[ids[i]].name == start.rows[ids[i]].name)
    && (forall i :: 0 <= i < k && Live(c.rows, ids[i]) ==> c.rows[ids[i]].name in names)
  }

  lemma SoFarNext(start: Book, was: Book, c: Book, ids: seq<int>, k: nat, names: set<string>)
    requires k < |ids| && SoFar(start, was, ids, k, names) && Grown(was, c, names)
    requires Live(c.rows, ids[k]) ==> c.rows[ids[k]].name in names
    ensures SoFar(start, c, ids, k + 1, names)
  {
    GrownThen(start, was, c, names);
  }

  /** With nobody else about. */
  ghost predicate PassedSoFar(
      start: Book, c: Book, ids: seq<int>, k: nat, names: set<string>, pids: map<int, Option<int>>, now: int, vanished: nat)
    requires k <= |ids|
  {
    c == Pass(start, ids[..k], names, pids, now) && |c.events| == |start.events| + vanished
  }

  /** The counts, and the names claimed. */
  datatype Tally = Tally(adopted: nat, vanished: nat, claimed: set<string>)

  function Counted(t: Tally, name: string, kept: bool): Tally {
    if kept then Tally(t.adopted + 1, t.vanished, t.claimed + {name}) else t.(vanished := t.vanished + 1)
  }

  ghost predicate Comparing(
      start: Book, c: Book, ids: seq<int>, k: nat, names: set<string>, pids: map<int, Option<int>>, now: int,
      meanwhile: seq<seq<Doing>>, t: Tally)
    requires k <= |ids|
  {
    && SoFar(start, c, ids, k, names)
    && t.adopted + t.vanished == k && t.claimed == ClaimedBy(start.rows, ids[..k], names)
    && (Quiet(meanwhile) ==> PassedSoFar(start, c, ids, k, names, pids, now, t.vanished))
  }

  lemma NothingSoFar(b: Book, ids: seq<int>, names: set<string>, pids: map<int, Option<int>>, now: int, meanwhile: seq<seq<Doing>>)
    requires forall id :: id in ids ==> Live(b.rows, id)
    ensures Comparing(b, b, ids, 0, names, pids, now, meanwhile, Tally(0, 0, {}))
  {
    EndsNone(b, b, names);
    forall i | 0 <= i < |ids| ensures ids[i] in b.rows {
      assert Live(b.rows, ids[i]);
    }
  }

  lemma AllCompared(
      start: Book, c: Book, ids: seq<int>, names: set<string>, pids: map<int, Option<int>>, now: int,
      meanwhile: seq<seq<Doing>>, t: Tally)
    requires Comparing(start, c, ids, |ids|, names, pids, now, meanwhile, t)
    ensures Grown(start, c, names) && (forall id :: id in ids && Live(c.rows, id) ==> c.rows[id].name in names)
    ensures t.adopted + t.vanished == |ids| && t.claimed == ClaimedBy(start.rows, ids, names)
    ensures Quiet(meanwhile) ==> c == Pass(start, ids, names, pids, now) && |c.events| == |start.events| + t.vanished
  {
    assert ids[..|ids|] == ids;
  }

  lemma StillThere(
      start: Book, c: Book, ids: seq<int>, k: nat, names: set<string>, pids: map<int, Option<int>>, now: int,
      meanwhile: seq<seq<Doing>>, t: Tally)
    requires k < |ids| && Comparing(start, c, ids, k, names, pids, now, meanwhile, t)
    ensures ids[k] in c.rows
  {
  }

  lemma ComparedNext(
      start: Book, was: Book, c: Book, ids: seq<int>, k: nat, names: set<string>, pids: map<int, Option<int>>, now: int,
      meanwhile: seq<seq<Doing>>, t: Tally)
    requires k < |ids| && Distinct(ids) && (forall id :: id in ids ==> Live(start.rows, id))
    requires Comparing(start, was, ids, k, names, pids, now, meanwhile, t) && Grown(was, c, names)
    requires Live(c.rows, ids[k]) ==> c.rows[ids[k]].name in names
    requires ids[k] in was.rows && (Quiet(meanwhile) ==> c == Compared(was, ids[k], names, pids, now))
    ensures var name := was.rows[ids[k]].name;
            Comparing(start, c, ids, k + 1, names, pids, now, meanwhile, Counted(t, name, name in names))
  {
    SoFarNext(start, was, c, ids, k, names);
    ClaimedNext(start.rows, ids, k, names);
    if Quiet(meanwhile) {
      PassNext(start, was, c, ids, k, names, pids, now, t.vanished);
    }
  }

  lemma PassNext(
      start: Book, was: Book, c: Book, ids: seq<int>, k: nat, names: set<string>, pids: map<int, Option<int>>, now: int, vanished: nat)
    requires k < |ids| && Distinct(ids) && (forall id :: id in ids ==> Live(start.rows, id))
    requires PassedSoFar(start, was, ids, k, names, pids, now, vanished)
    requires ids[k] in was.rows && c == Compared(was, ids[k], names, pids, now)
    ensures PassedSoFar(start, c, ids, k + 1, names, pids, now, if was.rows[ids[k]].name in names then vanished else vanished + 1)
  {
    PassRows(start, ids, k, names, pids, now);
    assert ids[..k + 1][..k] == ids[..k] && ids[k] in ids;
  }

  ghost predicate Quiet(meanwhile: seq<seq<Doing>>) {
    forall k :: 0 <= k < |meanwhile| ==> meanwhile[k] == []
  }

  // ---- whatever is done to sessions, each ending is announced once ----

  ghost predicate EndedSince(rows: Rows, later: Rows, id: int) {
    id in later && later[id].ended.Some? && !(id in rows && rows[id].ended.Some?)
  }

  ghost predicate StopAt(events: seq<ForgeEvent>, i: int, id: int) {
    0 <= i < |events| && events[i].SessionStopped? && events[i].session == id
  }

  ghost predicate StoppedSince(events: seq<ForgeEvent>, from: nat, id: int) {
    exists i :: from <= i && StopAt(events, i, id)
  }

  /** From one book to a later one: exactly the rows ended since are announced stopped since, each once, and as vanished only if their names are not among these. */
  ghost predicate Grown(b: Book, c: Book, names: set<string>) {
    && Keeps(b.rows, c.rows) && b.events <= c.events
    && (forall i, id :: |b.events| <= i && StopAt(c.events, i, id) ==>
          EndedSince(b.rows, c.rows, id) && (c.events[i].reason == Vanished ==> c.rows[id].name !in names))
    && (forall i, j, id :: |b.events| <= i < j && StopAt(c.events, i, id) && StopAt(c.events, j, id) ==> false)
    && (forall id :: EndedSince(b.rows, c.rows, id) ==> StoppedSince(c.events, |b.events|, id))
  }

  lemma SaidBefore(events: seq<ForgeEvent>, later: seq<ForgeEvent>, i: int, id: int)
    requires events <= later && i < |events|
    ensures StopAt(events, i, id) <==> StopAt(later, i, id)
  {
  }

  lemma GrownThen(a: Book, b: Book, c: Book, names: set<string>)
    requires Grown(a, b, names) && Grown(b, c, names)
    ensures Grown(a, c, names)
  {
    forall i, id | |a.events| <= i && StopAt(c.events, i, id)
      ensures EndedSince(a.rows, c.rows, id) && (c.events[i].reason == Vanished ==> c.rows[id].name !in names)
    {
      if i < |b.events| {
        SaidBefore(b.events, c.events, i, id);
      }
    }
    forall i, j, id | |a.events| <= i < j && StopAt(c.events, i, id) && StopAt(c.events, j, id) ensures false {
      if i < |b.events| {
        SaidBefore(b.events, c.events, i, id);
        if j < |b.events| {
          SaidBefore(b.events, c.events, j, id);
        }
      }
    }
    forall id | EndedSince(a.rows, c.rows, id) ensures StoppedSince(c.events, |a.events|, id) {
      if EndedSince(b.rows, c.rows, id) {
        var i :| |b.events| <= i && StopAt(c.events, i, id);
        assert |a.events| <= i;
      } else {
        assert EndedSince(a.rows, b.rows, id);
        var i :| |a.events| <= i && StopAt(b.events, i, id);
        SaidBefore(b.events, c.events, i, id);
      }
    }
  }

  /** Nothing ends, and nothing stops. */
  lemma EndsNone(b: Book, c: Book, names: set<string>)
    requires Keeps(b.rows, c.rows) && b.events <= c.events
    requires forall id :: !EndedSince(b.rows, c.rows, id)
    requires forall i :: |b.events| <= i < |c.events| ==> !c.events[i].SessionStopped?
    ensures Grown(b, c, names)
  {
  }

  lemma StartGrows(b: Book, id: int, task: int, names: set<string>)
    requires id !in b.rows
    ensures Grown(b, b.(rows := b.rows[id := NewRow(task)]), names)
  {
    EndsNone(b, b.(rows := b.rows[id := NewRow(task)]), names);
  }

  lemma CloseGrows(b: Book, id: int, status: AgentStatus, reason: StopReason, now: int, names: set<string>)
    requires id in b.rows && (reason == Vanished ==> b.rows[id].name !in names)
    ensures Grown(b, ClosedAs(b, id, status, reason, now), names)
  {
    var c := ClosedAs(b, id, status, reason, now);
    if Live(b.rows, id) {
      assert StopAt(c.events, |b.events|, id);
    }
  }

  /** What else is said of sessions is not that they stopped. */
  lemma SaysMore(b: Book, more: seq<ForgeEvent>, names: set<string>)
    requires forall i :: 0 <= i < |more| ==> !more[i].SessionStopped?
    ensures Grown(b, b.(events := b.events + more), names)
  {
    EndsNone(b, b.(events := b.events + more), names);
  }

  lemma ReadGrows(b: Book, id: int, look: Look, tail: string, now: int, names: set<string>)
    requires id in b.rows
    ensures Grown(b, ReadOne(b, id, look, tail, now), names)
  {
    var (belief, outcome) := Examined(BeliefIn(b, id), look);
    var seen, task := b.(trackers := b.trackers[id := belief]), b.rows[id].task;
    EndsNone(b, seen, names);
    if outcome.processEnded {
      var closed := ClosedAs(seen, id, outcome.status, Exited, now);
      CloseGrows(seen, id, outcome.status, Exited, now, names);
      GrownThen(b, seen, closed, names);
      SaysMore(closed, Sessions.EndingEvents(task, id, outcome), names);
      GrownThen(b, closed, ReadOne(b, id, look, tail, now), names);
    } else if outcome.changedFrom.Some? {
      EndsNone(b, ReadOne(b, id, look, tail, now), names);
    }
  }

  lemma CompareGrows(b: Book, id: int, names: set<string>, pids: map<int, Option<int>>, now: int)
    requires id in b.rows
    ensures Grown(b, Compared(b, id, names, pids, now), names)
    ensures var c := Compared(b, id, names, pids, now); Live(c.rows, id) ==> c.rows[id].name in names
  {
    if b.rows[id].name in names {
      EndsNone(b, Compared(b, id, names, pids, now), names);
    } else {
      CloseGrows(b, id, Stopped, Vanished, now, names);
    }
  }

  /** Comparing these rows, in this order. */
  function Pass(b: Book, ids: seq<int>, names: set<string>, pids: map<int, Option<int>>, now: int): Book {
    if ids == [] then b
    else
      var before, id := Pass(b, ids[..|ids| - 1], names, pids, now), ids[|ids| - 1];
      if id in before.rows then Compared(before, id, names, pids, now) else before
  }

  ghost predicate GoesBy(rows: Rows, ids: seq<int>, name: string) {
    exists i :: Named(rows, ids, i, name)
  }

  predicate Named(rows: Rows, ids: seq<int>, i: int, name: string) {
    0 <= i < |ids| && ids[i] in rows && rows[ids[i]].name == name
  }

  /** The names tmux has that one of these rows goes by. */
  ghost function ClaimedBy(rows: Rows, ids: seq<int>, names: set<string>): set<string> {
    set name | name in names && GoesBy(rows, ids, name)
  }

  lemma AllClaimed(rows: Rows, ids: seq<int>)
    requires forall id :: id in ids <==> Live(rows, id)
    ensures forall name :: GoesBy(rows, ids, name) <==> NameInUse(rows, name)
  {
    forall name ensures GoesBy(rows, ids, name) <==> NameInUse(rows, name) {
      if i :| Named(rows, ids, i, name) {
        var id := ids[i];
        assert id in ids && Live(rows, id);
      }
      if id :| id in rows && Live(rows, id) && rows[id].name == name {
        assert id in ids;
        var i :| 0 <= i < |ids| && ids[i] == id;
        assert Named(rows, ids, i, name);
      }
    }
  }

  /** Names tmux has that look like ours. */
  function Strangers(names: set<string>, claimed: set<string>): set<string> {
    set name | name in names && SESSION_PREFIX <= name && name !in claimed
  }

  lemma StrangersAre(rows: Rows, ids: seq<int>, names: set<string>)
    requires forall id :: id in ids <==> Live(rows, id)
    ensures Strangers(names, ClaimedBy(rows, ids, names)) == set name | name in names && SESSION_PREFIX <= name && !NameInUse(rows, name)
  {
    AllClaimed(rows, ids);
  }

  lemma CountLive(rows: Rows, ids: seq<int>)
    requires Distinct(ids) && forall id :: id in ids <==> Live(rows, id)
    ensures |ids| == |set id | id in rows && Live(rows, id)|
  {
    CountDistinct(ids);
    assert SetOf(ids) == set id | id in rows && Live(rows, id);
  }

  lemma ClaimedNext(rows: Rows, ids: seq<int>, k: nat, names: set<string>)
    requires k < |ids| && ids[k] in rows
    ensures var name := rows[ids[k]].name;
            ClaimedBy(rows, ids[..k + 1], names) == ClaimedBy(rows, ids[..k], names) + if name in names then {name} else {}
  {
    assert ids[..k + 1] == ids[..k] + [ids[k]];
    forall name ensures GoesBy(rows, ids[..k + 1], name) <==> GoesBy(rows, ids[..k], name) || rows[ids[k]].name == name {
      OneMoreName(rows, ids, k, name);
    }
  }

  lemma OneMoreName(rows: Rows, ids: seq<int>, k: nat, name: string)
    requires k < |ids| && ids[k] in rows
    ensures GoesBy(rows, ids[..k + 1], name) <==> GoesBy(rows, ids[..k], name) || rows[ids[k]].name == name
  {
    var few, more := ids[..k], ids[..k + 1];
    if i :| Named(rows, few, i, name) {
      assert Named(rows, more, i, name);
    }
    if rows[ids[k]].name == name {
      assert Named(rows, more, k, name);
    }
    if i :| Named(rows, more, i, name) {
      assert i == k || Named(rows, few, i, name);
    }
  }

  function SetOf(ids: seq<int>): set<int> {
    set id | id in ids
  }

  ghost predicate Distinct(ids: seq<int>) {
    forall i, j :: 0 <= i < j < |ids| ==> ids[i] != ids[j]
  }

  lemma {:induction false} CountDistinct(ids: seq<int>)
    requires Distinct(ids)
    ensures |SetOf(ids)| == |ids|
  {
    if ids == [] {
    } else {
      var init, last := ids[..|ids| - 1], ids[|ids| - 1];
      CountDistinct(init);
      assert SetOf(ids) == SetOf(init) + {last};
    }
  }

  ghost predicate RowReconciled(was: SessionRow, now: SessionRow, names: set<string>, time: int) {
    if was.ended.None? && was.name !in names then now == was.(status := Stopped, ended := Some(time))
    else now == was.(pid := now.pid)
  }

  /** A live row is ended exactly when tmux does not list its name. */
  ghost predicate Reconciled(rows: Rows, later: Rows, names: set<string>, now: int) {
    rows.Keys == later.Keys && forall id :: id in rows ==> RowReconciled(rows[id], later[id], names, now)
  }

  ghost predicate VanishedRow(rows: Rows, names: set<string>, e: ForgeEvent) {
    e.SessionStopped? && e.reason == Vanished && Live(rows, e.session)
    && rows[e.session].task == e.task && rows[e.session].name !in names
  }

  /** What is announced is one stop for each of some vanished rows, never two for one row. */
  ghost predicate Announces(said: seq<ForgeEvent>, events: seq<ForgeEvent>, rows: Rows, names: set<string>) {
    && said <= events
    && (forall i :: |said| <= i < |events| ==> VanishedRow(rows, names, events[i]))
    && (forall i, j :: |said| <= i < j < |events| ==> events[i].SessionId() != events[j].SessionId())
  }

  /** The rows compared so far are reconciled and the rest are as they were. */
  lemma {:induction false} PassRows(b: Book, ids: seq<int>, k: nat, names: set<string>, pids: map<int, Option<int>>, now: int)
    requires k <= |ids| && Distinct(ids) && forall id :: id in ids ==> Live(b.rows, id)
    ensures var p := Pass(b, ids[..k], names, pids, now);
            && p.rows.Keys == b.rows.Keys
            && (forall i :: k <= i < |ids| ==> ids[i] in b.rows && p.rows[ids[i]] == b.rows[ids[i]])
  {
    assert forall i :: 0 <= i < |ids| ==> ids[i] in ids && Live(b.rows, ids[i]);
    if k == 0 {
      assert Pass(b, ids[..k], names, pids, now) == b;
    } else {
      PassRows(b, ids, k - 1, names, pids, now);
      assert ids[..k][..k - 1] == ids[..k - 1];
    }
  }

  lemma SetSnoc(ids: seq<int>, k: nat)
    requires 0 < k <= |ids| && Distinct(ids)
    ensures SetOf(ids[..k]) == SetOf(ids[..k - 1]) + {ids[k - 1]} && ids[k - 1] !in SetOf(ids[..k - 1])
  {
    assert ids[..k] == ids[..k - 1] + [ids[k - 1]];
  }

  lemma OneMore(b: Book, p: Book, id: int, done: set<int>, names: set<string>, pids: map<int, Option<int>>, now: int)
    requires Live(b.rows, id) && id !in done && p.rows.Keys == b.rows.Keys && p.rows[id] == b.rows[id]
    requires PassedOver(b, p, done, names, now)
    ensures PassedOver(b, Compared(p, id, names, pids, now), done + {id}, names, now)
  {
  }

  ghost predicate PassedOver(b: Book, p: Book, done: set<int>, names: set<string>, now: int) {
    && p.rows.Keys == b.rows.Keys
    && (forall id :: id in b.rows && id in done ==> RowReconciled(b.rows[id], p.rows[id], names, now))
    && (forall id :: id in b.rows && id !in done ==> p.rows[id] == b.rows[id])
    && Announces(b.events, p.events, b.rows, names)
    && (forall i :: |b.events| <= i < |p.events| ==> p.events[i].session in done)
  }

  lemma {:induction false} PassOver(b: Book, ids: seq<int>, k: nat, names: set<string>, pids: map<int, Option<int>>, now: int)
    requires k <= |ids| && Distinct(ids) && forall id :: id in ids ==> Live(b.rows, id)
    ensures PassedOver(b, Pass(b, ids[..k], names, pids, now), SetOf(ids[..k]), names, now)
  {
    if k == 0 {
      assert Pass(b, ids[..k], names, pids, now) == b;
    } else {
      PassOver(b, ids, k - 1, names, pids, now);
      PassRows(b, ids, k - 1, names, pids, now);
      assert ids[..k][..k - 1] == ids[..k - 1] && ids[k - 1] in ids;
      OneMore(b, Pass(b, ids[..k - 1], names, pids, now), ids[k - 1], SetOf(ids[..k - 1]), names, pids, now);
      assert SetOf(ids[..k]) == SetOf(ids[..k - 1]) + {ids[k - 1]} by { SetSnoc(ids, k); }
    }
  }

  /** Comparing every live row once reconciles the whole table. */
  lemma PassReconciles(b: Book, ids: seq<int>, names: set<string>, pids: map<int, Option<int>>, now: int)
    requires Distinct(ids) && forall id :: id in ids <==> Live(b.rows, id)
    ensures var p := Pass(b, ids, names, pids, now);
            Reconciled(b.rows, p.rows, names, now) && Announces(b.events, p.events, b.rows, names)
  {
    PassOver(b, ids, |ids|, names, pids, now);
    assert ids[..|ids|] == ids;
    var p := Pass(b, ids, names, pids, now);
    forall id | id in b.rows ensures RowReconciled(b.rows[id], p.rows[id], names, now) {
      assert id in ids <==> Live(b.rows, id);
    }
  }
}
