/** The `sessions` table: one row per run of a task, closed once by a conditional update. */
module SessionStore {
  import opened Options
  import opened Decimal
  import opened Events

  datatype SessionRow = SessionRow(task: int, name: string, pid: Option<int>, status: AgentStatus, ended: Option<int>)

  type Rows = map<int, SessionRow>

  const SESSION_PREFIX: string := "forge-"

  function TmuxName(task: int): string {
    SESSION_PREFIX + Show(task)
  }

  predicate Live(rows: Rows, id: int) {
    id in rows && rows[id].ended.None?
  }

  /** What the partial unique index looks at. */
  predicate NameInUse(rows: Rows, name: string) {
    exists id :: id in rows && Live(rows, id) && rows[id].name == name
  }

  function NewRow(task: int): SessionRow {
    SessionRow(task, TmuxName(task), None, Idle, None)
  }

  function Closed(rows: Rows, id: int, status: AgentStatus, now: int): Rows {
    if Live(rows, id) then rows[id := rows[id].(status := status, ended := Some(now))] else rows
  }

  function StatusSet(rows: Rows, id: int, status: AgentStatus): Rows {
    if Live(rows, id) then rows[id := rows[id].(status := status)] else rows
  }

  /** The pid is written whether or not the session has ended. */
  function PidSet(rows: Rows, id: int, pid: Option<int>): Rows {
    if id in rows then rows[id := rows[id].(pid := pid)] else rows
  }

  /** Rows stay, and keep their task and name; an ended one keeps how and when it ended too. */
  ghost predicate Keeps(rows: Rows, later: Rows) {
    forall id :: id in rows ==>
      && id in later
      && later[id].task == rows[id].task && later[id].name == rows[id].name
      && (rows[id].ended.Some? ==> later[id].status == rows[id].status && later[id].ended == rows[id].ended)
  }

  lemma UpdatesKeep(rows: Rows, id: int, status: AgentStatus, now: int, pid: Option<int>)
    ensures Keeps(rows, Closed(rows, id, status, now))
    ensures Keeps(rows, StatusSet(rows, id, status))
    ensures Keeps(rows, PidSet(rows, id, pid))
  {
  }

  lemma NameInjective(a: int, b: int)
    requires TmuxName(a) == TmuxName(b)
    ensures a == b
  {
    assert TmuxName(a)[|SESSION_PREFIX|..] == Show(a) && TmuxName(b)[|SESSION_PREFIX|..] == Show(b);
    ShowInjective(a, b);
  }

  /** Each row is named for its task, and no two live rows share a name. */
  ghost predicate NamesInv(rows: Rows) {
    && (forall id :: id in rows ==> rows[id].name == TmuxName(rows[id].task))
    && (forall a, b :: a in rows && b in rows && Live(rows, a) && Live(rows, b) && rows[a].name == rows[b].name ==> a == b)
  }

  lemma InsertKeepsNames(rows: Rows, id: int, task: int)
    requires NamesInv(rows) && id !in rows && !NameInUse(rows, TmuxName(task))
    ensures NamesInv(rows[id := NewRow(task)])
  {
    assert forall a :: a in rows && Live(rows, a) ==> rows[a].name != TmuxName(task);
  }

  /** The index on names is an index on tasks: a start is refused exactly when that task already has a live session. */
  lemma RefusedIffRunning(rows: Rows, task: int)
    requires NamesInv(rows)
    ensures NameInUse(rows, TmuxName(task)) <==> exists id :: Live(rows, id) && rows[id].task == task
  {
    if NameInUse(rows, TmuxName(task)) {
      var id :| id in rows && Live(rows, id) && rows[id].name == TmuxName(task);
      NameInjective(rows[id].task, task);
      assert Live(rows, id);
    }
  }

  class SessionStore {
    var rows: Rows
    var lastId: nat

    ghost predicate Valid()
      reads this
    {
      NamesInv(rows) && forall id :: id in rows ==> 1 <= id <= lastId
    }

    constructor ()
      ensures Valid() && rows == map[]
    {
      rows, lastId := map[], 0;
    }

    method StartSession(task: int) returns (id: Option<int>)
      requires Valid()
      modifies this
      ensures Valid()
      ensures id.None? <==> NameInUse(old(rows), TmuxName(task))
      ensures id.None? ==> rows == old(rows)
      ensures id.Some? ==> id.value !in old(rows) && rows == old(rows)[id.value := NewRow(task)]
      ensures id.Some? ==> rows[id.value] == SessionRow(task, "forge-" + Show(task), None, Idle, None)
    {
      if other :| other in rows && Live(rows, other) && rows[other].name == TmuxName(task) {
        return None;
      }
      InsertKeepsNames(rows, lastId + 1, task);
      lastId := lastId + 1;
      rows := rows[lastId := NewRow(task)];
      id := Some(lastId);
    }

    method CloseSession(id: int, status: AgentStatus, now: int) returns (won: bool)
      requires Valid()
      modifies this`rows
      ensures Valid() && rows == Closed(old(rows), id, status, now)
      ensures won <==> id in old(rows) && old(rows)[id].ended.None?
      ensures rows == if won then old(rows)[id := old(rows)[id].(status := status, ended := Some(now))] else old(rows)
    {
      won := id in rows && rows[id].ended.None?;
      if won {
        rows := rows[id := rows[id].(status := status, ended := Some(now))];
      }
    }

    method SetSessionStatus(id: int, status: AgentStatus)
      requires Valid()
      modifies this`rows
      ensures Valid() && rows == StatusSet(old(rows), id, status)
      ensures rows == if id in old(rows) && old(rows)[id].ended.None? then old(rows)[id := old(rows)[id].(status := status)] else old(rows)
    {
      if id in rows && rows[id].ended.None? {
        rows := rows[id := rows[id].(status := status)];
      }
    }

    method SetSessionPid(id: int, pid: Option<int>)
      requires Valid()
      modifies this`rows
      ensures Valid() && rows == PidSet(old(rows), id, pid)
      ensures rows == if id in old(rows) then old(rows)[id := old(rows)[id].(pid := pid)] else old(rows)
    {
      if id in rows {
        rows := rows[id := rows[id].(pid := pid)];
      }
    }

    /** The task's session that has not ended: the only one there can be. */
    method LiveSession(task: int) returns (id: Option<int>)
      requires Valid()
      ensures id.Some? ==> Live(rows, id.value) && rows[id.value].task == task
      ensures id.Some? ==> forall other :: Live(rows, other) && rows[other].task == task ==> other == id.value
      ensures id.None? ==> forall other :: Live(rows, other) ==> rows[other].task != task
    {
      if found :| found in rows && Live(rows, found) && rows[found].task == task {
        id := Some(found);
      } else {
        id := None;
      }
    }

    /** Every session that has not ended, oldest first. */
    method LiveSessions() returns (ids: seq<int>)
      requires Valid()
      ensures forall id :: id in ids <==> Live(rows, id)
      ensures forall i, j :: 0 <= i < j < |ids| ==> ids[i] < ids[j]
    {
      ids := [];
      for id := 1 to lastId + 1
        invariant forall x :: x in ids <==> x < id && Live(rows, x)
        invariant forall i, j :: 0 <= i < j < |ids| ==> ids[i] < ids[j]
      {
        if Live(rows, id) {
          assert forall i :: 0 <= i < |ids| ==> ids[i] in ids;
          ids := ids + [id];
        }
      }
    }
  }
}
