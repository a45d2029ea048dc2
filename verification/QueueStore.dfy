/** The hub's queue: rows that leave `queued` once, by a conditional update. */
module QueueStore {
  import opened Options
  import opened Placement

  datatype QueueState = Queued | Dispatched | Cancelled

  datatype QueueRow = QueueRow(
    wish: Wish, title: string, prompt: Option<string>,
    state: QueueState, reason: Option<string>, machine: Option<string>, remoteTask: Option<int>, considered: seq<string>)

  type Rows = map<int, QueueRow>

  predicate IsQueued(rows: Rows, id: int) {
    id in rows && rows[id].state == Queued
  }

  function NewRow(wish: Wish, title: string, prompt: Option<string>): QueueRow {
    QueueRow(wish, title, prompt, Queued, None, None, None, [])
  }

  function Marked(rows: Rows, id: int, machine: string, remoteTask: int, considered: seq<string>): Rows {
    if IsQueued(rows, id) then
      rows[id := rows[id].(state := Dispatched, machine := Some(machine), remoteTask := Some(remoteTask),
                          considered := considered, reason := None)]
    else rows
  }

  function Reasoned(rows: Rows, id: int, reason: string, considered: seq<string>): Rows {
    if IsQueued(rows, id) then rows[id := rows[id].(reason := Some(reason), considered := considered)] else rows
  }

  function Withdrawn(rows: Rows, id: int): Rows {
    if IsQueued(rows, id) then rows[id := rows[id].(state := Cancelled)] else rows
  }

  /** No row disappears or changes what it asks for, and one that has left `queued` changes no more. */
  ghost predicate Settling(rows: Rows, later: Rows) {
    forall id :: id in rows ==>
      && id in later
      && later[id].wish == rows[id].wish
      && (rows[id].state != Queued ==> later[id] == rows[id])
  }

  lemma UpdatesSettle(rows: Rows, id: int, machine: string, task: int, reason: string, considered: seq<string>)
    ensures Settling(rows, Marked(rows, id, machine, task, considered))
    ensures Settling(rows, Reasoned(rows, id, reason, considered))
    ensures Settling(rows, Withdrawn(rows, id))
  {
  }

  class QueueStore {
    var rows: Rows
    var lastId: nat

    /** Ids are handed out in order and never reused. */
    ghost predicate Valid()
      reads this
    {
      forall id :: id in rows ==> 1 <= id <= lastId
    }

    constructor ()
      ensures Valid() && rows == map[]
    {
      rows, lastId := map[], 0;
    }

    method Enqueue(wish: Wish, title: string, prompt: Option<string>) returns (id: int)
      requires Valid()
      modifies this
      ensures Valid() && id !in old(rows) && rows == old(rows)[id := NewRow(wish, title, prompt)]
    {
      lastId := lastId + 1;
      id := lastId;
      rows := rows[id := NewRow(wish, title, prompt)];
    }

    /** The ids still queued, oldest first. */
    method PendingQueue() returns (ids: seq<int>)
      requires Valid()
      ensures forall id :: id in ids <==> IsQueued(rows, id)
      ensures forall i, j :: 0 <= i < j < |ids| ==> ids[i] < ids[j]
    {
      ids := [];
      for id := 1 to lastId + 1
        invariant forall x :: x in ids <==> x < id && IsQueued(rows, x)
        invariant forall i, j :: 0 <= i < j < |ids| ==> ids[i] < ids[j]
      {
        if IsQueued(rows, id) {
          assert forall i :: 0 <= i < |ids| ==> ids[i] in ids;
          ids := ids + [id];
        }
      }
    }

    method MarkDispatched(id: int, machine: string, remoteTask: int, considered: seq<string>) returns (won: bool)
      requires Valid()
      modifies this`rows
      ensures Valid() && rows == Marked(old(rows), id, machine, remoteTask, considered)
      ensures won <==> id in old(rows) && old(rows)[id].state == Queued
      ensures won ==>
                && rows[id].state == Dispatched && rows[id].machine == Some(machine) && rows[id].remoteTask == Some(remoteTask)
                && rows[id].considered == considered && rows[id].reason == None
      ensures !won ==> rows == old(rows)
      ensures rows.Keys == old(rows).Keys && forall other :: other in rows && other != id ==> rows[other] == old(rows)[other]
    {
      won := id in rows && rows[id].state == Queued;
      if won {
        rows := rows[id := rows[id].(state := Dispatched, machine := Some(machine), remoteTask := Some(remoteTask),
                                     considered := considered, reason := None)];
      }
    }

    method SetQueueReason(id: int, reason: string, considered: seq<string>)
      requires Valid()
      modifies this`rows
      ensures Valid() && rows == Reasoned(old(rows), id, reason, considered)
      ensures id in rows && rows[id].state == Queued ==> rows[id].reason == Some(reason) && rows[id].considered == considered
      ensures rows.Keys == old(rows).Keys && forall other :: other in rows && other != id ==> rows[other] == old(rows)[other]
    {
      if id in rows && rows[id].state == Queued {
        rows := rows[id := rows[id].(reason := Some(reason), considered := considered)];
      }
    }

    method CancelQueued(id: int) returns (won: bool)
      requires Valid()
      modifies this`rows
      ensures Valid() && rows == Withdrawn(old(rows), id)
      ensures won <==> id in old(rows) && old(rows)[id].state == Queued
      ensures won ==> rows[id].state == Cancelled
      ensures rows.Keys == old(rows).Keys && forall other :: other in rows && other != id ==> rows[other] == old(rows)[other]
    {
      won := id in rows && rows[id].state == Queued;
      if won {
        rows := rows[id := rows[id].(state := Cancelled)];
      }
    }
  }
}
