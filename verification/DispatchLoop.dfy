/** `pass` and `dispatch_one` as they are written, over the queue the rest of the hub keeps changing. */
module DispatchLoop {
  import opened Options
  import opened Events
  import opened Placement
  import opened QueueStore

  datatype Answer = Started(task: int) | Refusal(detail: string)

  /** What happens while one row is dispatched: the machine's answer, and the rows cancelled before it comes. */
  datatype Turn = Turn(answer: Answer, cancelled: seq<int>)

  function AllWithdrawn(rows: Rows, ids: seq<int>): Rows {
    if ids == [] then rows else Withdrawn(AllWithdrawn(rows, ids[..|ids| - 1]), ids[|ids| - 1])
  }

  lemma {:induction false} WithdrawalsSettle(rows: Rows, ids: seq<int>)
    ensures Settling(rows, AllWithdrawn(rows, ids)) && AllWithdrawn(rows, ids).Keys == rows.Keys
  {
    if ids == [] {
    } else {
      WithdrawalsSettle(rows, ids[..|ids| - 1]);
    }
  }

  /** Exactly the queued rows among these are cancelled. */
  ghost predicate CancelsThese(rows: Rows, later: Rows, ids: seq<int>) {
    && later.Keys == rows.Keys
    && (forall id :: id in rows && id in ids && rows[id].state == Queued ==> later[id] == rows[id].(state := Cancelled))
    && (forall id :: id in rows && !(id in ids && rows[id].state == Queued) ==> later[id] == rows[id])
  }

  lemma {:induction false} WithdrawalsCancel(rows: Rows, ids: seq<int>)
    ensures CancelsThese(rows, AllWithdrawn(rows, ids), ids)
  {
    if ids == [] {
    } else {
      var init := ids[..|ids| - 1];
      WithdrawalsCancel(rows, init);
      assert ids == init + [ids[|ids| - 1]];
    }
  }

  /** No other row changes, nor this one if it has left the queue. */
  ghost predicate OthersStay(rows: Rows, later: Rows, id: int) {
    && later.Keys == rows.Keys
    && (forall other :: other in rows && (other != id || rows[other].state != Queued) ==> later[other] == rows[other])
  }

  /** The row is left queued, and says why. */
  ghost predicate Waits(rows: Rows, later: Rows, id: int, reason: string, considered: seq<string>) {
    && OthersStay(rows, later, id)
    && (id in rows && rows[id].state == Queued ==> later[id] == rows[id].(reason := Some(reason), considered := considered))
  }

  /** The row, unless it has been withdrawn, is recorded where it was sent. */
  ghost predicate Goes(rows: Rows, later: Rows, id: int, machine: string, task: int, considered: seq<string>) {
    && OthersStay(rows, later, id)
    && (id in rows && rows[id].state == Queued ==>
          && later[id].state == Dispatched && later[id].machine == Some(machine) && later[id].remoteTask == Some(task)
          && later[id].considered == considered && later[id].reason == None
          && later[id].wish == rows[id].wish && later[id].title == rows[id].title && later[id].prompt == rows[id].prompt)
  }

  /** What the answer to a request that was sent comes to, from the queue it finds. */
  ghost predicate AnswerTells(
      later: Rows, after: Rows, said: seq<ForgeEvent>, id: int, machine: string, considered: seq<string>, answer: Answer)
  {
    match answer
    case Started(task) =>
      && Goes(later, after, id, machine, task, considered)
      && said == if id in later && later[id].state == Queued then [TaskDispatched(id, machine, task, considered)] else []
    case Refusal(detail) =>
      Waits(later, after, id, detail, considered) && said == [DispatchFailed(id, machine, detail)]
  }

  /**
   What dispatching one row leaves in the queue and adds to the log: a row that
   cannot be placed says why; one that is refused says so too, in the log as
   well; one that is started is recorded where it went and announced, once,
   unless it was withdrawn while the request was out.
   */
  ghost predicate Dispatches(rows: Rows, after: Rows, said: seq<ForgeEvent>, id: int, p: Placement, fleet: nat, turn: Turn) {
    if p.Wait? then said == [] && Waits(rows, after, id, p.reason, p.considered)
    else if p.index >= fleet then said == [] && Waits(rows, after, id, "the chosen machine is no longer configured", p.considered)
    else
      exists later :: CancelsThese(rows, later, turn.cancelled) && AnswerTells(later, after, said, id, p.machine, p.considered, turn.answer)
  }

  lemma OutcomeDispatches(rows: Rows, id: int, wish: Wish, view: seq<Inventory>, fleet: nat, turn: Turn)
    ensures var (after, said) := Outcome(rows, id, wish, view, fleet, turn);
            Dispatches(rows, after, said, id, Place(wish, view), fleet, turn)
  {
    WithdrawalsCancel(rows, turn.cancelled);
    var p := Place(wish, view);
    if p.Send? && p.index < fleet {
      assert CancelsThese(rows, AllWithdrawn(rows, turn.cancelled), turn.cancelled);
    }
  }

  /** What dispatching one row comes to, for the queue and for the log. */
  function Outcome(rows: Rows, id: int, wish: Wish, view: seq<Inventory>, fleet: nat, turn: Turn): (Rows, seq<ForgeEvent>) {
    match Place(wish, view)
    case Wait(reason, considered) => (Reasoned(rows, id, reason, considered), [])
    case Send(index, machine, _, considered) =>
      if index >= fleet then (Reasoned(rows, id, "the chosen machine is no longer configured", considered), [])
      else
        var later := AllWithdrawn(rows, turn.cancelled);
        match turn.answer
        case Started(task) =>
          (Marked(later, id, machine, task, considered),
           if IsQueued(later, id) then [TaskDispatched(id, machine, task, considered)] else [])
        case Refusal(detail) =>
          (Reasoned(later, id, detail, considered), [DispatchFailed(id, machine, detail)])
  }

  /** An announcement is made by the claim that won: the row was queued before and is settled exactly so afterwards. */
  ghost predicate WonBy(before: Rows, after: Rows, e: ForgeEvent)
    requires e.TaskDispatched?
  {
    && IsQueued(before, e.queued)
    && e.queued in after && after[e.queued].state == Dispatched
    && after[e.queued].machine == Some(e.machine) && after[e.queued].remoteTask == Some(e.remoteTask)
    && after[e.queued].considered == e.considered
  }

  lemma StartedSettles(rows: Rows, later: Rows, id: int, machine: string, task: int, considered: seq<string>)
    requires Settling(rows, later) && later.Keys == rows.Keys
    ensures Settling(rows, Marked(later, id, machine, task, considered))
    ensures IsQueued(later, id) ==>
              WonBy(rows, Marked(later, id, machine, task, considered), TaskDispatched(id, machine, task, considered))
  {
  }

  lemma RefusalSettles(rows: Rows, later: Rows, id: int, detail: string, considered: seq<string>)
    requires Settling(rows, later)
    ensures Settling(rows, Reasoned(later, id, detail, considered))
  {
  }

  lemma OutcomeSettles(rows: Rows, id: int, wish: Wish, view: seq<Inventory>, fleet: nat, turn: Turn)
    ensures var (after, events) := Outcome(rows, id, wish, view, fleet, turn);
            && Settling(rows, after)
            && |events| <= 1
            && (events != [] && events[0].TaskDispatched? ==> events[0].queued == id && WonBy(rows, after, events[0]))
  {
    var later := AllWithdrawn(rows, turn.cancelled);
    WithdrawalsSettle(rows, turn.cancelled);
    match Place(wish, view) {
      case Wait(reason, considered) =>
        RefusalSettles(rows, rows, id, reason, considered);
      case Send(index, machine, _, considered) =>
        RefusalSettles(rows, rows, id, "the chosen machine is no longer configured", considered);
        match turn.answer {
          case Started(task) => StartedSettles(rows, later, id, machine, task, considered);
          case Refusal(detail) => RefusalSettles(rows, later, id, detail, considered);
        }
    }
  }

  class Dispatcher {
    const queue: QueueStore
    var events: seq<ForgeEvent>

    constructor (queue: QueueStore)
      ensures this.queue == queue && events == []
    {
      this.queue, events := queue, [];
    }

    method Withdraw(ids: seq<int>)
      requires queue.Valid()
      modifies queue`rows
      ensures queue.Valid() && queue.rows == AllWithdrawn(old(queue.rows), ids)
    {
      for i := 0 to |ids|
        invariant queue.Valid() && queue.rows == AllWithdrawn(old(queue.rows), ids[..i])
      {
        assert ids[..i + 1][..i] == ids[..i];
        var _ := queue.CancelQueued(ids[i]);
      }
      assert ids[..|ids|] == ids;
    }

    method DispatchOne(id: int, wish: Wish, view: seq<Inventory>, fleet: nat, turn: Turn)
      requires queue.Valid()
      modifies this, queue`rows
      ensures queue.Valid()
      ensures queue.rows == Outcome(old(queue.rows), id, wish, view, fleet, turn).0
      ensures events == old(events) + Outcome(old(queue.rows), id, wish, view, fleet, turn).1
      ensures Dispatches(old(queue.rows), queue.rows, events[|old(events)|..], id, Place(wish, view), fleet, turn)
    {
      OutcomeDispatches(queue.rows, id, wish, view, fleet, turn);
      var placement := Place(wish, view);
      if placement.Wait? {
        queue.SetQueueReason(id, placement.reason, placement.considered);
        return;
      }
      if placement.index >= fleet {
        queue.SetQueueReason(id, "the chosen machine is no longer configured", placement.considered);
        return;
      }
      Withdraw(turn.cancelled);
      match turn.answer {
        case Started(task) =>
          var won := queue.MarkDispatched(id, placement.machine, task, placement.considered);
          if won {
            events := events + [TaskDispatched(id, placement.machine, task, placement.considered)];
          }
        case Refusal(detail) =>
          queue.SetQueueReason(id, detail, placement.considered);
          events := events + [DispatchFailed(id, placement.machine, detail)];
      }
    }

    /**
     One pass over everything queued, on one inventory, with rows withdrawn while
     it is taken and while each request is out. Rows only ever leave the queue,
     once; the dispatches the pass announces are exactly the rows it took out of
     the queue as dispatched, each announced once; and every row nobody withdraws
     ends as its placement and its machine's answer have it.
     */
    method Pass(cancelled: seq<int>, view: seq<Inventory>, fleet: nat, turns: seq<Turn>) returns (ghost pending: seq<int>)
      requires queue.Valid()
      modifies this, queue`rows
      ensures queue.Valid() && Settling(old(queue.rows), queue.rows)
      ensures forall id :: id in pending <==> id in old(queue.rows) && old(queue.rows)[id].state == Queued
      ensures forall i, j :: 0 <= i < j < |pending| ==> pending[i] < pending[j]
      ensures |old(events)| <= |events| && events[..|old(events)|] == old(events)
      ensures forall i :: |old(events)| <= i < |events| && events[i].TaskDispatched? ==> WonBy(old(queue.rows), queue.rows, events[i])
      ensures forall i, j :: |old(events)| <= i < j < |events| && events[i].TaskDispatched? && events[j].TaskDispatched?
                ==> events[i].queued != events[j].queued
      ensures forall id :: id in pending && queue.rows[id].state == Dispatched ==> SaidOf(events, |old(events)|, id)
      ensures forall k :: 0 <= k < |pending| && k < |turns| && Spared(pending[k], cancelled, turns) ==>
                SettledBy(queue.rows, pending[k], Place(old(queue.rows)[pending[k]].wish, view), fleet, turns[k].answer)
    {
      var ids := queue.PendingQueue();
      pending := ids;
      ghost var snapshot := queue.rows;
      ghost var base := |events|;
      if ids == [] {
        return;
      }
      Withdraw(cancelled);
      WithdrawalsSettle(snapshot, cancelled);
      WithdrawalsCancel(snapshot, cancelled);
      var k := 0;
      while k < |ids| && k < |turns|
        invariant 0 <= k <= |ids|
        invariant queue.Valid() && old(events) <= events
        invariant Winning(snapshot, queue.rows, events, base)
        invariant Passing(snapshot, queue.rows, events, base, ids, k, cancelled, view, fleet, turns)
      {
        ghost var rows, said := queue.rows, events;
        StillThere(snapshot, rows, events, base, ids, k, cancelled, view, fleet, turns);
        OutcomeSettles(queue.rows, ids[k], queue.rows[ids[k]].wish, view, fleet, turns[k]);
        DispatchOne(ids[k], queue.rows[ids[k]].wish, view, fleet, turns[k]);
        StaysWon(snapshot, rows, queue.rows, said, events, base);
        PassesOn(snapshot, rows, queue.rows, said, events, base, ids, k, cancelled, view, fleet, turns);
        k := k + 1;
      }
    }
  }

  /** Nobody withdraws the row. */
  ghost predicate Spared(id: int, cancelled: seq<int>, turns: seq<Turn>) {
    id !in cancelled && forall j :: 0 <= j < |turns| ==> id !in turns[j].cancelled
  }

  /** The row is as its placement and its machine's answer have it. */
  predicate SettledBy(rows: Rows, id: int, p: Placement, fleet: nat, answer: Answer) {
    && id in rows
    && var row := rows[id];
       if p.Wait? then row.state == Queued && row.reason == Some(p.reason) && row.considered == p.considered
       else if p.index >= fleet then row.state == Queued && row.reason.Some? && row.considered == p.considered
       else
         match answer
         case Started(task) =>
           row.state == Dispatched && row.machine == Some(p.machine) && row.remoteTask == Some(task) && row.considered == p.considered
         case Refusal(detail) =>
           row.state == Queued && row.reason == Some(detail) && row.considered == p.considered
  }

  ghost predicate SaidOf(events: seq<ForgeEvent>, from: nat, id: int) {
    exists i :: from <= i < |events| && events[i].TaskDispatched? && events[i].queued == id
  }

  /** The rows passed are settled, and the rest still queued, unless withdrawn. */
  ghost predicate Passed(
      snapshot: Rows, rows: Rows, ids: seq<int>, k: nat, cancelled: seq<int>, view: seq<Inventory>, fleet: nat, turns: seq<Turn>)
    requires forall id :: id in ids ==> id in snapshot && id in rows
  {
    && (forall j :: 0 <= j < k && j < |ids| && j < |turns| && Spared(ids[j], cancelled, turns) ==>
          SettledBy(rows, ids[j], Place(snapshot[ids[j]].wish, view), fleet, turns[j].answer))
    && (forall j :: k <= j < |ids| && Spared(ids[j], cancelled, turns) ==> rows[ids[j]].state == Queued)
  }

  /** How far a pass has got: and what it has dispatched is announced. */
  ghost predicate Passing(
      snapshot: Rows, rows: Rows, events: seq<ForgeEvent>, base: nat, ids: seq<int>, k: nat, cancelled: seq<int>,
      view: seq<Inventory>, fleet: nat, turns: seq<Turn>)
  {
    && (forall id :: id in ids ==> id in snapshot && id in rows)
    && (forall id :: id in ids && rows[id].state == Dispatched ==> SaidOf(events, base, id))
    && Passed(snapshot, rows, ids, k, cancelled, view, fleet, turns)
  }

  lemma Untouched(rows: Rows, after: Rows, said: seq<ForgeEvent>, id: int, p: Placement, fleet: nat, turn: Turn, other: int)
    requires Dispatches(rows, after, said, id, p, fleet, turn) && other in rows && other != id
    ensures other in after && (other !in turn.cancelled ==> after[other] == rows[other])
    ensures after[other].state == Dispatched ==> rows[other].state == Dispatched
  {
  }

  lemma OwnRow(rows: Rows, after: Rows, said: seq<ForgeEvent>, id: int, p: Placement, fleet: nat, turn: Turn)
    requires Dispatches(rows, after, said, id, p, fleet, turn) && id in rows
    ensures id in after
    ensures rows[id].state == Queued && id !in turn.cancelled ==> SettledBy(after, id, p, fleet, turn.answer)
    ensures after[id].state == Dispatched && rows[id].state != Dispatched ==>
              |said| == 1 && said[0].TaskDispatched? && said[0].queued == id
  {
  }

  lemma StillThere(
      snapshot: Rows, rows: Rows, events: seq<ForgeEvent>, base: nat, ids: seq<int>, k: nat, cancelled: seq<int>,
      view: seq<Inventory>, fleet: nat, turns: seq<Turn>)
    requires k < |ids| && Passing(snapshot, rows, events, base, ids, k, cancelled, view, fleet, turns)
    ensures ids[k] in snapshot && ids[k] in rows
  {
    assert ids[k] in ids;
  }

  lemma OthersUntouched(rows: Rows, after: Rows, said: seq<ForgeEvent>, ids: seq<int>, k: nat, p: Placement, fleet: nat, turn: Turn)
    requires k < |ids| && (forall i, j :: 0 <= i < j < |ids| ==> ids[i] < ids[j]) && (forall id :: id in ids ==> id in rows)
    requires ids[k] in rows && Dispatches(rows, after, said, ids[k], p, fleet, turn)
    ensures forall id :: id in ids ==> id in after
    ensures forall j :: 0 <= j < |ids| && j != k && ids[j] !in turn.cancelled ==> ids[j] in after && after[ids[j]] == rows[ids[j]]
  {
    forall id | id in ids ensures id in after {
      if id == ids[k] {
        OwnRow(rows, after, said, id, p, fleet, turn);
      } else {
        Untouched(rows, after, said, ids[k], p, fleet, turn, id);
      }
    }
    forall j | 0 <= j < |ids| && j != k && ids[j] !in turn.cancelled ensures ids[j] in after && after[ids[j]] == rows[ids[j]] {
      assert ids[j] in ids;
      Untouched(rows, after, said, ids[k], p, fleet, turn, ids[j]);
    }
  }

  lemma StillSaid(events: seq<ForgeEvent>, later: seq<ForgeEvent>, base: nat, id: int)
    requires SaidOf(events, base, id) && events <= later
    ensures SaidOf(later, base, id)
  {
    var i :| base <= i < |events| && events[i].TaskDispatched? && events[i].queued == id;
    assert later[i] == events[i];
  }

  lemma SaysOwn(
      rows: Rows, after: Rows, said: seq<ForgeEvent>, events: seq<ForgeEvent>, base: nat, id: int, p: Placement, fleet: nat, turn: Turn,
      other: int)
    requires base <= |said| && said <= events && id in rows && Dispatches(rows, after, events[|said|..], id, p, fleet, turn)
    requires other in rows && other in after && after[other].state == Dispatched
    requires rows[other].state == Dispatched ==> SaidOf(said, base, other)
    ensures SaidOf(events, base, other)
  {
    if rows[other].state == Dispatched {
      StillSaid(said, events, base, other);
    } else {
      if other != id {
        Untouched(rows, after, events[|said|..], id, p, fleet, turn, other);
      }
      OwnRow(rows, after, events[|said|..], id, p, fleet, turn);
      assert events[|said|] == events[|said|..][0];
    }
  }

  lemma RowsPass(
      snapshot: Rows, rows: Rows, after: Rows, said: seq<ForgeEvent>, ids: seq<int>, k: nat, cancelled: seq<int>,
      view: seq<Inventory>, fleet: nat, turns: seq<Turn>)
    requires k < |ids| && k < |turns| && (forall i, j :: 0 <= i < j < |ids| ==> ids[i] < ids[j])
    requires (forall id :: id in ids ==> id in snapshot && id in rows) && Settling(snapshot, rows)
    requires Passed(snapshot, rows, ids, k, cancelled, view, fleet, turns)
    requires ids[k] in rows && Dispatches(rows, after, said, ids[k], Place(rows[ids[k]].wish, view), fleet, turns[k])
    ensures forall id :: id in ids ==> id in after
    ensures Passed(snapshot, after, ids, k + 1, cancelled, view, fleet, turns)
  {
    var p := Place(rows[ids[k]].wish, view);
    OwnRow(rows, after, said, ids[k], p, fleet, turns[k]);
    OthersUntouched(rows, after, said, ids, k, p, fleet, turns[k]);
    forall j | 0 <= j < k + 1 && j < |ids| && j < |turns| && Spared(ids[j], cancelled, turns)
      ensures SettledBy(after, ids[j], Place(snapshot[ids[j]].wish, view), fleet, turns[j].answer)
    {
      assert ids[j] in ids;
    }
  }

  lemma PassesOn(
      snapshot: Rows, rows: Rows, after: Rows, said: seq<ForgeEvent>, events: seq<ForgeEvent>, base: nat, ids: seq<int>, k: nat,
      cancelled: seq<int>, view: seq<Inventory>, fleet: nat, turns: seq<Turn>)
    requires k < |ids| && k < |turns| && (forall i, j :: 0 <= i < j < |ids| ==> ids[i] < ids[j])
    requires Passing(snapshot, rows, said, base, ids, k, cancelled, view, fleet, turns) && Settling(snapshot, rows)
    requires base <= |said| && said <= events
    requires ids[k] in rows && Dispatches(rows, after, events[|said|..], ids[k], Place(rows[ids[k]].wish, view), fleet, turns[k])
    ensures Passing(snapshot, after, events, base, ids, k + 1, cancelled, view, fleet, turns)
  {
    var id, p, more := ids[k], Place(rows[ids[k]].wish, view), events[|said|..];
    RowsPass(snapshot, rows, after, more, ids, k, cancelled, view, fleet, turns);
    forall other | other in ids && after[other].state == Dispatched ensures SaidOf(events, base, other) {
      SaysOwn(rows, after, said, events, base, id, p, fleet, turns[k], other);
    }
  }

  /** What has been announced was won, by different rows. */
  ghost predicate Winning(snapshot: Rows, rows: Rows, events: seq<ForgeEvent>, base: nat) {
    && Settling(snapshot, rows) && base <= |events|
    && (forall i :: base <= i < |events| && events[i].TaskDispatched? ==> WonBy(snapshot, rows, events[i]))
    && (forall i, j :: base <= i < j < |events| && events[i].TaskDispatched? && events[j].TaskDispatched?
          ==> events[i].queued != events[j].queued)
  }

  /** Announcements already made stay true of the queue, and the next one is about another row. */
  lemma StaysWon(snapshot: Rows, rows: Rows, after: Rows, said: seq<ForgeEvent>, events: seq<ForgeEvent>, base: nat)
    requires Winning(snapshot, rows, said, base) && Settling(rows, after)
    requires |said| <= |events| <= |said| + 1 && said <= events
    requires |events| == |said| + 1 && events[|said|].TaskDispatched? ==>
               WonBy(rows, after, events[|said|]) && events[|said|].queued in snapshot
    ensures Winning(snapshot, after, events, base)
  {
    forall i | base <= i < |events| && events[i].TaskDispatched? ensures WonBy(snapshot, after, events[i]) {
      if i < |said| {
        assert events[i] == said[i];
      }
    }
  }
}
