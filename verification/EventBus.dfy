/**
 The bus: one publish path that both persists and fans out, over a bounded
 buffer that drops its oldest records under a slow subscriber.
 */
module EventBus {
  import opened Options
  import opened Events
  import opened EventLog

  const CAPACITY: nat := 1024

  /** The log, the broadcast buffer, and how many records were ever broadcast. */
  datatype BusState = BusState(log: seq<EventRecord>, ring: seq<EventRecord>, sent: nat)

  /** The buffer always holds the newest of what history holds. */
  ghost predicate Sound(b: BusState) {
    && Ordered(b.log)
    && b.sent <= |b.log|
    && |b.ring| == (if b.sent < CAPACITY then b.sent else CAPACITY)
    && b.ring == b.log[|b.log| - |b.ring|..]
  }

  /** A daemon that has just opened its database: history, and nothing broadcast yet. */
  function Reopened(log: seq<EventRecord>): BusState {
    BusState(log, [], 0)
  }

  function Pushed(ring: seq<EventRecord>, record: EventRecord): seq<EventRecord> {
    if |ring| < CAPACITY then ring + [record] else ring[1..] + [record]
  }

  /** Persist and broadcast are one step, because both happen under the store lock. */
  function Published(b: BusState, event: ForgeEvent): (r: BusState)
    ensures Sound(b) ==> Sound(r)
  {
    BusState(Appended(b.log, event), Pushed(b.ring, EventRecord(NextId(b.log), event)), b.sent + 1)
  }

  datatype Received = Empty | Lagged(missed: nat) | Got(record: EventRecord)

  /** What a receiver that has taken everything before broadcast number `next` gets now. */
  function Receive(b: BusState, next: nat): Received
    requires |b.ring| <= b.sent
  {
    var oldest := b.sent - |b.ring|;
    if next >= b.sent then Empty
    else if next < oldest then Lagged(oldest - next)
    else Got(b.ring[next - oldest])
  }

  /** Where broadcast number `next` sits in history. */
  function LogIndex(b: BusState, next: nat): (i: nat)
    requires b.sent <= |b.log|
  {
    |b.log| - b.sent + next
  }

  /** A receiver is given the very row of history it is up to, or told that it lags; never another row. */
  lemma ReceivesInOrder(b: BusState, next: nat)
    requires Sound(b) && next <= b.sent
    ensures Receive(b, next).Got? ==> LogIndex(b, next) < |b.log| && Receive(b, next).record == b.log[LogIndex(b, next)]
    ensures Receive(b, next).Empty? <==> next == b.sent
    ensures Receive(b, next).Lagged? <==> b.sent - next > 1024
  {
  }

  lemma RingFits(b: BusState)
    requires Sound(b)
    ensures |b.ring| <= CAPACITY && Ordered(b.log)
  {
  }

  lemma PublishedIs(was: BusState, event: ForgeEvent, now: BusState)
    requires Sound(was) && now.log == Appended(was.log, event) && now.sent == was.sent + 1
    requires var record := EventRecord(NextId(was.log), event);
             now.ring == (if |was.ring| == CAPACITY then was.ring[1..] else was.ring) + [record]
    ensures now == Published(was, event) && Sound(now)
  {
  }

  class Bus {
    const store: EventStore
    var ring: seq<EventRecord>
    var sent: nat

    ghost function State(): BusState
      reads this, store
    {
      BusState(store.rows, ring, sent)
    }

    ghost predicate Valid()
      reads this, store
    {
      Sound(State())
    }

    constructor (store: EventStore)
      requires Ordered(store.rows)
      ensures this.store == store
      ensures Valid() && State() == Reopened(store.rows)
    {
      this.store, ring, sent := store, [], 0;
    }

    method Publish(event: ForgeEvent) returns (record: EventRecord)
      requires Valid()
      modifies this, store
      ensures Valid() && State() == Published(old(State()), event)
      ensures record.event == event && store.rows == old(store.rows) + [record]
    {
      ghost var was := State();
      RingFits(was);
      record := store.Append(event);
      if |ring| == CAPACITY {
        ring := ring[1..];
      }
      ring := ring + [record];
      sent := sent + 1;
      PublishedIs(was, event, State());
    }

    method Subscribe() returns (next: nat)
      ensures next == sent
    {
      next := sent;
    }

    method Recv(next: nat) returns (received: Received)
      requires Valid()
      ensures received == Receive(State(), next)
    {
      if next >= sent {
        received := Empty;
      } else if next < sent - |ring| {
        received := Lagged(sent - |ring| - next);
      } else {
        received := Got(ring[next - (sent - |ring|)]);
      }
    }
  }
}
