/** `relay` as it is written: one paging loop, then one select loop, with the rest of the daemon publishing at every await. */
module RelayLoop {
  import opened Options
  import opened Events
  import opened EventLog
  import opened EventBus
  import opened Relay

  /** What one await lets through: what others published meanwhile, and how it ends for this connection. */
  datatype Tick = Tick(published: seq<ForgeEvent>, ok: bool, hangup: bool)

  // ---- what a schedule comes to in the step system ----

  function AllPublished(b: BusState, events: seq<ForgeEvent>): BusState {
    if events == [] then b else Published(AllPublished(b, events[..|events| - 1]), events[|events| - 1])
  }

  /** What a connection does next, if there is anything for it to do. */
  function NextMove(b: BusState, c: Conn, tick: Tick): (move: Option<Move>)
    ensures move.Some? ==> Enabled(b, c, move.value)
  {
    match c.phase
    case Closed => None
    case Backfilling => Some(if c.page == [] then ReadPage(tick.ok) else SendPage(tick.ok))
    case Live =>
      if tick.hangup then Some(Hangup)
      else if |b.ring| <= b.sent && !Receive(b, c.next).Empty? then Some(TakeLive(tick.ok))
      else None
  }

  /** Others publish, then the connection moves; one that is closed is gone. */
  function Ticked(w: World, tick: Tick): World {
    if w.conn.phase == Closed then w
    else
      var bus := AllPublished(w.bus, tick.published);
      var move := NextMove(bus, w.conn, tick);
      World(bus, if move.Some? then Moved(bus, w.conn, move.value) else w.conn)
  }

  function Played(w: World, ticks: seq<Tick>): World {
    if ticks == [] then w else Ticked(Played(w, ticks[..|ticks| - 1]), ticks[|ticks| - 1])
  }

  lemma PlayedNext(w: World, ticks: seq<Tick>, t: nat)
    requires t < |ticks|
    ensures Played(w, ticks[..t + 1]) == Ticked(Played(w, ticks[..t]), ticks[t])
  {
    assert ticks[..t + 1][..t] == ticks[..t];
  }

  lemma ButTheLast(a: seq<Tick>, b: seq<Tick>)
    requires b != []
    ensures (a + b)[..|a + b| - 1] == a + b[..|b| - 1] && (a + b)[|a + b| - 1] == b[|b| - 1] && a + b != []
  {
  }

  lemma {:induction false} PlayedOn(w: World, a: seq<Tick>, b: seq<Tick>)
    ensures Played(w, a + b) == Played(Played(w, a), b)
  {
    if b == [] {
      assert a + b == a;
    } else {
      PlayedOn(w, a, b[..|b| - 1]);
      ButTheLast(a, b);
    }
  }

  lemma {:induction false} ClosedIsOver(w: World, ticks: seq<Tick>)
    requires w.conn.phase == Closed
    ensures Played(w, ticks) == w
  {
    if ticks == [] {
    } else {
      ClosedIsOver(w, ticks[..|ticks| - 1]);
    }
  }

  /** Once it is closed, the rest of the schedule changes nothing. */
  lemma PlayedOut(w: World, ticks: seq<Tick>, t: nat)
    requires t <= |ticks| && (t < |ticks| ==> Played(w, ticks[..t]).conn.phase == Closed)
    ensures Played(w, ticks) == Played(w, ticks[..t])
  {
    assert ticks[..t] + ticks[t..] == ticks;
    PlayedOn(w, ticks[..t], ticks[t..]);
    if t < |ticks| {
      ClosedIsOver(Played(w, ticks[..t]), ticks[t..]);
    }
  }

  lemma {:induction false} PublishedKeeps(w: World, events: seq<ForgeEvent>)
    requires WorldInv(w)
    ensures WorldInv(World(AllPublished(w.bus, events), w.conn))
  {
    if events == [] {
    } else {
      PublishedKeeps(w, events[..|events| - 1]);
      PublishKeeps(AllPublished(w.bus, events[..|events| - 1]), w.conn, events[|events| - 1]);
    }
  }

  lemma TickKeeps(w: World, tick: Tick)
    requires WorldInv(w)
    ensures WorldInv(Ticked(w, tick)) && SameRequest(w.conn, Ticked(w, tick).conn)
  {
    if w.conn.phase != Closed {
      var bus := AllPublished(w.bus, tick.published);
      PublishedKeeps(w, tick.published);
      var move := NextMove(bus, w.conn, tick);
      if move.Some? {
        MoveKeeps(bus, w.conn, move.value);
        MovedRequest(bus, w.conn, move.value);
      }
    }
  }

  lemma {:induction false} PlayKeeps(w: World, ticks: seq<Tick>)
    requires WorldInv(w)
    ensures WorldInv(Played(w, ticks)) && SameRequest(w.conn, Played(w, ticks).conn)
  {
    if ticks == [] {
    } else {
      PlayKeeps(w, ticks[..|ticks| - 1]);
      TickKeeps(Played(w, ticks[..|ticks| - 1]), ticks[|ticks| - 1]);
    }
  }

  // ---- the loops ----

  method PublishAll(bus: Bus, events: seq<ForgeEvent>)
    requires bus.Valid()
    modifies bus, bus.store
    ensures bus.Valid() && bus.State() == AllPublished(old(bus.State()), events)
  {
    for i := 0 to |events|
      invariant bus.Valid() && bus.State() == AllPublished(old(bus.State()), events[..i])
    {
      assert events[..i + 1][..i] == events[..i];
      var _ := bus.Publish(events[i]);
    }
    assert events[..|events|] == events;
  }

  /** The bus and the connection are where the first `t` ticks bring them. */
  ghost predicate At(bus: Bus, c: Conn, start: World, schedule: seq<Tick>, t: nat)
    requires t <= |schedule|
    reads bus, bus.store
  {
    bus.Valid() && World(bus.State(), c) == Played(start, schedule[..t])
  }

  /** Others publish, and then one record of the page goes out, or the connection with it. */
  method SendOne(bus: Bus, tick: Tick, ghost c0: Conn) returns (ghost c: Conn)
    requires bus.Valid() && c0.phase == Backfilling && c0.page != []
    modifies bus, bus.store
    ensures bus.Valid() && World(bus.State(), c) == Ticked(World(old(bus.State()), c0), tick)
    ensures c.next == c0.next && c.task == c0.task
    ensures !tick.ok ==> c.phase == Closed && c.sent == c0.sent
    ensures tick.ok ==> c.phase == Backfilling && c.sent == c0.sent + [c0.page[0]] && c.page == c0.page[1..] && c.pageEnd == c0.pageEnd
    ensures tick.ok && |c0.page| == 1 ==> c.after == c.lastSent == c0.pageEnd
  {
    PublishAll(bus, tick.published);
    c := Moved(bus.State(), c0, SendPage(tick.ok));
  }

  /** Sends one page record by record. `more` says whether there is still a connection, and schedule, afterwards. */
  method SendPageOut(bus: Bus, page: EventPage, schedule: seq<Tick>, from: nat, ghost start: World, ghost c0: Conn)
      returns (delivered: seq<EventRecord>, t: nat, more: bool, ghost c: Conn)
    requires from <= |schedule| && At(bus, c0, start, schedule, from) && c0.phase == Backfilling
    requires page.events != [] && c0.page == page.events && c0.pageEnd == page.nextAfter
    modifies bus, bus.store
    ensures from <= t <= |schedule| && At(bus, c, start, schedule, t)
    ensures c.next == c0.next && c.task == c0.task && c.sent == c0.sent + delivered
    ensures more ==> c.phase == Backfilling && c.page == [] && c.after == c.lastSent == page.nextAfter
    ensures !more ==> t == |schedule| || c.phase == Closed
  {
    delivered, t, c := [], from, c0;
    for i := 0 to |page.events|
      invariant from <= t <= |schedule| && At(bus, c, start, schedule, t)
      invariant c.next == c0.next && c.task == c0.task && c.sent == c0.sent + delivered
      invariant c.phase == Backfilling && c.page == page.events[i..] && c.pageEnd == page.nextAfter
      invariant i == |page.events| ==> c.after == c.lastSent == page.nextAfter
    {
      if t == |schedule| { more := false; return; }
      PlayedNext(start, schedule, t);
      Behead(page.events, i);
      c := SendOne(bus, schedule[t], c);
      t := t + 1;
      if !schedule[t - 1].ok { more := false; return; }
      delivered := delivered + [page.events[i]];
    }
    more := true;
  }

  lemma Behead(events: seq<EventRecord>, i: nat)
    requires i < |events|
    ensures events[i..] != [] && events[i..][0] == events[i] && events[i..][1..] == events[i + 1..]
    ensures |events[i..]| == 1 <==> i + 1 == |events|
  {
  }

  /** The paging loop. It ends on an empty page, or with the connection, or when it is looked at. */
  method Backfill(bus: Bus, cursor: int, task: Option<int>, schedule: seq<Tick>, ghost start: World)
      returns (sent: seq<EventRecord>, lastSent: Option<int>, t: nat, more: bool, ghost c: Conn)
    requires bus.Valid() && start == World(bus.State(), Open(bus.State(), Some(cursor), task))
    modifies bus, bus.store
    ensures t <= |schedule| && At(bus, c, start, schedule, t) && c.sent == sent
    ensures more ==> c.phase == Live && c.lastSent == lastSent && c.next == start.conn.next && c.task == task
    ensures !more ==> t == |schedule| || c.phase == Closed
  {
    sent, lastSent, t, c := [], Some(cursor), 0, start.conn;
    var after := Some(cursor);
    while true
      invariant t <= |schedule| && At(bus, c, start, schedule, t)
      invariant c.next == start.conn.next && c.task == task && c.sent == sent
      invariant c.phase == Backfilling && c.page == [] && c.after == after && c.lastSent == lastSent
      decreases |schedule| - t
    {
      if t == |schedule| { more := false; return; }
      PlayedNext(start, schedule, t);
      PublishAll(bus, schedule[t].published);
      c := Moved(bus.State(), c, ReadPage(schedule[t].ok));
      t := t + 1;
      if !schedule[t - 1].ok { more := false; return; }
      var page := bus.store.Events(Query(after, None, task, false));
      if page.events == [] { more := true; return; }
      var delivered;
      delivered, t, more, c := SendPageOut(bus, page, schedule, t, start, c);
      sent := sent + delivered;
      if !more { return; }
      lastSent := page.nextAfter;
      after := page.nextAfter;
    }
  }

  /** One turn of the select loop with something to receive: skip it by id, skip it by task, send it, or close. */
  method TakeOne(bus: Bus, task: Option<int>, lastSent: Option<int>, next: nat, ok: bool, ghost c: Conn)
      returns (out: seq<EventRecord>, lastSent': Option<int>, next': nat, more: bool)
    requires bus.Valid() && Enabled(bus.State(), c, TakeLive(ok))
    requires c.task == task && c.lastSent == lastSent && c.next == next
    ensures var c' := Moved(bus.State(), c, TakeLive(ok));
            && c'.sent == c.sent + out
            && (more <==> c'.phase == Live) && (!more <==> c'.phase == Closed)
            && (more ==> c'.lastSent == lastSent' && c'.next == next' && c'.task == task)
  {
    out, lastSent', next', more := [], lastSent, next, true;
    var received := bus.Recv(next);
    if received.Lagged? { more := false; return; }
    var record := received.record;
    next' := next + 1;
    if lastSent.Some? && record.id <= lastSent.value { return; }
    if task.Some? && record.event.TaskId() != task { return; }
    lastSent' := Some(record.id);
    if !ok { more := false; return; }
    out := [record];
  }

  /** One wait of the select loop: others publish, then the client leaves, or one record is taken if there is one. */
  method Turn(bus: Bus, task: Option<int>, lastSent: Option<int>, next: nat, tick: Tick, ghost c0: Conn)
      returns (out: seq<EventRecord>, lastSent': Option<int>, next': nat, more: bool, ghost c: Conn)
    requires bus.Valid() && c0.phase == Live && c0.task == task && c0.lastSent == lastSent && c0.next == next
    modifies bus, bus.store
    ensures bus.Valid() && World(bus.State(), c) == Ticked(World(old(bus.State()), c0), tick) && c.sent == c0.sent + out
    ensures (more <==> c.phase == Live) && (!more <==> c.phase == Closed)
    ensures more ==> c.task == task && c.next == next' && c.lastSent == lastSent'
  {
    out, lastSent', next', more, c := [], lastSent, next, !tick.hangup, c0;
    PublishAll(bus, tick.published);
    if tick.hangup {
      c := Moved(bus.State(), c, Hangup);
    } else if next < bus.sent {
      out, lastSent', next', more := TakeOne(bus, task, lastSent, next, tick.ok, c);
      c := Moved(bus.State(), c, TakeLive(tick.ok));
    }
  }

  lemma Grouped(a: seq<EventRecord>, b: seq<EventRecord>, c: seq<EventRecord>)
    ensures (a + b) + c == a + (b + c)
  {
  }

  /** The select loop, until the client leaves, a send fails, the buffer laps it, or it is looked at. */
  method Follow(bus: Bus, task: Option<int>, lastSent0: Option<int>, next0: nat, schedule: seq<Tick>, from: nat, ghost start: World, ghost c0: Conn)
      returns (delivered: seq<EventRecord>, ghost c: Conn, ghost t: nat)
    requires from <= |schedule| && At(bus, c0, start, schedule, from)
    requires c0.phase == Live && c0.task == task && c0.lastSent == lastSent0 && c0.next == next0
    modifies bus, bus.store
    ensures t <= |schedule| && At(bus, c, start, schedule, t) && c.sent == c0.sent + delivered
    ensures t < |schedule| ==> c.phase == Closed
  {
    var lastSent, next, turns, more := lastSent0, next0, from, true;
    delivered, c := [], c0;
    while more && turns < |schedule|
      invariant from <= turns <= |schedule| && At(bus, c, start, schedule, turns) && c.sent == c0.sent + delivered
      invariant more ==> c.phase == Live && c.task == task && c.next == next && c.lastSent == lastSent
      invariant !more ==> c.phase == Closed
    {
      PlayedNext(start, schedule, turns);
      var out;
      out, lastSent, next, more, c := Turn(bus, task, lastSent, next, schedule[turns], c);
      Grouped(c0.sent, delivered, out);
      delivered := delivered + out;
      turns := turns + 1;
    }
    t := turns;
  }

  /**
   Whatever the schedule of publishes, failures and hang-ups, and wherever in
   it the connection is looked at, what it has sent is what the step system has
   sent on that schedule, neither less nor more; and so an in-order prefix of
   what it was opened for, with no gap.
   */
  method RelayEvents(bus: Bus, cursor: Option<int>, task: Option<int>, schedule: seq<Tick>) returns (sent: seq<EventRecord>)
    requires bus.Valid()
    modifies bus, bus.store
    ensures bus.Valid()
    ensures var w := Played(World(old(bus.State()), Open(old(bus.State()), cursor, task)), schedule);
            bus.State() == w.bus && sent == w.conn.sent
    ensures cursor.Some? ==> Tells(sent, bus.store.rows, cursor.value, task)
    ensures cursor.None? ==>
              && old(|bus.store.rows|) <= |bus.store.rows|
              && Tells(sent, bus.store.rows[old(|bus.store.rows|)..], 0, task)
  {
    var next := bus.Subscribe();
    var lastSent, t, more := cursor, 0, true;
    ghost var c := Open(bus.State(), cursor, task);
    ghost var start := World(bus.State(), c);
    sent := [];
    if cursor.Some? {
      sent, lastSent, t, more, c := Backfill(bus, cursor.value, task, schedule, start);
    }
    ghost var end := t;
    if more {
      var delivered;
      delivered, c, end := Follow(bus, task, lastSent, next, schedule, t, start, c);
      sent := sent + delivered;
    }
    PlayedOut(start, schedule, end);
    OpenInv(start.bus, cursor, task);
    PlayKeeps(start, schedule);
    InvTells(bus.State(), c);
  }

  // ---- left in peace, a connection catches up ----

  /** Nothing is published, and nothing fails. */
  predicate Quiet(tick: Tick) {
    tick.published == [] && tick.ok && !tick.hangup
  }

  /** How many quiet ticks a connection needs at most. */
  function Work(b: BusState, c: Conn): int {
    b.sent - c.next + if c.phase == Backfilling then 2 * |Matching(b.log, Mark(c), c.task)| + |c.page| + 1 else 0
  }

  lemma ReadingPageWorks(b: BusState, c: Conn)
    requires Inv(b, c) && Enabled(b, c, ReadPage(true))
    ensures var c' := Moved(b, c, ReadPage(true)); c'.phase != Closed && c'.next == c.next && Work(b, c') < Work(b, c)
  {
    var matching := Matching(b.log, c.after.value, c.task);
    var page := PageOf(b.log, Query(c.after, None, c.task, false)).events;
    if page != [] {
      assert page == matching[..|page|];
      Resumes(b.log, c.after.value, c.task, |page|);
    }
  }

  lemma MoveWorks(b: BusState, c: Conn, move: Move)
    requires Inv(b, c) && Enabled(b, c, move) && !move.Hangup? && move.ok
    requires b.sent - c.next <= 1024
    ensures var c' := Moved(b, c, move); c'.phase != Closed && c'.next >= c.next && Work(b, c') < Work(b, c)
  {
    match move
    case ReadPage(_) => ReadingPageWorks(b, c);
    case SendPage(_) =>
    case TakeLive(_) => ReceivesInOrder(b, c.next);
  }

  lemma WorkIsNatural(b: BusState, c: Conn)
    requires Inv(b, c)
    ensures Work(b, c) >= 0 && (Work(b, c) == 0 && c.phase != Closed ==> c.phase == Live && c.next == b.sent)
  {
  }

  /**
   However far behind, short of the buffer lapping it: once nothing more is
   published and nothing fails, a connection is live and has sent all it was
   opened for after as many ticks as it has work.
   */
  lemma {:induction false} QuietCatchesUp(w: World, ticks: seq<Tick>)
    requires WorldInv(w) && w.conn.phase != Closed && w.bus.sent - w.conn.next <= 1024
    requires (forall i :: 0 <= i < |ticks| ==> Quiet(ticks[i])) && |ticks| >= Work(w.bus, w.conn)
    ensures var end := Played(w, ticks);
            && end.bus == w.bus && end.conn.phase == Live && end.conn.next == end.bus.sent
            && end.conn.sent == Expected(end.bus.log, end.conn)
    decreases |ticks|
  {
    PlayKeeps(w, ticks);
    WorkIsNatural(w.bus, w.conn);
    if ticks == [] {
    } else {
      assert [ticks[0]] + ticks[1..] == ticks && [ticks[0]][..0] == [];
      PlayedOn(w, [ticks[0]], ticks[1..]);
      var w' := Ticked(w, ticks[0]);
      TickKeeps(w, ticks[0]);
      QuietTickWorks(w, ticks[0]);
      QuietCatchesUp(w', ticks[1..]);
    }
    CaughtUpHasAll(Played(w, ticks));
  }

  lemma QuietTickWorks(w: World, tick: Tick)
    requires WorldInv(w) && w.conn.phase != Closed && w.bus.sent - w.conn.next <= 1024 && Quiet(tick)
    ensures var w' := Ticked(w, tick);
            && w'.bus == w.bus && w'.conn.phase != Closed && w'.conn.next >= w.conn.next
            && (Work(w.bus, w.conn) > 0 ==> Work(w'.bus, w'.conn) < Work(w.bus, w.conn))
            && (Work(w.bus, w.conn) == 0 ==> w' == w)
  {
    var move := NextMove(w.bus, w.conn, tick);
    ReceivesInOrder(w.bus, w.conn.next);
    if move.Some? {
      MoveWorks(w.bus, w.conn, move.value);
      MoveKeeps(w.bus, w.conn, move.value);
      WorkIsNatural(w.bus, Moved(w.bus, w.conn, move.value));
    }
  }

  lemma CaughtUpHasAll(w: World)
    requires WorldInv(w) && w.conn.phase == Live && w.conn.next == w.bus.sent
    ensures w.conn.sent == Expected(w.bus.log, w.conn)
  {
    LivePrefix(w.bus, w.conn);
  }

  /** So on any schedule that ends quietly enough, the whole of what was asked for is sent. */
  lemma QuietIsComplete(b: BusState, cursor: Option<int>, task: Option<int>, before: seq<Tick>, quiet: seq<Tick>)
    requires Sound(b)
    requires var w := Played(World(b, Open(b, cursor, task)), before);
             && w.conn.phase != Closed && w.bus.sent - w.conn.next <= 1024
             && |quiet| >= Work(w.bus, w.conn) && forall i :: 0 <= i < |quiet| ==> Quiet(quiet[i])
    ensures var w := Played(World(b, Open(b, cursor, task)), before + quiet);
            && Ordered(w.conn.sent) && |b.log| <= |w.bus.log|
            && forall x :: x in w.conn.sent <==>
                             && x in (if cursor.Some? then w.bus.log else w.bus.log[|b.log|..])
                             && AskedFor(x, OrZero(cursor), task)
  {
    var start := World(b, Open(b, cursor, task));
    var w := Played(start, before);
    OpenInv(b, cursor, task);
    PlayKeeps(start, before);
    QuietCatchesUp(w, quiet);
    PlayedOn(start, before, quiet);
    PlayKeeps(start, before + quiet);
    var end := Played(start, before + quiet);
    AlwaysPrefix(end.bus, end.conn);
    MatchingIsAskedFor(Span(end.bus.log, end.conn), OrZero(cursor), task);
  }
}
