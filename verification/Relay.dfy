/**
 One `WS /ws/events` connection: subscribe, then backfill by pages, then go
 live and skip by id, closing on a lag.
 */
module Relay {
  import opened Options
  import opened Events
  import opened EventLog
  import opened EventBus

  datatype Phase = Backfilling | Live | Closed

  /**
   A connection between two of its awaits. `page` is what is left to send of
   the page just read and `pageEnd` that page's cursor. `joined` (how long
   history was when it subscribed) and `covered` (how much of history has been
   dealt with once live) only serve to state what is proved.
   */
  datatype Conn = Conn(
    cursor: Option<int>, task: Option<int>, phase: Phase, next: nat,
    after: Option<int>, page: seq<EventRecord>, pageEnd: Option<int>,
    lastSent: Option<int>, sent: seq<EventRecord>, joined: nat, covered: nat)

  function Open(b: BusState, cursor: Option<int>, task: Option<int>): Conn {
    Conn(cursor, task, if cursor.Some? then Backfilling else Live, b.sent, cursor, [], None, cursor, [], |b.log|, |b.log|)
  }

  /** What can happen to a connection; `ok` is whether the store or the socket did its part. */
  datatype Move = ReadPage(ok: bool) | SendPage(ok: bool) | TakeLive(ok: bool) | Hangup

  predicate Enabled(b: BusState, c: Conn, move: Move) {
    match move
    case ReadPage(_) => c.phase == Backfilling && c.page == []
    case SendPage(_) => c.phase == Backfilling && c.page != []
    case TakeLive(_) => c.phase == Live && |b.ring| <= b.sent && !Receive(b, c.next).Empty?
    case Hangup => c.phase == Live
  }

  /** The live loop's two reasons to pass a record over. */
  predicate Wanted(c: Conn, record: EventRecord) {
    && !(c.lastSent.Some? && record.id <= c.lastSent.value)
    && !(c.task.Some? && record.event.TaskId() != c.task)
  }

  function Moved(b: BusState, c: Conn, move: Move): Conn
    requires Enabled(b, c, move)
  {
    match move
    case ReadPage(ok) =>
      if !ok then c.(phase := Closed)
      else
        var page := PageOf(b.log, Query(c.after, None, c.task, false));
        if page.events == [] then c.(phase := Live, covered := |b.log|)
        else c.(page := page.events, pageEnd := page.nextAfter)
    case SendPage(ok) =>
      if !ok then c.(phase := Closed)
      else
        var sending := c.(sent := c.sent + [c.page[0]], page := c.page[1..]);
        if |c.page| == 1 then sending.(lastSent := c.pageEnd, after := c.pageEnd) else sending
    case TakeLive(ok) =>
      (match Receive(b, c.next)
       case Empty => c
       case Lagged(_) => c.(phase := Closed)
       case Got(record) =>
         var taken := c.(next := c.next + 1, covered := PastIndex(b, c));
         if !Wanted(c, record) then taken
         else if ok then taken.(lastSent := Some(record.id), sent := c.sent + [record])
         else taken.(lastSent := Some(record.id), phase := Closed))
    case Hangup => c.(phase := Closed)
  }

  function PastIndex(b: BusState, c: Conn): nat {
    if b.sent <= |b.log| && LogIndex(b, c.next) >= c.covered then LogIndex(b, c.next) + 1 else c.covered
  }

  /** Everything this connection is for: history beyond its cursor, or whatever follows its opening. */
  function Expected(log: seq<EventRecord>, c: Conn): seq<EventRecord> {
    Matching(Span(log, c), OrZero(c.cursor), c.task)
  }

  function Span(log: seq<EventRecord>, c: Conn): seq<EventRecord> {
    if c.cursor.Some? || c.joined > |log| then log else log[c.joined..]
  }

  function Start(c: Conn): nat {
    if c.cursor.Some? then 0 else c.joined
  }

  /** How far the backfill will have got once the current page is out. */
  function Mark(c: Conn): int {
    OrZero(if c.page == [] then c.after else c.pageEnd)
  }

  ghost predicate Reached(log: seq<EventRecord>, id: int, base: int) {
    id == base || (id > base && log != [] && id <= log[|log| - 1].id)
  }

  ghost predicate BackfillInv(b: BusState, c: Conn) {
    && c.cursor.Some? && c.after.Some? && c.lastSent == c.after
    && (c.page != [] ==> c.pageEnd.Some?)
    && Reached(b.log, c.after.value, OrZero(c.cursor))
    && Reached(b.log, Mark(c), OrZero(c.cursor))
    && Expected(b.log, c) == c.sent + c.page + Matching(b.log, Mark(c), c.task)
  }

  ghost predicate LiveInv(b: BusState, c: Conn)
    requires b.sent <= |b.log|
  {
    LiveAt(b.log, LogIndex(b, c.next), c)
  }

  /** `upTo` is the row the connection would receive next. */
  ghost predicate LiveAt(log: seq<EventRecord>, upTo: nat, c: Conn) {
    && upTo <= c.covered <= |log|
    && Start(c) <= c.covered
    && (c.lastSent.None? ==> c.cursor.None?)
    && Reached(log, OrZero(c.lastSent), OrZero(c.cursor))
    && c.sent == Matching(log[Start(c)..c.covered], OrZero(c.cursor), c.task)
    && (forall j :: upTo <= j < c.covered ==> !Wanted(c, log[j]))
    && (forall j :: c.covered <= j < |log| ==> (Wanted(c, log[j]) <==> Selected(log[j], OrZero(c.cursor), c.task)))
  }

  ghost predicate Inv(b: BusState, c: Conn) {
    && Sound(b)
    && c.next <= b.sent
    && c.joined <= LogIndex(b, c.next)
    && match c.phase
       case Backfilling => BackfillInv(b, c)
       case Live => LiveInv(b, c)
       case Closed => c.sent <= Expected(b.log, c)
  }

  lemma OpenInv(b: BusState, cursor: Option<int>, task: Option<int>)
    requires Sound(b)
    ensures Inv(b, Open(b, cursor, task))
  {
  }

  // ---- what a publish does to a connection ----

  lemma SpanAppended(b: BusState, c: Conn, event: ForgeEvent)
    requires c.joined <= |b.log|
    ensures Span(Appended(b.log, event), c) == Span(b.log, c) + [EventRecord(NextId(b.log), event)]
    ensures Expected(Appended(b.log, event), c)
         == if Selected(EventRecord(NextId(b.log), event), OrZero(c.cursor), c.task)
            then Expected(b.log, c) + [EventRecord(NextId(b.log), event)] else Expected(b.log, c)
  {
    assert Span(Appended(b.log, event), c) == Span(b.log, c) + [EventRecord(NextId(b.log), event)];
    MatchingSnoc(Span(b.log, c), EventRecord(NextId(b.log), event), OrZero(c.cursor), c.task);
  }

  lemma PublishKeepsBackfill(b: BusState, c: Conn, event: ForgeEvent)
    requires Inv(b, c) && c.phase == Backfilling
    ensures BackfillInv(Published(b, event), c)
  {
    var record := EventRecord(NextId(b.log), event);
    SpanAppended(b, c, event);
    MatchingSnoc(b.log, record, Mark(c), c.task);
    assert Selected(record, OrZero(c.cursor), c.task) <==> Selected(record, Mark(c), c.task);
    var rest := Matching(b.log, Mark(c), c.task);
    assert c.sent + c.page + (rest + [record]) == (c.sent + c.page + rest) + [record];
  }

  lemma LiveAppended(log: seq<EventRecord>, upTo: nat, c: Conn, event: ForgeEvent)
    requires Ordered(log) && LiveAt(log, upTo, c)
    ensures LiveAt(Appended(log, event), upTo, c)
  {
    var log' := Appended(log, event);
    assert log'[Start(c)..c.covered] == log[Start(c)..c.covered];
    forall j | c.covered <= j < |log'|
      ensures Wanted(c, log'[j]) <==> Selected(log'[j], OrZero(c.cursor), c.task)
    {
      if j < |log| {
        assert log'[j] == log[j];
      }
    }
  }

  lemma PublishKeepsLive(b: BusState, c: Conn, event: ForgeEvent)
    requires Inv(b, c) && c.phase == Live
    ensures LiveInv(Published(b, event), c)
  {
    LiveAppended(b.log, LogIndex(b, c.next), c, event);
  }

  lemma PublishKeeps(b: BusState, c: Conn, event: ForgeEvent)
    requires Inv(b, c)
    ensures Inv(Published(b, event), c)
  {
    match c.phase
    case Backfilling => PublishKeepsBackfill(b, c, event);
    case Live => PublishKeepsLive(b, c, event);
    case Closed => SpanAppended(b, c, event);
  }

  // ---- what the connection's own moves do ----

  lemma BackfillPrefix(b: BusState, c: Conn)
    requires Inv(b, c) && c.phase == Backfilling
    ensures c.sent <= Expected(b.log, c)
  {
    assert c.sent + c.page + Matching(b.log, Mark(c), c.task) == c.sent + (c.page + Matching(b.log, Mark(c), c.task));
  }

  lemma LivePrefix(b: BusState, c: Conn)
    requires Inv(b, c) && c.phase == Live
    ensures c.sent <= Expected(b.log, c)
    ensures c.covered == |b.log| ==> c.sent == Expected(b.log, c)
  {
    var span := Span(b.log, c);
    assert b.log[Start(c)..c.covered] == span[..c.covered - Start(c)];
    MatchingPrefix(span, c.covered - Start(c), OrZero(c.cursor), c.task);
    assert c.covered == |b.log| ==> span[..c.covered - Start(c)] == span;
  }

  lemma {:induction false} NoneSelected(log: seq<EventRecord>, after: int, task: Option<int>)
    requires Matching(log, after, task) == []
    ensures forall j :: 0 <= j < |log| ==> !Selected(log[j], after, task)
  {
    if log == [] {
    } else {
      NoneSelected(log[..|log| - 1], after, task);
    }
  }

  lemma EmptyPageGoesLive(b: BusState, c: Conn)
    requires Inv(b, c) && c.phase == Backfilling && c.page == []
    requires Matching(b.log, c.after.value, c.task) == []
    ensures Inv(b, c.(phase := Live, covered := |b.log|))
  {
    NoneSelected(b.log, c.after.value, c.task);
    assert b.log[0..|b.log|] == b.log;
    assert c.sent + [] + [] == c.sent;
  }

  lemma FullPageIsNext(b: BusState, c: Conn, n: nat)
    requires Inv(b, c) && c.phase == Backfilling && c.page == []
    requires 0 < n <= |Matching(b.log, c.after.value, c.task)|
    ensures var page := Matching(b.log, c.after.value, c.task)[..n];
            Inv(b, c.(page := page, pageEnd := Some(page[n - 1].id)))
  {
    var matching := Matching(b.log, c.after.value, c.task);
    MatchingSound(b.log, c.after.value, c.task, n - 1);
    MatchingOrdered(b.log, c.after.value, c.task);
    Resumes(b.log, c.after.value, c.task, n);
    calc {
      c.sent + c.page + matching;
      c.sent + matching;
      { assert matching == matching[..n] + matching[n..]; }
      c.sent + matching[..n] + matching[n..];
    }
    assert IdIn(b.log, matching[n - 1].id);
  }

  ghost predicate IdIn(log: seq<EventRecord>, id: int) {
    exists i :: 0 <= i < |log| && log[i].id == id
  }

  lemma ReadPageKeeps(b: BusState, c: Conn)
    requires Inv(b, c) && Enabled(b, c, ReadPage(true))
    ensures Inv(b, Moved(b, c, ReadPage(true)))
  {
    var matching := Matching(b.log, c.after.value, c.task);
    var page := PageOf(b.log, Query(c.after, None, c.task, false));
    if page.events == [] {
      EmptyPageGoesLive(b, c);
    } else {
      assert page.events == matching[..|page.events|];
      FullPageIsNext(b, c, |page.events|);
    }
  }

  lemma SendPageKeeps(b: BusState, c: Conn)
    requires Inv(b, c) && Enabled(b, c, SendPage(true))
    ensures Inv(b, Moved(b, c, SendPage(true)))
  {
    var c' := Moved(b, c, SendPage(true));
    assert c'.sent + c'.page == c.sent + c.page;
  }

  /** A record still inside what the backfill covered is always passed over. */
  lemma PassesCovered(b: BusState, c: Conn)
    requires Inv(b, c) && c.phase == Live && LogIndex(b, c.next) < c.covered
    ensures !Wanted(c, b.log[LogIndex(b, c.next)])
    ensures Inv(b, c.(next := c.next + 1))
  {
  }

  lemma CoversNext(b: BusState, c: Conn)
    requires Inv(b, c) && c.phase == Live && LogIndex(b, c.next) == c.covered < |b.log|
    ensures var record := b.log[c.covered];
            Matching(b.log[Start(c)..c.covered + 1], OrZero(c.cursor), c.task)
            == if Wanted(c, record) then c.sent + [record] else c.sent
  {
    assert b.log[Start(c)..c.covered + 1] == b.log[Start(c)..c.covered] + [b.log[c.covered]];
    MatchingSnoc(b.log[Start(c)..c.covered], b.log[c.covered], OrZero(c.cursor), c.task);
  }

  lemma SkipsNext(b: BusState, c: Conn)
    requires Inv(b, c) && c.phase == Live && LogIndex(b, c.next) == c.covered < |b.log|
    requires !Wanted(c, b.log[c.covered])
    ensures Inv(b, c.(next := c.next + 1, covered := c.covered + 1))
  {
    CoversNext(b, c);
  }

  function Sending(c: Conn, record: EventRecord): Conn {
    c.(next := c.next + 1, covered := c.covered + 1, lastSent := Some(record.id), sent := c.sent + [record])
  }

  lemma WantedBeyond(b: BusState, c: Conn, j: nat)
    requires Inv(b, c) && c.phase == Live && c.covered < j < |b.log|
    requires Wanted(c, b.log[c.covered])
    ensures Wanted(Sending(c, b.log[c.covered]), b.log[j]) <==> Selected(b.log[j], OrZero(c.cursor), c.task)
  {
    assert Selected(b.log[c.covered], OrZero(c.cursor), c.task);
    assert b.log[c.covered].id < b.log[j].id;
  }

  lemma SendsNext(b: BusState, c: Conn)
    requires Inv(b, c) && c.phase == Live && LogIndex(b, c.next) == c.covered < |b.log|
    requires Wanted(c, b.log[c.covered])
    ensures Inv(b, Sending(c, b.log[c.covered]))
  {
    CoversNext(b, c);
    var c' := Sending(c, b.log[c.covered]);
    assert Selected(b.log[c.covered], OrZero(c.cursor), c.task);
    assert Reached(b.log, OrZero(c'.lastSent), OrZero(c'.cursor));
    forall j | c'.covered <= j < |b.log|
      ensures Wanted(c', b.log[j]) <==> Selected(b.log[j], OrZero(c.cursor), c.task)
    {
      WantedBeyond(b, c, j);
    }
  }

  lemma TakeGotKeeps(b: BusState, c: Conn, ok: bool)
    requires Inv(b, c) && Enabled(b, c, TakeLive(ok)) && Receive(b, c.next).Got?
    ensures Inv(b, Moved(b, c, TakeLive(ok)))
  {
    ReceivesInOrder(b, c.next);
    var n := LogIndex(b, c.next);
    if n < c.covered {
      PassesCovered(b, c);
      assert Moved(b, c, TakeLive(ok)) == c.(next := c.next + 1);
    } else if !Wanted(c, b.log[n]) {
      SkipsNext(b, c);
      assert Moved(b, c, TakeLive(ok)) == c.(next := c.next + 1, covered := c.covered + 1);
    } else if ok {
      SendsNext(b, c);
      assert Moved(b, c, TakeLive(ok)) == Sending(c, b.log[n]);
    } else {
      LivePrefix(b, c);
    }
  }

  lemma TakeLiveKeeps(b: BusState, c: Conn, ok: bool)
    requires Inv(b, c) && Enabled(b, c, TakeLive(ok))
    ensures Inv(b, Moved(b, c, TakeLive(ok)))
  {
    if Receive(b, c.next).Got? {
      TakeGotKeeps(b, c, ok);
    } else {
      LivePrefix(b, c);
    }
  }

  lemma MoveKeeps(b: BusState, c: Conn, move: Move)
    requires Inv(b, c) && Enabled(b, c, move)
    ensures Inv(b, Moved(b, c, move))
  {
    match move
    case ReadPage(ok) => if ok { ReadPageKeeps(b, c); } else { BackfillPrefix(b, c); }
    case SendPage(ok) => if ok { SendPageKeeps(b, c); } else { BackfillPrefix(b, c); }
    case TakeLive(ok) => TakeLiveKeeps(b, c, ok);
    case Hangup => LivePrefix(b, c);
  }

  lemma AlwaysPrefix(b: BusState, c: Conn)
    requires Inv(b, c)
    ensures c.sent <= Expected(b.log, c)
    ensures Ordered(c.sent)
  {
    match c.phase {
      case Backfilling => BackfillPrefix(b, c);
      case Live => LivePrefix(b, c);
      case Closed =>
    }
    MatchingOrdered(Span(b.log, c), OrZero(c.cursor), c.task);
  }

  // ---- whole runs ----

  datatype World = World(bus: BusState, conn: Conn)

  /** Anyone may publish between any two moves of the connection. */
  datatype Action = Publish(event: ForgeEvent) | Step(move: Move)

  predicate Legal(w: World, actions: seq<Action>)
    decreases |actions|
  {
    actions != [] ==>
      && (actions[0].Step? ==> Enabled(w.bus, w.conn, actions[0].move))
      && Legal(After(w, actions[0]), actions[1..])
  }

  function After(w: World, action: Action): World
    requires action.Step? ==> Enabled(w.bus, w.conn, action.move)
  {
    match action
    case Publish(event) => w.(bus := Published(w.bus, event))
    case Step(move) => w.(conn := Moved(w.bus, w.conn, move))
  }

  function Run(w: World, actions: seq<Action>): World
    requires Legal(w, actions)
    decreases |actions|
  {
    if actions == [] then w else Run(After(w, actions[0]), actions[1..])
  }

  predicate SameRequest(c: Conn, c': Conn) {
    c'.cursor == c.cursor && c'.task == c.task && c'.joined == c.joined
  }

  lemma MovedRequest(b: BusState, c: Conn, move: Move)
    requires Enabled(b, c, move)
    ensures SameRequest(c, Moved(b, c, move)) && c.sent <= Moved(b, c, move).sent
  {
  }

  ghost predicate WorldInv(w: World) {
    Inv(w.bus, w.conn)
  }

  lemma AfterKeeps(w: World, action: Action)
    requires WorldInv(w) && (action.Step? ==> Enabled(w.bus, w.conn, action.move))
    ensures WorldInv(After(w, action)) && SameRequest(w.conn, After(w, action).conn)
  {
    if action.Publish? {
      PublishKeeps(w.bus, w.conn, action.event);
    } else {
      MoveKeeps(w.bus, w.conn, action.move);
      MovedRequest(w.bus, w.conn, action.move);
      assert After(w, action) == World(w.bus, Moved(w.bus, w.conn, action.move));
    }
  }

  lemma {:induction false} RunKeeps(w: World, actions: seq<Action>)
    requires Legal(w, actions) && WorldInv(w)
    ensures WorldInv(Run(w, actions)) && SameRequest(w.conn, Run(w, actions).conn)
    decreases |actions|
  {
    if actions == [] {
    } else {
      AfterKeeps(w, actions[0]);
      RunKeeps(After(w, actions[0]), actions[1..]);
    }
  }

  lemma {:induction false} RunSnoc(w: World, actions: seq<Action>, last: Action)
    requires Legal(w, actions)
    requires last.Step? ==> Enabled(Run(w, actions).bus, Run(w, actions).conn, last.move)
    ensures Legal(w, actions + [last]) && Run(w, actions + [last]) == After(Run(w, actions), last)
    decreases |actions|
  {
    if actions == [] {
      assert [last][1..] == [];
    } else {
      RunSnoc(After(w, actions[0]), actions[1..], last);
      assert (actions + [last])[1..] == actions[1..] + [last];
    }
  }

  /**
   In strictly rising order, nothing but what was asked for of these rows, and
   nothing asked for left out before the last of it.
   */
  ghost predicate Tells(sent: seq<EventRecord>, rows: seq<EventRecord>, after: int, task: Option<int>) {
    && Ordered(sent)
    && (forall x :: x in sent ==> x in rows && AskedFor(x, after, task))
    && (forall x, y :: x in rows && AskedFor(x, after, task) && y in sent && x.id < y.id ==> x in sent)
  }

  lemma PrefixTells(sent: seq<EventRecord>, rows: seq<EventRecord>, after: int, task: Option<int>)
    requires Ordered(rows) && sent <= Matching(rows, after, task)
    ensures Tells(sent, rows, after, task)
  {
    var all := Matching(rows, after, task);
    MatchingIsAskedFor(rows, after, task);
    MatchingOrdered(rows, after, task);
    forall x, y | x in rows && AskedFor(x, after, task) && y in sent && x.id < y.id ensures x in sent {
      assert x in all;
      var i, j :| 0 <= i < |all| && all[i] == x && 0 <= j < |sent| && sent[j] == y;
      assert all[j] == y && sent[i] == x;
    }
  }

  /** On whatever run it got there. */
  lemma InvTells(b: BusState, c: Conn)
    requires Inv(b, c)
    ensures c.cursor.Some? ==> Tells(c.sent, b.log, c.cursor.value, c.task)
    ensures c.cursor.None? ==> c.joined <= |b.log| && Tells(c.sent, b.log[c.joined..], 0, c.task)
  {
    AlwaysPrefix(b, c);
    PrefixTells(c.sent, Span(b.log, c), OrZero(c.cursor), c.task);
  }

  /** A connection is closed only when something of its own fails, the client leaves, or the buffer has lapped it. */
  lemma ClosesOnlyIf(b: BusState, c: Conn, move: Move)
    requires Inv(b, c) && Enabled(b, c, move)
    ensures Moved(b, c, move).phase == Closed ==> move.Hangup? || !move.ok || b.sent - c.next > 1024
  {
  }

  /**
   Whatever is published whenever, and however the buffer overflows, what a
   connection has sent is a prefix of the filtered history it was opened on, in
   strictly rising id order: no gap, no duplicate, nothing out of order.
   */
  lemma NoGapNoDuplicate(b: BusState, cursor: Option<int>, task: Option<int>, actions: seq<Action>)
    requires Sound(b)
    requires Legal(World(b, Open(b, cursor, task)), actions)
    ensures var w := Run(World(b, Open(b, cursor, task)), actions);
            && Ordered(w.conn.sent)
            && (cursor.Some? ==> w.conn.sent <= Matching(w.bus.log, cursor.value, task))
            && (cursor.None? ==> |b.log| <= |w.bus.log| && w.conn.sent <= Matching(w.bus.log[|b.log|..], 0, task))
            && (cursor.Some? ==> Tells(w.conn.sent, w.bus.log, cursor.value, task))
            && (cursor.None? ==> Tells(w.conn.sent, w.bus.log[|b.log|..], 0, task))
  {
    OpenInv(b, cursor, task);
    RunKeeps(World(b, Open(b, cursor, task)), actions);
    var w := Run(World(b, Open(b, cursor, task)), actions);
    AlwaysPrefix(w.bus, w.conn);
    if cursor.Some? {
      PrefixTells(w.conn.sent, w.bus.log, cursor.value, task);
    } else {
      PrefixTells(w.conn.sent, w.bus.log[|b.log|..], 0, task);
    }
  }

  /** A live connection with nothing left to receive has sent all of it, so nothing is ever missed for good. */
  lemma CaughtUpIsComplete(b: BusState, cursor: Option<int>, task: Option<int>, actions: seq<Action>)
    requires Sound(b)
    requires Legal(World(b, Open(b, cursor, task)), actions)
    ensures var w := Run(World(b, Open(b, cursor, task)), actions);
            w.conn.phase == Live && w.conn.next == w.bus.sent ==>
              && w.conn.sent == Expected(w.bus.log, w.conn)
              && (cursor.Some? ==> forall x :: x in w.conn.sent <==> x in w.bus.log && AskedFor(x, cursor.value, task))
              && (cursor.None? ==> |b.log| <= |w.bus.log|
                                   && forall x :: x in w.conn.sent <==> x in w.bus.log[|b.log|..] && AskedFor(x, 0, task))
  {
    OpenInv(b, cursor, task);
    RunKeeps(World(b, Open(b, cursor, task)), actions);
    var w := Run(World(b, Open(b, cursor, task)), actions);
    if w.conn.phase == Live && w.conn.next == w.bus.sent {
      LivePrefix(w.bus, w.conn);
      MatchingIsAskedFor(Span(w.bus.log, w.conn), OrZero(cursor), task);
    }
  }

  /** The buffer can lag only a connection that left more than its capacity unread; then it closes having sent nothing more. */
  lemma LagCloses(b: BusState, c: Conn, ok: bool)
    requires Inv(b, c) && c.phase == Live && b.sent - c.next > 1024
    ensures Enabled(b, c, TakeLive(ok))
    ensures Moved(b, c, TakeLive(ok)) == c.(phase := Closed)
  {
    ReceivesInOrder(b, c.next);
  }
}
