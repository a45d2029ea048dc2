/** The append-only `events` table and the two ways a page of it is read. */
module EventLog {
  import opened Options
  import opened Events

  const MAX_PAGE: nat := 500
  const DEFAULT_PAGE: nat := 100

  /** Which slice of history to return. */
  datatype Query = Query(after: Option<int>, limit: Option<nat>, task: Option<int>, newest: bool)

  datatype EventPage = EventPage(events: seq<EventRecord>, nextAfter: Option<int>)

  /** Row ids are positive and only grow. */
  ghost predicate Ordered(log: seq<EventRecord>) {
    && (forall i :: 0 <= i < |log| ==> log[i].id > 0)
    && (forall i, j :: 0 <= i < j < |log| ==> log[i].id < log[j].id)
  }

  /** SQLite gives an appended row the id after the largest. */
  function NextId(log: seq<EventRecord>): int {
    if log == [] then 1 else log[|log| - 1].id + 1
  }

  function Appended(log: seq<EventRecord>, event: ForgeEvent): (r: seq<EventRecord>)
    ensures Ordered(log) ==> Ordered(r)
  {
    log + [EventRecord(NextId(log), event)]
  }

  function OrZero(id: Option<int>): int {
    if id.Some? then id.value else 0
  }

  /** The WHERE clause. A row without a task never equals the task asked for. */
  predicate Selected(record: EventRecord, after: int, task: Option<int>) {
    record.id > after && (task.None? || record.event.TaskId() == task)
  }

  /** All of history a query selects, oldest first. */
  function Matching(log: seq<EventRecord>, after: int, task: Option<int>): seq<EventRecord> {
    if log == [] then []
    else
      var init, last := log[..|log| - 1], log[|log| - 1];
      if Selected(last, after, task) then Matching(init, after, task) + [last] else Matching(init, after, task)
  }

  function Limit(limit: Option<nat>): (n: nat)
    ensures 1 <= n <= MAX_PAGE
  {
    var asked := if limit.Some? then limit.value else DEFAULT_PAGE;
    if asked < 1 then 1 else if asked > MAX_PAGE then MAX_PAGE else asked
  }

  function PageOfEvents(events: seq<EventRecord>): EventPage {
    EventPage(events, if events == [] then None else Some(events[|events| - 1].id))
  }

  function FirstOf(s: seq<EventRecord>, n: nat): seq<EventRecord> {
    if |s| <= n then s else s[..n]
  }

  function LastOf(s: seq<EventRecord>, n: nat): seq<EventRecord> {
    if |s| <= n then s else s[|s| - n..]
  }

  /** A page is one end of what matches, and reads oldest first from either. */
  function PageOf(log: seq<EventRecord>, query: Query): EventPage {
    var matching := Matching(log, OrZero(query.after), query.task);
    PageOfEvents(if query.newest then LastOf(matching, Limit(query.limit)) else FirstOf(matching, Limit(query.limit)))
  }

  // ---- what selecting does to appended, split and resumed histories ----

  lemma MatchingSnoc(log: seq<EventRecord>, last: EventRecord, after: int, task: Option<int>)
    ensures Matching(log + [last], after, task)
         == if Selected(last, after, task) then Matching(log, after, task) + [last] else Matching(log, after, task)
  {
    assert (log + [last])[..|log|] == log;
  }

  lemma {:induction false} MatchingConcat(a: seq<EventRecord>, b: seq<EventRecord>, after: int, task: Option<int>)
    ensures Matching(a + b, after, task) == Matching(a, after, task) + Matching(b, after, task)
    decreases |b|
  {
    if b == [] {
      assert a + b == a;
    } else {
      var init, last := b[..|b| - 1], b[|b| - 1];
      MatchingConcat(a, init, after, task);
      assert b == init + [last];
      assert a + b == (a + init) + [last];
      MatchingSnoc(a + init, last, after, task);
      Regroup(Matching(a, after, task), Matching(init, after, task), [last]);
    }
  }

  lemma Regroup(a: seq<EventRecord>, b: seq<EventRecord>, c: seq<EventRecord>)
    ensures (a + b) + c == a + (b + c)
  {
  }

  /** Everything selected is a selected row of the log. */
  lemma {:induction false} MatchingSound(log: seq<EventRecord>, after: int, task: Option<int>, i: nat)
    requires i < |Matching(log, after, task)|
    ensures var x := Matching(log, after, task)[i]; x in log && Selected(x, after, task)
  {
    var init, last := log[..|log| - 1], log[|log| - 1];
    if i < |Matching(init, after, task)| {
      MatchingSound(init, after, task, i);
    }
  }

  /** and every selected row is among it. */
  lemma {:induction false} MatchingComplete(log: seq<EventRecord>, after: int, task: Option<int>, x: EventRecord)
    requires x in log && Selected(x, after, task)
    ensures x in Matching(log, after, task)
  {
    var init, last := log[..|log| - 1], log[|log| - 1];
    assert log == init + [last];
    if x in init {
      MatchingComplete(init, after, task, x);
    } else {
    }
  }

  /** Beyond a cursor, and about the task asked for: its own field says which. */
  predicate AskedFor(record: EventRecord, after: int, task: Option<int>) {
    record.id > after && (task.Some? ==> IsAbout(record.event, task.value))
  }

  /** What is selected is exactly what was asked for. */
  lemma MatchingIsAskedFor(log: seq<EventRecord>, after: int, task: Option<int>)
    ensures forall x :: x in Matching(log, after, task) <==> x in log && AskedFor(x, after, task)
  {
    forall x ensures x in Matching(log, after, task) <==> x in log && AskedFor(x, after, task) {
      if x in Matching(log, after, task) {
        var i :| 0 <= i < |Matching(log, after, task)| && Matching(log, after, task)[i] == x;
        MatchingSound(log, after, task, i);
      }
      if x in log && AskedFor(x, after, task) {
        MatchingComplete(log, after, task, x);
      }
    }
  }

  lemma {:induction false} MatchingOrdered(log: seq<EventRecord>, after: int, task: Option<int>)
    requires Ordered(log)
    ensures Ordered(Matching(log, after, task))
  {
    if log == [] {
    } else {
      var init := log[..|log| - 1];
      MatchingOrdered(init, after, task);
      forall i | 0 <= i < |Matching(init, after, task)|
        ensures Matching(init, after, task)[i].id < log[|log| - 1].id
      {
        MatchingSound(init, after, task, i);
      }
    }
  }

  lemma MatchingPrefix(log: seq<EventRecord>, k: nat, after: int, task: Option<int>)
    requires k <= |log|
    ensures Matching(log[..k], after, task) <= Matching(log, after, task)
  {
    MatchingConcat(log[..k], log[k..], after, task);
    assert log[..k] + log[k..] == log;
  }

  /** Selecting beyond a later id selects again from what was already selected. */
  lemma {:induction false} MatchingNarrow(log: seq<EventRecord>, after: int, later: int, task: Option<int>)
    requires after <= later
    ensures Matching(log, later, task) == Matching(Matching(log, after, task), later, task)
  {
    if log == [] {
    } else {
      var init, last := log[..|log| - 1], log[|log| - 1];
      MatchingNarrow(init, after, later, task);
      MatchingSnoc(Matching(init, after, task), last, later, task);
    }
  }

  /** Rows that all lie beyond the cursor, and all match, are all selected; rows at or before it never are. */
  lemma {:induction false} MatchingAll(log: seq<EventRecord>, after: int, task: Option<int>)
    ensures (forall i :: 0 <= i < |log| ==> Selected(log[i], after, task)) ==> Matching(log, after, task) == log
    ensures (forall i :: 0 <= i < |log| ==> !Selected(log[i], after, task)) ==> Matching(log, after, task) == []
  {
    if log == [] {
    } else {
      MatchingAll(log[..|log| - 1], after, task);
    }
  }

  lemma SplitsAt(log: seq<EventRecord>, n: nat, after: int, task: Option<int>)
    requires n <= |log|
    requires forall i :: 0 <= i < n ==> !Selected(log[i], after, task)
    requires forall i :: n <= i < |log| ==> Selected(log[i], after, task)
    ensures Matching(log, after, task) == log[n..]
  {
    var front, rest := log[..n], log[n..];
    assert log == front + rest;
    MatchingConcat(front, rest, after, task);
    MatchingAll(front, after, task);
    MatchingAll(rest, after, task);
  }

  /**
   Paging resumes exactly where it stopped: asking beyond the last id of a
   non-empty prefix of what matches yields the rest of what matches.
   */
  lemma Resumes(log: seq<EventRecord>, after: int, task: Option<int>, n: nat)
    requires Ordered(log)
    requires 0 < n <= |Matching(log, after, task)|
    ensures Matching(log, Matching(log, after, task)[n - 1].id, task) == Matching(log, after, task)[n..]
  {
    var all := Matching(log, after, task);
    var mark := all[n - 1].id;
    MatchingOrdered(log, after, task);
    MatchingSound(log, after, task, n - 1);
    MatchingNarrow(log, after, mark, task);
    forall i | n <= i < |all| ensures Selected(all[i], mark, task) {
      MatchingSound(log, after, task, i);
    }
    SplitsAt(all, n, mark, task);
  }

  /** With no task filter, what lies beyond a row's own id is exactly the rows after it. */
  lemma MatchingAfterRow(log: seq<EventRecord>, k: nat)
    requires Ordered(log) && k < |log|
    ensures Matching(log, log[k].id, None) == log[k + 1..]
  {
    SplitsAt(log, k + 1, log[k].id, None);
  }

  /**
   A page: rising rows of history that were asked for, as many as the limit lets
   through. What is left out of it lies beyond its end, or, of the newest, before
   its beginning, and then the page is full.
   */
  ghost predicate IsPage(log: seq<EventRecord>, query: Query, page: EventPage) {
    var (events, after) := (page.events, if query.after.Some? then query.after.value else 0);
    var most := match query.limit case None => 100 case Some(n) => if n == 0 then 1 else if n > 500 then 500 else n;
    && Ordered(events) && |events| <= most
    && (forall x :: x in events ==> x in log && AskedFor(x, after, query.task))
    && (forall x, y :: x in log && AskedFor(x, after, query.task) && x !in events && y in events ==>
          if query.newest then x.id < y.id else y.id < x.id)
    && (forall x :: x in log && AskedFor(x, after, query.task) && x !in events ==> |events| == most)
    && page.nextAfter == if events == [] then None else Some(events[|events| - 1].id)
  }

  /** Whatever is before a row of an ordered history has the lower id. */
  lemma FrontAndBack(all: seq<EventRecord>, k: nat, x: EventRecord, y: EventRecord)
    requires Ordered(all) && k <= |all| && x in all[..k] && y in all[k..]
    ensures x.id < y.id && x in all && y in all
  {
    var i :| 0 <= i < k && all[..k][i] == x;
    var j :| 0 <= j < |all| - k && all[k..][j] == y;
    assert all[i] == x && all[k + j] == y;
  }

  lemma FrontOrBack(all: seq<EventRecord>, k: nat, x: EventRecord)
    requires k <= |all|
    ensures x in all <==> x in all[..k] || x in all[k..]
  {
    assert all == all[..k] + all[k..];
  }

  /** The rows of one end, and how the others lie to them. */
  ghost predicate AnEnd(all: seq<EventRecord>, end: seq<EventRecord>, newest: bool, most: nat) {
    && Ordered(end) && |end| == (if |all| < most then |all| else most)
    && (forall x :: x in end ==> x in all)
    && (forall x, y :: x in all && x !in end && y in end ==> if newest then x.id < y.id else y.id < x.id)
  }

  lemma FirstIsAnEnd(all: seq<EventRecord>, n: nat)
    requires Ordered(all)
    ensures AnEnd(all, FirstOf(all, n), false, n)
  {
    if |all| > n {
      forall x, y | x in all && x !in all[..n] && y in all[..n] ensures y.id < x.id {
        FrontOrBack(all, n, x);
        FrontAndBack(all, n, y, x);
      }
    }
  }

  lemma LastIsAnEnd(all: seq<EventRecord>, n: nat)
    requires Ordered(all)
    ensures AnEnd(all, LastOf(all, n), true, n)
  {
    if |all| > n {
      var k := |all| - n;
      forall x, y | x in all && x !in all[k..] && y in all[k..] ensures x.id < y.id {
        FrontOrBack(all, k, x);
        FrontAndBack(all, k, x, y);
      }
    }
  }

  lemma AllOrFull(all: seq<EventRecord>, end: seq<EventRecord>, newest: bool, most: nat, x: EventRecord)
    requires end == (if newest then LastOf(all, most) else FirstOf(all, most)) && x in all && x !in end
    ensures |end| == most
  {
  }

  lemma EndIsPage(log: seq<EventRecord>, query: Query, all: seq<EventRecord>, end: seq<EventRecord>)
    requires forall x :: x in all <==> x in log && AskedFor(x, OrZero(query.after), query.task)
    requires AnEnd(all, end, query.newest, Limit(query.limit))
    requires end == (if query.newest then LastOf(all, Limit(query.limit)) else FirstOf(all, Limit(query.limit)))
    ensures IsPage(log, query, PageOfEvents(end))
  {
    forall x | x in log && AskedFor(x, OrZero(query.after), query.task) && x !in end ensures |end| == Limit(query.limit) {
      AllOrFull(all, end, query.newest, Limit(query.limit), x);
    }
  }

  /** Every page is one. */
  lemma PageTells(log: seq<EventRecord>, query: Query)
    requires Ordered(log)
    ensures IsPage(log, query, PageOf(log, query))
  {
    var all := Matching(log, OrZero(query.after), query.task);
    MatchingIsAskedFor(log, OrZero(query.after), query.task);
    MatchingOrdered(log, OrZero(query.after), query.task);
    FirstIsAnEnd(all, Limit(query.limit));
    LastIsAnEnd(all, Limit(query.limit));
    EndIsPage(log, query, all, PageOf(log, query).events);
  }

  /** The table behind `GET /events`, written only through the bus. */
  class EventStore {
    var rows: seq<EventRecord>

    constructor ()
      ensures rows == [] && Ordered(rows)
    {
      rows := [];
    }

    method Append(event: ForgeEvent) returns (record: EventRecord)
      requires Ordered(rows)
      modifies this
      ensures rows == Appended(old(rows), event) && Ordered(rows)
      ensures rows == old(rows) + [record] && record.event == event
      ensures record.id == if old(rows) == [] then 1 else old(rows)[|old(rows)| - 1].id + 1
    {
      record := EventRecord(NextId(rows), event);
      rows := rows + [record];
    }

    method Oldest(after: int, task: Option<int>, limit: nat) returns (events: seq<EventRecord>)
      ensures events == FirstOf(Matching(rows, after, task), limit)
    {
      events := [];
      var i := 0;
      while i < |rows| && |events| < limit
        invariant 0 <= i <= |rows| && |events| <= limit
        invariant events == Matching(rows[..i], after, task)
      {
        assert rows[..i + 1] == rows[..i] + [rows[i]];
        MatchingSnoc(rows[..i], rows[i], after, task);
        if Selected(rows[i], after, task) {
          events := events + [rows[i]];
        }
        i := i + 1;
      }
      SelectFrom(rows, i, after, task);
    }

    /** Descending, the way the newest rows come out of the table. */
    method Newest(after: int, task: Option<int>, limit: nat) returns (events: seq<EventRecord>)
      ensures Reversed(events) == LastOf(Matching(rows, after, task), limit)
    {
      events := [];
      var i := |rows|;
      while i > 0 && |events| < limit
        invariant 0 <= i <= |rows| && |events| <= limit
        invariant Reversed(events) == Matching(rows[i..], after, task)
      {
        i := i - 1;
        SelectBefore(rows, i, after, task);
        if Selected(rows[i], after, task) {
          ReversedSnoc(events, rows[i]);
          events := events + [rows[i]];
        }
      }
      SelectFrom(rows, i, after, task);
    }

    /** Whichever end it comes from, a page reads oldest first: `PageTells` says what it holds. */
    method Events(query: Query) returns (page: EventPage)
      ensures page == PageOf(rows, query)
    {
      var limit := Limit(query.limit);
      var events;
      if query.newest {
        events := Newest(OrZero(query.after), query.task, limit);
        events := Reversed(events);
      } else {
        events := Oldest(OrZero(query.after), query.task, limit);
      }
      page := EventPage(events, if events == [] then None else Some(events[|events| - 1].id));
    }
  }

  function Reversed(s: seq<EventRecord>): (r: seq<EventRecord>)
    ensures |r| == |s|
  {
    if s == [] then [] else [s[|s| - 1]] + Reversed(s[..|s| - 1])
  }

  lemma ReversedSnoc(s: seq<EventRecord>, x: EventRecord)
    ensures Reversed(s + [x]) == [x] + Reversed(s)
  {
    assert (s + [x])[..|s|] == s;
  }

  lemma SelectFrom(log: seq<EventRecord>, i: nat, after: int, task: Option<int>)
    requires i <= |log|
    ensures Matching(log, after, task) == Matching(log[..i], after, task) + Matching(log[i..], after, task)
    ensures i == 0 ==> Matching(log[i..], after, task) == Matching(log, after, task)
    ensures i == |log| ==> Matching(log[..i], after, task) == Matching(log, after, task)
  {
    assert log == log[..i] + log[i..];
    MatchingConcat(log[..i], log[i..], after, task);
  }

  lemma SelectBefore(log: seq<EventRecord>, i: nat, after: int, task: Option<int>)
    requires i < |log|
    ensures Matching(log[i..], after, task)
         == (if Selected(log[i], after, task) then [log[i]] else []) + Matching(log[i + 1..], after, task)
  {
    assert log[i..] == [log[i]] + log[i + 1..];
    MatchingConcat([log[i]], log[i + 1..], after, task);
    MatchingSnoc([], log[i], after, task);
    assert [] + [log[i]] == [log[i]];
  }
}
