/**
 The reader of another Mac's events: one connection after another, carrying its
 cursor across every drop.
 */
module RemoteReader {
  import opened Options
  import opened Events
  import opened EventLog
  import opened EventBus
  import Relay

  /** What one read of the socket yields. */
  datatype Frame = Broken | NotText | Unreadable | Text(record: EventRecord)

  /** The records among the frames up to the one that breaks the stream. */
  function Readable(frames: seq<Frame>): seq<EventRecord> {
    if frames == [] || frames[0].Broken? then []
    else (if frames[0].Text? then [frames[0].record] else []) + Readable(frames[1..])
  }

  lemma ReadableNext(frame: Frame, rest: seq<Frame>)
    ensures Readable([frame] + rest)
         == if frame.Broken? then [] else (if frame.Text? then [frame.record] else []) + Readable(rest)
  {
    assert ([frame] + rest)[1..] == rest;
  }

  ghost predicate NoneBreaks(frames: seq<Frame>) {
    forall i :: 0 <= i < |frames| ==> !frames[i].Broken?
  }

  lemma Behead(frames: seq<Frame>, rest: seq<Frame>)
    requires frames != []
    ensures frames == [frames[0]] + frames[1..] && frames + rest == [frames[0]] + (frames[1..] + rest)
  {
  }

  lemma Grouped(a: seq<EventRecord>, b: seq<EventRecord>, c: seq<EventRecord>)
    ensures (a + b) + c == a + (b + c)
  {
  }

  lemma {:induction false} ReadableConcat(before: seq<Frame>, rest: seq<Frame>)
    ensures NoneBreaks(before) ==> Readable(before + rest) == Readable(before) + Readable(rest)
    ensures !NoneBreaks(before) ==> Readable(before + rest) == Readable(before)
  {
    if before == [] {
      assert before + rest == rest;
    } else {
      var first, others := before[0], before[1..];
      Behead(before, rest);
      ReadableNext(first, others);
      ReadableNext(first, others + rest);
      if !first.Broken? {
        ReadableConcat(others, rest);
        BreaksLater(before);
        Grouped(if first.Text? then [first.record] else [], Readable(others), Readable(rest));
      }
    }
  }

  lemma BreaksLater(frames: seq<Frame>)
    requires frames != [] && !frames[0].Broken?
    ensures NoneBreaks(frames) <==> NoneBreaks(frames[1..])
  {
    if NoneBreaks(frames[1..]) {
      forall i | 0 <= i < |frames| ensures !frames[i].Broken? {
        if i > 0 {
          assert frames[i] == frames[1..][i - 1];
        }
      }
    }
  }

  /**
   What a connection yields: a record for each frame that can be read, in order;
   nothing for one that cannot, wherever it is; and nothing after one that breaks.
   */
  lemma ReadableIs(before: seq<Frame>, frame: Frame, rest: seq<Frame>)
    ensures Readable([]) == [] && (frame.Text? ==> Readable([frame]) == [frame.record])
    ensures NoneBreaks(before) ==> Readable(before + rest) == Readable(before) + Readable(rest)
    ensures frame.NotText? || frame.Unreadable? ==> Readable(before + ([frame] + rest)) == Readable(before + rest)
    ensures frame.Broken? ==> Readable(before + ([frame] + rest)) == Readable(before)
  {
    ReadableNext(frame, []);
    assert [frame] + [] == [frame];
    ReadableNext(frame, rest);
    ReadableConcat(before, rest);
    ReadableConcat(before, [frame] + rest);
  }

  predicate Breaks(frames: seq<Frame>) {
    exists i :: 0 <= i < |frames| && frames[i].Broken?
  }

  function Cursor(after: Option<int>, handed: seq<EventRecord>): Option<int> {
    if handed == [] then after else Some(handed[|handed| - 1].id)
  }

  lemma HandedOn(handed: seq<EventRecord>, read: seq<EventRecord>, record: EventRecord, after: Option<int>)
    ensures (handed + read) + [record] == handed + (read + [record])
    ensures Cursor(after, read + [record]) == Some(record.id)
  {
  }

  lemma ReadableFrom(frames: seq<Frame>, i: nat, read: seq<EventRecord>)
    requires i < |frames|
    ensures read + Readable(frames[i..])
         == match frames[i]
            case Broken => read
            case Text(record) => (read + [record]) + Readable(frames[i + 1..])
            case _ => read + Readable(frames[i + 1..])
  {
    assert frames[i..][1..] == frames[i + 1..];
  }

  /** What has been read after frame `i`, if that one does not break. */
  function WithFrame(read: seq<EventRecord>, frame: Frame): seq<EventRecord> {
    if frame.Text? then read + [frame.record] else read
  }

  lemma ReadOn(frames: seq<Frame>, i: nat, read: seq<EventRecord>)
    requires i < |frames| && Readable(frames) == read + Readable(frames[i..])
    ensures frames[i].Broken? ==> Readable(frames) == read
    ensures !frames[i].Broken? ==> Readable(frames) == WithFrame(read, frames[i]) + Readable(frames[i + 1..])
  {
    ReadableFrom(frames, i, read);
  }

  lemma ReadAll(frames: seq<Frame>, read: seq<EventRecord>)
    requires Readable(frames) == read + Readable(frames[|frames|..])
    ensures Readable(frames) == read
  {
    assert frames[|frames|..] == [] && read + [] == read;
  }

  /** The cursor is at the last record handed on, or where it was. */
  lemma CursorIsLast(after: Option<int>, handed: seq<EventRecord>, read: seq<EventRecord>)
    ensures Cursor(after, read)
         == if |handed + read| == |handed| then after else Some((handed + read)[|handed + read| - 1].id)
  {
  }

  class RemoteMachine {
    var after: Option<int>
    /** Everything given to `on_event` so far. */
    var handed: seq<EventRecord>

    constructor ()
      ensures after == None && handed == []
    {
      after, handed := None, [];
    }

    /** One connection's worth: every readable record is noted in the cursor before it is handed on. */
    method StreamOnce(frames: seq<Frame>) returns (ok: bool)
      modifies this
      ensures handed == old(handed) + Readable(frames)
      ensures after == Cursor(old(after), Readable(frames))
      ensures after == if |handed| == |old(handed)| then old(after) else Some(handed[|handed| - 1].id)
      ensures ok <==> !Breaks(frames)
    {
      ghost var read: seq<EventRecord> := [];
      assert frames[0..] == frames && [] + Readable(frames) == Readable(frames);
      for i := 0 to |frames|
        invariant handed == old(handed) + read && after == Cursor(old(after), read)
        invariant Readable(frames) == read + Readable(frames[i..])
        invariant forall j :: 0 <= j < i ==> !frames[j].Broken?
      {
        var frame := frames[i];
        ReadOn(frames, i, read);
        if frame.Broken? {
          CursorIsLast(old(after), old(handed), read);
          ok := false;
          return;
        }
        if frame.Text? {
          HandedOn(old(handed), read, frame.record, old(after));
          after := Some(frame.record.id);
          handed := handed + [frame.record];
        }
        read := WithFrame(read, frame);
      }
      ReadAll(frames, read);
      CursorIsLast(old(after), old(handed), read);
      ok := true;
    }
  }

  /**
   The reader and the machine it reads. `got` counts the frames of the current
   connection that arrived and `begin` is the row of history it begins at.
   `rows` remembers which row each record handed on was, and `unread` the rows
   that ever arrived unreadable.
   */
  datatype Watch = Watch(
    bus: BusState, after: Option<int>, handed: seq<EventRecord>,
    link: Option<Relay.Conn>, got: nat, begin: nat, rows: seq<nat>, unread: set<nat>)

  datatype Action =
    | Publish(event: ForgeEvent)
    | Serve(move: Relay.Move)
    | Deliver
    | Skip
    | Drop
    | Connect
    | Restart

  predicate Enabled(w: Watch, action: Action) {
    match action
    case Publish(_) => true
    case Serve(move) => w.link.Some? && Relay.Enabled(w.bus, w.link.value, move)
    case Deliver => w.link.Some? && w.got < |w.link.value.sent|
    case Skip => w.link.Some? && w.got < |w.link.value.sent|
    case Drop => w.link.Some?
    case Connect => w.link.None?
    case Restart => true
  }

  function Delivered(w: Watch, record: EventRecord, row: nat): Watch {
    w.(after := Some(record.id), handed := w.handed + [record], got := w.got + 1, rows := w.rows + [row])
  }

  /** The row after the last one handed on. */
  function Past(rows: seq<nat>): nat {
    if rows == [] then 0 else rows[|rows| - 1] + 1
  }

  function After(w: Watch, action: Action): Watch
    requires Enabled(w, action)
  {
    match action
    case Publish(event) => w.(bus := Published(w.bus, event))
    case Serve(move) => w.(link := Some(Relay.Moved(w.bus, w.link.value, move)))
    case Deliver => Delivered(w, w.link.value.sent[w.got], w.begin + w.got)
    // What cannot be read is passed over, and the cursor stays where it was.
    case Skip => w.(got := w.got + 1, unread := w.unread + {w.begin + w.got})
    case Drop => w.(link := None, got := 0)
    case Connect =>
      w.(link := Some(Relay.Open(w.bus, w.after, None)), got := 0,
         begin := if w.after.Some? then Past(w.rows) else |w.bus.log|)
    // The machine's daemon comes back with its history and an empty buffer; every connection is gone.
    case Restart => w.(bus := Reopened(w.bus.log), link := None, got := 0)
  }

  function Fresh(bus: BusState): Watch {
    Watch(bus, None, [], None, 0, 0, [], {})
  }

  /** `piece` is the stretch of history that begins at row `first`. */
  ghost predicate PieceAt(log: seq<EventRecord>, piece: seq<EventRecord>, first: nat) {
    first + |piece| <= |log| && forall i :: 0 <= i < |piece| ==> piece[i] == log[first + i]
  }

  /** `piece` is those rows of history, in rising order: nothing twice, nothing out of order. */
  ghost predicate PicksOut(log: seq<EventRecord>, piece: seq<EventRecord>, rows: seq<nat>) {
    && |rows| == |piece|
    && (forall i :: 0 <= i < |rows| ==> rows[i] < |log| && piece[i] == log[rows[i]])
    && (forall i, j :: 0 <= i < j < |rows| ==> rows[i] < rows[j])
  }

  /** Each of these rows was handed on, or arrived unreadable. */
  ghost predicate Accounted(rows: seq<nat>, unread: set<nat>, from: nat, to: nat) {
    forall k :: from <= k < to ==> k in rows || k in unread
  }

  /** Since the last record handed on, only unreadable ones came before row `k`. */
  ghost predicate UpTo(rows: seq<nat>, unread: set<nat>, k: nat) {
    rows != [] ==> Past(rows) <= k && Accounted(rows, unread, Past(rows), k)
  }

  lemma UpToTheNext(rows: seq<nat>, unread: set<nat>, k: nat)
    ensures UpTo(rows + [k], unread, k + 1)
    ensures UpTo(rows, unread, k) ==> UpTo(rows, unread + {k}, k + 1)
  {
  }

  ghost predicate HandedInv(log: seq<EventRecord>, after: Option<int>, handed: seq<EventRecord>, rows: seq<nat>, unread: set<nat>) {
    && PicksOut(log, handed, rows)
    && after == (if handed == [] then None else Some(handed[|handed| - 1].id))
    && (rows != [] ==> Accounted(rows, unread, rows[0], Past(rows)))
  }

  ghost predicate BeginsAt(log: seq<EventRecord>, c: Relay.Conn, begin: nat) {
    && c.task == None
    && begin <= |log|
    && (c.cursor.Some? ==> begin > 0 && c.cursor.value == log[begin - 1].id)
    && (c.cursor.None? ==> begin == c.joined)
  }

  ghost predicate LinkInv(w: Watch, c: Relay.Conn) {
    && Relay.Inv(w.bus, c)
    && BeginsAt(w.bus.log, c, w.begin)
    && w.got <= |c.sent|
    && UpTo(w.rows, w.unread, w.begin + w.got)
  }

  ghost predicate Inv(w: Watch) {
    && Sound(w.bus)
    && HandedInv(w.bus.log, w.after, w.handed, w.rows, w.unread)
    && (w.link.Some? ==> LinkInv(w, w.link.value))
  }

  /** With no task filter, a connection is for everything from one place in history on. */
  lemma ExpectedFrom(log: seq<EventRecord>, c: Relay.Conn, begin: nat)
    requires Ordered(log) && BeginsAt(log, c, begin)
    ensures Relay.Expected(log, c) == log[begin..]
  {
    if c.cursor.Some? {
      MatchingAfterRow(log, begin - 1);
    } else {
      MatchingAll(log[begin..], 0, None);
    }
  }

  lemma PublishKeeps(w: Watch, event: ForgeEvent)
    requires Inv(w)
    ensures Inv(After(w, Publish(event)))
  {
    if w.link.Some? {
      Relay.PublishKeeps(w.bus, w.link.value, event);
    }
  }

  lemma RelinkKeeps(w: Watch, c: Relay.Conn)
    requires Inv(w) && w.link.Some?
    requires Relay.Inv(w.bus, c) && Relay.SameRequest(w.link.value, c) && w.link.value.sent <= c.sent
    ensures Inv(w.(link := Some(c)))
  {
  }

  lemma ServeKeeps(w: Watch, move: Relay.Move)
    requires Inv(w) && Enabled(w, Serve(move))
    ensures Inv(After(w, Serve(move)))
  {
    Relay.MoveKeeps(w.bus, w.link.value, move);
    Relay.MovedRequest(w.bus, w.link.value, move);
    RelinkKeeps(w, Relay.Moved(w.bus, w.link.value, move));
  }

  lemma RowOfTail(log: seq<EventRecord>, begin: nat, sent: seq<EventRecord>, got: nat)
    requires begin <= |log| && sent <= log[begin..] && got < |sent|
    ensures begin + got < |log| && sent[got] == log[begin + got]
  {
    assert sent[got] == log[begin..][got];
  }

  /** The next record to arrive is the next row of history. */
  lemma ArrivesInOrder(b: BusState, c: Relay.Conn, begin: nat, got: nat)
    requires Relay.Inv(b, c) && BeginsAt(b.log, c, begin) && got < |c.sent|
    ensures begin + got < |b.log| && c.sent[got] == b.log[begin + got]
  {
    assert c.sent <= b.log[begin..] by {
      Relay.AlwaysPrefix(b, c);
      ExpectedFrom(b.log, c, begin);
    }
    RowOfTail(b.log, begin, c.sent, got);
  }

  lemma PieceGrows(log: seq<EventRecord>, after: Option<int>, handed: seq<EventRecord>, rows: seq<nat>, unread: set<nat>, k: nat)
    requires k < |log| && HandedInv(log, after, handed, rows, unread)
    requires UpTo(rows, unread, k)
    ensures HandedInv(log, Some(log[k].id), handed + [log[k]], rows + [k], unread)
  {
    assert forall i :: 0 <= i < |rows| ==> rows[i] in rows + [k];
    assert k in rows + [k];
    if rows != [] {
      forall r | rows[0] <= r < k + 1 ensures r in rows + [k] || r in unread {
        assert r < Past(rows) || r < k || r == k;
      }
    }
  }

  /** Only the reader's side changes when a frame arrives. */
  lemma OnlyTheReader(w: Watch, w': Watch)
    requires Inv(w) && w.link.Some? && w'.link == w.link && w'.bus == w.bus && w'.begin == w.begin
    requires w'.got <= |w.link.value.sent| && UpTo(w'.rows, w'.unread, w'.begin + w'.got)
    requires HandedInv(w'.bus.log, w'.after, w'.handed, w'.rows, w'.unread)
    ensures Inv(w')
  {
  }

  lemma TakesRow(w: Watch, record: EventRecord, k: nat)
    requires Inv(w) && w.link.Some? && w.got < |w.link.value.sent| && k == w.begin + w.got
    requires HandedInv(w.bus.log, Some(record.id), w.handed + [record], w.rows + [k], w.unread)
    ensures Inv(Delivered(w, record, k))
  {
    UpToTheNext(w.rows, w.unread, k);
    OnlyTheReader(w, Delivered(w, record, k));
  }

  lemma HandedSoFar(w: Watch)
    requires Inv(w) && w.link.Some?
    ensures HandedInv(w.bus.log, w.after, w.handed, w.rows, w.unread)
    ensures UpTo(w.rows, w.unread, w.begin + w.got)
    ensures Relay.Inv(w.bus, w.link.value) && BeginsAt(w.bus.log, w.link.value, w.begin)
  {
  }

  lemma Arriving(w: Watch, record: EventRecord, k: nat)
    requires Inv(w) && w.link.Some? && w.got < |w.link.value.sent|
    requires record == w.link.value.sent[w.got] && k == w.begin + w.got
    ensures k < |w.bus.log| && record == w.bus.log[k]
    ensures HandedInv(w.bus.log, w.after, w.handed, w.rows, w.unread) && UpTo(w.rows, w.unread, k)
  {
    HandedSoFar(w);
    ArrivesInOrder(w.bus, w.link.value, w.begin, w.got);
  }

  lemma SkipKeeps(w: Watch)
    requires Inv(w) && Enabled(w, Skip)
    ensures Inv(After(w, Skip))
  {
    HandedSoFar(w);
    UpToTheNext(w.rows, w.unread, w.begin + w.got);
    OnlyTheReader(w, After(w, Skip));
  }

  lemma RecordKeeps(w: Watch, record: EventRecord, k: nat)
    requires Inv(w) && w.link.Some? && w.got < |w.link.value.sent|
    requires record == w.link.value.sent[w.got] && k == w.begin + w.got
    ensures Inv(Delivered(w, record, k))
  {
    Arriving(w, record, k);
    PieceGrows(w.bus.log, w.after, w.handed, w.rows, w.unread, k);
    TakesRow(w, record, k);
  }

  lemma DeliverIs(w: Watch)
    requires Enabled(w, Deliver)
    ensures After(w, Deliver) == Delivered(w, w.link.value.sent[w.got], w.begin + w.got)
  {
  }

  lemma DeliverKeeps(w: Watch)
    requires Inv(w) && Enabled(w, Deliver)
    ensures Inv(After(w, Deliver))
  {
    var record, k := w.link.value.sent[w.got], w.begin + w.got;
    RecordKeeps(w, record, k);
    assert After(w, Deliver) == Delivered(w, record, k) by { DeliverIs(w); }
  }

  lemma ConnectKeeps(w: Watch)
    requires Inv(w) && Enabled(w, Connect)
    ensures Inv(After(w, Connect))
  {
    Relay.OpenInv(w.bus, w.after, None);
  }

  lemma AfterKeeps(w: Watch, action: Action)
    requires Inv(w) && Enabled(w, action)
    ensures Inv(After(w, action))
  {
    match action
    case Publish(event) => PublishKeeps(w, event);
    case Serve(move) => ServeKeeps(w, move);
    case Deliver => DeliverKeeps(w);
    case Skip => SkipKeeps(w);
    case Drop =>
    case Connect => ConnectKeeps(w);
    case Restart =>
  }

  predicate Legal(w: Watch, actions: seq<Action>)
    decreases |actions|
  {
    actions != [] ==> Enabled(w, actions[0]) && Legal(After(w, actions[0]), actions[1..])
  }

  function Run(w: Watch, actions: seq<Action>): Watch
    requires Legal(w, actions)
    decreases |actions|
  {
    if actions == [] then w else Run(After(w, actions[0]), actions[1..])
  }

  lemma {:induction false} RunKeeps(w: Watch, actions: seq<Action>)
    requires Legal(w, actions) && Inv(w)
    ensures Inv(Run(w, actions))
    decreases |actions|
  {
    if actions == [] {
    } else {
      AfterKeeps(w, actions[0]);
      RunKeeps(After(w, actions[0]), actions[1..]);
    }
  }

  /**
   Across any number of drops, reconnects, lags and daemon restarts, at
   arbitrary points, what the reader hands on is a part of that machine's
   history, each event at most once and in order; and from its first record to
   its last nothing is missing but what arrived unreadable.
   */
  lemma ExactlyOnceInOrder(bus: BusState, actions: seq<Action>)
    requires Sound(bus) && Legal(Fresh(bus), actions)
    ensures var w := Run(Fresh(bus), actions);
            && PicksOut(w.bus.log, w.handed, w.rows) && Ordered(w.handed)
            && (w.rows != [] ==> Accounted(w.rows, w.unread, w.rows[0], Past(w.rows)))
  {
    RunKeeps(Fresh(bus), actions);
  }

  predicate NothingSkipped(actions: seq<Action>) {
    forall i :: 0 <= i < |actions| ==> !actions[i].Skip?
  }

  lemma {:induction false} AllReadable(w: Watch, actions: seq<Action>)
    requires Legal(w, actions) && NothingSkipped(actions) && w.unread == {}
    ensures Run(w, actions).unread == {}
    decreases |actions|
  {
    if actions == [] {
    } else {
      AllReadable(After(w, actions[0]), actions[1..]);
    }
  }

  /** Rising rows with none left out follow one another. */
  lemma {:induction false} RowsFollow(log: seq<EventRecord>, piece: seq<EventRecord>, rows: seq<nat>, i: nat)
    requires PicksOut(log, piece, rows) && i < |rows| && Accounted(rows, {}, rows[0], Past(rows))
    ensures rows[i] == rows[0] + i
  {
    if i == 0 {
    } else {
      RowsFollow(log, piece, rows, i - 1);
      var next: nat := rows[i - 1] + 1;
      assert next <= rows[i] < Past(rows) && next in rows;
      var j :| 0 <= j < |rows| && rows[j] == next;
      assert j >= i;
    }
  }

  lemma PicksOutPiece(log: seq<EventRecord>, piece: seq<EventRecord>, rows: seq<nat>)
    requires PicksOut(log, piece, rows) && rows != [] && Accounted(rows, {}, rows[0], Past(rows))
    ensures PieceAt(log, piece, rows[0]) && Past(rows) == rows[0] + |piece|
  {
    forall i | 0 <= i < |rows| ensures rows[i] == rows[0] + i {
      RowsFollow(log, piece, rows, i);
    }
  }

  /** If every frame can be read, it is one contiguous piece of that history: each event exactly once. */
  lemma ContiguousIfReadable(bus: BusState, actions: seq<Action>)
    requires Sound(bus) && Legal(Fresh(bus), actions) && NothingSkipped(actions)
    ensures var w := Run(Fresh(bus), actions);
            w.rows != [] ==> PieceAt(w.bus.log, w.handed, w.rows[0])
  {
    RunKeeps(Fresh(bus), actions);
    AllReadable(Fresh(bus), actions);
    var w := Run(Fresh(bus), actions);
    if w.rows != [] {
      PicksOutPiece(w.bus.log, w.handed, w.rows);
    }
  }

  ghost predicate CaughtUp(w: Watch) {
    w.link.Some? && w.link.value.phase == Relay.Live && w.link.value.next == w.bus.sent && w.got == |w.link.value.sent|
  }

  lemma CaughtUpAtTheEnd(w: Watch)
    requires Inv(w) && CaughtUp(w)
    ensures w.begin + w.got == |w.bus.log|
  {
    Relay.LivePrefix(w.bus, w.link.value);
    ExpectedFrom(w.bus.log, w.link.value, w.begin);
  }

  /**
   Reconnected and caught up, the reader has everything from its first record
   to the end of history, whatever was missed meanwhile, but for what arrived
   unreadable; and all of it if nothing did.
   */
  lemma CatchesUp(bus: BusState, actions: seq<Action>)
    requires Sound(bus) && Legal(Fresh(bus), actions)
    ensures var w := Run(Fresh(bus), actions);
            CaughtUp(w) && w.rows != [] ==>
              && w.rows[0] <= |w.bus.log| && Accounted(w.rows, w.unread, w.rows[0], |w.bus.log|)
              && (w.unread == {} ==> w.handed == w.bus.log[w.rows[0]..])
  {
    RunKeeps(Fresh(bus), actions);
    var w := Run(Fresh(bus), actions);
    if CaughtUp(w) && w.rows != [] {
      CaughtUpAtTheEnd(w);
      if w.unread == {} {
        PicksOutPiece(w.bus.log, w.handed, w.rows);
        NothingFollows(w.rows, |w.bus.log|);
      }
    }
  }

  lemma NothingFollows(rows: seq<nat>, end: nat)
    requires rows != [] && (forall i, j :: 0 <= i < j < |rows| ==> rows[i] < rows[j])
    requires Past(rows) <= end && Accounted(rows, {}, Past(rows), end)
    ensures Past(rows) == end
  {
    var past: nat := Past(rows);
    assert past !in rows;
  }
}
