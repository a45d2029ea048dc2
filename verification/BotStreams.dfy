/** What the bot hears is what its machines' event streams hand on: so it hears nothing twice. */
module BotStreams {
  import opened Options
  import opened Events
  import opened EventLog
  import opened EventBus
  import opened Callbacks
  import opened Bot
  import Reader = RemoteReader

  // ---- this Mac's own events ----

  /** A receiver on the bus: how far it is, where in history it began, and what it handed on. */
  datatype Ear = Ear(bus: BusState, next: nat, begin: nat, heard: seq<EventRecord>)

  datatype Moment = Publish(event: ForgeEvent) | Hear

  /** A receiver that lags is done for good. */
  predicate Possible(e: Ear, moment: Moment) {
    moment.Hear? ==> |e.bus.ring| <= e.bus.sent && Receive(e.bus, e.next).Got?
  }

  function Then(e: Ear, moment: Moment): Ear
    requires Possible(e, moment)
  {
    match moment
    case Publish(event) => e.(bus := Published(e.bus, event))
    case Hear => e.(next := e.next + 1, heard := e.heard + [Receive(e.bus, e.next).record])
  }

  predicate Goes(e: Ear, moments: seq<Moment>)
    decreases |moments|
  {
    moments != [] ==> Possible(e, moments[0]) && Goes(Then(e, moments[0]), moments[1..])
  }

  function Gone(e: Ear, moments: seq<Moment>): Ear
    requires Goes(e, moments)
    decreases |moments|
  {
    if moments == [] then e else Gone(Then(e, moments[0]), moments[1..])
  }

  /** Subscribed just now. */
  function Listening(bus: BusState): Ear {
    Ear(bus, bus.sent, |bus.log|, [])
  }

  ghost predicate Hears(e: Ear) {
    && Sound(e.bus) && e.next <= e.bus.sent && LogIndex(e.bus, e.next) == e.begin + |e.heard|
    && Reader.PieceAt(e.bus.log, e.heard, e.begin)
  }

  lemma ThenHears(e: Ear, moment: Moment)
    requires Hears(e) && Possible(e, moment)
    ensures Hears(Then(e, moment))
  {
    if moment.Hear? {
      ReceivesInOrder(e.bus, e.next);
    }
  }

  lemma {:induction false} GoneHears(e: Ear, moments: seq<Moment>)
    requires Hears(e) && Goes(e, moments)
    ensures Hears(Gone(e, moments))
    decreases |moments|
  {
    if moments == [] {
    } else {
      ThenHears(e, moments[0]);
      GoneHears(Then(e, moments[0]), moments[1..]);
    }
  }

  /** This Mac's events arrive as one piece of its history, until the receiver lags. */
  lemma LocalInOrder(bus: BusState, moments: seq<Moment>)
    requires Sound(bus) && Goes(Listening(bus), moments)
    ensures var e := Gone(Listening(bus), moments); Reader.PieceAt(e.bus.log, e.heard, |bus.log|) && Ordered(e.heard)
  {
    GoneHears(Listening(bus), moments);
    BeginStays(Listening(bus), moments);
  }

  lemma {:induction false} BeginStays(e: Ear, moments: seq<Moment>)
    requires Goes(e, moments)
    ensures Gone(e, moments).begin == e.begin
    decreases |moments|
  {
    if moments == [] {
    } else {
      BeginStays(Then(e, moments[0]), moments[1..]);
    }
  }

  // ---- all that is heard ----

  /** Everything heard from one machine, in order. */
  function HeardFrom(steps: seq<Step>, machine: MachineRef): seq<EventRecord> {
    if steps == [] then []
    else
      var last := steps[|steps| - 1];
      HeardFrom(steps[..|steps| - 1], machine) + if last.Saw? && last.machine == machine then [last.record] else []
  }

  ghost predicate LocallyStreamed(heard: seq<EventRecord>) {
    exists bus, moments :: Sound(bus) && Goes(Listening(bus), moments) && heard <= Gone(Listening(bus), moments).heard
  }

  ghost predicate RemotelyStreamed(heard: seq<EventRecord>) {
    exists bus, actions :: Sound(bus) && Reader.Legal(Reader.Fresh(bus), actions) && heard <= Reader.Run(Reader.Fresh(bus), actions).handed
  }

  /** Each machine's events come from its own stream: the bus of this Mac, a resuming reader of any other. */
  ghost predicate Streamed(steps: seq<Step>) {
    forall machine: MachineRef ::
      if machine.Local? then LocallyStreamed(HeardFrom(steps, machine)) else RemotelyStreamed(HeardFrom(steps, machine))
  }

  lemma PrefixOrdered(heard: seq<EventRecord>, all: seq<EventRecord>)
    requires heard <= all && Ordered(all)
    ensures Ordered(heard)
  {
  }

  lemma StreamIsOrdered(steps: seq<Step>, machine: MachineRef)
    requires Streamed(steps)
    ensures Ordered(HeardFrom(steps, machine))
  {
    var heard := HeardFrom(steps, machine);
    if machine.Local? {
      assert LocallyStreamed(heard);
      var bus, moments :| Sound(bus) && Goes(Listening(bus), moments) && heard <= Gone(Listening(bus), moments).heard;
      LocalInOrder(bus, moments);
      PrefixOrdered(heard, Gone(Listening(bus), moments).heard);
    } else {
      assert RemotelyStreamed(heard);
      var bus, actions :| Sound(bus) && Reader.Legal(Reader.Fresh(bus), actions) && heard <= Reader.Run(Reader.Fresh(bus), actions).handed;
      Reader.ExactlyOnceInOrder(bus, actions);
      PrefixOrdered(heard, Reader.Run(Reader.Fresh(bus), actions).handed);
    }
  }

  /** What is heard by step `n` is a beginning of what is heard, with step `n`'s own record after it. */
  lemma {:induction false} HeardBy(steps: seq<Step>, machine: MachineRef, n: nat)
    requires n < |steps| && steps[n].Saw? && steps[n].machine == machine
    ensures var before, all := HeardFrom(steps[..n], machine), HeardFrom(steps, machine);
            |before| < |all| && before == all[..|before|] && all[|before|] == steps[n].record
  {
    var init := steps[..|steps| - 1];
    if n == |steps| - 1 {
    } else {
      HeardBy(init, machine, n);
      assert init[..n] == steps[..n];
    }
  }

  /** So no machine's event is heard twice. */
  lemma StreamsAreHeardOnce(steps: seq<Step>)
    requires Streamed(steps)
    ensures HeardOnce(steps)
  {
    forall i, j | 0 <= i < j < |steps| && steps[i].Saw? && steps[j].Saw? && steps[i].machine == steps[j].machine
      ensures steps[i].record.id != steps[j].record.id
    {
      var machine := steps[i].machine;
      StreamIsOrdered(steps, machine);
      HeardBy(steps, machine, j);
      HeardBy(steps[..j], machine, i);
      HeardBy(steps, machine, i);
      assert steps[..j][..i] == steps[..i];
    }
  }

  /** However the streams drop, resume and lag: each question is answered at most once, however taps race, */
  lemma OneAnswerEach(allowlist: set<int>, steps: seq<Step>, i: nat, j: nat, key: SessionKey, other: SessionKey)
    requires Streamed(steps) && i < j < |steps|
    requires Accepted(allowlist, steps, i, key) && Accepted(allowlist, steps, j, other) && key.machine == other.machine
    ensures Decode(steps[i].data).value.0.asked != Decode(steps[j].data).value.0.asked
  {
    StreamsAreHeardOnce(steps);
    AnsweredAtMostOnce(allowlist, steps, i, j, key, other);
  }

  /** and none once the session has moved on. */
  lemma NoneOnceMovedOn(allowlist: set<int>, steps: seq<Step>, q: nat, later: nat, i: nat, key: SessionKey)
    requires Streamed(steps) && q < later < i < |steps|
    requires About(steps[q], key) && steps[q].record.event.AgentWaiting? && About(steps[later], key)
    requires Accepted(allowlist, steps, i, key)
    ensures Decode(steps[i].data).value.0.asked != steps[q].record.id
  {
    StreamsAreHeardOnce(steps);
    MovedOn(allowlist, steps, q, later, i, key);
  }
}
