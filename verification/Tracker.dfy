/** Turning one poll of a session into a status, and deciding what to announce. */
module Tracker {
  import opened Options
  import opened Events

  const STALENESS_CAP: nat := 15
  const WAITING_DEBOUNCE: nat := 1
  const U32: nat := 0x1_0000_0000

  /** What is known about a session between polls. */
  datatype Belief = Belief(
    status: AgentStatus, stale: nat, pending: Option<(AgentStatus, nat)>, lastActivity: Option<int>)

  datatype Outcome = Outcome(
    status: AgentStatus, changedFrom: Option<AgentStatus>, enteredWaiting: bool, processEnded: bool)

  /** One poll's evidence: a dead process, or whatever the markers recognise on a living one's screen. */
  datatype Evidence = Dead(exitCode: Option<int>) | Alive(seen: Option<AgentStatus>)

  function New(status: AgentStatus): Belief {
    Belief(status, 0, None, None)
  }

  function Unchanged(b: Belief): Outcome {
    Outcome(b.status, None, false, false)
  }

  function Settled(b: Belief, status: AgentStatus): (Belief, Outcome) {
    (b.(status := status, pending := None),
     Outcome(status, if b.status != status then Some(b.status) else None, b.status != status && status == Waiting, false))
  }

  function Considered(b: Belief, seen: AgentStatus): (Belief, Outcome) {
    if seen == b.status then (b.(pending := None), Unchanged(b))
    else if seen != Waiting then Settled(b, seen)
    else
      var held := if b.pending.Some? && b.pending.value.0 == seen then b.pending.value.1 + 1 else 0;
      if held >= WAITING_DEBOUNCE then Settled(b, seen)
      else (b.(pending := Some((seen, held))), Unchanged(b))
  }

  /** The counter is 32 bits wide and, on an idle session, is never reset. */
  function Unrecognised(b: Belief): (Belief, Outcome) {
    var aged := b.(pending := None, stale := (b.stale + 1) % U32);
    if aged.stale > STALENESS_CAP && b.status != Idle then Settled(aged.(stale := 0), Idle)
    else (aged, Unchanged(aged))
  }

  function Polled(b: Belief, evidence: Evidence): (Belief, Outcome) {
    match evidence
    case Dead(code) =>
      var (b', o) := Settled(b, if code == Some(0) || code == None then Stopped else Error);
      (b', o.(processEnded := true))
    case Alive(Some(seen)) => Considered(b.(stale := 0), seen)
    case Alive(None) => Unrecognised(b)
  }

  predicate IsUnchangedSince(b: Belief, activity: Option<int>) {
    b.pending.None? && b.lastActivity.Some? && b.lastActivity == activity
  }

  class Tracker {
    var status: AgentStatus
    var stalePolls: nat
    var pending: Option<(AgentStatus, nat)>
    var lastActivity: Option<int>

    function State(): Belief
      reads this
    {
      Belief(status, stalePolls, pending, lastActivity)
    }

    constructor (status: AgentStatus)
      ensures State() == New(status)
    {
      this.status, stalePolls, pending, lastActivity := status, 0, None, None;
    }

    method UnchangedSince(activity: Option<int>) returns (still: bool)
      ensures still <==> IsUnchangedSince(State(), activity)
    {
      if pending.Some? {
        return false;
      }
      match (lastActivity, activity) {
        case (Some(last), Some(now)) => still := last == now;
        case _ => still := false;
      }
    }

    method SawActivity(activity: Option<int>)
      modifies this
      ensures State() == old(State()).(lastActivity := activity)
    {
      lastActivity := activity;
    }

    method Poll(evidence: Evidence) returns (outcome: Outcome)
      modifies this
      ensures (State(), outcome) == Polled(old(State()), evidence)
    {
      match evidence {
        case Dead(code) =>
          var ended := if code == Some(0) || code == None then Stopped else Error;
          outcome := Settle(ended);
          outcome := outcome.(processEnded := true);
        case Alive(seen) =>
          if seen.Some? {
            stalePolls := 0;
            outcome := Consider(seen.value);
          } else {
            outcome := NothingRecognised();
          }
      }
    }

    method Skipped() returns (outcome: Outcome)
      ensures outcome == Unchanged(State())
    {
      outcome := Outcome(status, None, false, false);
    }

    method Consider(seen: AgentStatus) returns (outcome: Outcome)
      modifies this
      ensures (State(), outcome) == Considered(old(State()), seen)
    {
      if seen == status {
        pending := None;
        outcome := Skipped();
        return;
      }
      if seen != Waiting {
        outcome := Settle(seen);
        return;
      }
      var held := 0;
      if pending.Some? && pending.value.0 == seen {
        held := pending.value.1 + 1;
      }
      if held >= WAITING_DEBOUNCE {
        outcome := Settle(seen);
        return;
      }
      pending := Some((seen, held));
      outcome := Skipped();
    }

    method NothingRecognised() returns (outcome: Outcome)
      modifies this
      ensures (State(), outcome) == Unrecognised(old(State()))
    {
      pending := None;
      stalePolls := (stalePolls + 1) % U32;
      if stalePolls > STALENESS_CAP && status != Idle {
        stalePolls := 0;
        outcome := Settle(Idle);
        return;
      }
      outcome := Skipped();
    }

    method Settle(to: AgentStatus) returns (outcome: Outcome)
      modifies this
      ensures (State(), outcome) == Settled(old(State()), to)
    {
      var previous := status;
      status := to;
      pending := None;
      outcome := Outcome(to, if previous != to then Some(previous) else None, previous != to && to == Waiting, false);
    }
  }

  // ---- whole traces of evidence ----

  function After(b: Belief, trace: seq<Evidence>): Belief {
    if trace == [] then b else Polled(After(b, trace[..|trace| - 1]), trace[|trace| - 1]).0
  }

  /** The belief just before poll `i`. */
  function Before(s: AgentStatus, trace: seq<Evidence>, i: nat): Belief
    requires i <= |trace|
  {
    After(New(s), trace[..i])
  }

  function OutcomeAt(s: AgentStatus, trace: seq<Evidence>, i: nat): Outcome
    requires i < |trace|
  {
    Polled(Before(s, trace, i), trace[i]).1
  }

  lemma BeforeNext(s: AgentStatus, trace: seq<Evidence>, i: nat)
    requires i < |trace|
    ensures Before(s, trace, i + 1) == Polled(Before(s, trace, i), trace[i]).0
  {
    assert trace[..i + 1][..i] == trace[..i];
  }

  const ASKING: Evidence := Alive(Some(Waiting))

  /** A reading is pending exactly when the last poll saw a question not yet believed, and it has then held for no poll. */
  lemma {:induction false} PendingMeans(s: AgentStatus, trace: seq<Evidence>, i: nat)
    requires i <= |trace|
    ensures Before(s, trace, i).pending
         == if i > 0 && trace[i - 1] == ASKING && Before(s, trace, i).status != Waiting then Some((Waiting, 0)) else None
  {
    if i == 0 {
    } else {
      PendingMeans(s, trace, i - 1);
      BeforeNext(s, trace, i - 1);
    }
  }

  /** The one announcement people rely on: it fires on the second consecutive reading of a question not already believed, and only then. */
  lemma WaitingFires(s: AgentStatus, trace: seq<Evidence>, i: nat)
    requires i < |trace|
    ensures OutcomeAt(s, trace, i).enteredWaiting
       <==> i > 0 && trace[i] == ASKING && trace[i - 1] == ASKING && Before(s, trace, i).status != Waiting
  {
    PendingMeans(s, trace, i);
  }

  lemma {:induction false} LeavesWaiting(s: AgentStatus, trace: seq<Evidence>, i: nat, j: nat) returns (k: nat)
    requires i < j <= |trace|
    requires Before(s, trace, i + 1).status == Waiting && Before(s, trace, j).status != Waiting
    ensures i < k < j && OutcomeAt(s, trace, k).changedFrom == Some(Waiting)
    decreases j
  {
    BeforeNext(s, trace, j - 1);
    if Before(s, trace, j - 1).status == Waiting {
      k := j - 1;
    } else {
      k := LeavesWaiting(s, trace, i, j - 1);
    }
  }

  /** Two announcements always have a change out of `Waiting` between them: nothing restacks while a question holds. */
  lemma NoRestacking(s: AgentStatus, trace: seq<Evidence>, i: nat, j: nat)
    requires i < j < |trace|
    requires OutcomeAt(s, trace, i).enteredWaiting && OutcomeAt(s, trace, j).enteredWaiting
    ensures exists k :: i < k < j && OutcomeAt(s, trace, k).changedFrom == Some(Waiting)
  {
    BeforeNext(s, trace, i);
    WaitingFires(s, trace, j);
    var k := LeavesWaiting(s, trace, i, j);
  }

  /**
   Whatever was seen before: a process that is gone ends the session, as an error
   exactly if it left an exit code other than zero, and as a change exactly from
   another belief; a living one never ends it.
   */
  lemma DeathDecides(s: AgentStatus, trace: seq<Evidence>, exitCode: Option<int>, seen: Option<AgentStatus>)
    ensures var was := After(New(s), trace).status;
            var (b, o) := Polled(After(New(s), trace), Dead(exitCode));
            && o.processEnded && !o.enteredWaiting && b.status == o.status && b.pending.None?
            && (o.status == Error <==> exitCode.Some? && exitCode.value != 0)
            && (o.status == Stopped <==> exitCode.None? || exitCode.value == 0)
            && o.changedFrom == if was == o.status then None else Some(was)
    ensures !Polled(After(New(s), trace), Alive(seen)).1.processEnded
  {
  }

  // ---- the belief in closed form, over polls of a living process ----

  function Living(seen: seq<Option<AgentStatus>>): seq<Evidence> {
    seq(|seen|, i requires 0 <= i < |seen| => Alive(seen[i]))
  }

  /** A reading believed at once: anything but a question, or the second sight of one in a row. */
  predicate Confirmed(seen: seq<Option<AgentStatus>>, i: nat)
    requires i < |seen|
  {
    seen[i].Some? && (seen[i] != Some(Waiting) || (i > 0 && seen[i - 1] == Some(Waiting)))
  }

  /** The length of the run of unrecognised screens that `seen` ends in. */
  function BlankTail(seen: seq<Option<AgentStatus>>): nat {
    if seen == [] || seen[|seen| - 1].Some? then 0 else 1 + BlankTail(seen[..|seen| - 1])
  }

  /**
   What ought to be believed, read straight off the history with no counter
   and no pending reading: the last confirmed status, unless more than
   `STALENESS_CAP` unrecognised screens in a row have come since.
   */
  function Warranted(s: AgentStatus, seen: seq<Option<AgentStatus>>): AgentStatus {
    if seen == [] then s
    else if Confirmed(seen, |seen| - 1) then seen[|seen| - 1].value
    else if BlankTail(seen) > STALENESS_CAP then Idle
    else Warranted(s, seen[..|seen| - 1])
  }

  lemma LivingInit(seen: seq<Option<AgentStatus>>)
    requires seen != []
    ensures Living(seen)[..|seen| - 1] == Living(seen[..|seen| - 1])
  {
  }

  lemma PendingLiving(s: AgentStatus, seen: seq<Option<AgentStatus>>)
    ensures var b := After(New(s), Living(seen));
            b.pending == if seen != [] && seen[|seen| - 1] == Some(Waiting) && b.status != Waiting then Some((Waiting, 0)) else None
  {
    PendingMeans(s, Living(seen), |seen|);
    assert Living(seen)[..|seen|] == Living(seen);
  }

  predicate Warrants(s: AgentStatus, seen: seq<Option<AgentStatus>>, b: Belief) {
    b.status == Warranted(s, seen) && (b.status != Idle ==> b.stale == BlankTail(seen) <= STALENESS_CAP)
  }

  lemma PollKeepsWarrant(s: AgentStatus, seen: seq<Option<AgentStatus>>, b: Belief)
    requires seen != []
    requires var init := seen[..|seen| - 1];
             && Warrants(s, init, b)
             && b.pending == if init != [] && init[|init| - 1] == Some(Waiting) && b.status != Waiting then Some((Waiting, 0)) else None
    ensures Warrants(s, seen, Polled(b, Alive(seen[|seen| - 1])).0)
  {
  }

  /** The belief is what is warranted, and its age is the current run of unrecognised screens. */
  lemma {:induction false} BeliefIsWarranted(s: AgentStatus, seen: seq<Option<AgentStatus>>)
    ensures Warrants(s, seen, After(New(s), Living(seen)))
  {
    if seen == [] {
    } else {
      var init := seen[..|seen| - 1];
      BeliefIsWarranted(s, init);
      PendingLiving(s, init);
      LivingInit(seen);
      PollKeepsWarrant(s, seen, After(New(s), Living(init)));
    }
  }

  /** The death of a process seen so far is a change from what is warranted, exactly if it differs. */
  lemma DeathChangesTheWarranted(s: AgentStatus, seen: seq<Option<AgentStatus>>, exitCode: Option<int>)
    ensures var o := Polled(After(New(s), Living(seen)), Dead(exitCode)).1;
            && (o.changedFrom.Some? <==> Warranted(s, seen) != o.status)
            && (o.changedFrom.Some? ==> o.changedFrom == Some(Warranted(s, seen)))
            && (o.status == if exitCode.Some? && exitCode.value != 0 then Error else Stopped)
  {
    BeliefIsWarranted(s, seen);
    DeathDecides(s, Living(seen), exitCode, None);
  }

  /** A belief other than idle decays on the sixteenth unrecognised screen in a row, never before and never later. */
  lemma DecaysOnTheSixteenth(s: AgentStatus, seen: seq<Option<AgentStatus>>, last: Option<AgentStatus>)
    ensures var b := After(New(s), Living(seen));
            var o := Polled(b, Alive(last)).1;
            && (b.status != Idle && last.None? ==> (o.changedFrom.Some? <==> BlankTail(seen + [last]) == 16))
            && (o.changedFrom.Some? && last.None? ==> o.status == Idle && o.changedFrom == Some(b.status))
            && (b.status == Idle && last.None? ==> o == Unchanged(b))
  {
    BeliefIsWarranted(s, seen);
    assert (seen + [last])[..|seen|] == seen;
  }

  /** However long nothing is recognised, idle says nothing more, even once its counter has wrapped. */
  lemma {:induction false} IdleStaysQuiet(b: Belief, n: nat)
    requires b.status == Idle
    ensures var aged := After(b, seq(n, _ => Alive(None)));
            aged.status == Idle && Polled(aged, Alive(None)).1 == Unchanged(aged)
  {
    if n == 0 {
    } else {
      var blank := seq(n, _ => Alive(None));
      assert blank[..n - 1] == seq(n - 1, _ => Alive(None));
      IdleStaysQuiet(b, n - 1);
    }
  }
}
