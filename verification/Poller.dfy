/**
 Skipping the capture of a pane that has produced nothing: when that is the
 same as reading it every time, and when it is not.
 */
module Poller {
  import opened Options
  import opened Events
  import opened Tracker

  /**
   What one poll of a session would find. `seen` is what a capture taken now
   would be recognised as: nothing, when the capture fails.
   */
  datatype Look = Gone(exitCode: Option<int>) | Pane(activity: Option<int>, seen: Option<AgentStatus>)

  function Read(b: Belief, look: Look): (Belief, Outcome) {
    match look
    case Gone(code) => Polled(b, Dead(code))
    case Pane(activity, seen) => Polled(b.(lastActivity := activity), Alive(seen))
  }

  predicate Skips(b: Belief, look: Look) {
    look.Pane? && IsUnchangedSince(b, look.activity)
  }

  /** `examine`: a pane that has produced nothing since it was last read is not read again. */
  function Examined(b: Belief, look: Look): (Belief, Outcome) {
    if Skips(b, look) then (b, Unchanged(b)) else Read(b, look)
  }

  method Examine(tracker: Tracker, look: Look) returns (outcome: Outcome)
    modifies tracker
    ensures (tracker.State(), outcome) == Examined(old(tracker.State()), look)
  {
    match look {
      case Gone(code) =>
        outcome := tracker.Poll(Dead(code));
      case Pane(activity, seen) =>
        var still := tracker.UnchangedSince(activity);
        if still {
          outcome := tracker.Skipped();
          return;
        }
        tracker.SawActivity(activity);
        outcome := tracker.Poll(Alive(seen));
    }
  }

  function AfterSkipping(b: Belief, looks: seq<Look>): Belief {
    if looks == [] then b else Examined(AfterSkipping(b, looks[..|looks| - 1]), looks[|looks| - 1]).0
  }

  function AfterReading(b: Belief, looks: seq<Look>): Belief {
    if looks == [] then b else Read(AfterReading(b, looks[..|looks| - 1]), looks[|looks| - 1]).0
  }

  predicate SameMarker(a: Look, b: Look) {
    a.Pane? && b.Pane? && a.activity.Some? && a.activity == b.activity
  }

  /** The same marker twice means the same screen, and a session is not polled again once its process has gone. */
  ghost predicate Faithful(looks: seq<Look>) {
    && (forall i :: 0 <= i < |looks| - 1 ==> looks[i].Pane?)
    && (forall i, j :: 0 <= i < j < |looks| && SameMarker(looks[i], looks[j]) ==> looks[i].seen == looks[j].seen)
  }

  /** Both pollers hold the same belief after every poll, and say the same about every poll. */
  ghost predicate Agree(b: Belief, looks: seq<Look>) {
    && (forall n :: 0 <= n <= |looks| ==> AfterSkipping(b, looks[..n]) == AfterReading(b, looks[..n]))
    && (forall n :: 0 <= n < |looks| ==>
          Examined(AfterSkipping(b, looks[..n]), looks[n]).1 == Read(AfterReading(b, looks[..n]), looks[n]).1)
  }

  /** No screen nothing recognises is found twice running behind one marker. */
  ghost predicate NoBlankRepeats(looks: seq<Look>) {
    forall n :: 0 < n < |looks| && SameMarker(looks[n - 1], looks[n]) ==> looks[n].seen.Some?
  }

  /** No pane that is skipped shows a screen nothing recognises. */
  ghost predicate SkipsOnlyRecognised(b: Belief, looks: seq<Look>) {
    forall n :: 0 <= n < |looks| && Skips(AfterSkipping(b, looks[..n]), looks[n]) ==> looks[n].seen.Some?
  }

  /**
   What makes skipping safe: with no reading pending, the belief is what the
   screen behind the remembered marker was recognised as, and it has not aged.
   */
  ghost predicate Remembers(b: Belief, looks: seq<Look>) {
    b.lastActivity.Some? ==>
      exists r :: 0 <= r < |looks| && looks[r].Pane? && looks[r].activity == b.lastActivity
                  && (looks[r].seen.Some? ==> b.stale == 0 && (b.pending.None? ==> looks[r].seen == Some(b.status)))
  }

  /** Skipping one poll changes exactly as much as reading it would, if and only if the screen confirms the belief. */
  lemma SkipIsReadIff(b: Belief, look: Look)
    requires Skips(b, look) && b.stale == 0
    ensures Examined(b, look) == Read(b, look) <==> look.seen == Some(b.status)
  {
    var kept := b.(lastActivity := look.activity);
    assert kept == b;
  }

  lemma SkipIsNeverBlank(b: Belief, look: Look)
    requires Skips(b, look) && look.seen.None? && b.stale < U32
    ensures Examined(b, look).0 != Read(b, look).0
  {
  }

  lemma {:induction false} ReadRemembers(b: Belief, looks: seq<Look>, look: Look)
    requires look.Pane?
    ensures Remembers(Read(b, look).0, looks + [look])
  {
    assert (looks + [look])[|looks|] == look;
  }

  lemma {:induction false} CounterFits(b: Belief, looks: seq<Look>)
    requires b.stale < U32
    ensures AfterSkipping(b, looks).stale < U32
  {
    if looks == [] {
    } else {
      CounterFits(b, looks[..|looks| - 1]);
    }
  }

  /** One more poll: if the pollers agreed so far, they still do exactly when a skipped screen is a recognised one. */
  lemma StepAgrees(b: Belief, looks: seq<Look>, look: Look)
    requires Faithful(looks + [look]) && Remembers(b, looks) && b.stale < U32
    ensures Examined(b, look) == Read(b, look) <==> (Skips(b, look) ==> look.seen.Some?)
    ensures look.Pane? && (Skips(b, look) ==> look.seen.Some?) ==> Remembers(Examined(b, look).0, looks + [look])
  {
    var all := looks + [look];
    if Skips(b, look) {
      var r :| 0 <= r < |looks| && looks[r].Pane? && looks[r].activity == b.lastActivity
               && (looks[r].seen.Some? ==> b.stale == 0 && (b.pending.None? ==> looks[r].seen == Some(b.status)));
      assert all[r] == looks[r] && all[|looks|] == look;
      if look.seen.Some? {
        SkipIsReadIff(b, look);
      } else {
        SkipIsNeverBlank(b, look);
      }
    } else if look.Pane? {
      ReadRemembers(b, looks, look);
    }
  }

  lemma {:induction false} AgreedSoFar(s: AgentStatus, looks: seq<Look>)
    requires Faithful(looks) && SkipsOnlyRecognised(New(s), looks)
    ensures AfterSkipping(New(s), looks) == AfterReading(New(s), looks)
    ensures (forall i :: 0 <= i < |looks| ==> looks[i].Pane?) ==> Remembers(AfterSkipping(New(s), looks), looks)
  {
    if looks == [] {
    } else {
      var init, last := looks[..|looks| - 1], looks[|looks| - 1];
      SkipsPrefix(New(s), looks, |looks| - 1);
      AgreedSoFar(s, init);
      CounterFits(New(s), init);
      assert init + [last] == looks;
      StepAgrees(AfterSkipping(New(s), init), init, last);
    }
  }

  lemma SkipsPrefix(b: Belief, looks: seq<Look>, n: nat)
    requires n <= |looks| && SkipsOnlyRecognised(b, looks)
    ensures SkipsOnlyRecognised(b, looks[..n])
  {
    forall k | 0 <= k < n && Skips(AfterSkipping(b, looks[..n][..k]), looks[..n][k]) ensures looks[..n][k].seen.Some? {
      assert looks[..n][..k] == looks[..k];
    }
  }

  /** The marker remembered is always the last look's, read or skipped. */
  lemma {:induction false} RemembersTheLast(b: Belief, looks: seq<Look>, n: nat)
    requires b.lastActivity.None? && n < |looks| && forall i :: 0 <= i < n ==> looks[i].Pane?
    ensures AfterSkipping(b, looks[..n]).lastActivity == if n == 0 then None else looks[n - 1].activity
  {
    if n == 0 {
    } else {
      RemembersTheLast(b, looks, n - 1);
      assert looks[..n][..n - 1] == looks[..n - 1];
    }
  }

  /** Right after a blank screen is read nothing is pending, so the same marker again is skipped. */
  lemma BlankIsSkippedNext(s: AgentStatus, looks: seq<Look>, n: nat)
    requires 0 < n < |looks| && forall i :: 0 <= i < n ==> looks[i].Pane?
    requires SameMarker(looks[n - 1], looks[n]) && looks[n - 1].seen.None?
    ensures Skips(AfterSkipping(New(s), looks[..n]), looks[n])
  {
    RemembersTheLast(New(s), looks, n);
    assert looks[..n][..n - 1] == looks[..n - 1];
  }

  /** What the poller may skip can be read off the looks alone. */
  lemma SkipsOnlyRecognisedIff(s: AgentStatus, looks: seq<Look>)
    requires Faithful(looks)
    ensures SkipsOnlyRecognised(New(s), looks) <==> NoBlankRepeats(looks)
  {
    if NoBlankRepeats(looks) {
      forall n | 0 <= n < |looks| && Skips(AfterSkipping(New(s), looks[..n]), looks[n]) ensures looks[n].seen.Some? {
        RemembersTheLast(New(s), looks, n);
        assert SameMarker(looks[n - 1], looks[n]);
      }
    }
    if SkipsOnlyRecognised(New(s), looks) {
      forall n | 0 < n < |looks| && SameMarker(looks[n - 1], looks[n]) ensures looks[n].seen.Some? {
        if looks[n - 1].seen.None? {
          BlankIsSkippedNext(s, looks, n);
        }
      }
    }
  }

  /**
   For every session, polled to its end, whose marker tells its screens apart:
   the poller that skips unchanged panes is indistinguishable from the one that
   reads every time exactly when no unrecognised screen is found twice running.
   */
  lemma SkippingRefinesReading(s: AgentStatus, looks: seq<Look>)
    requires Faithful(looks)
    ensures Agree(New(s), looks) <==> NoBlankRepeats(looks)
  {
    SkipsOnlyRecognisedIff(s, looks);
    if SkipsOnlyRecognised(New(s), looks) {
      RecognisedSkipsAgree(s, looks);
    }
    if Agree(New(s), looks) {
      AgreeingSkipsAreRecognised(s, looks);
    }
  }

  lemma RecognisedSkipsAgree(s: AgentStatus, looks: seq<Look>)
    requires Faithful(looks) && SkipsOnlyRecognised(New(s), looks)
    ensures Agree(New(s), looks)
  {
    var b := New(s);
    forall n | 0 <= n <= |looks| ensures AfterSkipping(b, looks[..n]) == AfterReading(b, looks[..n]) {
      SkipsPrefix(b, looks, n);
      AgreedSoFar(s, looks[..n]);
    }
    forall n | 0 <= n < |looks|
      ensures Examined(AfterSkipping(b, looks[..n]), looks[n]).1 == Read(AfterReading(b, looks[..n]), looks[n]).1
    {
      AgreesAt(s, looks, n);
    }
  }

  lemma AgreeingSkipsAreRecognised(s: AgentStatus, looks: seq<Look>)
    requires Agree(New(s), looks)
    ensures SkipsOnlyRecognised(New(s), looks)
  {
    var b := New(s);
    forall n | 0 <= n < |looks| && Skips(AfterSkipping(b, looks[..n]), looks[n]) ensures looks[n].seen.Some? {
      CounterFits(b, looks[..n]);
      assert looks[..n + 1][..n] == looks[..n];
      assert AfterSkipping(b, looks[..n + 1]) == AfterReading(b, looks[..n + 1]);
      if looks[n].seen.None? {
        SkipIsNeverBlank(AfterSkipping(b, looks[..n]), looks[n]);
      }
    }
  }

  lemma AgreesAt(s: AgentStatus, looks: seq<Look>, n: nat)
    requires Faithful(looks) && SkipsOnlyRecognised(New(s), looks) && n < |looks|
    ensures Examined(AfterSkipping(New(s), looks[..n]), looks[n]).1 == Read(AfterReading(New(s), looks[..n]), looks[n]).1
  {
    var b := New(s);
    SkipsPrefix(b, looks, n);
    AgreedSoFar(s, looks[..n]);
    CounterFits(b, looks[..n]);
    assert looks[..n] + [looks[n]] == looks[..n + 1];
    StepAgrees(AfterSkipping(b, looks[..n]), looks[..n], looks[n]);
  }

  /** In particular they agree whenever every screen is recognised. */
  lemma AgreeWhenAllRecognised(s: AgentStatus, looks: seq<Look>)
    requires Faithful(looks)
    requires forall i :: 0 <= i < |looks| && looks[i].Pane? ==> looks[i].seen.Some?
    ensures Agree(New(s), looks)
  {
    SkippingRefinesReading(s, looks);
  }

  /** The comment's "the belief holds" costs the decay: a motionless unrecognised screen is aged by reading and never by skipping. */
  lemma {:induction false} SkippingNeverAges(n: nat)
    requires n > 0
    ensures AfterSkipping(New(Working), seq(n, _ => Pane(Some(7), None))) == Belief(Working, 1, None, Some(7))
  {
    var looks := seq(n, _ => Pane(Some(7), None));
    assert looks[..n - 1] == seq(n - 1, _ => Pane(Some(7), None));
    if n > 1 {
      SkippingNeverAges(n - 1);
    } else {
      assert looks[..0] == [];
    }
  }

  lemma {:induction false} ReadingAges(n: nat)
    requires 0 < n <= STALENESS_CAP + 1
    ensures AfterReading(New(Working), seq(n, _ => Pane(Some(7), None)))
         == if n <= STALENESS_CAP then Belief(Working, n, None, Some(7)) else Belief(Idle, 0, None, Some(7))
  {
    var looks := seq(n, _ => Pane(Some(7), None));
    assert looks[..n - 1] == seq(n - 1, _ => Pane(Some(7), None));
    if n > 1 {
      ReadingAges(n - 1);
    } else {
      assert looks[..0] == [];
    }
  }
}
