/** Which tap may answer which question, over whatever the bot hears and whoever taps. */
module Bot {
  import opened Options
  import opened Events
  import opened Callbacks

  /** The question each session is sitting on. */
  type Outstanding = map<SessionKey, int>

  /** An event from one machine, or somebody's tap; each is one critical section of the same lock. */
  datatype Step = Saw(machine: MachineRef, record: EventRecord) | Tapped(sender: int, data: string)

  /** A question replaces the one before; anything else about the session means it is no longer asked. */
  function Noticed(o: Outstanding, machine: MachineRef, record: EventRecord): Outstanding {
    match record.event
    case AgentWaiting(_, session, _) => o[SessionKey(machine, session) := record.id]
    case TaskQueued(_, _, _, _) => o
    case TaskDispatched(_, _, _, _) => o
    case DispatchFailed(_, _, _) => o
    case _ => Forgotten(o, machine, record.event.SessionId())
  }

  function Forgotten(o: Outstanding, machine: MachineRef, session: Option<int>): Outstanding {
    if session.Some? then o - {SessionKey(machine, session.value)} else o
  }

  function KeyOf(p: Prompt): SessionKey {
    SessionKey(p.machine, p.session)
  }

  /** An answered question is taken in the same breath as it is found. */
  function Claimed(o: Outstanding, data: string): Outstanding {
    if TapOf(data, o).Answered? then o - {KeyOf(Decode(data).value.0)} else o
  }

  class Bot {
    const allowlist: set<int>
    var outstanding: Outstanding

    constructor (allowlist: set<int>)
      ensures this.allowlist == allowlist && outstanding == map[]
    {
      this.allowlist, outstanding := allowlist, map[];
    }

    /** `permission` says whether the pane shows something a button can answer. */
    method PushFrom(machine: MachineRef, record: EventRecord, permission: bool) returns (buttons: seq<string>)
      modifies this
      ensures outstanding == Noticed(old(outstanding), machine, record)
      ensures buttons == if record.event.AgentWaiting? && permission then Buttons(machine, record) else []
    {
      buttons := [];
      match record.event {
        case AgentWaiting(task, session, _) =>
          outstanding := outstanding[SessionKey(machine, session) := record.id];
          if permission {
            var prompt := Prompt(machine, task, session, record.id);
            buttons := [Encode(prompt, Approve), Encode(prompt, Deny)];
          }
        case TaskQueued(_, _, _, _) =>
        case TaskDispatched(_, _, _, _) =>
        case DispatchFailed(_, _, _) =>
        case _ => Forget(machine, record);
      }
    }

    method Forget(machine: MachineRef, record: EventRecord)
      modifies this
      ensures outstanding == Forgotten(old(outstanding), machine, record.event.SessionId())
    {
      var session := record.event.SessionId();
      if session.Some? {
        outstanding := outstanding - {SessionKey(machine, session.value)};
      }
    }

    /** Nothing is decided about a tap from somebody not allowlisted. */
    method HandleTap(sender: int, data: string) returns (decision: Option<Tap>)
      modifies this
      ensures decision == if sender in allowlist then Some(TapOf(data, old(outstanding))) else None
      ensures outstanding == if sender in allowlist then Claimed(old(outstanding), data) else old(outstanding)
    {
      if sender !in allowlist {
        return None;
      }
      var tap := TapOf(data, outstanding);
      if tap.Answered? {
        var (prompt, _) := Decode(data).value;
        outstanding := outstanding - {SessionKey(prompt.machine, prompt.session)};
      }
      decision := Some(tap);
    }
  }

  function PromptOf(machine: MachineRef, record: EventRecord): Prompt
    requires record.event.AgentWaiting?
  {
    Prompt(machine, record.event.task, record.event.session, record.id)
  }

  function Buttons(machine: MachineRef, record: EventRecord): seq<string>
    requires record.event.AgentWaiting?
  {
    [Encode(PromptOf(machine, record), Approve), Encode(PromptOf(machine, record), Deny)]
  }

  // ---- whole runs ----

  /** What is outstanding once all of these have happened. */
  function After(allowlist: set<int>, steps: seq<Step>): Outstanding {
    if steps == [] then map[]
    else
      var o := After(allowlist, steps[..|steps| - 1]);
      match steps[|steps| - 1]
      case Saw(machine, record) => Noticed(o, machine, record)
      case Tapped(sender, data) => if sender in allowlist then Claimed(o, data) else o
  }

  /** The step asks this session this question. */
  predicate Asks(step: Step, key: SessionKey, asked: int) {
    && step.Saw? && step.machine == key.machine && step.record.id == asked
    && step.record.event.AgentWaiting? && step.record.event.session == key.session
  }

  predicate About(step: Step, key: SessionKey) {
    step.Saw? && step.machine == key.machine && step.record.event.SessionId() == Some(key.session)
  }

  /** Step `i` is a tap that is let through to this session. */
  predicate Accepted(allowlist: set<int>, steps: seq<Step>, i: nat, key: SessionKey)
    requires i < |steps|
  {
    && steps[i].Tapped? && steps[i].sender in allowlist
    && TapOf(steps[i].data, After(allowlist, steps[..i])).Answered?
    && KeyOf(Decode(steps[i].data).value.0) == key
  }

  /** Between `q` and `n` nothing is heard about the session and no tap is let through to it. */
  ghost predicate StillAsked(allowlist: set<int>, steps: seq<Step>, q: nat, n: nat, key: SessionKey)
    requires n <= |steps|
  {
    forall j :: q < j < n ==> !About(steps[j], key) && !Accepted(allowlist, steps, j, key)
  }

  lemma AfterNext(allowlist: set<int>, steps: seq<Step>, n: nat)
    requires n < |steps|
    ensures var o, o' := After(allowlist, steps[..n]), After(allowlist, steps[..n + 1]);
            && (steps[n].Saw? ==> o' == Noticed(o, steps[n].machine, steps[n].record))
            && (steps[n].Tapped? ==> o' == if steps[n].sender in allowlist then Claimed(o, steps[n].data) else o)
  {
    assert steps[..n + 1][..n] == steps[..n];
  }

  /** One step leaves a session's question alone exactly when it is neither about the session nor let through to it. */
  lemma QuietStep(allowlist: set<int>, steps: seq<Step>, n: nat, key: SessionKey)
    requires n < |steps|
    ensures var o, o' := After(allowlist, steps[..n]), After(allowlist, steps[..n + 1]);
            if About(steps[n], key) && steps[n].record.event.AgentWaiting? then key in o' && o'[key] == steps[n].record.id
            else if About(steps[n], key) || Accepted(allowlist, steps, n, key) then key !in o'
            else (key in o <==> key in o') && (key in o ==> o'[key] == o[key])
  {
    AfterNext(allowlist, steps, n);
  }

  lemma {:induction false} QuestionStands(allowlist: set<int>, steps: seq<Step>, q: nat, n: nat, key: SessionKey, asked: int)
    requires q < n <= |steps| && Asks(steps[q], key, asked) && StillAsked(allowlist, steps, q, n, key)
    ensures var o := After(allowlist, steps[..n]); key in o && o[key] == asked
  {
    QuietStep(allowlist, steps, n - 1, key);
    if q == n - 1 {
    } else {
      QuestionStands(allowlist, steps, q, n - 1, key, asked);
    }
  }

  lemma {:induction false} QuestionWasAsked(allowlist: set<int>, steps: seq<Step>, n: nat, key: SessionKey) returns (q: nat)
    requires n <= |steps| && key in After(allowlist, steps[..n])
    ensures q < n && Asks(steps[q], key, After(allowlist, steps[..n])[key]) && StillAsked(allowlist, steps, q, n, key)
  {
    if n == 0 {
      assert false;
    } else {
      QuietStep(allowlist, steps, n - 1, key);
      if About(steps[n - 1], key) {
        q := n - 1;
      } else {
        q := QuestionWasAsked(allowlist, steps, n - 1, key);
      }
    }
  }

  /**
   On every run: a tap is let through exactly when an allowlisted sender's
   payload names the very question that was the last thing heard about that
   machine's session, and no tap has been let through to it since.
   */
  lemma AcceptedIff(allowlist: set<int>, steps: seq<Step>, i: nat)
    requires i < |steps| && steps[i].Tapped? && Decode(steps[i].data).Some?
    ensures var p := Decode(steps[i].data).value.0;
            Accepted(allowlist, steps, i, KeyOf(p))
            <==> steps[i].sender in allowlist
                 && exists q :: 0 <= q < i && Asks(steps[q], KeyOf(p), p.asked) && StillAsked(allowlist, steps, q, i, KeyOf(p))
  {
    var p := Decode(steps[i].data).value.0;
    var o := After(allowlist, steps[..i]);
    if KeyOf(p) in o {
      var q := QuestionWasAsked(allowlist, steps, i, KeyOf(p));
    }
    if q :| 0 <= q < i && Asks(steps[q], KeyOf(p), p.asked) && StillAsked(allowlist, steps, q, i, KeyOf(p)) {
      QuestionStands(allowlist, steps, q, i, KeyOf(p), p.asked);
    }
  }

  /** This question was the last thing heard of the session, and nobody has answered it. */
  ghost predicate Sits(allowlist: set<int>, steps: seq<Step>, i: nat, key: SessionKey, asked: int)
    requires i <= |steps|
  {
    exists q :: 0 <= q < i && Asks(steps[q], key, asked) && StillAsked(allowlist, steps, q, i, key)
  }

  lemma OutstandingIff(allowlist: set<int>, steps: seq<Step>, i: nat, key: SessionKey, asked: int)
    requires i <= |steps|
    ensures var o := After(allowlist, steps[..i]); key in o && o[key] == asked <==> Sits(allowlist, steps, i, key, asked)
  {
    var o := After(allowlist, steps[..i]);
    if key in o && o[key] == asked {
      var q := QuestionWasAsked(allowlist, steps, i, key);
    }
    if Sits(allowlist, steps, i, key, asked) {
      var q :| 0 <= q < i && Asks(steps[q], key, asked) && StillAsked(allowlist, steps, q, i, key);
      QuestionStands(allowlist, steps, q, i, key, asked);
    }
  }

  /**
   What anybody is told who taps: that it was answered exactly if the question
   tapped still sits there, that there is another one exactly if another does,
   and that there is none exactly if none does.
   */
  lemma VerdictIff(allowlist: set<int>, steps: seq<Step>, i: nat)
    requires i < |steps| && steps[i].Tapped?
    ensures var (decoded, tap) := (Decode(steps[i].data), TapOf(steps[i].data, After(allowlist, steps[..i])));
            && (tap == Unreadable <==> decoded.None?)
            && (decoded.Some? ==>
                  var (p, answer) := decoded.value;
                  && (tap == Answered(answer) <==> Sits(allowlist, steps, i, KeyOf(p), p.asked))
                  && (tap == OtherQuestion <==> exists other :: other != p.asked && Sits(allowlist, steps, i, KeyOf(p), other))
                  && (tap == NoQuestion <==> forall asked :: !Sits(allowlist, steps, i, KeyOf(p), asked)))
  {
    var (decoded, o) := (Decode(steps[i].data), After(allowlist, steps[..i]));
    if decoded.Some? {
      var p := decoded.value.0;
      forall asked ensures KeyOf(p) in o && o[KeyOf(p)] == asked <==> Sits(allowlist, steps, i, KeyOf(p), asked) {
        OutstandingIff(allowlist, steps, i, KeyOf(p), asked);
      }
      if KeyOf(p) in o {
        assert Sits(allowlist, steps, i, KeyOf(p), o[KeyOf(p)]);
      }
    }
  }

  /** The two buttons of a question say yes and no to it. */
  lemma ButtonsSay(machine: MachineRef, record: EventRecord)
    requires record.event.AgentWaiting? && Representable(PromptOf(machine, record))
    ensures var b := Buttons(machine, record);
            && |b| == 2
            && Decode(b[0]) == Some((Prompt(machine, record.event.task, record.event.session, record.id), Approve))
            && Decode(b[1]) == Some((Prompt(machine, record.event.task, record.event.session, record.id), Deny))
  {
    DecodeEncode(PromptOf(machine, record), Approve);
    DecodeEncode(PromptOf(machine, record), Deny);
  }

  /** Two taps let through to one session always have the second one's question asked between them. */
  lemma AskedAgainBetween(allowlist: set<int>, steps: seq<Step>, i: nat, j: nat, key: SessionKey)
    requires i < j < |steps| && Accepted(allowlist, steps, i, key) && Accepted(allowlist, steps, j, key)
    ensures exists q :: i < q < j && Asks(steps[q], key, Decode(steps[j].data).value.0.asked)
  {
    var q := QuestionWasAsked(allowlist, steps, j, key);
    assert i < q;
  }

  /** A tap let through names the question outstanding for that session. */
  lemma AcceptedWas(allowlist: set<int>, steps: seq<Step>, i: nat, key: SessionKey)
    requires i < |steps| && Accepted(allowlist, steps, i, key)
    ensures var o := After(allowlist, steps[..i]); key in o && o[key] == Decode(steps[i].data).value.0.asked
  {
  }

  /** No machine's event is heard twice. */
  ghost predicate HeardOnce(steps: seq<Step>) {
    forall i, j :: 0 <= i < j < |steps| && steps[i].Saw? && steps[j].Saw? && steps[i].machine == steps[j].machine
                   ==> steps[i].record.id != steps[j].record.id
  }

  /** Each question is answered at most once, whoever taps and however fast. */
  lemma AnsweredAtMostOnce(allowlist: set<int>, steps: seq<Step>, i: nat, j: nat, key: SessionKey, other: SessionKey)
    requires HeardOnce(steps) && i < j < |steps|
    requires Accepted(allowlist, steps, i, key) && Accepted(allowlist, steps, j, other) && key.machine == other.machine
    ensures Decode(steps[i].data).value.0.asked != Decode(steps[j].data).value.0.asked
  {
    AcceptedWas(allowlist, steps, i, key);
    AcceptedWas(allowlist, steps, j, other);
    var first := QuestionWasAsked(allowlist, steps, i, key);
    var second := QuestionWasAsked(allowlist, steps, j, other);
    assert first < i && (key == other ==> i < second);
  }

  /** Once anything more is heard about the session, no tap answers its earlier question again. */
  lemma MovedOn(allowlist: set<int>, steps: seq<Step>, q: nat, later: nat, i: nat, key: SessionKey)
    requires HeardOnce(steps) && q < later < i < |steps|
    requires About(steps[q], key) && steps[q].record.event.AgentWaiting? && About(steps[later], key)
    requires Accepted(allowlist, steps, i, key)
    ensures Decode(steps[i].data).value.0.asked != steps[q].record.id
  {
    var asked := QuestionWasAsked(allowlist, steps, i, key);
    assert asked >= later;
  }

  /** The buttons under a question answer it, the way they say, for as long as it is still asked. */
  lemma ButtonsAnswer(allowlist: set<int>, steps: seq<Step>, q: nat, i: nat, answer: Answer)
    requires q < i < |steps| && steps[q].Saw? && steps[q].record.event.AgentWaiting?
    requires Representable(PromptOf(steps[q].machine, steps[q].record))
    requires StillAsked(allowlist, steps, q, i, KeyOf(PromptOf(steps[q].machine, steps[q].record)))
    requires steps[i].Tapped? && steps[i].sender in allowlist
    requires steps[i].data == Encode(PromptOf(steps[q].machine, steps[q].record), answer)
    ensures TapOf(steps[i].data, After(allowlist, steps[..i])) == Answered(answer)
  {
    var p := PromptOf(steps[q].machine, steps[q].record);
    DecodeEncode(p, answer);
    QuestionStands(allowlist, steps, q, i, KeyOf(p), p.asked);
  }
}
