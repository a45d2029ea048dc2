/** Button payloads: which prompt, which answer, in the 64 bytes a callback may carry. */
module Callbacks {
  import opened Options
  import opened Decimal

  datatype Answer = Approve | Deny

  /** Which daemon a prompt's session runs on: this one, or a position in the machines configured. */
  datatype MachineRef = Local | Remote(index: nat) {
    /** This Mac comes first in the fleet. */
    function FleetIndex(): nat {
      match this
      case Local => 0
      case Remote(at) => at + 1
    }

    static function FromFleetIndex(index: nat): MachineRef {
      if index == 0 then Local else Remote(index - 1)
    }

    function Token(): string {
      match this
      case Local => "l"
      case Remote(at) => "r" + Digits(at)
    }

    static function Parse(token: string): Option<MachineRef> {
      if token == "l" then Some(Local)
      else if token != [] && token[0] == 'r' then
        var index := ParseUsize(token[1..]);
        if index.Some? then Some(Remote(index.value)) else None
      else None
    }
  }

  /** `asked` is the id of the event that raised the buttons, so the next question on the session is another prompt. */
  datatype Prompt = Prompt(machine: MachineRef, task: int, session: int, asked: int)

  /** Ids are unique within one daemon only. */
  datatype SessionKey = SessionKey(machine: MachineRef, session: int)

  datatype Tap = Answered(answer: Answer) | OtherQuestion | NoQuestion | Unreadable

  function AnswerToken(answer: Answer): string {
    if answer == Approve then "y" else "n"
  }

  function ParseAnswer(token: string): Option<Answer> {
    if token == "y" then Some(Approve) else if token == "n" then Some(Deny) else None
  }

  function Encode(p: Prompt, answer: Answer): string {
    Joined(Written(p, answer))
  }

  function Written(p: Prompt, answer: Answer): seq<string> {
    [AnswerToken(answer), p.machine.Token(), Show(p.task), Show(p.session), Show(p.asked)]
  }

  /** The fields with a colon between each two. */
  function Joined(fields: seq<string>): string {
    if fields == [] then "" else if |fields| == 1 then fields[0] else fields[0] + ":" + Joined(fields[1..])
  }

  /** The text between colons; always at least one field. */
  function Fields(data: string): (fields: seq<string>)
    ensures fields != [] && forall i :: 0 <= i < |fields| ==> ':' !in fields[i]
  {
    if data == [] then [""]
    else
      var rest := Fields(data[1..]);
      if data[0] == ':' then [""] + rest else [[data[0]] + rest[0]] + rest[1..]
  }

  /** Anything but exactly five readable fields is no payload of ours. */
  function Decode(data: string): Option<(Prompt, Answer)> {
    var f := Fields(data);
    if |f| != 5 then None
    else
      var (answer, machine) := (ParseAnswer(f[0]), MachineRef.Parse(f[1]));
      var (task, session, asked) := (ParseI64(f[2]), ParseI64(f[3]), ParseI64(f[4]));
      if answer.Some? && machine.Some? && task.Some? && session.Some? && asked.Some? then
        Some((Prompt(machine.value, task.value, session.value, asked.value), answer.value))
      else None
  }

  function TapOf(data: string, outstanding: map<SessionKey, int>): Tap {
    match Decode(data)
    case None => Unreadable
    case Some((p, answer)) =>
      var key := SessionKey(p.machine, p.session);
      if key !in outstanding then NoQuestion
      else if outstanding[key] == p.asked then Answered(answer)
      else OtherQuestion
  }

  predicate IsI64(i: int) {
    I64_MIN <= i <= I64_MAX
  }

  /** What the program's own types can hold. */
  predicate Representable(p: Prompt) {
    && IsI64(p.task) && IsI64(p.session) && IsI64(p.asked)
    && (p.machine.Remote? ==> p.machine.index <= USIZE_MAX)
  }

  lemma FleetIndexRoundTrip(machine: MachineRef, index: nat)
    ensures MachineRef.FromFleetIndex(machine.FleetIndex()) == machine
    ensures MachineRef.FromFleetIndex(index).FleetIndex() == index
  {
  }

  /** This Mac is the first of the fleet, and the machines configured follow it in their order. */
  lemma FleetStartsHere(at: nat)
    ensures Local.FleetIndex() == 0 && Remote(at).FleetIndex() == at + 1
    ensures MachineRef.FromFleetIndex(0) == Local && MachineRef.FromFleetIndex(at + 1) == Remote(at)
  {
  }

  /** A payload on the wire: answer, machine, and the three ids, between colons. */
  lemma PayloadIs(p: Prompt, answer: Answer)
    ensures Encode(p, answer)
         == (match answer case Approve => "y" case Deny => "n")
            + ":" + ((match p.machine case Local => "l" case Remote(at) => "r" + Show(at))
            + ":" + (Show(p.task) + ":" + (Show(p.session) + ":" + Show(p.asked))))
  {
    var f := Written(p, answer);
    JoinedNext(f[0], f[1..]);
    JoinedNext(f[1], f[2..]);
    JoinedNext(f[2], f[3..]);
    JoinedNext(f[3], f[4..]);
    assert f[4..] == [f[4]];
    assert f == [f[0]] + f[1..] && f[1..] == [f[1]] + f[2..] && f[2..] == [f[2]] + f[3..] && f[3..] == [f[3]] + f[4..];
  }

  lemma JoinedNext(field: string, rest: seq<string>)
    requires rest != []
    ensures Joined([field] + rest) == field + ":" + Joined(rest)
  {
    assert ([field] + rest)[1..] == rest;
  }

  // ---- round trips ----

  lemma {:induction false} FieldsFirst(field: string, rest: string)
    requires ':' !in field
    ensures Fields(field) == [field]
    ensures Fields(field + ":" + rest) == [field] + Fields(rest)
  {
    if field == [] {
      assert field + ":" + rest == ":" + rest;
    } else {
      FieldsFirst(field[1..], rest);
      var whole := field + ":" + rest;
      assert whole[0] == field[0] && whole[1..] == field[1..] + ":" + rest;
      assert [field[0]] + field[1..] == field;
      assert ([field[1..]] + Fields(rest))[1..] == Fields(rest);
    }
  }

  lemma TokensHaveNoColon(machine: MachineRef, i: int)
    ensures ':' !in machine.Token() && ':' !in Show(i)
  {
    if ':' in Show(i) {
      ShowAlphabet(i, ':');
    }
  }

  lemma {:induction false} FieldsJoined(fields: seq<string>)
    requires fields != [] && forall i :: 0 <= i < |fields| ==> ':' !in fields[i]
    ensures Fields(Joined(fields)) == fields
  {
    if |fields| == 1 {
      FieldsFirst(fields[0], "");
    } else {
      FieldsJoined(fields[1..]);
      FieldsFirst(fields[0], Joined(fields[1..]));
    }
  }

  lemma FieldsOfEncoded(p: Prompt, answer: Answer)
    ensures Fields(Encode(p, answer)) == Written(p, answer)
  {
    TokensHaveNoColon(p.machine, p.task);
    TokensHaveNoColon(p.machine, p.session);
    TokensHaveNoColon(p.machine, p.asked);
    FieldsJoined(Written(p, answer));
  }

  lemma TokenRoundTrip(machine: MachineRef)
    requires machine.Remote? ==> machine.index <= USIZE_MAX
    ensures MachineRef.Parse(machine.Token()) == Some(machine)
  {
    if machine.Remote? {
      ParseShowUsize(machine.index);
      assert machine.Token()[1..] == Digits(machine.index);
    }
  }

  /** Every prompt and answer comes back out of its button. */
  lemma DecodeEncode(p: Prompt, answer: Answer)
    requires Representable(p)
    ensures Decode(Encode(p, answer)) == Some((p, answer))
  {
    FieldsOfEncoded(p, answer);
    TokenRoundTrip(p.machine);
    ParseShow(p.task, I64_MIN, I64_MAX);
    ParseShow(p.session, I64_MIN, I64_MAX);
    ParseShow(p.asked, I64_MIN, I64_MAX);
  }

  /** Nothing decodes to a prompt that could not be encoded, so encoding what was decoded and decoding again changes nothing. */
  lemma DecodedIsStable(data: string)
    requires Decode(data).Some?
    ensures Representable(Decode(data).value.0)
    ensures Decode(Encode(Decode(data).value.0, Decode(data).value.1)) == Decode(data)
  {
    var (p, answer) := Decode(data).value;
    DecodeEncode(p, answer);
  }

  lemma SignedTokenParses(index: nat)
    requires index <= USIZE_MAX
    ensures MachineRef.Parse("r+" + Digits(index)) == Some(Remote(index))
  {
    var token := "r+" + Digits(index);
    assert token[1..] == "+" + Digits(index) && token[1..][1..] == Digits(index);
    ValueOfDigits(index);
  }

  /** Reading is more forgiving than writing: a plus sign before a machine's index makes another payload for the same prompt. */
  lemma SignedPayloadReadsTheSame(p: Prompt, answer: Answer)
    requires Representable(p) && p.machine.Remote?
    ensures Decode(Joined(Written(p, answer)[1 := "r+" + Digits(p.machine.index)])) == Some((p, answer))
  {
    DecodeEncode(p, answer);
    FieldsOfEncoded(p, answer);
    SignedTokenParses(p.machine.index);
    FieldsJoined(Written(p, answer)[1 := "r+" + Digits(p.machine.index)]);
  }

  // ---- length ----

  lemma EncodedLength(p: Prompt, answer: Answer)
    ensures |Encode(p, answer)| == 5 + |p.machine.Token()| + |Show(p.task)| + |Show(p.session)| + |Show(p.asked)|
  {
    var w := Written(p, answer);
    assert |Joined(w)| == |w[0]| + 1 + |Joined(w[1..])|;
    assert |Joined(w[1..])| == |w[1]| + 1 + |Joined(w[2..])| by { assert w[1..][1..] == w[2..]; }
    assert |Joined(w[2..])| == |w[2]| + 1 + |Joined(w[3..])| by { assert w[2..][1..] == w[3..]; }
    assert |Joined(w[3..])| == |w[3]| + 1 + |w[4]| by { assert w[3..][1..] == w[4..]; }
  }

  lemma LongestId(i: int)
    requires 0 <= i <= I64_MAX
    ensures |Show(i)| <= 19
    ensures i == I64_MAX ==> |Show(i)| == 19
  {
    Powers();
    DigitCount(i, 19);
    DigitCount(i, 18);
  }

  lemma Powers()
    ensures Pow10(1) == 10 && Pow10(18) == 1_000_000_000_000_000_000 && Pow10(19) == 10_000_000_000_000_000_000
  {
    assert Pow10(1) == 10 * Pow10(0);
    assert Pow10(4) == 10_000 by { assert Pow10(2) == 100; }
    assert Pow10(8) == 100_000_000 by { assert Pow10(6) == 1_000_000; }
    assert Pow10(12) == 1_000_000_000_000 by { assert Pow10(10) == 10_000_000_000; }
    assert Pow10(16) == 10_000_000_000_000_000 by { assert Pow10(14) == 100_000_000_000_000; }
    assert Pow10(18) == 1_000_000_000_000_000_000 by { assert Pow10(17) == 100_000_000_000_000_000; }
  }

  predicate FitsAlways(machine: MachineRef) {
    machine.Local? || machine.index < 10
  }

  /** With a machine of a one-digit index, every payload the store's own ids can make fits a callback. */
  lemma PayloadFits(p: Prompt, answer: Answer)
    requires 0 <= p.task <= I64_MAX && 0 <= p.session <= I64_MAX && 0 <= p.asked <= I64_MAX
    requires FitsAlways(p.machine)
    ensures |Encode(p, answer)| <= 64
  {
    EncodedLength(p, answer);
    LongestId(p.task);
    LongestId(p.session);
    LongestId(p.asked);
  }

  /** And with any other machine, some payload does not. */
  lemma PayloadOverflows(machine: MachineRef, answer: Answer)
    requires !FitsAlways(machine)
    ensures |Encode(Prompt(machine, I64_MAX, I64_MAX, I64_MAX), answer)| > 64
  {
    EncodedLength(Prompt(machine, I64_MAX, I64_MAX, I64_MAX), answer);
    LongestId(I64_MAX);
    Powers();
    DigitCount(machine.index, 1);
  }

  /** Fields between colons are a payload exactly if they are five, and each reads as what it should be. */
  lemma FiveFieldsRead(fields: seq<string>)
    requires fields != [] && forall i :: 0 <= i < |fields| ==> ':' !in fields[i]
    ensures Decode(Joined(fields)).Some? <==>
              && |fields| == 5 && fields[0] in {"y", "n"}
              && (fields[1] == "l" || (fields[1] != "" && fields[1][0] == 'r' && ParseUsize(fields[1][1..]).Some?))
              && ParseI64(fields[2]).Some? && ParseI64(fields[3]).Some? && ParseI64(fields[4]).Some?
  {
    FieldsJoined(fields);
  }

  ghost predicate AllFit(machine: MachineRef) {
    forall task: int, session: int, asked: int, answer: Answer ::
      0 <= task <= I64_MAX && 0 <= session <= I64_MAX && 0 <= asked <= I64_MAX
      ==> |Encode(Prompt(machine, task, session, asked), answer)| <= 64
  }

  /** Payloads fit whatever the ids exactly when the machine is this one or its index has one digit. */
  lemma PayloadsFitIff(machine: MachineRef)
    ensures AllFit(machine) <==> FitsAlways(machine)
  {
    if FitsAlways(machine) {
      forall task: int, session: int, asked: int, answer: Answer
        | 0 <= task <= I64_MAX && 0 <= session <= I64_MAX && 0 <= asked <= I64_MAX
        ensures |Encode(Prompt(machine, task, session, asked), answer)| <= 64
      {
        PayloadFits(Prompt(machine, task, session, asked), answer);
      }
    } else {
      PayloadOverflows(machine, Approve);
    }
  }
}
