/** Argv templates: the scanner that validates their placeholders and the one that fills them. */
module Template {
  import opened Options
  import opened Decimal

  const PLACEHOLDERS: seq<string> := ["value", "prompt", "task_id", "task_title"]

  function Find(s: string, c: char): (at: Option<nat>)
    ensures at.None? ==> c !in s
    ensures at.Some? ==> at.value < |s| && s[at.value] == c && c !in s[..at.value]
  {
    if s == [] then None
    else if s[0] == c then Some(0)
    else
      var rest := Find(s[1..], c);
      if rest.None? then None else Some(rest.value + 1)
  }

  /** What a template says, scanned once: placeholders with the literal text before each, then text with none in it. */
  datatype Parsed = Tail(text: string) | Hole(before: string, name: string, rest: Parsed)

  /** The first placeholder, what is before it and what is after it. */
  datatype Cut = NoHole | Cut(before: string, name: string, next: string)

  function NextHole(template: string): (cut: Cut)
    ensures cut.Cut? ==> |cut.next| < |template|
  {
    var open := Find(template, '{');
    if open.None? then NoHole
    else
      var after := template[open.value + 1..];
      var close := Find(after, '}');
      if close.None? then NoHole else Cut(template[..open.value], after[..close.value], after[close.value + 1..])
  }

  function Parse(template: string): Parsed
    decreases |template|
  {
    match NextHole(template)
    case NoHole => Tail(template)
    case Cut(before, name, next) => Hole(before, name, Parse(next))
  }

  /** The values a fill has. */
  datatype Values = Values(value: string, taskId: int, taskTitle: string)

  /** What `fill` puts for a name, if it knows it. */
  function ValueFor(name: string, values: Values): Option<string> {
    if name == "value" || name == "prompt" then Some(values.value)
    else if name == "task_id" then Some(Show(values.taskId))
    else if name == "task_title" then Some(values.taskTitle)
    else None
  }

  /** A name it does not know stays as it was written. */
  function Put(name: string, values: Values): string {
    var known := ValueFor(name, values);
    if known.Some? then known.value else "{" + name + "}"
  }

  /** Every hole filled once; what is put in is never looked at again. */
  function Rendered(p: Parsed, values: Values): string {
    match p
    case Tail(text) => text
    case Hole(before, name, rest) => before + (Put(name, values) + Rendered(rest, values))
  }

  function FirstUnknown(p: Parsed): Option<string> {
    match p
    case Tail(_) => None
    case Hole(_, name, rest) => if name in PLACEHOLDERS then FirstUnknown(rest) else Some(name)
  }

  method CheckPlaceholders(template: string) returns (unknown: Option<string>)
    ensures unknown == FirstUnknown(Parse(template))
  {
    var rest := template;
    ghost var p := Parse(template);
    while true
      invariant p == Parse(rest) && FirstUnknown(p) == FirstUnknown(Parse(template))
      decreases |rest|
    {
      var open := Find(rest, '{');
      if open.None? {
        NoneOpens(rest);
        return None;
      }
      var after := rest[open.value + 1..];
      var close := Find(after, '}');
      if close.None? {
        NoneCloses(rest, open.value);
        rest, p := after, Tail(after);
        continue;
      }
      OneCloses(rest, open.value, close.value);
      var name := after[..close.value];
      if name !in PLACEHOLDERS {
        return Some(name);
      }
      rest, p := after[close.value + 1..], p.rest;
    }
  }

  /** `reached` is whether the arm for an unknown name was ever taken. */
  method Fill(template: string, values: Values) returns (filled: string, ghost reached: bool)
    ensures filled == Rendered(Parse(template), values)
    ensures reached <==> FirstUnknown(Parse(template)).Some?
  {
    var taskId := Show(values.taskId);
    filled, reached := "", false;
    var rest := template;
    ghost var whole := Parse(template);
    ghost var p := whole;
    RendersFrom("", whole, values);
    UnfilledIff(whole, values);
    while true
      invariant p == Parse(rest) && RenderedFrom(filled, p, values) == RenderedFrom("", whole, values)
      invariant Unfilled(whole, values) <==> reached || Unfilled(p, values)
      decreases |rest|
    {
      var open := Find(rest, '{');
      if open.None? {
        NoneOpens(rest);
        filled := filled + rest;
        return;
      }
      var after := rest[open.value + 1..];
      var close := Find(after, '}');
      if close.None? {
        NoneCloses(rest, open.value);
        BraceFilled(filled, rest, open.value, values);
        filled := filled + rest[..open.value] + "{";
        rest, p := after, Tail(after);
        continue;
      }
      ghost var unknown;
      filled, rest, unknown := FillHole(filled, rest, open.value, close.value, values, taskId, p);
      p, reached := p.rest, reached || unknown;
    }
  }

  /** One placeholder, and what comes after it. `unknown` is whether it was left as it was. */
  method FillHole(filled: string, rest: string, open: nat, close: nat, values: Values, taskId: string, ghost p: Parsed)
    returns (pushed: string, next: string, ghost unknown: bool)
    requires taskId == Show(values.taskId) && p == Parse(rest)
    requires Find(rest, '{') == Some(open) && Find(rest[open + 1..], '}') == Some(close)
    ensures p.Hole? && |next| < |rest| && p.rest == Parse(next)
    ensures RenderedFrom(pushed, p.rest, values) == RenderedFrom(filled, p, values)
    ensures Unfilled(p, values) <==> unknown || Unfilled(p.rest, values)
  {
    OneCloses(rest, open, close);
    var after := rest[open + 1..];
    pushed, unknown := PushValue(filled + rest[..open], after[..close], values, taskId);
    next := after[close + 1..];
  }

  /** Rendering on after what has been filled already. */
  function RenderedFrom(filled: string, p: Parsed, values: Values): string
    decreases p
  {
    match p
    case Tail(text) => filled + text
    case Hole(before, name, rest) => RenderedFrom(filled + before + Put(name, values), rest, values)
  }

  lemma {:induction false} RendersFrom(filled: string, p: Parsed, values: Values)
    ensures RenderedFrom(filled, p, values) == filled + Rendered(p, values)
    decreases p
  {
    match p
    case Tail(_) =>
    case Hole(before, name, rest) =>
      RendersFrom(filled + before + Put(name, values), rest, values);
      Regroup(filled, before, Put(name, values), Rendered(rest, values));
  }

  /** Some hole has a name the renderer does not know. */
  predicate Unfilled(p: Parsed, values: Values) {
    match p
    case Tail(_) => false
    case Hole(_, name, rest) => ValueFor(name, values).None? || Unfilled(rest, values)
  }

  lemma {:induction false} UnfilledIff(p: Parsed, values: Values)
    ensures Unfilled(p, values) <==> FirstUnknown(p).Some?
  {
    match p
    case Tail(_) =>
    case Hole(_, name, rest) =>
      KnownIsFillable(name, values);
      UnfilledIff(rest, values);
  }

  lemma BraceFilled(filled: string, rest: string, open: nat, values: Values)
    requires open < |rest| && rest[open] == '{'
    ensures RenderedFrom(filled + rest[..open] + "{", Tail(rest[open + 1..]), values) == RenderedFrom(filled, Tail(rest), values)
  {
    Regroup(filled, rest[..open], "{", rest[open + 1..]);
    assert rest[..open] + ("{" + rest[open + 1..]) == rest;
  }

  /** What `fill` matches a name against; an unknown one is left as it is. */
  method PushValue(out: string, name: string, values: Values, taskId: string) returns (pushed: string, ghost unknown: bool)
    requires taskId == Show(values.taskId)
    ensures pushed == out + Put(name, values)
    ensures unknown <==> ValueFor(name, values).None?
  {
    unknown := false;
    if name == "value" || name == "prompt" {
      pushed := out + values.value;
    } else if name == "task_id" {
      pushed := out + taskId;
    } else if name == "task_title" {
      pushed := out + values.taskTitle;
    } else {
      pushed := out + ("{" + name + "}");
      unknown := true;
    }
  }

  lemma Regroup(a: string, b: string, c: string, d: string)
    ensures a + b + c + d == a + (b + (c + d))
  {
  }

  /** The names the validator accepts are exactly those the renderer fills, whatever it fills them with. */
  lemma KnownIsFillable(name: string, values: Values)
    ensures name in PLACEHOLDERS <==> ValueFor(name, values).Some?
  {
    assert name in PLACEHOLDERS <==> name == PLACEHOLDERS[0] || name == PLACEHOLDERS[1] || name == PLACEHOLDERS[2] || name == PLACEHOLDERS[3];
  }

  // ---- the one way to read a template ----

  function Written(p: Parsed): string {
    match p
    case Tail(text) => text
    case Hole(before, name, rest) => Glued(before, name, Written(rest))
  }

  function Glued(before: string, name: string, next: string): string {
    before + ("{" + (name + ("}" + next)))
  }

  /** No brace opens before a hole, none closes inside one, and in the tail none that opens is closed. */
  ghost predicate IsReading(p: Parsed) {
    match p
    case Tail(text) => forall i, j :: 0 <= i < j < |text| && text[i] == '{' ==> text[j] != '}'
    case Hole(before, name, rest) => '{' !in before && '}' !in name && IsReading(rest)
  }

  lemma {:induction false} FindFirst(before: string, c: char, rest: string)
    requires c !in before
    ensures Find(before + ([c] + rest), c) == Some(|before|)
  {
    var s := before + ([c] + rest);
    if before == [] {
    } else {
      FindFirst(before[1..], c, rest);
      assert s[0] == before[0] && s[1..] == before[1..] + ([c] + rest);
    }
  }

  lemma SplitAt(text: string, at: nat)
    requires at < |text|
    ensures text == text[..at] + ([text[at]] + text[at + 1..])
  {
  }

  lemma NothingOpensAndCloses(after: string)
    requires '}' !in after
    ensures IsReading(Tail("{" + after))
  {
    assert forall j :: 0 < j < |"{" + after| ==> ("{" + after)[j] == after[j - 1];
  }

  lemma UnopenedReads(template: string)
    requires '{' !in template
    ensures IsReading(Tail(template))
  {
  }

  lemma UnclosedReads(template: string, open: nat)
    requires open < |template| && template[open] == '{' && '{' !in template[..open] && '}' !in template[open + 1..]
    ensures IsReading(Tail(template))
  {
    SplitAt(template, open);
    NothingOpensAndCloses(template[open + 1..]);
    NoOpenBefore(template[..open], "{" + template[open + 1..]);
  }

  lemma UncutReads(template: string)
    requires NextHole(template).NoHole?
    ensures IsReading(Tail(template))
  {
    var open := Find(template, '{');
    if open.Some? {
      UnclosedReads(template, open.value);
    } else {
      UnopenedReads(template);
    }
  }

  lemma CutReads(template: string)
    requires NextHole(template).Cut?
    ensures var cut := NextHole(template);
            '{' !in cut.before && '}' !in cut.name && template == Glued(cut.before, cut.name, cut.next)
  {
    var open := Find(template, '{');
    Reassembled(template, open.value, Find(template[open.value + 1..], '}').value);
  }

  lemma Reassembled(template: string, open: nat, close: nat)
    requires open < |template| && template[open] == '{'
    requires close < |template[open + 1..]| && template[open + 1..][close] == '}'
    ensures var after := template[open + 1..]; template == Glued(template[..open], after[..close], after[close + 1..])
  {
    SplitAt(template, open);
    SplitAt(template[open + 1..], close);
  }

  lemma GluedCuts(before: string, name: string, next: string)
    requires '{' !in before && '}' !in name
    ensures NextHole(Glued(before, name, next)) == Cut(before, name, next)
  {
    var after := name + ("}" + next);
    FindFirst(before, '{', after);
    FindFirst(name, '}', next);
    assert Glued(before, name, next)[|before| + 1..] == after && Glued(before, name, next)[..|before|] == before;
    assert after[|name| + 1..] == next && after[..|name|] == name;
  }

  /** Parsing gives a reading of the template, of all of it, */
  lemma {:induction false} ParseReads(template: string)
    ensures IsReading(Parse(template)) && Written(Parse(template)) == template
    decreases |template|
  {
    var cut := NextHole(template);
    if cut.Cut? {
      CutReads(template);
      ParseReads(cut.next);
    } else {
      UncutReads(template);
    }
  }

  lemma TailHasNoHole(tail: string)
    requires IsReading(Tail(tail))
    ensures NextHole(tail).NoHole?
  {
    var open := Find(tail, '{');
    if open.Some? {
      var after := tail[open.value + 1..];
      assert forall k :: 0 <= k < |after| ==> after[k] == tail[open.value + 1 + k];
    }
  }

  /** and the only one. */
  lemma {:induction false} ReadingIsUnique(p: Parsed)
    requires IsReading(p)
    ensures Parse(Written(p)) == p
  {
    match p
    case Tail(text) => TailHasNoHole(text);
    case Hole(before, name, rest) =>
      ReadingIsUnique(rest);
      GluedCuts(before, name, Written(rest));
  }

  // ---- what a scan of the rest finds of its reading ----

  lemma NoneOpens(rest: string)
    requires Find(rest, '{').None?
    ensures Parse(rest) == Tail(rest)
  {
  }

  lemma NoneCloses(rest: string, open: nat)
    requires Find(rest, '{') == Some(open) && Find(rest[open + 1..], '}').None?
    ensures Parse(rest) == Tail(rest) && Parse(rest[open + 1..]) == Tail(rest[open + 1..])
  {
  }

  lemma CutAt(rest: string, open: nat, close: nat)
    requires Find(rest, '{') == Some(open) && Find(rest[open + 1..], '}') == Some(close)
    ensures var after := rest[open + 1..];
            close < |after| && NextHole(rest) == Cut(rest[..open], after[..close], after[close + 1..])
  {
  }

  lemma OneCloses(rest: string, open: nat, close: nat)
    requires Find(rest, '{') == Some(open) && Find(rest[open + 1..], '}') == Some(close)
    ensures var after := rest[open + 1..];
            close < |after| && Parse(rest) == Hole(rest[..open], after[..close], Parse(after[close + 1..]))
  {
    CutAt(rest, open, close);
  }

  /** A validated template filled with values that have no brace of their own keeps none that closes. */
  lemma {:induction false} ValidTemplateIsFilledOut(p: Parsed, values: Values)
    requires IsReading(p) && FirstUnknown(p).None?
    requires '{' !in values.value + values.taskTitle && '}' !in values.value + values.taskTitle
    ensures IsReading(Tail(Rendered(p, values)))
  {
    if p.Tail? {
    } else {
      ValidTemplateIsFilledOut(p.rest, values);
      KnownIsFillable(p.name, values);
      if '{' in Show(values.taskId) {
        ShowAlphabet(values.taskId, '{');
      }
      assert '{' !in Put(p.name, values);
      NoOpenBefore(p.before + Put(p.name, values), Rendered(p.rest, values));
      Regroup("", p.before, Put(p.name, values), Rendered(p.rest, values));
    }
  }

  lemma NoOpenBefore(before: string, rest: string)
    requires '{' !in before && IsReading(Tail(rest))
    ensures IsReading(Tail(before + rest))
  {
    var text := before + rest;
    forall i, j | 0 <= i < j < |text| && text[i] == '{' ensures text[j] != '}' {
      assert i >= |before|;
      assert text[i] == rest[i - |before|] && text[j] == rest[j - |before|];
    }
  }

  /** The first name in braces is the one reported, unless it is one of the four that are known, and then the next is. */
  lemma EachNameIsChecked(before: string, name: string, next: string)
    requires '{' !in before && '}' !in name
    ensures FirstUnknown(Parse(Glued(before, name, next)))
         == if name in {"value", "prompt", "task_id", "task_title"} then FirstUnknown(Parse(next)) else Some(name)
    ensures FirstUnknown(Parse(before)) == None
  {
    GluedCuts(before, name, next);
    assert name in PLACEHOLDERS <==> name == PLACEHOLDERS[0] || name == PLACEHOLDERS[1] || name == PLACEHOLDERS[2] || name == PLACEHOLDERS[3];
    UnopenedReads(before);
    ReadingIsUnique(Tail(before));
  }

  /** Each name in braces, wherever it stands, becomes its own value and nothing else's; any other stays as it was. */
  lemma EachNameIsFilled(before: string, name: string, next: string, values: Values)
    requires '{' !in before && '}' !in name
    ensures var filled := Rendered(Parse(Glued(before, name, next)), values);
            var rest := Rendered(Parse(next), values);
            && (name == "value" || name == "prompt" ==> filled == before + (values.value + rest))
            && (name == "task_id" ==> filled == before + (Show(values.taskId) + rest))
            && (name == "task_title" ==> filled == before + (values.taskTitle + rest))
            && (name !in PLACEHOLDERS ==> filled == before + (("{" + name + "}") + rest))
  {
    GluedCuts(before, name, next);
    KnownIsFillable(name, values);
  }
}
