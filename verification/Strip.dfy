/** Taking terminal escape sequences out of text. */
module Strip {
  const ESC: char := '\U{1b}'
  const BEL: char := '\U{07}'

  /** Where in a sequence a reader is, one character at a time. */
  datatype Mode = Ground | Escape | Control | Command | CommandEscape

  predicate IsFinal(c: char) {
    '\U{40}' <= c <= '\U{7e}'
  }

  function Step(mode: Mode, c: char): Mode {
    match mode
    case Ground => if c == ESC then Escape else Ground
    case Escape => if c == '[' then Control else if c == ']' then Command else Ground
    case Control => if IsFinal(c) then Ground else Control
    case Command => if c == BEL then Ground else if c == ESC then CommandEscape else Command
    case CommandEscape => if c == BEL || c == '\\' then Ground else if c == ESC then CommandEscape else Command
  }

  /** The reader's mode after all of `text`. */
  function After(mode: Mode, text: string): Mode
    decreases text
  {
    if text == [] then mode else After(Step(mode, text[0]), text[1..])
  }

  /** What is left of `text`: the characters read on the ground that open no sequence. */
  function Kept(mode: Mode, text: string): string
    decreases text
  {
    if text == [] then []
    else (if mode == Ground && text[0] != ESC then [text[0]] else []) + Kept(Step(mode, text[0]), text[1..])
  }

  /** Skips a control sequence's parameters and its one final character. */
  method SkipControl(text: string, from: nat) returns (at: nat)
    requires from <= |text|
    ensures from <= at <= |text| && Kept(Control, text[from..]) == Kept(Ground, text[at..])
  {
    at := from;
    while at < |text|
      invariant from <= at <= |text| && Kept(Control, text[from..]) == Kept(Control, text[at..])
    {
      var c := text[at];
      assert text[at..][1..] == text[at + 1..];
      at := at + 1;
      if IsFinal(c) {
        return;
      }
    }
  }

  /** Skips to a bell, or to an escape with a backslash after it. */
  method SkipCommand(text: string, from: nat) returns (at: nat)
    requires from <= |text|
    ensures from <= at <= |text| && Kept(Command, text[from..]) == Kept(Ground, text[at..])
  {
    at := from;
    while at < |text|
      invariant from <= at <= |text| && Kept(Command, text[from..]) == Kept(Command, text[at..])
    {
      var c := text[at];
      assert text[at..][1..] == text[at + 1..];
      at := at + 1;
      if c == BEL {
        return;
      }
      if c == ESC {
        EscapeInCommand(text[at..]);
        if at < |text| && text[at] == '\\' {
          assert text[at..][1..] == text[at + 1..];
          at := at + 1;
          return;
        }
      }
    }
  }

  /** An escape inside a command that no backslash follows changes nothing about how the rest is read. */
  lemma EscapeInCommand(rest: string)
    ensures rest == [] || rest[0] != '\\' ==> Kept(CommandEscape, rest) == Kept(Command, rest)
    ensures rest != [] && rest[0] == '\\' ==> Kept(CommandEscape, rest) == Kept(Ground, rest[1..])
  {
  }

  lemma ReadOnGround(text: string, at: nat)
    requires at < |text|
    ensures Kept(Ground, text[at..])
         == if text[at] == ESC then Kept(Escape, text[at + 1..]) else [text[at]] + Kept(Ground, text[at + 1..])
  {
    assert text[at..][1..] == text[at + 1..];
  }

  lemma ReadAfterEscape(text: string, at: nat)
    requires at < |text|
    ensures Kept(Escape, text[at..]) == Kept(if text[at] == '[' then Control else if text[at] == ']' then Command else Ground, text[at + 1..])
  {
    assert text[at..][1..] == text[at + 1..];
  }

  /** Skips what an escape opens: a control sequence, a command, or one character. */
  method SkipSequence(text: string, from: nat) returns (at: nat)
    requires from <= |text|
    ensures from <= at <= |text| && Kept(Escape, text[from..]) == Kept(Ground, text[at..])
  {
    at := from;
    if at == |text| {
      return;
    }
    ReadAfterEscape(text, at);
    var kind := text[at];
    at := at + 1;
    if kind == '[' {
      at := SkipControl(text, at);
    } else if kind == ']' {
      at := SkipCommand(text, at);
    }
  }

  method StripAnsi(text: string) returns (out: string)
    ensures out == Kept(Ground, text)
  {
    out := "";
    var at := 0;
    assert text[0..] == text;
    while at < |text|
      invariant at <= |text| && out + Kept(Ground, text[at..]) == Kept(Ground, text)
    {
      ReadOnGround(text, at);
      var c := text[at];
      at := at + 1;
      if c == ESC {
        at := SkipSequence(text, at);
      } else {
        Push(out, c, Kept(Ground, text[at..]));
        out := out + [c];
      }
    }
    NothingLeft(text, out);
  }

  lemma NothingLeft(text: string, out: string)
    ensures out + Kept(Ground, text[|text|..]) == out
  {
    assert text[|text|..] == [];
  }

  lemma Push(out: string, c: char, rest: string)
    ensures out + [c] + rest == out + ([c] + rest)
  {
  }

  // ---- what stripping guarantees ----

  function Stripped(text: string): string {
    Kept(Ground, text)
  }

  /** `part` is `whole` with some characters left out. */
  predicate Within(part: string, whole: string) {
    if part == [] then true
    else if whole == [] then false
    else if part[0] == whole[0] then Within(part[1..], whole[1..])
    else Within(part, whole[1..])
  }

  lemma {:induction false} WithinLonger(part: string, c: char, whole: string)
    requires Within(part, whole)
    ensures Within(part, [c] + whole)
    decreases |whole|, 1
  {
    var longer := [c] + whole;
    assert longer[1..] == whole;
    if part == [] || part[0] != c {
    } else {
      WithinRest(part, whole);
    }
  }

  lemma {:induction false} WithinRest(part: string, whole: string)
    requires part != [] && Within(part, whole)
    ensures Within(part[1..], whole)
    decreases |whole|, 0
  {
    if part[0] == whole[0] {
      WithinLonger(part[1..], whole[0], whole[1..]);
      assert [whole[0]] + whole[1..] == whole;
    } else {
      WithinRest(part, whole[1..]);
      WithinLonger(part[1..], whole[0], whole[1..]);
      assert [whole[0]] + whole[1..] == whole;
    }
  }

  /** What is left is the text with characters left out, none of them put in or moved. */
  lemma {:induction false} KeptIsWithin(mode: Mode, text: string)
    ensures Within(Kept(mode, text), text)
    decreases text
  {
    if text == [] {
    } else {
      var rest := Kept(Step(mode, text[0]), text[1..]);
      KeptIsWithin(Step(mode, text[0]), text[1..]);
      if mode == Ground && text[0] != ESC {
        assert Kept(mode, text)[1..] == rest;
      } else {
        assert Kept(mode, text) == rest;
        WithinLonger(rest, text[0], text[1..]);
        assert [text[0]] + text[1..] == text;
      }
    }
  }

  lemma {:induction false} NoEscapeKept(mode: Mode, text: string)
    ensures ESC !in Kept(mode, text)
    decreases text
  {
    if text == [] {
    } else {
      NoEscapeKept(Step(mode, text[0]), text[1..]);
    }
  }

  lemma {:induction false} PlainIsKept(text: string)
    requires ESC !in text
    ensures Stripped(text) == text
  {
    if text == [] {
    } else {
      PlainIsKept(text[1..]);
      assert [text[0]] + text[1..] == text;
    }
  }

  /** Stripping leaves a text alone exactly when it has no escape in it; so stripping twice is stripping once. */
  lemma StrippedIff(text: string)
    ensures Stripped(text) == text <==> ESC !in text
    ensures Stripped(Stripped(text)) == Stripped(text)
  {
    NoEscapeKept(Ground, text);
    PlainIsKept(Stripped(text));
    if ESC !in text {
      PlainIsKept(text);
    }
  }

  lemma KeptNext(mode: Mode, c: char, rest: string)
    ensures Kept(mode, [c] + rest) == (if mode == Ground && c != ESC then [c] else []) + Kept(Step(mode, c), rest)
    ensures After(mode, [c] + rest) == After(Step(mode, c), rest)
  {
    assert ([c] + rest)[1..] == rest;
  }

  lemma Uncons(c: char, rest: string, b: string)
    ensures ([c] + rest) + b == [c] + (rest + b)
  {
  }

  lemma {:induction false} AfterConcat(mode: Mode, a: string, b: string)
    ensures After(mode, a + b) == After(After(mode, a), b)
    decreases a
  {
    if a == [] {
      assert a + b == b;
    } else {
      AfterConcat(Step(mode, a[0]), a[1..], b);
      KeptNext(mode, a[0], a[1..] + b);
      Uncons(a[0], a[1..], b);
      assert [a[0]] + a[1..] == a;
    }
  }

  lemma Reassociate(head: string, x: string, y: string)
    ensures (head + x) + y == head + (x + y)
  {
  }

  lemma {:induction false} KeptConcat(mode: Mode, a: string, b: string)
    ensures Kept(mode, a + b) == Kept(mode, a) + Kept(After(mode, a), b)
    ensures After(mode, a + b) == After(After(mode, a), b)
    decreases a
  {
    AfterConcat(mode, a, b);
    if a == [] {
      assert a + b == b;
    } else {
      var next := Step(mode, a[0]);
      var head := if mode == Ground && a[0] != ESC then [a[0]] else [];
      KeptConcat(next, a[1..], b);
      KeptNext(mode, a[0], a[1..] + b);
      Uncons(a[0], a[1..], b);
      assert [a[0]] + a[1..] == a;
      Reassociate(head, Kept(next, a[1..]), Kept(After(next, a[1..]), b));
    }
  }

  lemma {:induction false} ParametersAreSkipped(parameters: string)
    requires forall i :: 0 <= i < |parameters| ==> !IsFinal(parameters[i])
    ensures After(Control, parameters) == Control && Kept(Control, parameters) == []
  {
    if parameters == [] {
    } else {
      ParametersAreSkipped(parameters[1..]);
    }
  }

  /** Text that leaves the reader where it was and keeps nothing goes without a trace between two others. */
  lemma VanishesBetween(before: string, sequence: string, rest: string)
    requires After(Ground, before) == Ground
    requires Kept(Ground, sequence) == [] && After(Ground, sequence) == Ground
    ensures Stripped(before + sequence + rest) == Stripped(before) + Stripped(rest)
  {
    KeptConcat(Ground, before + sequence, rest);
    KeptConcat(Ground, before, sequence);
    assert Stripped(before) + [] == Stripped(before);
  }

  lemma OneCharacter(mode: Mode, c: char)
    ensures After(mode, [c]) == Step(mode, c) && Kept(mode, [c]) == if mode == Ground && c != ESC then [c] else []
  {
    assert [c][1..] == [];
  }

  lemma Introduced(kind: char)
    requires kind == '[' || kind == ']'
    ensures After(Ground, [ESC, kind]) == (if kind == '[' then Control else Command) && Kept(Ground, [ESC, kind]) == []
  {
    assert [ESC] + [kind] == [ESC, kind];
    KeptConcat(Ground, [ESC], [kind]);
    OneCharacter(Ground, ESC);
    OneCharacter(Escape, kind);
  }

  /**
   A whole control sequence, as section 5.4 of ECMA-48 lays it out, goes without
   a trace wherever it stands between two texts.
   */
  lemma ControlSequenceVanishes(before: string, parameters: string, last: char, rest: string)
    requires After(Ground, before) == Ground
    requires forall i :: 0 <= i < |parameters| ==> '\U{20}' <= parameters[i] <= '\U{3f}'
    requires '\U{40}' <= last <= '\U{7e}'
    ensures Stripped(before + (['\U{1b}', '['] + parameters + [last]) + rest) == Stripped(before) + Stripped(rest)
  {
    KeptConcat(Ground, [ESC, '['] + parameters, [last]);
    KeptConcat(Ground, [ESC, '['], parameters);
    Introduced('[');
    ParametersAreSkipped(parameters);
    OneCharacter(Control, last);
    VanishesBetween(before, [ESC, '['] + parameters + [last], rest);
  }

  /** Neither a bell nor an escape with a backslash after it. */
  ghost predicate EndsNoCommand(text: string) {
    '\U{07}' !in text && forall i :: 0 < i < |text| && text[i - 1] == '\U{1b}' ==> text[i] != '\\'
  }

  lemma {:induction false} CommandTextIsSkipped(text: string)
    requires EndsNoCommand(text)
    ensures After(Command, text) == if text != [] && text[|text| - 1] == ESC then CommandEscape else Command
    ensures Kept(Command, text) == []
  {
    if text == [] {
    } else {
      var init, last := text[..|text| - 1], text[|text| - 1];
      CommandTextIsSkipped(init);
      assert text == init + [last];
      KeptConcat(Command, init, [last]);
      OneCharacter(After(Command, init), last);
      assert init != [] ==> init[|init| - 1] == text[|text| - 2];
    }
  }

  lemma CommandEnds(mode: Mode, end: string)
    requires mode == Command || mode == CommandEscape
    requires end == [BEL] || end == [ESC, '\\']
    ensures After(mode, end) == Ground && Kept(mode, end) == []
  {
    OneCharacter(mode, end[0]);
    if end == [ESC, '\\'] {
      assert [ESC] + ['\\'] == end;
      KeptConcat(mode, [ESC], ['\\']);
      OneCharacter(CommandEscape, '\\');
    }
  }

  /** And so does an operating system command, ended either way, whatever escapes are in it. */
  lemma CommandVanishes(before: string, text: string, end: string, rest: string)
    requires After(Ground, before) == Ground && EndsNoCommand(text)
    requires end == ['\U{07}'] || end == ['\U{1b}', '\\']
    ensures Stripped(before + (['\U{1b}', ']'] + text + end) + rest) == Stripped(before) + Stripped(rest)
  {
    KeptConcat(Ground, [ESC, ']'] + text, end);
    KeptConcat(Ground, [ESC, ']'], text);
    Introduced(']');
    CommandTextIsSkipped(text);
    CommandEnds(After(Command, text), end);
    VanishesBetween(before, [ESC, ']'] + text + end, rest);
  }

  /** A sequence left open swallows everything after it that does not end it. */
  lemma OpenSequenceSwallows(before: string, rest: string)
    requires After(Ground, before) == Ground && forall i :: 0 <= i < |rest| ==> !('\U{40}' <= rest[i] <= '\U{7e}')
    ensures Stripped(before + ['\U{1b}', '['] + rest) == Stripped(before)
  {
    KeptConcat(Ground, before + [ESC, '['], rest);
    KeptConcat(Ground, before, [ESC, '[']);
    Introduced('[');
    ParametersAreSkipped(rest);
  }

  lemma OpenCommandSwallows(before: string, text: string)
    requires After(Ground, before) == Ground && EndsNoCommand(text)
    ensures Stripped(before + ['\U{1b}', ']'] + text) == Stripped(before)
  {
    KeptConcat(Ground, before + [ESC, ']'], text);
    KeptConcat(Ground, before, [ESC, ']']);
    Introduced(']');
    CommandTextIsSkipped(text);
  }

  /** Any other escape takes one character with it, if there is one. */
  lemma PairVanishes(before: string, kind: char, rest: string)
    requires After(Ground, before) == Ground && kind != '[' && kind != ']'
    ensures Stripped(before + ['\U{1b}', kind] + rest) == Stripped(before) + Stripped(rest)
    ensures Stripped(before + ['\U{1b}']) == Stripped(before)
  {
    assert [ESC] + [kind] == [ESC, kind];
    KeptConcat(Ground, [ESC], [kind]);
    OneCharacter(Ground, ESC);
    OneCharacter(Escape, kind);
    VanishesBetween(before, [ESC, kind], rest);
    KeptConcat(Ground, before, [ESC]);
  }
}
