/** What the bot says: pane output made readable, prose and code escaped, and messages kept short. */
module Format {
  import opened Options
  import opened Strip

  const MAX_MESSAGE: nat := 1500
  const MAX_TAIL_LINES: nat := 20
  const RESERVED: seq<char> :=
    ['_', '*', '[', ']', '(', ')', '~', '`', '>', '#', '+', '-', '=', '|', '{', '}', '.', '!']

  // ---- escaping ----

  /** Every `c` written as `with`. */
  function Replaced(text: string, c: char, with: string): string {
    if text == [] then [] else (if text[0] == c then with else [text[0]]) + Replaced(text[1..], c, with)
  }

  /** Inside a fenced block: the backslashes first, so that the ones put before backticks stay single. */
  function EscapeCode(text: string): string {
    Replaced(Replaced(text, '\\', ['\\', '\\']), '`', ['\\', '`'])
  }

  predicate Special(c: char) {
    c == '\\' || c == '`'
  }

  /** The same in one pass. */
  function CodeByCharacter(text: string): string {
    if text == [] then [] else (if Special(text[0]) then ['\\', text[0]] else [text[0]]) + CodeByCharacter(text[1..])
  }

  method EscapeText(text: string) returns (out: string)
    ensures out == EscapedText(text)
  {
    out := "";
    for i := 0 to |text|
      invariant out + EscapedText(text[i..]) == EscapedText(text)
    {
      var c := text[i];
      assert text[i..][1..] == text[i + 1..];
      Append(out, if c in RESERVED then ['\\', c] else [c], EscapedText(text[i + 1..]));
      if c in RESERVED {
        out := out + ['\\', c];
      } else {
        out := out + [c];
      }
    }
  }

  lemma Append(out: string, more: string, rest: string)
    ensures out + more + rest == out + (more + rest)
  {
  }

  function EscapedText(text: string): string {
    if text == [] then [] else (if text[0] in RESERVED then ['\\', text[0]] else [text[0]]) + EscapedText(text[1..])
  }

  /** Telegram's side of it: a backslash makes the next character plain; a bare one it reserves spoils the message. */
  function Unescaped(text: string, reserved: seq<char>): Option<string> {
    if text == [] then Some([])
    else if text[0] == '\\' then
      if |text| == 1 then None else Then(text[1], Unescaped(text[2..], reserved))
    else if text[0] in reserved then None
    else Then(text[0], Unescaped(text[1..], reserved))
  }

  function Then(c: char, rest: Option<string>): Option<string> {
    if rest.Some? then Some([c] + rest.value) else None
  }

  const ENDS_CODE: seq<char> := ['`']

  lemma {:induction false} EscapedOneByOne(text: string)
    ensures EscapeCode(text) == CodeByCharacter(text)
  {
    if text == [] {
    } else {
      EscapedOneByOne(text[1..]);
      var rest := Replaced(text[1..], '\\', ['\\', '\\']);
      var first := if text[0] == '\\' then ['\\', '\\'] else [text[0]];
      ReplacedConcat(first, rest);
      assert text[0] == '\\' ==> first[1..] == ['\\'];
      assert first[|first| - 1..][1..] == [];
    }
  }

  lemma {:induction false} ReplacedConcat(a: string, b: string)
    ensures Replaced(a + b, '`', ['\\', '`']) == Replaced(a, '`', ['\\', '`']) + Replaced(b, '`', ['\\', '`'])
  {
    if a == [] {
      assert a + b == b;
    } else {
      assert (a + b)[0] == a[0] && (a + b)[1..] == a[1..] + b;
      ReplacedConcat(a[1..], b);
    }
  }

  lemma UnescapePair(c: char, rest: string, reserved: seq<char>)
    ensures Unescaped(['\\', c] + rest, reserved) == Then(c, Unescaped(rest, reserved))
  {
    assert (['\\', c] + rest)[2..] == rest;
  }

  lemma UnescapePlain(c: char, rest: string, reserved: seq<char>)
    requires c != '\\' && c !in reserved
    ensures Unescaped([c] + rest, reserved) == Then(c, Unescaped(rest, reserved))
  {
    assert ([c] + rest)[1..] == rest;
  }

  /** Whatever was on the screen comes back out of a fenced block, and none of it can end the block. */
  lemma {:induction false} CodeRoundTrip(text: string)
    ensures Unescaped(EscapeCode(text), ENDS_CODE) == Some(text)
  {
    EscapedOneByOne(text);
    CodeRead(text);
  }

  lemma {:induction false} CodeRead(text: string)
    ensures Unescaped(CodeByCharacter(text), ENDS_CODE) == Some(text)
  {
    if text == [] {
    } else {
      CodeRead(text[1..]);
      assert [text[0]] + text[1..] == text;
      if Special(text[0]) {
        UnescapePair(text[0], CodeByCharacter(text[1..]), ENDS_CODE);
      } else {
        UnescapePlain(text[0], CodeByCharacter(text[1..]), ENDS_CODE);
      }
    }
  }

  /** Prose comes back as it was exactly when it has no backslash of its own. */
  lemma {:induction false} ProseRoundTripIff(text: string)
    ensures Unescaped(EscapedText(text), RESERVED) == Some(text) <==> '\\' !in text
  {
    if text == [] {
    } else {
      var c, rest := text[0], text[1..];
      assert [c] + rest == text;
      ProseRoundTripIff(rest);
      if c in RESERVED {
        UnescapePair(c, EscapedText(rest), RESERVED);
      } else if c != '\\' {
        UnescapePlain(c, EscapedText(rest), RESERVED);
      } else {
        BackslashIsLost(rest);
      }
    }
  }

  function Count(text: string, reserved: seq<char>): nat {
    if text == [] then 0 else (if text[0] in reserved then 1 else 0) + Count(text[1..], reserved)
  }

  /** Every reserved character that is let through has a backslash before it that is not. */
  lemma {:induction false} NeverLonger(text: string, reserved: seq<char>)
    requires '\\' !in reserved
    ensures Unescaped(text, reserved).Some? ==> |Unescaped(text, reserved).value| + Count(text, reserved) <= |text|
  {
    if text == [] || text == "\\" {
    } else if text[0] == '\\' {
      NeverLonger(text[2..], reserved);
      assert text[1..][1..] == text[2..];
    } else {
      NeverLonger(text[1..], reserved);
    }
  }

  lemma CountNext(c: char, rest: string, reserved: seq<char>)
    ensures Count([c] + rest, reserved) == (if c in reserved then 1 else 0) + Count(rest, reserved)
  {
    assert ([c] + rest)[1..] == rest;
  }

  lemma {:induction false} EscapedLength(text: string)
    ensures |EscapedText(text)| == |text| + Count(text, RESERVED) && Count(EscapedText(text), RESERVED) == Count(text, RESERVED)
    ensures Count(text, RESERVED) <= |text|
  {
    if text == [] {
    } else {
      EscapedLength(text[1..]);
      var c, rest := text[0], EscapedText(text[1..]);
      CountNext(c, rest, RESERVED);
      if c in RESERVED {
        assert ['\\', c] + rest == ['\\'] + ([c] + rest);
        CountNext('\\', [c] + rest, RESERVED);
      }
    }
  }

  /** A backslash of the text's own takes the next character with it. */
  lemma BackslashIsLost(rest: string)
    ensures Unescaped(['\\'] + EscapedText(rest), RESERVED) != Some(['\\'] + rest)
  {
    var said := ['\\'] + EscapedText(rest);
    if rest != [] {
      var c := rest[0];
      if c in RESERVED {
        assert EscapedText(rest) == ['\\', c] + EscapedText(rest[1..]);
        assert said == ['\\', '\\'] + ([c] + EscapedText(rest[1..]));
        UnescapePair('\\', [c] + EscapedText(rest[1..]), RESERVED);
      } else {
        assert said == ['\\', c] + EscapedText(rest[1..]);
        UnescapePair(c, EscapedText(rest[1..]), RESERVED);
        if c == '\\' {
          NeverLonger(EscapedText(rest[1..]), RESERVED);
          EscapedLength(rest[1..]);
        } else {
          assert Unescaped(said, RESERVED).Some? ==> Unescaped(said, RESERVED).value[0] == c;
          assert (['\\'] + rest)[0] == '\\';
        }
      }
    }
  }

  // ---- pane output, kept short ----

  predicate IsBoxDrawing(c: char) {
    '\U{2500}' <= c <= '\U{257f}'
  }

  /** Unicode's White_Space. */
  predicate IsWhitespace(c: char) {
    || '\U{09}' <= c <= '\U{0d}' || c == ' ' || c == '\U{85}' || c == '\U{a0}' || c == '\U{1680}'
    || '\U{2000}' <= c <= '\U{200a}' || c == '\U{2028}' || c == '\U{2029}' || c == '\U{202f}'
    || c == '\U{205f}' || c == '\U{3000}'
  }

  predicate IsBlank(c: char) {
    IsWhitespace(c) || IsBoxDrawing(c)
  }

  function TrimStart(text: string, blank: char -> bool): string {
    if text != [] && blank(text[0]) then TrimStart(text[1..], blank) else text
  }

  function TrimEnd(text: string, blank: char -> bool): string {
    if text != [] && blank(text[|text| - 1]) then TrimEnd(text[..|text| - 1], blank) else text
  }

  function Lines(text: string): (lines: seq<string>)
    ensures lines != []
  {
    if text == [] then [[]]
    else
      var rest := Lines(text[1..]);
      if text[0] == '\n' then [[]] + rest else [[text[0]] + rest[0]] + rest[1..]
  }

  /** Each line without the blanks around it, and no line with nothing else. */
  function Visible(lines: seq<string>): seq<string> {
    if lines == [] then []
    else
      var line := TrimEnd(TrimStart(lines[0], IsBlank), IsBlank);
      (if line == [] then [] else [line]) + Visible(lines[1..])
  }

  function Joined(lines: seq<string>): string {
    if lines == [] then [] else if |lines| == 1 then lines[0] else lines[0] + "\n" + Joined(lines[1..])
  }

  function LastOf(lines: seq<string>): seq<string> {
    if |lines| <= MAX_TAIL_LINES then lines else lines[|lines| - MAX_TAIL_LINES..]
  }

  /** Cut short, and saying so. */
  function Cap(text: string): string {
    if |text| <= MAX_MESSAGE then text else TrimEnd(text[..MAX_MESSAGE], IsWhitespace) + "\n\U{2026}"
  }

  function SanitisedTail(tail: string): string {
    Cap(Joined(LastOf(Visible(Lines(Stripped(tail))))))
  }

  method SanitiseTail(tail: string) returns (text: string)
    ensures text == SanitisedTail(tail)
  {
    var stripped := StripAnsi(tail);
    var lines := Visible(Lines(stripped));
    var start := if |lines| > MAX_TAIL_LINES then |lines| - MAX_TAIL_LINES else 0;
    FromTheStart(lines);
    text := Cap(Joined(lines[start..]));
  }

  lemma FromTheStart(lines: seq<string>)
    ensures LastOf(lines) == lines[if |lines| > MAX_TAIL_LINES then |lines| - MAX_TAIL_LINES else 0..]
  {
    assert lines[0..] == lines;
  }

  lemma {:induction false} TrimEndIsPrefix(text: string, blank: char -> bool)
    ensures TrimEnd(text, blank) <= text
    ensures TrimEnd(text, blank) != [] ==> !blank(TrimEnd(text, blank)[|TrimEnd(text, blank)| - 1])
  {
    if text == [] || !blank(text[|text| - 1]) {
    } else {
      TrimEndIsPrefix(text[..|text| - 1], blank);
    }
  }

  lemma {:induction false} TrimStartIsSuffix(text: string, blank: char -> bool) returns (k: nat)
    ensures k <= |text| && TrimStart(text, blank) == text[k..]
    ensures k < |text| ==> !blank(text[k])
  {
    if text != [] && blank(text[0]) {
      k := TrimStartIsSuffix(text[1..], blank);
      assert text[1..][k..] == text[k + 1..];
      k := k + 1;
    } else {
      k := 0;
    }
  }

  lemma {:induction false} TrimEndDropsBlanks(text: string, blank: char -> bool)
    ensures TrimEnd(text, blank) <= text
    ensures forall i :: |TrimEnd(text, blank)| <= i < |text| ==> blank(text[i])
  {
    if text == [] || !blank(text[|text| - 1]) {
    } else {
      TrimEndDropsBlanks(text[..|text| - 1], blank);
    }
  }

  /** Something is kept whole, or cut to its first 1500 characters but for the white space they end in, with a mark after them. */
  lemma CapKeepsAPrefix(text: string)
    ensures |text| <= 1500 ==> Cap(text) == text
    ensures |Cap(text)| <= 1502
    ensures |text| > 1500 ==>
              var kept := Cap(text)[..|Cap(text)| - 2];
              && kept <= text && Cap(text) == kept + "\n\U{2026}"
              && (forall i :: |kept| <= i < 1500 ==> IsWhitespace(text[i]))
              && (kept != [] ==> !IsWhitespace(kept[|kept| - 1]))
  {
    if |text| > MAX_MESSAGE {
      var kept := TrimEnd(text[..MAX_MESSAGE], IsWhitespace);
      TrimEndIsPrefix(text[..MAX_MESSAGE], IsWhitespace);
      TrimEndDropsBlanks(text[..MAX_MESSAGE], IsWhitespace);
      assert Cap(text)[..|kept|] == kept;
    }
  }

  predicate ShownLine(line: string) {
    line != [] && !IsBlank(line[0]) && !IsBlank(line[|line| - 1]) && '\n' !in line
  }

  lemma {:induction false} LinesHaveNoBreak(text: string)
    ensures forall i :: 0 <= i < |Lines(text)| ==> '\n' !in Lines(text)[i]
  {
    if text == [] {
    } else {
      LinesHaveNoBreak(text[1..]);
    }
  }

  lemma {:induction false} VisibleLines(lines: seq<string>)
    requires forall i :: 0 <= i < |lines| ==> '\n' !in lines[i]
    ensures forall i :: 0 <= i < |Visible(lines)| ==> ShownLine(Visible(lines)[i])
  {
    if lines == [] {
    } else {
      VisibleLines(lines[1..]);
      var k := TrimStartIsSuffix(lines[0], IsBlank);
      var from := lines[0][k..];
      TrimEndIsPrefix(from, IsBlank);
      var line := TrimEnd(from, IsBlank);
      if line != [] {
        assert line[0] == from[0] == lines[0][k];
        assert forall c :: c in line ==> c in from;
        assert ShownLine(line);
      }
    }
  }

  /** The lines put together again are the text. */
  lemma {:induction false} LinesJoin(text: string)
    ensures Joined(Lines(text)) == text
  {
    if text == [] {
    } else {
      LinesJoin(text[1..]);
      var rest := Lines(text[1..]);
      if text[0] == '\n' {
        assert ([[]] + rest)[1..] == rest;
        assert [] + "\n" + Joined(rest) == [text[0]] + text[1..];
      } else {
        var first := [text[0]] + rest[0];
        assert ([first] + rest[1..])[1..] == rest[1..];
        if |rest| > 1 {
          assert first + "\n" + Joined(rest[1..]) == [text[0]] + (rest[0] + "\n" + Joined(rest[1..]));
        }
      }
    }
  }

  ghost predicate AllBlank(text: string) {
    forall i :: 0 <= i < |text| ==> IsBlank(text[i])
  }

  ghost predicate Framed(line: string, before: string, middle: string, after: string) {
    && line == before + middle + after && AllBlank(before) && AllBlank(after)
    && middle != [] && !IsBlank(middle[0]) && !IsBlank(middle[|middle| - 1])
  }

  /** What shows of one line: what is between the blanks it begins and ends with, or nothing. */
  ghost predicate Shows(line: string, shown: seq<string>) {
    if AllBlank(line) then shown == [] else exists before, middle, after :: Framed(line, before, middle, after) && shown == [middle]
  }

  lemma {:induction false} TrimStartSplits(text: string) returns (before: string)
    ensures text == before + TrimStart(text, IsBlank) && AllBlank(before)
    ensures TrimStart(text, IsBlank) != [] ==> !IsBlank(TrimStart(text, IsBlank)[0])
  {
    if text == [] || !IsBlank(text[0]) {
      before := [];
    } else {
      before := TrimStartSplits(text[1..]);
      before := [text[0]] + before;
    }
  }

  lemma TrimEndSplits(text: string) returns (after: string)
    ensures text == TrimEnd(text, IsBlank) + after && AllBlank(after)
    ensures var kept := TrimEnd(text, IsBlank); kept != [] ==> !IsBlank(kept[|kept| - 1]) && kept[0] == text[0]
  {
    TrimEndIsPrefix(text, IsBlank);
    TrimEndDropsBlanks(text, IsBlank);
    after := text[|TrimEnd(text, IsBlank)|..];
  }

  lemma BlankOnBlank(before: string, after: string)
    requires AllBlank(before) && AllBlank(after)
    ensures AllBlank(before + after)
  {
  }

  lemma NotAllBlank(line: string, before: string, middle: string, after: string)
    requires Framed(line, before, middle, after)
    ensures !AllBlank(line)
  {
    assert line[|before|] == middle[0];
  }

  lemma OneLineShows(line: string)
    ensures Shows(line, Visible([line]))
  {
    var begun := TrimStart(line, IsBlank);
    var before := TrimStartSplits(line);
    var after := TrimEndSplits(begun);
    var middle := TrimEnd(begun, IsBlank);
    VisibleOne(line);
    assert line == before + middle + after;
    if middle == [] {
      BlankOnBlank(before, after);
      assert before + middle + after == before + after;
    } else {
      assert Framed(line, before, middle, after);
      NotAllBlank(line, before, middle, after);
    }
  }

  lemma VisibleOne(line: string)
    ensures var shown := TrimEnd(TrimStart(line, IsBlank), IsBlank);
            Visible([line]) == if shown == [] then [] else [shown]
  {
    assert [line][1..] == [];
  }

  /** Lines show one after the other. */
  lemma {:induction false} VisibleConcat(a: seq<string>, b: seq<string>)
    ensures Visible(a + b) == Visible(a) + Visible(b)
  {
    if a == [] {
      assert a + b == b;
    } else {
      assert (a + b)[1..] == a[1..] + b;
      VisibleConcat(a[1..], b);
    }
  }

  /**
   A pane comes down to the last lines of the stripped text that show anything,
   twenty of them if there are as many, each with something visible at both ends.
   */
  lemma TailIsReadable(tail: string)
    ensures var all := Visible(Lines(Stripped(tail)));
            var lines := all[if |all| > 20 then |all| - 20 else 0..];
            && SanitisedTail(tail) == Cap(Joined(lines))
            && (forall i :: 0 <= i < |lines| ==> ShownLine(lines[i]) && lines[i][0] != ' ' && !('\U{2500}' <= lines[i][0] <= '\U{257f}'))
  {
    LinesHaveNoBreak(Stripped(tail));
    VisibleLines(Lines(Stripped(tail)));
    FromTheStart(Visible(Lines(Stripped(tail))));
  }

  /** The characters MarkdownV2 reserves, and no others. */
  lemma ReservedIsTelegrams(c: char)
    ensures c in RESERVED <==> c in "_*[]()~`>#+-=|{}.!"
  {
    var listed := "_*[]()~`>#+-=|{}.!";
    assert listed == RESERVED;
  }

  // ---- whole replies ----

  function CodeBlock(text: string): string {
    "```\n" + EscapeCode(text) + "\n```"
  }

  function Plain(text: string): string {
    EscapedText(Cap(text))
  }

  function WithPane(text: string, pane: string): string {
    var tail := SanitisedTail(pane);
    if tail == [] then Plain(text) else EscapedText(Cap(text)) + ("\n" + CodeBlock(tail))
  }

  method ReplyWithPane(text: string, pane: string) returns (reply: string)
    ensures reply == WithPane(text, pane)
  {
    var tail := SanitiseTail(pane);
    reply := EscapeText(Cap(text));
    if tail != [] {
      reply := reply + ("\n" + CodeBlock(tail));
    }
  }

  /** Prose up to the first bare backtick, which opens the fence. */
  function ProsePart(text: string): nat {
    if text == [] || text[0] == '`' then 0
    else if text[0] == '\\' && |text| > 1 then 2 + ProsePart(text[2..])
    else 1 + ProsePart(text[1..])
  }

  lemma ProseStep(c: char, rest: string)
    ensures ProsePart(['\\', c] + rest) == 2 + ProsePart(rest)
    ensures c != '\\' && c != '`' ==> ProsePart([c] + rest) == 1 + ProsePart(rest)
  {
    assert (['\\', c] + rest)[2..] == rest && ([c] + rest)[1..] == rest;
  }

  lemma {:induction false} ProseEndsAtTheFence(text: string, rest: string)
    requires '\\' !in text
    ensures ProsePart(EscapedText(text) + rest) == |EscapedText(text)| + ProsePart(rest)
  {
    if text == [] {
      assert [] + rest == rest;
    } else {
      var c, more := text[0], EscapedText(text[1..]);
      ProseEndsAtTheFence(text[1..], rest);
      ProseStep(c, more + rest);
      Append(if c in RESERVED then ['\\', c] else [c], more, rest);
    }
  }

  /** A fence: everything between its first line and its last. */
  predicate IsFence(text: string) {
    |text| >= 8 && text[..4] == "```\n" && text[|text| - 4..] == "\n```"
  }

  /** Prose, then what a fence holds. */
  function BothHalves(prose: string, fence: string): Option<string> {
    if !IsFence(fence) then None
    else
      var (said, code) := (Unescaped(prose, RESERVED), Unescaped(fence[4..|fence| - 4], ENDS_CODE));
      if said.Some? && code.Some? then Some(said.value + code.value) else None
  }

  /** What is left of a message once its markup is read. */
  function Unformatted(message: string): Option<string> {
    var at := ProsePart(message);
    if at >= |message| then Unescaped(message, RESERVED) else BothHalves(message[..at], message[at..])
  }

  /** What a reply with a pane is meant to say. */
  function Shown(text: string, pane: string): string {
    if SanitisedTail(pane) == [] then Cap(text) else Cap(text) + "\n" + SanitisedTail(pane)
  }

  /** The backtick there, if it is one, has no other after it. */
  predicate Breaks(said: string, at: nat) {
    at < |said| && (at + 1 < |said| ==> said[at + 1] != '`')
  }

  lemma BreaksNoFence(said: string, at: nat)
    requires Breaks(said, at)
    ensures !IsFence(said[at..])
  {
    var left := said[at..];
    if |left| >= 8 {
      assert left[1] == said[at + 1] && left[..4][1] == left[1] && "```\n"[1] == '`';
    }
  }

  /** The prose ends where what follows it says, or earlier, at a backtick that opens no fence. */
  ghost predicate ProseEnds(text: string, rest: string) {
    EndsAfter(EscapedText(text), rest)
  }

  lemma Shifted(head: string, more: string, at: nat)
    ensures Breaks(more, at) ==> Breaks(head + more, |head| + at)
  {
  }

  ghost predicate EndsAfter(prose: string, rest: string) {
    ProsePart(prose + rest) == |prose| + ProsePart(rest) || Breaks(prose + rest, ProsePart(prose + rest))
  }

  lemma Onward(head: string, prose: string, rest: string)
    requires EndsAfter(prose, rest) && ProsePart(head + (prose + rest)) == |head| + ProsePart(prose + rest)
    ensures EndsAfter(head + prose, rest)
  {
    Append(head, prose, rest);
    Shifted(head, prose + rest, ProsePart(prose + rest));
  }

  lemma PairsPlain(d: char, next: string, rest: string)
    requires d !in RESERVED && ProseEnds(next, rest)
    ensures ProseEnds(['\\', d] + next, rest)
  {
    var text := ['\\', d] + next;
    assert text[1..] == [d] + next && ([d] + next)[1..] == next;
    assert EscapedText(text) == ['\\', d] + EscapedText(next) by {
      assert ['\\'] + ([d] + EscapedText(next)) == ['\\', d] + EscapedText(next);
    }
    ProseStep(d, EscapedText(next) + rest);
    Onward(['\\', d], EscapedText(next), rest);
  }

  lemma PairsItself(d: char, next: string)
    requires d in RESERVED
    ensures EscapedText(['\\', d] + next) == ['\\', '\\', d] + EscapedText(next)
  {
    var text := ['\\', d] + next;
    assert text[1..] == [d] + next && ([d] + next)[1..] == next;
    Append(['\\'], ['\\', d], EscapedText(next));
    assert ['\\'] + ['\\', d] == ['\\', '\\', d];
  }

  lemma ThreeSteps(d: char, left: string)
    requires d != '\\'
    ensures ProsePart(['\\', '\\', d] + left) == if d == '`' then 2 else 3 + ProsePart(left)
  {
    assert ['\\', '\\', d] + left == ['\\', '\\'] + ([d] + left);
    ProseStep('\\', [d] + left);
    ProseStep(d, left);
  }

  lemma EscapedNeverStartsBare(text: string, rest: string)
    requires rest == [] || rest[0] != '`'
    ensures EscapedText(text) + rest == [] || (EscapedText(text) + rest)[0] != '`'
  {
    if text == [] {
      assert EscapedText(text) + rest == rest;
    }
  }

  /** A backslash of the prose's own takes the one put before a reserved character, which is then bare. */
  lemma PairsReserved(d: char, next: string, rest: string)
    requires d in RESERVED && ProseEnds(next, rest) && (rest == [] || rest[0] != '`')
    ensures ProseEnds(['\\', d] + next, rest)
  {
    var head, left := ['\\', '\\', d], EscapedText(next) + rest;
    PairsItself(d, next);
    ThreeSteps(d, left);
    if d == '`' {
      Append(head, EscapedText(next), rest);
      EscapedNeverStartsBare(next, rest);
      assert Breaks(head + left, 2);
    } else {
      Onward(head, EscapedText(next), rest);
    }
  }

  lemma {:induction false} ProseAlwaysEnds(text: string, rest: string)
    requires rest == [] || (rest[0] == '\n' && ProsePart(rest) == 1)
    ensures ProseEnds(text, rest)
    decreases |text|
  {
    if text == [] {
      assert EscapedText(text) + rest == rest;
    } else if text[0] != '\\' {
      var c := text[0];
      ProseAlwaysEnds(text[1..], rest);
      ProseStep(c, EscapedText(text[1..]) + rest);
      Onward(if c in RESERVED then ['\\', c] else [c], EscapedText(text[1..]), rest);
    } else if |text| == 1 {
      LoneBackslash(rest);
      assert text == ['\\'];
    } else {
      ProseAlwaysEnds(text[2..], rest);
      assert text == ['\\', text[1]] + text[2..];
      if text[1] in RESERVED {
        PairsReserved(text[1], text[2..], rest);
      } else {
        PairsPlain(text[1], text[2..], rest);
      }
    }
  }

  lemma LoneBackslash(rest: string)
    requires rest == [] || (rest[0] == '\n' && ProsePart(rest) == 1)
    ensures ProseEnds(['\\'], rest)
  {
    assert EscapedText(['\\']) == ['\\'];
    if rest == [] {
      assert ['\\'] + rest == ['\\'] && ['\\'][1..] == [];
    } else {
      assert ['\\'] + rest == ['\\', '\n'] + rest[1..];
      ProseStep('\n', rest[1..]);
      assert ['\n'] + rest[1..] == rest;
    }
  }

  lemma EscapedLine(text: string)
    ensures EscapedText(text + "\n") == EscapedText(text) + "\n"
  {
    EscapedConcat(text, "\n");
    assert "\n"[1..] == "";
  }

  lemma {:induction false} EscapedConcat(a: string, b: string)
    ensures EscapedText(a + b) == EscapedText(a) + EscapedText(b)
  {
    if a == [] {
      assert a + b == b;
    } else {
      assert (a + b)[0] == a[0] && (a + b)[1..] == a[1..] + b;
      EscapedConcat(a[1..], b);
      Append(if a[0] in RESERVED then ['\\', a[0]] else [a[0]], EscapedText(a[1..]), EscapedText(b));
    }
  }

  /** A message cut at its fence reads as its prose and then the whole of the pane. */
  lemma HalvesRead(prose: string, tail: string)
    ensures var read := Unescaped(prose, RESERVED);
            BothHalves(prose, CodeBlock(tail)) == if read.Some? then Some(read.value + tail) else None
  {
    CodeRoundTrip(tail);
    FenceHolds(tail);
  }

  lemma FencedReads(prose: string, fence: string)
    requires ProsePart(prose + fence) == |prose| && fence != []
    ensures Unformatted(prose + fence) == BothHalves(prose, fence)
  {
    assert (prose + fence)[..|prose|] == prose && (prose + fence)[|prose|..] == fence;
  }

  lemma BrokenReadsNothing(message: string)
    requires Breaks(message, ProsePart(message))
    ensures Unformatted(message).None?
  {
    BreaksNoFence(message, ProsePart(message));
  }

  lemma Cancel(a: string, b: string, c: string)
    ensures a + c == b + c ==> a == b
  {
    if a + c == b + c {
      assert (a + c)[..|a|] == a && (b + c)[..|b|] == b;
    }
  }

  /** A message with a pane either breaks at a backtick of its own, or reads as its prose and then the whole of the pane. */
  lemma PaneReads(text: string, tail: string)
    ensures var message, read := EscapedText(text + "\n") + CodeBlock(tail), Unescaped(EscapedText(text + "\n"), RESERVED);
            || Unformatted(message).None?
            || (read.Some? && Unformatted(message) == Some(read.value + tail))
    ensures Unformatted(EscapedText(text + "\n") + CodeBlock(tail)) == Some(text + "\n" + tail) <==> '\\' !in text
  {
    var fence, prose := CodeBlock(tail), EscapedText(text + "\n");
    EscapedLine(text);
    Append(EscapedText(text), "\n", fence);
    ProseStep('\n', fence);
    ProseAlwaysEnds(text, "\n" + fence);
    if ProsePart(prose + fence) == |prose| {
      FencedReads(prose, fence);
      HalvesRead(prose, tail);
    } else {
      BrokenReadsNothing(prose + fence);
    }
    ProseRoundTripIff(text + "\n");
    if '\\' !in text {
      ProseEndsAtTheFence(text, "\n" + fence);
    } else if Unformatted(prose + fence).Some? {
      Cancel(Unescaped(prose, RESERVED).value, text + "\n", tail);
    }
  }

  lemma FenceHolds(tail: string)
    ensures var fence := CodeBlock(tail); IsFence(fence) && fence[4..|fence| - 4] == EscapeCode(tail)
  {
  }

  lemma PlainReads(text: string)
    ensures Unformatted(EscapedText(text)).None? || Unformatted(EscapedText(text)) == Unescaped(EscapedText(text), RESERVED)
    ensures Unformatted(EscapedText(text)) == Some(text) <==> '\\' !in text
  {
    assert EscapedText(text) + [] == EscapedText(text);
    ProseAlwaysEnds(text, []);
    if ProsePart(EscapedText(text)) != |EscapedText(text)| {
      BrokenReadsNothing(EscapedText(text));
    }
    ProseRoundTripIff(text);
    if '\\' !in text {
      ProseEndsAtTheFence(text, []);
    }
  }

  /** Every reply, whatever its prose and its pane: read back, it is what it was meant to show exactly when the prose has no backslash of its own. */
  lemma ReplyReadsBackIff(text: string, pane: string)
    ensures Unformatted(WithPane(text, pane)) == Some(Shown(text, pane)) <==> '\\' !in Cap(text)
  {
    if SanitisedTail(pane) == [] {
      PlainReads(Cap(text));
    } else {
      PaneReads(Cap(text), SanitisedTail(pane));
      MessageIs(text, pane);
    }
  }

  lemma MessageIs(text: string, pane: string)
    requires SanitisedTail(pane) != []
    ensures WithPane(text, pane) == EscapedText(Cap(text) + "\n") + CodeBlock(SanitisedTail(pane))
  {
    EscapedLine(Cap(text));
    Append(EscapedText(Cap(text)), "\n", CodeBlock(SanitisedTail(pane)));
  }

  lemma NeverMoreThanWritten(text: string)
    ensures Unescaped(EscapedText(text), RESERVED).Some? ==> |Unescaped(EscapedText(text), RESERVED).value| <= |text|
  {
    NeverLonger(EscapedText(text), RESERVED);
    EscapedLength(text);
  }

  /** Every reply, backslashes and all: unescaped, it is within Telegram's limit, even with its fence counted. A plain one is as it is sent. */
  lemma RepliesFit(text: string, pane: string)
    ensures var shown := Unformatted(WithPane(text, pane));
            shown.Some? ==> |shown.value| + |CodeBlock("")| <= 4096
    ensures |Plain(text)| <= 4096
  {
    CapKeepsAPrefix(text);
    CapKeepsAPrefix(Joined(LastOf(Visible(Lines(Stripped(pane))))));
    EscapedLength(Cap(text));
    if SanitisedTail(pane) == [] {
      PlainReads(Cap(text));
      NeverMoreThanWritten(Cap(text));
    } else {
      PaneReads(Cap(text), SanitisedTail(pane));
      MessageIs(text, pane);
      NeverMoreThanWritten(Cap(text) + "\n");
    }
  }
}
