/** Titles turned into names for branches and directories. */
module Slug {
  import opened Decimal

  const MAX_SLUG: nat := 48

  predicate IsUpper(c: char) {
    'A' <= c <= 'Z'
  }

  predicate IsLower(c: char) {
    'a' <= c <= 'z'
  }

  predicate IsAlphanumeric(c: char) {
    IsUpper(c) || IsLower(c) || IsDigit(c)
  }

  function Lower(c: char): char {
    if IsUpper(c) then ((c as int) + 32) as char else c
  }

  /** One more character of the title: words in lower case, everything else one hyphen between them. */
  function Pushed(slug: string, c: char): string {
    if IsAlphanumeric(c) then slug + [Lower(c)]
    else if slug == [] || slug[|slug| - 1] != '-' then slug + ['-']
    else slug
  }

  /** The whole title, with nothing cut off. */
  function Hyphenated(title: string): string {
    if title == [] then [] else Pushed(Hyphenated(title[..|title| - 1]), title[|title| - 1])
  }

  function Cut(s: string): string {
    if |s| <= MAX_SLUG then s else s[..MAX_SLUG]
  }

  function TrimStart(s: string): string {
    if s != [] && s[0] == '-' then TrimStart(s[1..]) else s
  }

  function TrimEnd(s: string): string {
    if s != [] && s[|s| - 1] == '-' then TrimEnd(s[..|s| - 1]) else s
  }

  function Slugified(title: string): string {
    TrimEnd(TrimStart(Cut(Hyphenated(title))))
  }

  /** The loop stops as soon as there is enough, which is as good as cutting the whole. */
  method Slugify(title: string) returns (slug: string)
    ensures slug == Slugified(title)
  {
    slug := "";
    for i := 0 to |title|
      invariant slug == Hyphenated(title[..i]) && |slug| < MAX_SLUG
    {
      var ch := title[i];
      assert title[..i + 1][..i] == title[..i];
      if IsAlphanumeric(ch) {
        slug := slug + [Lower(ch)];
      } else if slug == [] || slug[|slug| - 1] != '-' {
        slug := slug + ['-'];
      }
      if |slug| >= MAX_SLUG {
        HyphenatedGrows(title, i + 1);
        assert Cut(Hyphenated(title)) == slug;
        slug := TrimEnd(TrimStart(slug));
        return;
      }
    }
    assert title[..|title|] == title;
    slug := TrimEnd(TrimStart(slug));
  }

  lemma {:induction false} HyphenatedGrows(title: string, i: nat)
    requires i <= |title|
    ensures Hyphenated(title[..i]) <= Hyphenated(title)
  {
    if i < |title| {
      HyphenatedGrows(title[..|title| - 1], i);
      assert title[..|title| - 1][..i] == title[..i];
    } else {
      assert title[..i] == title;
    }
  }

  function Words(title: string): string {
    if Slugified(title) == [] then "task" else Slugified(title)
  }

  function TaskSlug(title: string, id: int): string {
    Words(title) + "-" + Show(id)
  }

  // ---- what a slug looks like ----

  predicate SlugChar(c: char) {
    IsLower(c) || IsDigit(c) || c == '-'
  }

  /** Lower-case letters, digits and hyphens, with no two hyphens together. */
  ghost predicate Hyphenates(s: string) {
    && (forall i :: 0 <= i < |s| ==> SlugChar(s[i]))
    && (forall i :: 0 < i < |s| ==> s[i - 1] != '-' || s[i] != '-')
  }

  ghost predicate IsSlug(s: string) {
    Hyphenates(s) && |s| <= MAX_SLUG && (s != [] ==> s[0] != '-' && s[|s| - 1] != '-')
  }

  lemma {:induction false} HyphenatedHyphenates(title: string)
    ensures Hyphenates(Hyphenated(title))
  {
    if title == [] {
    } else {
      HyphenatedHyphenates(title[..|title| - 1]);
    }
  }

  lemma {:induction false} TrimStartTrims(s: string)
    requires Hyphenates(s)
    ensures Hyphenates(TrimStart(s)) && |TrimStart(s)| <= |s| && (TrimStart(s) != [] ==> TrimStart(s)[0] != '-')
  {
    if s == [] || s[0] != '-' {
    } else {
      TrimStartTrims(s[1..]);
    }
  }

  lemma {:induction false} TrimEndTrims(s: string)
    requires Hyphenates(s) && (s != [] ==> s[0] != '-')
    ensures IsSlug(TrimEnd(s)) || |s| > MAX_SLUG
  {
    if s == [] || s[|s| - 1] != '-' {
    } else {
      TrimEndTrims(s[..|s| - 1]);
    }
  }

  lemma SlugifiedIsSlug(title: string)
    ensures IsSlug(Slugified(title))
  {
    HyphenatedHyphenates(title);
    TrimStartTrims(Cut(Hyphenated(title)));
    TrimEndTrims(TrimStart(Cut(Hyphenated(title))));
  }

  lemma {:induction false} HyphenatedAlready(s: string)
    requires Hyphenates(s)
    ensures Hyphenated(s) == s
  {
    if s == [] {
    } else {
      var init := s[..|s| - 1];
      HyphenatedAlready(init);
      assert s == init + [s[|s| - 1]];
    }
  }

  /** A text is left alone exactly when it is a slug already; so every slug is, and slugifying twice changes nothing more. */
  lemma SlugsAreTheFixedPoints(s: string)
    ensures Slugified(s) == s <==> IsSlug(s)
    ensures Slugified(Slugified(s)) == Slugified(s)
  {
    SlugifiedIsSlug(s);
    HyphenatedAlready(Slugified(s));
    if IsSlug(s) {
      HyphenatedAlready(s);
    }
  }

  // ---- what of a title a slug keeps ----

  predicate OnlyWord(s: string) {
    forall i :: 0 <= i < |s| ==> 'A' <= s[i] <= 'Z' || 'a' <= s[i] <= 'z' || '0' <= s[i] <= '9'
  }

  predicate NoWord(s: string) {
    forall i :: 0 <= i < |s| ==> !('A' <= s[i] <= 'Z' || 'a' <= s[i] <= 'z' || '0' <= s[i] <= '9')
  }

  /** The same letters and digits, none of them a capital. */
  ghost predicate Lowers(word: string, lowered: string) {
    && |lowered| == |word|
    && forall i :: 0 <= i < |word| ==>
         lowered[i] == if 'A' <= word[i] <= 'Z' then ('a' as int + (word[i] as int - 'A' as int)) as char else word[i]
  }

  lemma OneMore(title: string, c: char)
    ensures Hyphenated(title + [c]) == Pushed(Hyphenated(title), c)
  {
    assert (title + [c])[..|title|] == title;
  }

  lemma WordOneMore(title: string, word: string)
    requires OnlyWord(word) && word != []
    ensures var c := word[|word| - 1];
            && OnlyWord(word[..|word| - 1]) && word[..|word| - 1] + [c] == word
            && Hyphenated(title + word) == Hyphenated(title + word[..|word| - 1]) + [Lower(c)]
  {
    var init, c := word[..|word| - 1], word[|word| - 1];
    assert init + [c] == word;
    Regrouped(title, init, c);
    OneMore(title + init, c);
  }

  lemma LowersOneMore(word: string, lowered: string, c: char)
    requires Lowers(word, lowered)
    ensures Lowers(word + [c], lowered + [Lower(c)])
  {
  }

  lemma Regrouped(a: string, b: string, c: char)
    ensures (a + b) + [c] == a + (b + [c])
  {
  }

  /** After any title, a word is kept whole, in lower case. */
  lemma {:induction false} WordIsKept(title: string, word: string) returns (lowered: string)
    requires OnlyWord(word)
    ensures Lowers(word, lowered) && Hyphenated(title + word) == Hyphenated(title) + lowered
  {
    if word == [] {
      lowered := [];
      assert title + word == title;
    } else {
      var init, last := word[..|word| - 1], word[|word| - 1];
      WordOneMore(title, word);
      var before := WordIsKept(title, init);
      lowered := before + [Lower(last)];
      LowersOneMore(init, before, last);
      Regrouped(Hyphenated(title), before, Lower(last));
    }
  }

  /** After any title, whatever is no word comes to one hyphen, if there is none yet. */
  lemma {:induction false} GapIsOneHyphen(title: string, gap: string)
    requires NoWord(gap) && gap != []
    ensures var h := Hyphenated(title); Hyphenated(title + gap) == if h != [] && h[|h| - 1] == '-' then h else h + "-"
  {
    var init := gap[..|gap| - 1];
    assert init + [gap[|gap| - 1]] == gap;
    Regrouped(title, init, gap[|gap| - 1]);
    OneMore(title + init, gap[|gap| - 1]);
    if init == [] {
      assert title + init == title;
    } else {
      GapIsOneHyphen(title, init);
    }
  }

  /** A slug is the first 48 characters of that, but for a hyphen at either end. */
  lemma SlugIsTheFront(title: string) returns (before: string, after: string)
    ensures Hyphenated("") == ""
    ensures before in {"", "-"} && after in {"", "-"}
    ensures var h := Hyphenated(title); (if |h| <= 48 then h else h[..48]) == before + Slugified(title) + after
  {
    HyphenatedHyphenates(title);
    CutHyphenates(Hyphenated(title));
    before, after := TrimsAtMostTwo(Cut(Hyphenated(title)));
  }

  lemma CutHyphenates(s: string)
    requires Hyphenates(s)
    ensures Hyphenates(Cut(s))
  {
  }

  lemma TrimsAtMostTwo(s: string) returns (before: string, after: string)
    requires Hyphenates(s)
    ensures before in {"", "-"} && after in {"", "-"} && s == before + TrimEnd(TrimStart(s)) + after
  {
    before := TrimsOneFirst(s);
    after := TrimsOneLast(TrimStart(s));
    Splits(before, TrimEnd(TrimStart(s)), after);
  }

  lemma Splits(a: string, b: string, c: string)
    ensures a + (b + c) == a + b + c
  {
  }

  lemma TrimsOneFirst(s: string) returns (before: string)
    requires Hyphenates(s)
    ensures before in {"", "-"} && s == before + TrimStart(s) && Hyphenates(TrimStart(s))
  {
    if s == [] || s[0] != '-' {
      before := "";
    } else {
      before := "-";
      assert s[1..] == [] || s[1] != '-';
      assert TrimStart(s) == s[1..];
    }
  }

  lemma TrimsOneLast(s: string) returns (after: string)
    requires Hyphenates(s)
    ensures after in {"", "-"} && s == TrimEnd(s) + after
  {
    if s == [] || s[|s| - 1] != '-' {
      after := "";
    } else {
      after := "-";
      var init := s[..|s| - 1];
      assert init == [] || s[|s| - 2] != '-';
      assert TrimEnd(s) == init;
    }
  }

  // ---- slugs of different tasks ----

  /** The digits a text ends in. */
  function LastDigits(s: string): (digits: string)
    ensures AllDigits(digits) && |digits| <= |s|
  {
    if s == [] || !IsDigit(s[|s| - 1]) then [] else LastDigits(s[..|s| - 1]) + [s[|s| - 1]]
  }

  lemma {:induction false} LastDigitsOf(before: string, digits: string)
    requires AllDigits(digits) && before != [] && before[|before| - 1] == '-'
    ensures LastDigits(before + digits) == digits
  {
    var s := before + digits;
    if digits == [] {
      assert s == before;
    } else {
      var init := digits[..|digits| - 1];
      LastDigitsOf(before, init);
      assert s[..|s| - 1] == before + init && s[|s| - 1] == digits[|digits| - 1];
      assert init + [digits[|digits| - 1]] == digits;
    }
  }

  lemma WordsAreASlug(title: string)
    ensures IsSlug(Words(title)) && Words(title) != []
  {
    SlugifiedIsSlug(title);
  }

  /** What comes before the id's digits: the words and a hyphen, and a minus sign if it is negative. */
  function Before(words: string, id: int): string {
    words + (if id < 0 then "--" else "-")
  }

  lemma SignBeforeDigits(words: string, id: int)
    ensures words + "-" + Show(id) == Before(words, id) + Digits(if id < 0 then -id else id)
  {
  }

  lemma SignShows(words: string, id: int)
    requires words != [] && words[|words| - 1] != '-'
    ensures var b := Before(words, id); |b| >= 2 && b[|b| - 1] == '-' && (id < 0 <==> b[|b| - 2] == '-')
  {
  }

  lemma TaskSlugSplits(title: string, id: int)
    ensures var digits, b := Digits(if id < 0 then -id else id), Before(Words(title), id);
            && TaskSlug(title, id) == b + digits && LastDigits(TaskSlug(title, id)) == digits
            && |b| >= 2 && b[|b| - 1] == '-' && (id < 0 <==> b[|b| - 2] == '-')
  {
    WordsAreASlug(title);
    SignBeforeDigits(Words(title), id);
    SignShows(Words(title), id);
    LastDigitsOf(Before(Words(title), id), Digits(if id < 0 then -id else id));
  }

  /** A number, and whether two hyphens come before it. */
  function Signed(before: string, n: nat): int {
    if |before| >= 2 && before[|before| - 2] == '-' then 0 - n else n
  }

  /** The id a slug ends in. */
  function IdIn(slug: string): int {
    var digits := LastDigits(slug);
    Signed(slug[..|slug| - |digits|], ValueOf(digits))
  }

  lemma BeforeSuffix(before: string, digits: string)
    ensures (before + digits)[..|before + digits| - |digits|] == before
  {
  }

  /** A task's id can be read off its slug. */
  lemma IdReadsBack(title: string, id: int)
    ensures IdIn(TaskSlug(title, id)) == id
  {
    var n := if id < 0 then -id else id;
    var before, digits := Before(Words(title), id), Digits(n);
    TaskSlugSplits(title, id);
    BeforeSuffix(before, digits);
    ValueOfDigits(n);
    calc {
      IdIn(TaskSlug(title, id));
      Signed(before, ValueOf(digits));
      id;
    }
  }

  /** So two tasks never have the same slug, whatever they are called. */
  lemma TaskSlugsNeverCollide(a: string, i: int, b: string, j: int)
    requires TaskSlug(a, i) == TaskSlug(b, j)
    ensures i == j
  {
    IdReadsBack(a, i);
    IdReadsBack(b, j);
  }

  lemma I64Digits(id: int)
    requires I64_MIN <= id <= I64_MAX
    ensures |Show(id)| <= 20
  {
    assert Pow10(4) == 10_000 by { assert Pow10(2) == 100; }
    assert Pow10(8) == 100_000_000 by { assert Pow10(6) == 1_000_000; }
    assert Pow10(12) == 1_000_000_000_000 by { assert Pow10(10) == 10_000_000_000; }
    assert Pow10(16) == 10_000_000_000_000_000 by { assert Pow10(14) == 100_000_000_000_000; }
    assert Pow10(19) == 10_000_000_000_000_000_000 by { assert Pow10(18) == 1_000_000_000_000_000_000; }
    DigitCount(if id < 0 then -id else id, 19);
  }

  /** A task's slug is safe to use as a name: slug characters only, no hyphen first, and short. */
  lemma TaskSlugIsSafe(title: string, id: int)
    requires I64_MIN <= id <= I64_MAX
    ensures forall c :: c in TaskSlug(title, id) ==> SlugChar(c)
    ensures TaskSlug(title, id)[0] != '-' && |TaskSlug(title, id)| <= 69
  {
    WordsAreASlug(title);
    I64Digits(id);
    forall c | c in TaskSlug(title, id) ensures SlugChar(c) {
      if c in Show(id) {
        ShowAlphabet(id, c);
      } else {
        assert c in Words(title) || c == '-';
      }
    }
  }
}
