/**
 Whole numbers as text, the way they are formatted into button payloads, slugs,
 tmux names and idempotency keys, and read back by `str::parse`.
 */
module Decimal {
  import opened Options

  const I64_MIN: int := -0x8000_0000_0000_0000
  const I64_MAX: int := 0x7fff_ffff_ffff_ffff
  const USIZE_MAX: int := 0xffff_ffff_ffff_ffff

  function Digit(d: nat): char
    requires d < 10
  {
    "0123456789"[d]
  }

  predicate IsDigit(c: char) {
    '0' <= c <= '9'
  }

  predicate AllDigits(s: string) {
    forall i :: 0 <= i < |s| ==> IsDigit(s[i])
  }

  /** The digits of `n`, most significant first, without leading zeros. */
  function Digits(n: nat): (s: string)
    ensures s != [] && AllDigits(s)
  {
    if n < 10 then [Digit(n)] else Digits(n / 10) + [Digit(n % 10)]
  }

  function Show(i: int): string {
    if i < 0 then ['-'] + Digits(-i) else Digits(i)
  }

  function DigitValue(c: char): nat
    requires IsDigit(c)
  {
    (c - '0') as int
  }

  function ValueOf(s: string): nat
    requires AllDigits(s)
  {
    if s == [] then 0 else 10 * ValueOf(s[..|s| - 1]) + DigitValue(s[|s| - 1])
  }

  /** A signed integer type's `parse`: an optional sign, at least one digit, in range. */
  function ParseIn(s: string, low: int, high: int): Option<int> {
    var negative := s != [] && s[0] == '-';
    var body := if s != [] && (s[0] == '-' || s[0] == '+') then s[1..] else s;
    if body == [] || !AllDigits(body) then None
    else
      var value: int := if negative then 0 - ValueOf(body) else ValueOf(body);
      if low <= value <= high then Some(value) else None
  }

  function ParseI64(s: string): Option<int> {
    ParseIn(s, I64_MIN, I64_MAX)
  }

  /** An unsigned type's `parse` takes a plus sign but no minus sign. */
  function ParseUsize(s: string): Option<int> {
    if s != [] && s[0] == '-' then None else ParseIn(s, 0, USIZE_MAX)
  }

  lemma DigitValues(d: nat)
    requires d < 10
    ensures IsDigit(Digit(d)) && DigitValue(Digit(d)) == d
  {
  }

  lemma {:induction false} ValueOfDigits(n: nat)
    ensures ValueOf(Digits(n)) == n
  {
    if n < 10 {
      DigitValues(n);
      assert Digits(n)[..0] == [];
    } else {
      ValueOfDigits(n / 10);
      DigitValues(n % 10);
      assert Digits(n)[..|Digits(n)| - 1] == Digits(n / 10);
    }
  }

  lemma SignIsRead(body: string, low: int, high: int)
    requires body != [] && AllDigits(body)
    ensures low <= ValueOf(body) <= high ==> ParseIn(body, low, high) == Some(ValueOf(body))
    ensures low <= 0 - ValueOf(body) <= high ==> ParseIn(['-'] + body, low, high) == Some(0 - ValueOf(body))
  {
    assert IsDigit(body[0]);
    assert (['-'] + body)[1..] == body;
  }

  lemma ParseShow(i: int, low: int, high: int)
    requires low <= i <= high
    ensures ParseIn(Show(i), low, high) == Some(i)
  {
    var n := if i < 0 then -i else i;
    ValueOfDigits(n);
    SignIsRead(Digits(n), low, high);
  }

  lemma ParseShowUsize(i: nat)
    requires i <= USIZE_MAX
    ensures ParseUsize(Show(i)) == Some(i)
  {
    ParseShow(i, 0, USIZE_MAX);
  }

  lemma ShowInjective(i: int, j: int)
    requires Show(i) == Show(j)
    ensures i == j
  {
    var low := if i < j then i else j;
    var high := if i < j then j else i;
    ParseShow(i, low, high);
    ParseShow(j, low, high);
  }

  function Pow10(k: nat): (p: nat)
    ensures p > 0
  {
    if k == 0 then 1 else 10 * Pow10(k - 1)
  }

  /** `n` takes at most `k` digits exactly when it is below ten to the `k`. */
  lemma {:induction false} DigitCount(n: nat, k: nat)
    requires k > 0
    ensures |Digits(n)| <= k <==> n < Pow10(k)
  {
    if n < 10 {
      assert Pow10(k) == 10 * Pow10(k - 1);
    } else if k == 1 {
      assert Pow10(1) == 10 * Pow10(0);
    } else {
      DigitCount(n / 10, k - 1);
      assert Pow10(k) == 10 * Pow10(k - 1);
    }
  }

  /** Nothing but digits and a minus sign is ever printed. */
  lemma ShowAlphabet(i: int, c: char)
    requires c in Show(i)
    ensures IsDigit(c) || c == '-'
  {
    var body := if i < 0 then Digits(-i) else Digits(i);
    if c != '-' {
      assert c in body;
    }
  }
}
