/** Decimal text of Go's 64-bit int, as strconv writes and reads it. */
module Decimal {
  import opened Common

  const MIN_INT := -0x8000_0000_0000_0000
  const MAX_INT := 0x7fff_ffff_ffff_ffff

  /** 64-bit addition wraps around. */
  function Increment(n: int): int {
    if n == MAX_INT then MIN_INT else n + 1
  }

  function Digits(n: nat): string {
    if n < 10 then ["0123456789"[n]] else Digits(n / 10) + ["0123456789"[n % 10]]
  }

  function Itoa(n: int): string {
    if n < 0 then "-" + Digits(-n) else Digits(n)
  }

  function ParseDigits(s: string): Option<nat> {
    if s == "" || !('0' <= s[|s| - 1] <= '9') then None
    else
      var last := s[|s| - 1] as int - '0' as int;
      if |s| == 1 then Some(last)
      else
        match ParseDigits(s[..|s| - 1])
        case None => None
        case Some(n) => Some(10 * n + last)
  }

  /** An optional sign, then digits, within the range of int. */
  function Atoi(s: string): Option<int> {
    var negative := s != "" && s[0] == '-';
    var signed := s != "" && (s[0] == '-' || s[0] == '+');
    match ParseDigits(if signed then s[1..] else s)
    case None => None
    case Some(n) =>
      var value: int := if negative then -(n as int) else n;
      if MIN_INT <= value <= MAX_INT then Some(value) else None
  }

  lemma {:induction false} ParseDigitsOfDigits(n: nat)
    ensures Digits(n) != "" && '0' <= Digits(n)[0] <= '9'
    ensures ParseDigits(Digits(n)) == Some(n)
  {
    if n >= 10 {
      ParseDigitsOfDigits(n / 10);
      assert Digits(n)[..|Digits(n)| - 1] == Digits(n / 10);
    }
  }

  lemma AtoiOfDigits(s: string, n: nat)
    requires s != "" && '0' <= s[0] <= '9' && ParseDigits(s) == Some(n) && n <= MAX_INT
    ensures Atoi(s) == Some(n)
  {
  }

  lemma AtoiOfNegative(s: string, n: nat)
    requires ParseDigits(s) == Some(n) && n <= -MIN_INT
    ensures Atoi("-" + s).Some? && Atoi("-" + s).value + n == 0
  {
  }

  /** What is written is read back. */
  lemma AtoiOfItoa(n: int)
    requires MIN_INT <= n <= MAX_INT
    ensures Atoi(Itoa(n)) == Some(n)
  {
    var magnitude := if n < 0 then -n else n;
    ParseDigitsOfDigits(magnitude);
    if n < 0 {
      AtoiOfNegative(Digits(magnitude), magnitude);
    } else {
      AtoiOfDigits(Digits(magnitude), magnitude);
    }
  }

  predicate AllDigits(s: string) {
    s != "" && forall i | 0 <= i < |s| :: '0' <= s[i] <= '9'
  }

  /** An optional sign and digits. */
  predicate IsNumberText(s: string) {
    AllDigits(s) || (s != "" && (s[0] == '+' || s[0] == '-') && AllDigits(s[1..]))
  }

  /** Nothing else is read as a number. */
  lemma OnlyNumbersAreRead(s: string)
    requires Atoi(s).Some?
    ensures IsNumberText(s) && MIN_INT <= Atoi(s).value <= MAX_INT
  {
    OnlyNumbersParse(s);
    if s != "" {
      OnlyNumbersParse(s[1..]);
    }
  }

  lemma {:induction false} OnlyNumbersParse(s: string)
    ensures ParseDigits(s).Some? <==> AllDigits(s)
    decreases |s|
  {
    if |s| > 1 {
      var init := s[..|s| - 1];
      OnlyNumbersParse(init);
      assert forall i | 0 <= i < |init| :: init[i] == s[i];
    }
  }
}
