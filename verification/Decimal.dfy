/** Decimal printing, with zero padding, and parsing. */
module Decimal {
  predicate IsDigit(c: char) {
    '0' <= c <= '9'
  }

  function DigitOf(n: nat): (c: char)
    requires n < 10
    ensures IsDigit(c) && ValueOf(c) == n
  {
    ('0' as int + n) as char
  }

  function ValueOf(c: char): (n: nat)
    requires IsDigit(c)
    ensures n < 10
  {
    c as int - '0' as int
  }

  /** `str.isdecimal` on ASCII text: at least one character, all of them digits. */
  predicate IsDecimal(s: string) {
    s != "" && forall i :: 0 <= i < |s| ==> IsDigit(s[i])
  }

  function Print(n: nat): (s: string)
    ensures IsDecimal(s)
  {
    if n < 10 then [DigitOf(n)] else Print(n / 10) + [DigitOf(n % 10)]
  }

  /** The `:0<width>d` format. */
  function Padded(n: nat, width: nat): (s: string)
    ensures IsDecimal(s)
  {
    Zeros(width, |Print(n)|) + Print(n)
  }

  function Zeros(width: nat, have: nat): (s: string)
    ensures |s| == if width > have then width - have else 0
    ensures forall i :: 0 <= i < |s| ==> s[i] == '0'
  {
    seq(if width > have then width - have else 0, _ => '0')
  }

  /** `int(s)` on decimal text. */
  function Parse(s: string): nat
    requires forall i :: 0 <= i < |s| ==> IsDigit(s[i])
  {
    if s == "" then 0 else Parse(s[..|s| - 1]) * 10 + ValueOf(s[|s| - 1])
  }

  lemma {:induction false} ParseOfPrint(n: nat)
    ensures Parse(Print(n)) == n
  {
    if n >= 10 {
      ParseOfPrint(n / 10);
      assert Print(n)[..|Print(n)| - 1] == Print(n / 10);
    } else {
      assert Print(n)[..0] == "";
    }
  }

  lemma {:induction false} LeadingZeros(zeros: string, s: string)
    requires forall i :: 0 <= i < |zeros| ==> zeros[i] == '0'
    requires forall i :: 0 <= i < |s| ==> IsDigit(s[i])
    ensures Parse(zeros + s) == Parse(s)
    decreases |zeros| + |s|
  {
    if s != "" {
      LeadingZeros(zeros, s[..|s| - 1]);
      assert (zeros + s)[..|zeros + s| - 1] == zeros + s[..|s| - 1];
    } else if zeros != "" {
      LeadingZeros(zeros[..|zeros| - 1], "");
      assert zeros + "" == zeros;
      assert zeros[..|zeros| - 1] + "" == zeros[..|zeros| - 1];
    }
  }

  lemma {:induction false} NoLeadingZero(n: nat)
    ensures |Print(n)| > 1 ==> Print(n)[0] != '0'
    ensures n > 0 ==> Print(n)[0] != '0'
  {
    if n >= 10 {
      NoLeadingZero(n / 10);
    }
  }

  /** At least `width` digits, and no more than that with a zero in front. */
  lemma PaddedWidth(n: nat, width: nat)
    ensures |Padded(n, width)| >= width
    ensures |Padded(n, width)| > width && |Padded(n, width)| > 1 ==> Padded(n, width)[0] != '0'
  {
    NoLeadingZero(n);
  }

  /** Every number survives printing, padding and parsing. */
  lemma ParseOfPadded(n: nat, width: nat)
    ensures Parse(Padded(n, width)) == n
  {
    ParseOfPrint(n);
    LeadingZeros(Zeros(width, |Print(n)|), Print(n));
  }

  lemma PrintIsInjective(m: nat, n: nat)
    requires Print(m) == Print(n)
    ensures m == n
  {
    ParseOfPrint(m);
    ParseOfPrint(n);
  }
}
