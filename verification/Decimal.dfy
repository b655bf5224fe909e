/** Whole numbers as JavaScript prints and reads them (`toString`, `Number`), and splitting a
    string at the last occurrence of a character. */
module Decimal {
  import opened Model

  function Digit(d: nat): char
    requires d < 10
  {
    "0123456789"[d]
  }

  predicate IsDigit(c: char) {
    '0' <= c <= '9'
  }

  function DigitValue(c: char): nat
    requires IsDigit(c)
  {
    (c - '0') as int
  }

  function PrintNat(n: nat): (s: string)
    ensures |s| > 0
  {
    if n < 10 then [Digit(n)] else PrintNat(n / 10) + [Digit(n % 10)]
  }

  function Print(i: int): string {
    if i < 0 then "-" + PrintNat(-i) else PrintNat(i)
  }

  predicate AllDigits(s: string) {
    forall i :: 0 <= i < |s| ==> IsDigit(s[i])
  }

  function ReadNat(s: string): nat
    requires AllDigits(s)
  {
    if s == "" then 0 else 10 * ReadNat(s[..|s| - 1]) + DigitValue(s[|s| - 1])
  }

  /** `Number`; `None` is `NaN`. The empty string counts as 0. */
  function Read(s: string): Option<int> {
    if AllDigits(s) then Some(ReadNat(s))
    else if s[0] == '-' && |s| > 1 && AllDigits(s[1..]) then Some(0 - ReadNat(s[1..]) as int)
    else None
  }

  function PrintNumber(n: Option<int>): string {
    if n.Some? then Print(n.value) else "NaN"
  }

  lemma DigitReads(d: nat)
    requires d < 10
    ensures IsDigit(Digit(d)) && DigitValue(Digit(d)) == d
  {
  }

  lemma {:induction false} NatReads(n: nat)
    ensures AllDigits(PrintNat(n)) && ReadNat(PrintNat(n)) == n
  {
    if n < 10 {
      DigitReads(n);
      assert PrintNat(n)[..0] == "";
    } else {
      NatReads(n / 10);
      DigitReads(n % 10);
      assert PrintNat(n)[..|PrintNat(n)| - 1] == PrintNat(n / 10);
    }
  }

  lemma ReadNegative(digits: string)
    requires digits != "" && AllDigits(digits)
    ensures Read("-" + digits) == Some(0 - ReadNat(digits) as int)
  {
    var s := "-" + digits;
    assert s[1..] == digits && s[0] == '-' && !IsDigit(s[0]);
  }

  /** Reading is the inverse of printing, for every whole number. */
  lemma ReadPrint(i: int)
    ensures Read(Print(i)) == Some(i)
  {
    if i < 0 {
      NatReads(-i);
      ReadNegative(PrintNat(-i));
    } else {
      NatReads(i);
    }
  }

  /** Different numbers print differently. */
  lemma PrintInjective(i: int, j: int)
    requires Print(i) == Print(j)
    ensures i == j
  {
    ReadPrint(i);
    ReadPrint(j);
  }

  // ------------------------------------------------------------ splitting

  /** `lastIndexOf`. */
  function LastIndexOf(s: string, c: char): (i: int)
    ensures -1 <= i < |s|
  {
    if s == "" then -1 else if s[|s| - 1] == c then |s| - 1 else LastIndexOf(s[..|s| - 1], c)
  }

  /** The split is stable: a tail without the character is found again, whatever comes before it. */
  lemma {:induction false} SplitAtLast(head: string, c: char, tail: string)
    requires c !in tail
    ensures LastIndexOf(head + [c] + tail, c) == |head|
    decreases |tail|
  {
    var s := head + [c] + tail;
    if tail == "" {
      assert s[|s| - 1] == c;
    } else {
      SplitAtLast(head, c, tail[..|tail| - 1]);
      assert s[|s| - 1] == tail[|tail| - 1];
      assert s[..|s| - 1] == head + [c] + tail[..|tail| - 1];
    }
  }

  lemma DigitsOnly(n: nat, c: char)
    requires !IsDigit(c)
    ensures c !in PrintNat(n)
  {
    NatReads(n);
  }
}
