/** Decimal text of integers, as strconv and encoding/json print and parse them. */
module Decimal {
  import opened Wrappers
  import opened MachineInts

  predicate IsDigit(c: char) {
    '0' <= c <= '9'
  }

  predicate AllDigits(s: string) {
    forall i | 0 <= i < |s| :: IsDigit(s[i])
  }

  function Digit(d: nat): (c: char)
    requires d < 10
    ensures IsDigit(c) && DigitValue(c) == d
  {
    '0' + d as char
  }

  function DigitValue(c: char): (d: nat)
    requires IsDigit(c)
    ensures d < 10
  {
    c as int - '0' as int
  }

  function Value(s: string): nat
    requires AllDigits(s)
  {
    if s == "" then 0 else 10 * Value(s[..|s| - 1]) + DigitValue(s[|s| - 1])
  }

  function Print(n: nat): (s: string)
    ensures s != "" && AllDigits(s)
  {
    if n < 10 then [Digit(n)] else Print(n / 10) + [Digit(n % 10)]
  }

  lemma {:induction false} ValueOfPrint(n: nat)
    ensures Value(Print(n)) == n
    ensures n > 0 ==> Print(n)[0] != '0'
    ensures |Print(n)| > 1 ==> Print(n)[0] != '0'
  {
    var s := Print(n);
    if n >= 10 {
      ValueOfPrint(n / 10);
      assert s[..|s| - 1] == Print(n / 10);
    } else {
      assert s[..0] == "";
    }
  }

  function PrintInt(n: int): string {
    if n < 0 then "-" + Print(-n) else Print(n)
  }

  /** strconv.ParseUint(s, 10, 64): the empty string, any non-digit and any value past 2^64-1 is an error. */
  function ParseUint(s: string): (r: Option<uint64>)
    ensures r.Some? <==> s != "" && AllDigits(s) && Value(s) < TWO_TO_THE_64
    ensures r.Some? ==> r.value == Value(s)
  {
    if s != "" && AllDigits(s) && Value(s) < TWO_TO_THE_64 then Some(Value(s)) else None
  }

  /** strconv.ParseInt(s, 10, 64): as ParseUint, with one optional sign. */
  function ParseInt(s: string): Option<int64> {
    var negative := s != "" && s[0] == '-';
    var digits := if s != "" && (s[0] == '-' || s[0] == '+') then s[1..] else s;
    if digits == "" || !AllDigits(digits) then None
    else
      var n: int := if negative then -(Value(digits) as int) else Value(digits);
      if -TWO_TO_THE_63 <= n < TWO_TO_THE_63 then Some(n) else None
  }

  lemma ParseIntOfPrint(n: int64)
    ensures ParseInt(PrintInt(n)) == Some(n)
  {
    var i: int := n;
    var m: nat := if i < 0 then -i else i;
    ValueOfPrint(m);
    assert IsDigit(Print(m)[0]);
    if i < 0 {
      assert PrintInt(i)[1..] == Print(m);
    }
  }

  /** The length of the longest run of leading digits. */
  function DigitRun(s: string): (n: nat)
    ensures n <= |s| && (n < |s| ==> !IsDigit(s[n]))
    ensures forall i | 0 <= i < n :: IsDigit(s[i])
  {
    if s == "" || !IsDigit(s[0]) then 0 else 1 + DigitRun(s[1..])
  }

  /** Splits off the longest run of leading digits. */
  function SplitDigits(s: string): (r: (string, string))
    ensures AllDigits(r.0) && r.0 + r.1 == s
    ensures r.1 != "" ==> !IsDigit(r.1[0])
  {
    (s[..DigitRun(s)], s[DigitRun(s)..])
  }

  lemma SplitDigitsAppend(digits: string, rest: string)
    requires AllDigits(digits) && (rest != "" ==> !IsDigit(rest[0]))
    ensures SplitDigits(digits + rest) == (digits, rest)
  {
    var s := digits + rest;
    assert forall i | 0 <= i < |digits| :: s[i] == digits[i];
    assert rest != "" ==> s[|digits|] == rest[0];
    assert DigitRun(s) == |digits|;
  }
}
