/** Decimal numbers as the code prints and parses them. */
module Decimals {
  import opened Wrappers

  predicate IsDigit(c: char) {
    '0' <= c <= '9'
  }

  predicate AllDigits(s: string) {
    forall i :: 0 <= i < |s| ==> IsDigit(s[i])
  }

  function Digit(n: nat): (c: char)
    requires n < 10
    ensures IsDigit(c)
  {
    '0' + n as char
  }

  function Value(c: char): (n: nat)
    requires IsDigit(c)
    ensures n < 10
  {
    (c - '0') as nat
  }

  function PrintNat(n: nat): (s: string)
    ensures s != [] && AllDigits(s)
  {
    if n < 10 then [Digit(n)] else PrintNat(n / 10) + [Digit(n % 10)]
  }

  function Print(n: int): string {
    if n < 0 then "-" + PrintNat(-n) else PrintNat(n)
  }

  function ParseNat(s: string): nat
    requires AllDigits(s)
  {
    if s == "" then 0 else 10 * ParseNat(s[..|s| - 1]) + Value(s[|s| - 1])
  }

  lemma {:induction false} ParsePrintNat(n: nat)
    ensures ParseNat(PrintNat(n)) == n
  {
    if n < 10 {
      assert PrintNat(n)[..0] == "";
    } else {
      ParsePrintNat(n / 10);
      var s := PrintNat(n);
      assert s[..|s| - 1] == PrintNat(n / 10);
    }
  }

  /** Where the digits that start at i end. */
  function DigitsEnd(s: string, i: nat): (k: nat)
    requires i <= |s|
    ensures i <= k <= |s| && (forall j :: i <= j < k ==> IsDigit(s[j])) && (k < |s| ==> !IsDigit(s[k]))
    decreases |s| - i
  {
    if i == |s| || !IsDigit(s[i]) then i else DigitsEnd(s, i + 1)
  }

  function ScanNat(s: string): Result<(nat, string)> {
    var k := DigitsEnd(s, 0);
    if k == 0 then Error else Okay((ParseNat(s[..k]), s[k..]))
  }

  function Signed(negative: bool, n: nat): int {
    if negative then 0 - n else n
  }

  /** Scanning "%d": an optional sign and as many digits as there are; the number and the rest of the text. */
  function ScanInt(s: string): Result<(int, string)> {
    var sign := s != "" && (s[0] == '-' || s[0] == '+');
    match ScanNat(if sign then s[1..] else s)
    case Error => Error
    case Okay((n, rest)) => Okay((Signed(sign && s[0] == '-', n), rest))
  }

  lemma ScanDigits(digits: string, rest: string)
    requires digits != "" && AllDigits(digits) && (rest == "" || !IsDigit(rest[0]))
    ensures ScanNat(digits + rest) == Okay((ParseNat(digits), rest))
  {
    var s := digits + rest;
    var k := DigitsEnd(s, 0);
    assert forall j :: 0 <= j < |digits| ==> s[j] == digits[j];
    assert rest != "" ==> s[|digits|] == rest[0];
    assert k == |digits|;
    assert s[..k] == digits && s[k..] == rest;
  }

  lemma ScanPrintNat(n: nat, rest: string)
    requires rest == "" || !IsDigit(rest[0])
    ensures ScanNat(PrintNat(n) + rest) == Okay((n, rest))
  {
    ScanDigits(PrintNat(n), rest);
    ParsePrintNat(n);
  }

  lemma ScanPositive(digits: string, rest: string, n: nat)
    requires digits != "" && AllDigits(digits) && ScanNat(digits + rest) == Okay((n, rest))
    ensures ScanInt(digits + rest) == Okay((n, rest))
  {
    assert (digits + rest)[0] == digits[0];
  }

  lemma ScanNegative(digits: string, rest: string, n: nat)
    requires ScanNat(digits + rest) == Okay((n, rest))
    ensures ScanInt("-" + digits + rest) == Okay((0 - n, rest))
  {
    assert ("-" + digits + rest)[1..] == digits + rest;
  }

  lemma ScanPrintNegative(n: nat, rest: string)
    requires rest == "" || !IsDigit(rest[0])
    ensures ScanInt("-" + PrintNat(n) + rest) == Okay((0 - n, rest))
  {
    ScanPrintNat(n, rest);
    ScanNegative(PrintNat(n), rest, n);
  }

  lemma ScanPrintPositive(n: nat, rest: string)
    requires rest == "" || !IsDigit(rest[0])
    ensures ScanInt(PrintNat(n) + rest) == Okay((n, rest))
  {
    ScanPrintNat(n, rest);
    ScanPositive(PrintNat(n), rest, n);
  }

  /** A printed number is scanned back, and scanning stops where it ended. */
  lemma ScanPrint(n: int, rest: string)
    requires rest == "" || !IsDigit(rest[0])
    ensures ScanInt(Print(n) + rest) == Okay((n, rest))
  {
    if n < 0 { ScanPrintNegative(-n, rest); } else { ScanPrintPositive(n, rest); }
  }

  lemma PrintInjective(a: int, b: int)
    requires Print(a) == Print(b)
    ensures a == b
  {
    ScanPrint(a, "");
    ScanPrint(b, "");
    assert Print(a) + "" == Print(b) + "";
  }
}
