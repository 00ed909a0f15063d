/** Rust's decimal rendering of unsigned integers (`to_string`) and its
    `str::parse::<u32>`, including the optional leading `+` and the order in
    which the standard library reports an invalid digit or an overflow. */
module Decimal {
  import opened Common

  predicate IsDigit(c: char) {
    '0' <= c <= '9'
  }

  predicate AllDigits(s: string) {
    forall i | 0 <= i < |s| :: IsDigit(s[i])
  }

  function DigitValue(c: char): nat
    requires IsDigit(c)
  {
    c as int - '0' as int
  }

  function DigitChar(d: nat): (c: char)
    requires d < 10
    ensures IsDigit(c) && DigitValue(c) == d
  {
    ('0' as int + d) as char
  }

  /** `n.to_string()`: the shortest decimal numeral of `n`. */
  function ToDecimal(n: nat): (s: string)
    ensures |s| > 0 && AllDigits(s)
    ensures |s| > 1 ==> s[0] != '0'
    decreases n
  {
    if n < 10 then [DigitChar(n)] else ToDecimal(n / 10) + [DigitChar(n % 10)]
  }

  /** The value of the digits `s` read left to right after `acc`. */
  function Accumulate(acc: nat, s: string): nat
    requires AllDigits(s)
    decreases |s|
  {
    if s == [] then acc else Accumulate(acc * 10 + DigitValue(s[0]), s[1..])
  }

  function ValueOf(s: string): nat
    requires AllDigits(s)
  {
    Accumulate(0, s)
  }

  /** `core::num::IntErrorKind`, restricted to what an unsigned parse reports. */
  datatype IntErrorKind = Empty | InvalidDigit | PosOverflow

  /** The digit loop of `u32::from_str_radix(_, 10)`: each character is checked
      to be a digit before the running value is checked for overflow. */
  function ScanU32(acc: U32, s: string): Result<U32, IntErrorKind>
    decreases |s|
  {
    if s == [] then Ok(acc)
    else if !IsDigit(s[0]) then Err(InvalidDigit)
    else if acc * 10 + DigitValue(s[0]) > U32_MAX then Err(PosOverflow)
    else ScanU32(acc * 10 + DigitValue(s[0]), s[1..])
  }

  /** `s.parse::<u32>()`. */
  function ParseU32(s: string): Result<U32, IntErrorKind> {
    if s == [] then Err(Empty)
    else if s == "+" || s == "-" then Err(InvalidDigit)
    else if s[0] == '+' then ScanU32(0, s[1..])
    else ScanU32(0, s)
  }

  /** The digits a parse reads: everything after an optional leading `+`. */
  function Unsigned(s: string): string {
    if |s| > 0 && s[0] == '+' then s[1..] else s
  }

  /** The strings `u32::from_str` accepts. */
  predicate IsU32Literal(s: string) {
    var d := Unsigned(s);
    |d| > 0 && AllDigits(d) && ValueOf(d) <= U32_MAX
  }

  lemma {:induction false} AccumulateGrows(acc: nat, s: string)
    requires AllDigits(s)
    ensures Accumulate(acc, s) >= acc
    decreases |s|
  {
    if s != [] {
      AccumulateGrows(acc * 10 + DigitValue(s[0]), s[1..]);
    }
  }

  lemma {:induction false} AccumulateSnoc(acc: nat, s: string, c: char)
    requires AllDigits(s) && IsDigit(c)
    ensures AllDigits(s + [c])
    ensures Accumulate(acc, s + [c]) == Accumulate(acc, s) * 10 + DigitValue(c)
    decreases |s|
  {
    if s == [] {
      assert s + [c] == [c];
    } else {
      assert (s + [c])[1..] == s[1..] + [c];
      AccumulateSnoc(acc * 10 + DigitValue(s[0]), s[1..], c);
    }
  }

  /** On a string of digits the scan succeeds exactly when the value fits. */
  lemma {:induction false} ScanDigits(acc: U32, s: string)
    requires AllDigits(s)
    ensures ScanU32(acc, s) == if Accumulate(acc, s) <= U32_MAX then Ok(Accumulate(acc, s)) else Err(PosOverflow)
    decreases |s|
  {
    if s != [] {
      var next := acc * 10 + DigitValue(s[0]);
      if next <= U32_MAX {
        ScanDigits(next, s[1..]);
      } else {
        AccumulateGrows(next, s[1..]);
      }
    }
  }

  /** A string with a non-digit never scans to a value. */
  lemma {:induction false} ScanNonDigits(acc: U32, s: string)
    requires !AllDigits(s)
    ensures ScanU32(acc, s).Err?
    decreases |s|
  {
    if IsDigit(s[0]) {
      var next := acc * 10 + DigitValue(s[0]);
      if next <= U32_MAX {
        assert !AllDigits(s[1..]) by {
          var i :| 0 <= i < |s| && !IsDigit(s[i]);
          assert s[1..][i - 1] == s[i];
        }
        ScanNonDigits(next, s[1..]);
      }
    }
  }

  /** `parse::<u32>` accepts exactly the u32 literals, and yields their value. */
  lemma ParseU32Accepts(s: string)
    ensures ParseU32(s).Ok? <==> IsU32Literal(s)
    ensures ParseU32(s).Ok? ==> ParseU32(s).value == ValueOf(Unsigned(s))
  {
    var d := Unsigned(s);
    if s != [] && s != "+" && s != "-" {
      assert ParseU32(s) == ScanU32(0, d);
      if AllDigits(d) {
        ScanDigits(0, d);
      } else {
        ScanNonDigits(0, d);
      }
    } else if s == "-" {
      assert !IsDigit(s[0]);
    }
  }

  lemma {:induction false} ValueOfToDecimal(n: nat)
    ensures ValueOf(ToDecimal(n)) == n
    decreases n
  {
    if n < 10 {
      var s := ToDecimal(n);
      assert s == [DigitChar(n)] && s[1..] == [];
      assert Accumulate(0, s) == Accumulate(DigitValue(s[0]), []) == n;
    } else {
      ValueOfToDecimal(n / 10);
      AccumulateSnoc(0, ToDecimal(n / 10), DigitChar(n % 10));
    }
  }

  /** Round trip: `n.to_string().parse::<u32>() == Ok(n)`. */
  lemma ParseToDecimal(n: U32)
    ensures ParseU32(ToDecimal(n)) == Ok(n)
  {
    var s := ToDecimal(n);
    assert Unsigned(s) == s;
    ValueOfToDecimal(n);
    ParseU32Accepts(s);
  }

  lemma ToDecimalInjective(a: nat, b: nat)
    requires ToDecimal(a) == ToDecimal(b)
    ensures a == b
  {
    ValueOfToDecimal(a);
    ValueOfToDecimal(b);
  }
}
