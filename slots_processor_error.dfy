/** The errors of the slots processor and their messages. A slot error
    displays as its derived `Debug` form, so the rendering of a string field
    follows Rust's `str` debug escaping; a range error names the range, the
    failed slot and the slot error. */
module SlotsProcessorErrors {
  import opened Common
  import opened Decimal
  import Hex

  /** `SlotProcessingError`; `From` conversions are the first three variants. */
  datatype SlotProcessingError =
    | ClientError(client: Common.ClientError)
    | Provider(provider: Common.ProviderError)
    | Other(other: AnyError)
    | CustomError(message: string)

  datatype SlotsProcessorError =
    | FailedSlotsProcessing(initialSlot: U32, finalSlot: U32, failedSlot: U32, error: SlotProcessingError)
    | OtherError(other: AnyError)

  predicate IsAsciiControl(c: char) {
    c as int < 0x20 || c as int == 0x7f
  }

  /** The hex digits of a code point below 256, without leading zeros. */
  function ShortHex(n: nat): string
    requires n < 256
  {
    if n < 16 then [Hex.HexChar(n)] else [Hex.HexChar(n / 16), Hex.HexChar(n % 16)]
  }

  /** `char::escape_debug` as `str`'s `Debug` applies it (single quotes stay
      as they are; ASCII control characters become `\u{..}`). */
  function EscapeChar(c: char): string {
    if c == '\0' then "\\0"
    else if c == '\t' then "\\t"
    else if c == '\r' then "\\r"
    else if c == '\n' then "\\n"
    else if c == '\\' then "\\\\"
    else if c == '"' then "\\\""
    else if IsAsciiControl(c) then "\\u{" + ShortHex(c as int) + "}"
    else [c]
  }

  function Escape(s: string): string {
    if s == [] then [] else EscapeChar(s[0]) + Escape(s[1..])
  }

  /** `format!("{:?}", s)` for a string. */
  function DebugStr(s: string): string {
    "\"" + Escape(s) + "\""
  }

  function Prepend(c: char, r: Option<string>): Option<string> {
    match r
    case Some(t) => Some([c] + t)
    case None => None
  }

  /** Reads back escaped text: the inverse of `Escape`. */
  function Unescape(s: string): Option<string>
    decreases |s|
  {
    if s == [] then Some([])
    else if s[0] != '\\' then Prepend(s[0], Unescape(s[1..]))
    else if |s| < 2 then None
    else if s[1] == '0' then Prepend('\0', Unescape(s[2..]))
    else if s[1] == 't' then Prepend('\t', Unescape(s[2..]))
    else if s[1] == 'r' then Prepend('\r', Unescape(s[2..]))
    else if s[1] == 'n' then Prepend('\n', Unescape(s[2..]))
    else if s[1] == '\\' then Prepend('\\', Unescape(s[2..]))
    else if s[1] == '"' then Prepend('"', Unescape(s[2..]))
    else if s[1] == 'u' && |s| >= 5 && s[2] == '{' && s[4] == '}' && Hex.HexValue(s[3]).Some? then
      Prepend(Hex.HexValue(s[3]).value as char, Unescape(s[5..]))
    else if s[1] == 'u' && |s| >= 6 && s[2] == '{' && s[5] == '}'
            && Hex.HexValue(s[3]).Some? && Hex.HexValue(s[4]).Some? then
      Prepend((Hex.HexValue(s[3]).value * 16 + Hex.HexValue(s[4]).value) as char, Unescape(s[6..]))
    else None
  }

  lemma HexCharValue(d: nat)
    requires d < 16
    ensures Hex.HexValue(Hex.HexChar(d)) == Some(d)
  {
  }

  predicate ShortEscape(c: char) {
    c == '\0' || c == '\t' || c == '\r' || c == '\n' || c == '\\' || c == '"'
  }

  lemma UnescapeShort(c: char, rest: string)
    requires ShortEscape(c)
    ensures Unescape(EscapeChar(c) + rest) == Prepend(c, Unescape(rest))
  {
    var s := EscapeChar(c) + rest;
    assert |EscapeChar(c)| == 2 && s[0] == '\\';
    assert s[2..] == rest;
  }

  lemma UnescapeOneDigit(c: char, rest: string)
    requires IsAsciiControl(c) && !ShortEscape(c) && c as int < 16
    ensures Unescape(EscapeChar(c) + rest) == Prepend(c, Unescape(rest))
  {
    var n := c as int;
    var d := Hex.HexChar(n);
    var s := EscapeChar(c) + rest;
    HexCharValue(n);
    assert EscapeChar(c) == ['\\', 'u', '{', d, '}'];
    assert s[0] == '\\' && s[1] == 'u' && s[2] == '{' && s[3] == d && s[4] == '}';
    assert s[5..] == rest;
  }

  lemma UnescapeTwoDigits(c: char, rest: string)
    requires IsAsciiControl(c) && !ShortEscape(c) && 16 <= c as int
    ensures Unescape(EscapeChar(c) + rest) == Prepend(c, Unescape(rest))
  {
    var n := c as int;
    var hi := Hex.HexChar(n / 16);
    var lo := Hex.HexChar(n % 16);
    var s := EscapeChar(c) + rest;
    HexCharValue(n / 16);
    HexCharValue(n % 16);
    assert Hex.HexValue('}').None?;
    assert EscapeChar(c) == ['\\', 'u', '{', hi, lo, '}'];
    assert s[0] == '\\' && s[1] == 'u' && s[2] == '{' && s[3] == hi && s[4] == lo && s[5] == '}';
    assert s[6..] == rest;
    assert (n / 16) * 16 + n % 16 == n;
  }

  lemma UnescapeChar(c: char, rest: string)
    ensures Unescape(EscapeChar(c) + rest) == Prepend(c, Unescape(rest))
  {
    if ShortEscape(c) {
      UnescapeShort(c, rest);
    } else if IsAsciiControl(c) {
      if c as int < 16 {
        UnescapeOneDigit(c, rest);
      } else {
        UnescapeTwoDigits(c, rest);
      }
    } else {
      assert EscapeChar(c) == [c];
      assert ([c] + rest)[1..] == rest;
    }
  }

  /** Round trip of the debug escaping. */
  lemma {:induction false} UnescapeEscape(s: string)
    ensures Unescape(Escape(s)) == Some(s)
  {
    if s != [] {
      UnescapeChar(s[0], Escape(s[1..]));
      UnescapeEscape(s[1..]);
      assert [s[0]] + s[1..] == s;
    }
  }

  /** `Display for SlotProcessingError` prints the derived `Debug` form. */
  function Display(e: SlotProcessingError): string {
    match e
    case ClientError(c) => "ClientError(" + c.debug + ")"
    case Provider(p) => "Provider(" + p.debug + ")"
    case Other(a) => "Other(" + a.message + ")"
    case CustomError(m) => "CustomError(" + DebugStr(m) + ")"
  }

  lemma EscapeInjective(a: string, b: string)
    requires Escape(a) == Escape(b)
    ensures a == b
  {
    UnescapeEscape(a);
    UnescapeEscape(b);
  }

  lemma Unwrap(p: string, x: string, q: string)
    ensures (p + x + q)[|p|..|p| + |x|] == x
  {
    assert (p + x + q) == p + (x + q);
  }

  lemma DisplayCustom(m: string)
    ensures Display(CustomError(m)) == "CustomError(\"" + Escape(m) + "\")"
  {
    assert Display(CustomError(m)) == "CustomError(" + ("\"" + Escape(m) + "\"") + ")";
  }

  /** Two custom errors display alike only when their messages are equal. */
  lemma CustomErrorDisplayInjective(a: string, b: string)
    requires Display(CustomError(a)) == Display(CustomError(b))
    ensures a == b
  {
    var p := "CustomError(\"";
    var q := "\")";
    var ea := Escape(a);
    var eb := Escape(b);
    DisplayCustom(a);
    DisplayCustom(b);
    assert |ea| == |eb|;
    Unwrap(p, ea, q);
    Unwrap(p, eb, q);
    assert ea == eb;
    EscapeInjective(a, b);
  }

  /** The text of a range failure. */
  function RangeText(i: nat, f: nat, s: nat, err: string): string {
    "Error processing slots range " + (ToDecimal(i) + ("-" + (ToDecimal(f)
    + (". Slot " + (ToDecimal(s) + (" failed: " + err))))))
  }

  /** The message of `SlotsProcessorError`: a range failure names the range,
      the failed slot and the slot error; `Other` is transparent. */
  function Message(e: SlotsProcessorError): string {
    match e
    case FailedSlotsProcessing(i, f, s, err) => RangeText(i, f, s, Display(err))
    case OtherError(a) => a.message
  }

  /** In a numeral followed by a non-digit, the first non-digit sits just past
      the numeral. */
  lemma NumeralEnd(a: string, x: string)
    requires AllDigits(a) && |x| > 0 && !IsDigit(x[0])
    ensures !IsDigit((a + x)[|a|])
    ensures forall i | 0 <= i < |a| :: IsDigit((a + x)[i])
  {
  }

  /** A numeral followed by a non-digit splits uniquely. */
  lemma DigitsThenMark(a: string, x: string, b: string, y: string)
    requires AllDigits(a) && AllDigits(b)
    requires |x| > 0 && |y| > 0 && !IsDigit(x[0]) && !IsDigit(y[0])
    requires a + x == b + y
    ensures a == b && x == y
  {
    if |a| == |b| {
      assert a == (a + x)[..|a|];
      assert b == (b + y)[..|b|];
      assert x == (a + x)[|a|..];
      assert y == (b + y)[|b|..];
    } else {
      NumeralEnd(a, x);
      NumeralEnd(b, y);
      assert false;
    }
  }

  lemma PeelNumber(a: nat, x: string, b: nat, y: string)
    requires |x| > 0 && |y| > 0 && !IsDigit(x[0]) && !IsDigit(y[0])
    requires ToDecimal(a) + x == ToDecimal(b) + y
    ensures a == b && x == y
  {
    DigitsThenMark(ToDecimal(a), x, ToDecimal(b), y);
    ToDecimalInjective(a, b);
  }

  lemma PeelPrefix(p: string, x: string, y: string)
    requires p + x == p + y
    ensures x == y
  {
    assert x == (p + x)[|p|..];
    assert y == (p + y)[|p|..];
  }

  lemma RangeTextInjective(i1: nat, f1: nat, s1: nat, e1: string, i2: nat, f2: nat, s2: nat, e2: string)
    requires RangeText(i1, f1, s1, e1) == RangeText(i2, f2, s2, e2)
    ensures i1 == i2 && f1 == f2 && s1 == s2 && e1 == e2
  {
    var v1 := " failed: " + e1;
    var v2 := " failed: " + e2;
    var u1 := ". Slot " + (ToDecimal(s1) + v1);
    var u2 := ". Slot " + (ToDecimal(s2) + v2);
    var t1 := "-" + (ToDecimal(f1) + u1);
    var t2 := "-" + (ToDecimal(f2) + u2);
    var p := "Error processing slots range ";
    PeelPrefix(p, ToDecimal(i1) + t1, ToDecimal(i2) + t2);
    PeelNumber(i1, t1, i2, t2);
    PeelPrefix("-", ToDecimal(f1) + u1, ToDecimal(f2) + u2);
    PeelNumber(f1, u1, f2, u2);
    PeelPrefix(". Slot ", ToDecimal(s1) + v1, ToDecimal(s2) + v2);
    PeelNumber(s1, v1, s2, v2);
    PeelPrefix(" failed: ", e1, e2);
  }

  /** A range failure's message determines the range, the failed slot and the
      text of the slot error. */
  lemma MessageDeterminesRange(i1: U32, f1: U32, s1: U32, e1: SlotProcessingError,
                               i2: U32, f2: U32, s2: U32, e2: SlotProcessingError)
    requires Message(FailedSlotsProcessing(i1, f1, s1, e1)) == Message(FailedSlotsProcessing(i2, f2, s2, e2))
    ensures i1 == i2 && f1 == f2 && s1 == s2 && Display(e1) == Display(e2)
  {
    RangeTextInjective(i1, f1, s1, Display(e1), i2, f2, s2, Display(e2));
  }
}
