/** Hexadecimal text as the indexer's libraries read and write it: ethers'
    `H256` (`FromStr`, `{:x}` and `Display`) and `Bytes::from_str`. */
module Hex {
  import opened Common

  function HexChar(d: nat): char
    requires d < 16
  {
    if d < 10 then ('0' as int + d) as char else ('a' as int + d - 10) as char
  }

  /** The value of a hex digit of either case. */
  function HexValue(c: char): Option<nat> {
    if '0' <= c <= '9' then Some(c as int - '0' as int)
    else if 'a' <= c <= 'f' then Some(c as int - 'a' as int + 10)
    else if 'A' <= c <= 'F' then Some(c as int - 'A' as int + 10)
    else None
  }

  /** Two lower-case digits per byte, no prefix (`{:x}` of an `H256`). */
  function LowerHex(b: seq<Byte>): (s: string)
    ensures |s| == 2 * |b|
  {
    if b == [] then [] else [HexChar(b[0] / 16), HexChar(b[0] % 16)] + LowerHex(b[1..])
  }

  /** Hex text to bytes: an even number of hex digits, or nothing. */
  function DecodeHex(s: string): Option<seq<Byte>>
    decreases |s|
  {
    if s == [] then Some([])
    else if |s| == 1 then None
    else match (HexValue(s[0]), HexValue(s[1]), DecodeHex(s[2..]))
      case (Some(hi), Some(lo), Some(rest)) => Some([hi * 16 + lo] + rest)
      case _ => None
  }

  predicate HasHexPrefix(s: string) {
    |s| >= 2 && s[..2] == "0x"
  }

  /** `strip_prefix("0x").unwrap_or(s)`. */
  function StripHexPrefix(s: string): string {
    if HasHexPrefix(s) then s[2..] else s
  }

  /** `H256::from_str`: an optional `0x` then exactly 64 hex digits. */
  function ParseH256(s: string): Option<H256> {
    match DecodeHex(StripHexPrefix(s))
    case Some(b) => if |b| == 32 then Some(b) else None
    case None => None
  }

  /** `Bytes::from_str`: an optional `0x` then any even number of hex digits. */
  function ParseBytes(s: string): Option<seq<Byte>> {
    DecodeHex(StripHexPrefix(s))
  }

  /** `Display` of an `H256`: the first and last two bytes around an ellipsis. */
  function DisplayH256(h: H256): string {
    "0x" + LowerHex(h[..2]) + "…" + LowerHex(h[30..])
  }

  lemma {:induction false} DecodeLowerHex(b: seq<Byte>)
    ensures DecodeHex(LowerHex(b)) == Some(b)
  {
    if b != [] {
      var s := LowerHex(b);
      assert s[2..] == LowerHex(b[1..]);
      assert HexValue(s[0]) == Some(b[0] / 16);
      assert HexValue(s[1]) == Some(b[0] % 16);
      DecodeLowerHex(b[1..]);
      assert [b[0] / 16 * 16 + b[0] % 16] + b[1..] == b;
    }
  }

  /** A decoded string consists of hex digits only. */
  lemma {:induction false} DecodeHexDigits(s: string, i: nat)
    requires DecodeHex(s).Some? && i < |s|
    ensures HexValue(s[i]).Some?
    decreases |s|
  {
    if i >= 2 {
      DecodeHexDigits(s[2..], i - 2);
    }
  }

  /** Round trip of `format!("{:x}", h)` through `H256::from_str`. */
  lemma ParseLowerHex(h: H256)
    ensures ParseH256("0x" + LowerHex(h)) == Some(h)
  {
    var s := "0x" + LowerHex(h);
    assert s[..2] == "0x" && s[2..] == LowerHex(h);
    DecodeLowerHex(h);
  }
}
