/** The agent's identity, a boost::uuids::uuid, and the text form in which it is
    written to and read back from the identity file (the stream operators `<<`
    and `>>` of boost/uuid/uuid_io.hpp). */
module Uuid {
  import opened Wrappers

  /** Sixteen bytes, most significant first. */
  type Uuid = s: seq<bv8> | |s| == 16 witness seq(16, _ => 0)

  /** boost::uuids::nil_uuid(): all bytes zero. */
  const Nil: Uuid := seq(16, _ => 0)

  /** The lower-case hexadecimal digit for a value below 16. */
  function HexDigit(n: bv8): (c: char)
    requires n < 16
    ensures DigitValue(c) == Some(n)
  {
    if n < 10 then ('0' as int + n as int) as char else ('a' as int + n as int - 10) as char
  }

  /** The value of a hexadecimal digit of either case; None for any other character. */
  function DigitValue(c: char): (v: Option<bv8>)
    ensures v.Some? ==> v.value < 16
  {
    if '0' <= c <= '9' then Some((c as int - '0' as int) as bv8)
    else if 'a' <= c <= 'f' then Some((c as int - 'a' as int + 10) as bv8)
    else if 'A' <= c <= 'F' then Some((c as int - 'A' as int + 10) as bv8)
    else None
  }

  /** Two hexadecimal digits per byte, high nibble first. */
  function Hex(bytes: seq<bv8>): (h: string)
    ensures |h| == 2 * |bytes|
  {
    if bytes == [] then [] else [HexDigit(bytes[0] >> 4), HexDigit(bytes[0] & 0xF)] + Hex(bytes[1..])
  }

  /** The bytes spelled by a string of hexadecimal digit pairs. */
  function ParseHex(h: string): Option<seq<bv8>>
    decreases |h|
  {
    if h == [] then Some([])
    else if |h| == 1 then None
    else match (DigitValue(h[0]), DigitValue(h[1]), ParseHex(h[2..]))
      case (Some(hi), Some(lo), Some(rest)) => Some([(hi << 4) | lo] + rest)
      case _ => None
  }

  lemma NibblesJoin(b: bv8)
    ensures ((b >> 4) << 4) | (b & 0xF) == b
  {
  }

  /** Reading back the digits of `Hex` gives the bytes that were written. */
  lemma {:induction false} ParseHexRoundTrip(bytes: seq<bv8>)
    ensures ParseHex(Hex(bytes)) == Some(bytes)
  {
    if bytes != [] {
      var h := Hex(bytes);
      assert h[2..] == Hex(bytes[1..]);
      ParseHexRoundTrip(bytes[1..]);
      NibblesJoin(bytes[0]);
      assert bytes == [bytes[0]] + bytes[1..];
    }
  }

  /** The canonical text form 8-4-4-4-12: thirty-two lower-case hexadecimal
      digits in five dash-separated groups. */
  function ToText(u: Uuid): (t: string)
    ensures |t| == 36
    ensures t[8] == '-' && t[13] == '-' && t[18] == '-' && t[23] == '-'
  {
    var h := Hex(u);
    h[..8] + "-" + h[8..12] + "-" + h[12..16] + "-" + h[16..20] + "-" + h[20..]
  }

  /** Reading a UUID from the start of a text: the five digit groups and their
      dashes; None when the text does not start that way. */
  function Parse(t: string): Option<Uuid>
  {
    if |t| < 36 || t[8] != '-' || t[13] != '-' || t[18] != '-' || t[23] != '-' then None
    else match ParseHex(t[..8] + t[9..13] + t[14..18] + t[19..23] + t[24..36])
      case Some(bytes) => if |bytes| == 16 then Some(bytes) else None
      case None => None
  }

  /** An identity written in text form reads back as the same identity, whatever
      follows it in the file. */
  lemma ParseToText(u: Uuid, rest: string)
    ensures Parse(ToText(u) + rest) == Some(u)
  {
    var h := Hex(u);
    var t := ToText(u) + rest;
    assert t[..8] == h[..8] && t[9..13] == h[8..12] && t[14..18] == h[12..16];
    assert t[19..23] == h[16..20] && t[24..36] == h[20..];
    assert h == h[..8] + h[8..12] + h[12..16] + h[16..20] + h[20..];
    ParseHexRoundTrip(u);
  }
}
