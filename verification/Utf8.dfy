/** How long a text is on the wire: its UTF-8 encoding, as section 3 of RFC 3629 lays it out. */
module Utf8 {
  import opened Clipboard

  type Byte = b: int | 0 <= b < 256

  /** The bytes of one character: a leading byte that tells how many follow, then six bits in each. */
  function EncodeChar(c: char): seq<Byte> {
    var x := c as int;
    if x < 0x80 then [x]
    else if x < 0x800 then [0xC0 + x / 64, 0x80 + x % 64]
    else if x < 0x10000 then [0xE0 + x / 4096, 0x80 + x / 64 % 64, 0x80 + x % 64]
    else [0xF0 + x / 262144, 0x80 + x / 4096 % 64, 0x80 + x / 64 % 64, 0x80 + x % 64]
  }

  function Encode(text: string): seq<Byte> {
    if text == "" then [] else EncodeChar(text[0]) + Encode(text[1..])
  }

  /** How many bytes a character takes, by its leading byte. */
  function Announced(lead: Byte): nat {
    if lead < 0x80 then 1 else if lead < 0xE0 then 2 else if lead < 0xF0 then 3 else 4
  }

  /** What a following byte contributes. */
  function Six(b: Byte): int {
    (b as int) - 0x80
  }

  /** The scalar value spelled by the first bytes. */
  function Scalar(bytes: seq<Byte>): int
    requires bytes != [] && Announced(bytes[0]) <= |bytes|
  {
    var lead: int := bytes[0];
    match Announced(bytes[0])
    case 1 => lead
    case 2 => (lead - 0xC0) * 64 + Six(bytes[1])
    case 3 => (lead - 0xE0) * 4096 + Six(bytes[1]) * 64 + Six(bytes[2])
    case _ => (lead - 0xF0) * 262144 + Six(bytes[1]) * 4096 + Six(bytes[2]) * 64 + Six(bytes[3])
  }

  lemma {:induction false} CharDecodes(c: char, rest: seq<Byte>)
    ensures var bytes := EncodeChar(c) + rest;
            && Announced(bytes[0]) == |EncodeChar(c)| <= |bytes|
            && Scalar(bytes) == c as int && bytes[|EncodeChar(c)|..] == rest
  {
    var x := c as int;
    assert x / 64 == x / 4096 * 64 + x / 64 % 64;
    assert x / 4096 == x / 262144 * 64 + x / 4096 % 64;
    assert (EncodeChar(c) + rest)[|EncodeChar(c)|..] == rest;
  }

  /** The size that is compared with the limit is the number of bytes encoded, and nothing is lost in them. */
  lemma {:induction false} LengthIsEncoded(text: string)
    ensures Utf8Length(text) == |Encode(text)|
  {
    if text != "" { LengthIsEncoded(text[1..]); }
  }

  lemma {:induction false} EncodeInjective(a: string, b: string)
    requires Encode(a) == Encode(b)
    ensures a == b
  {
    if a != "" && b != "" {
      CharDecodes(a[0], Encode(a[1..]));
      CharDecodes(b[0], Encode(b[1..]));
      EncodeInjective(a[1..], b[1..]);
      assert a == [a[0]] + a[1..] && b == [b[0]] + b[1..];
    }
  }
}
