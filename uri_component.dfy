/**
 * JavaScript's `encodeURIComponent` over strings of Unicode scalar values:
 * each character outside the unreserved set becomes the percent-escapes of
 * its UTF-8 bytes, written with upper-case hexadecimal digits.
 */
module UriComponent {

  /** The characters `encodeURIComponent` leaves as they are. */
  predicate Unreserved(c: char)
  {
    ('A' <= c <= 'Z') || ('a' <= c <= 'z') || ('0' <= c <= '9')
    || c == '-' || c == '_' || c == '.' || c == '!' || c == '~' || c == '*'
    || c == '\'' || c == '(' || c == ')'
  }

  /** The characters an encoded component can contain. */
  predicate Encoded(c: char)
  {
    Unreserved(c) || c == '%'
  }

  predicate AllEncoded(s: string)
  {
    forall i :: 0 <= i < |s| ==> Encoded(s[i])
  }

  /** The UTF-8 encoding of one scalar value: one to four bytes. */
  function Utf8(c: char): (bytes: seq<nat>)
    ensures 1 <= |bytes| <= 4
    ensures forall i :: 0 <= i < |bytes| ==> bytes[i] < 256
    ensures |bytes| == 1 <==> (c as int) < 0x80
  {
    var cp := c as int;
    if cp < 0x80 then [cp]
    else if cp < 0x800 then [0xC0 + cp / 0x40, 0x80 + cp % 0x40]
    else if cp < 0x10000 then [0xE0 + cp / 0x1000, 0x80 + (cp / 0x40) % 0x40, 0x80 + cp % 0x40]
    else [0xF0 + cp / 0x40000, 0x80 + (cp / 0x1000) % 0x40, 0x80 + (cp / 0x40) % 0x40, 0x80 + cp % 0x40]
  }

  function HexDigit(n: nat): (c: char)
    requires n < 16
    ensures Unreserved(c)
  {
    "0123456789ABCDEF"[n]
  }

  /** `%XY` for one byte. */
  function PercentEscape(b: nat): (r: string)
    requires b < 256
    ensures |r| == 3 && r[0] == '%' && AllEncoded(r)
  {
    ['%', HexDigit(b / 16), HexDigit(b % 16)]
  }

  function EscapeBytes(bytes: seq<nat>): (r: string)
    requires forall i :: 0 <= i < |bytes| ==> bytes[i] < 256
    ensures |r| == 3 * |bytes| && AllEncoded(r)
  {
    if bytes == [] then [] else PercentEscape(bytes[0]) + EscapeBytes(bytes[1..])
  }

  function EncodeChar(c: char): (r: string)
    ensures AllEncoded(r)
    ensures Unreserved(c) ==> r == [c]
    ensures !Unreserved(c) ==> 3 <= |r| <= 12 && r[0] == '%'
  {
    if Unreserved(c) then [c] else EscapeBytes(Utf8(c))
  }

  /**
   * `encodeURIComponent(s)`: only unreserved characters and `%` remain, so
   * no `&`, `=`, `#`, `?`, `/` or space can come out of it, and a string of
   * unreserved characters is left unchanged.
   */
  function Encode(s: string): (r: string)
    ensures AllEncoded(r)
    ensures (forall i :: 0 <= i < |s| ==> Unreserved(s[i])) ==> r == s
    ensures |s| <= |r|
  {
    if s == [] then [] else EncodeChar(s[0]) + Encode(s[1..])
  }
}
