/**
  PHP's urlencode(), used to put a layer name into the TileJSON URL templates,
  and its inverse urldecode(). PHP strings are bytes, so both work on strings
  whose characters are below 256.
 */
module UrlEncoding {

  predicate IsByteString(s: string)
  {
    forall i :: 0 <= i < |s| ==> s[i] as int < 256
  }

  /** The bytes urlencode() leaves alone: letters, digits, '-', '_' and '.'. */
  predicate IsUnreserved(c: char)
  {
    'a' <= c <= 'z' || 'A' <= c <= 'Z' || '0' <= c <= '9' || c == '-' || c == '_' || c == '.'
  }

  /** Upper-case hexadecimal digit, as urlencode() writes it. */
  function HexDigit(d: int): (c: char)
    requires 0 <= d < 16
    ensures IsUnreserved(c) && IsHex(c) && HexValue(c) == d
  {
    if d < 10 then ('0' as int + d) as char else ('A' as int + d - 10) as char
  }

  predicate IsHex(c: char)
  {
    '0' <= c <= '9' || 'A' <= c <= 'F' || 'a' <= c <= 'f'
  }

  function HexValue(c: char): int
    requires IsHex(c)
  {
    if '0' <= c <= '9' then c as int - '0' as int
    else if 'A' <= c <= 'F' then c as int - 'A' as int + 10
    else c as int - 'a' as int + 10
  }

  /** One byte: kept, a space as '+', anything else as %XX. */
  function EncodeByte(c: char): (r: string)
    requires c as int < 256
    ensures UrlDecode(r) == [c]
  {
    if IsUnreserved(c) then [c]
    else if c == ' ' then "+"
    else ['%', HexDigit(c as int / 16), HexDigit(c as int % 16)]
  }

  function UrlEncode(s: string): (r: string)
    requires IsByteString(s)
    ensures forall i :: 0 <= i < |r| ==> IsUnreserved(r[i]) || r[i] == '+' || r[i] == '%'
  {
    if s == [] then [] else EncodeByte(s[0]) + UrlEncode(s[1..])
  }

  /** urldecode(): '+' is a space, %XX with two hex digits is that byte, anything else is itself. */
  function UrlDecode(s: string): string
  {
    if s == [] then []
    else if s[0] == '+' then " " + UrlDecode(s[1..])
    else if s[0] == '%' && |s| >= 3 && IsHex(s[1]) && IsHex(s[2]) then
      [(HexValue(s[1]) * 16 + HexValue(s[2])) as char] + UrlDecode(s[3..])
    else [s[0]] + UrlDecode(s[1..])
  }

  /** Decoding one encoded byte does not look past it. */
  lemma DecodeAfterByte(c: char, rest: string)
    requires c as int < 256
    ensures UrlDecode(EncodeByte(c) + rest) == [c] + UrlDecode(rest)
  {
    var e := EncodeByte(c);
    if IsUnreserved(c) || c == ' ' {
      assert (e + rest)[1..] == rest;
    } else {
      assert (e + rest)[3..] == rest;
    }
  }

  /** urldecode() undoes urlencode(): the layer name can be read back from the URL. */
  lemma {:induction false} UrlDecodeEncode(s: string)
    requires IsByteString(s)
    ensures UrlDecode(UrlEncode(s)) == s
  {
    if s != [] {
      UrlDecodeEncode(s[1..]);
      DecodeAfterByte(s[0], UrlEncode(s[1..]));
    }
  }

  /** A name made only of letters, digits, '-', '_' and '.' appears in the URL as it is. */
  lemma {:induction false} UrlEncodeUnreserved(s: string)
    requires forall i :: 0 <= i < |s| ==> IsUnreserved(s[i])
    ensures IsByteString(s) && UrlEncode(s) == s
  {
    if s != [] {
      UrlEncodeUnreserved(s[1..]);
    }
  }
}
