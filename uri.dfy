/**
 * `encodeURIComponent`: every character outside the unreserved set becomes the
 * percent-escaped bytes of its UTF-8 encoding, with upper-case hexadecimal
 * digits. Lone surrogates, on which it throws, are not Dafny characters.
 */
module Uri {

  /** The characters `encodeURIComponent` leaves as they are. */
  predicate IsUnreserved(c: char) {
    ('A' <= c <= 'Z') || ('a' <= c <= 'z') || ('0' <= c <= '9')
    || c == '-' || c == '_' || c == '.' || c == '!' || c == '~' || c == '*'
    || c == '\'' || c == '(' || c == ')'
  }

  predicate IsHexDigit(c: char) {
    ('0' <= c <= '9') || ('A' <= c <= 'F')
  }

  function HexDigit(d: nat): (c: char)
    requires d < 16
    ensures IsHexDigit(c)
  {
    if d < 10 then ('0' as int + d) as char else ('A' as int + d - 10) as char
  }

  /** `%XY` for one byte. */
  function Escape(b: nat): string
    requires b < 256
  {
    ['%', HexDigit(b / 16), HexDigit(b % 16)]
  }

  /** The UTF-8 bytes of one Unicode scalar value. */
  function Utf8(c: char): (bytes: seq<nat>)
    ensures 1 <= |bytes| <= 4
    ensures forall i :: 0 <= i < |bytes| ==> bytes[i] < 256
    ensures |bytes| == 1 <==> c as int < 0x80
  {
    var n := c as int;
    if n < 0x80 then [n]
    else if n < 0x800 then [0xC0 + n / 64, 0x80 + n % 64]
    else if n < 0x10000 then [0xE0 + n / 4096, 0x80 + (n / 64) % 64, 0x80 + n % 64]
    else [0xF0 + n / 262144, 0x80 + (n / 4096) % 64, 0x80 + (n / 64) % 64, 0x80 + n % 64]
  }

  function EscapeAll(bytes: seq<nat>): string
    requires forall i :: 0 <= i < |bytes| ==> bytes[i] < 256
  {
    if bytes == [] then "" else Escape(bytes[0]) + EscapeAll(bytes[1..])
  }

  function EncodeChar(c: char): string {
    if IsUnreserved(c) then [c] else EscapeAll(Utf8(c))
  }

  /** `encodeURIComponent(s)` */
  function EncodeComponent(s: string): string {
    if s == [] then "" else EncodeChar(s[0]) + EncodeComponent(s[1..])
  }

  /** A character an encoded component may hold. */
  predicate IsEncodedChar(c: char) {
    IsUnreserved(c) || c == '%' || IsHexDigit(c)
  }

  lemma {:induction false} EscapeAllChars(bytes: seq<nat>)
    requires forall i :: 0 <= i < |bytes| ==> bytes[i] < 256
    ensures forall i :: 0 <= i < |EscapeAll(bytes)| ==> IsEncodedChar(EscapeAll(bytes)[i])
  {
    if bytes != [] {
      EscapeAllChars(bytes[1..]);
    }
  }

  /**
   * An encoded component holds only unreserved characters, `%` and hexadecimal
   * digits, so none of the URL delimiters `/ ? & = # :` or `,`.
   */
  lemma {:induction false} EncodedChars(s: string)
    ensures forall i :: 0 <= i < |EncodeComponent(s)| ==> IsEncodedChar(EncodeComponent(s)[i])
  {
    if s != [] {
      EncodedChars(s[1..]);
      if !IsUnreserved(s[0]) {
        EscapeAllChars(Utf8(s[0]));
      }
    }
  }

  /** The delimiters of a URL's query never survive encoding. */
  lemma EncodedHasNoDelimiters(s: string)
    ensures '?' !in EncodeComponent(s) && '&' !in EncodeComponent(s)
    ensures '/' !in EncodeComponent(s) && ':' !in EncodeComponent(s)
  {
    EncodedChars(s);
  }

  /** A string of unreserved characters encodes to itself. */
  lemma {:induction false} EncodeUnreserved(s: string)
    requires forall i :: 0 <= i < |s| ==> IsUnreserved(s[i])
    ensures EncodeComponent(s) == s
  {
    if s != [] {
      EncodeUnreserved(s[1..]);
      assert s == [s[0]] + s[1..];
    }
  }
}
