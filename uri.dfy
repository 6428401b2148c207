/**
 * decodeURIComponent, as ECMA-262 defines it (the abstract operation Decode
 * with an empty reserved set): `%XX` escapes are read as UTF-8 octets and a
 * malformed escape or octet sequence throws URIError.
 */
module Uri {
  import opened Wrappers

  /** The URIError that decodeURIComponent throws. */
  datatype UriError = UriError

  predicate IsHexDigit(c: char) {
    '0' <= c <= '9' || 'a' <= c <= 'f' || 'A' <= c <= 'F'
  }

  function HexValue(c: char): (v: nat)
    requires IsHexDigit(c)
    ensures v < 16
  {
    if '0' <= c <= '9' then c as int - '0' as int
    else if 'a' <= c <= 'f' then c as int - 'a' as int + 10
    else c as int - 'A' as int + 10
  }

  /** The upper-case hexadecimal digit for `d`; HexValue reads it back. */
  function HexDigit(d: nat): (c: char)
    requires d < 16
    ensures IsHexDigit(c) && HexValue(c) == d
  {
    if d < 10 then ('0' as int + d) as char else ('A' as int + d - 10) as char
  }

  /** The octet written by the two hexadecimal digits `hi` and `lo`. */
  function Octet(hi: char, lo: char): (b: nat)
    requires IsHexDigit(hi) && IsHexDigit(lo)
    ensures b < 256
  {
    16 * HexValue(hi) + HexValue(lo)
  }

  /** `s` starts with a well-formed escape `%XX`. */
  predicate StartsWithEscape(s: string) {
    |s| >= 3 && s[0] == '%' && IsHexDigit(s[1]) && IsHexDigit(s[2])
  }

  /** The number of leading one bits of octet `b` (5 stands for "more than four"). */
  function LeadingOnes(b: nat): (n: nat)
    requires b < 256
    ensures n <= 5
  {
    if b < 0x80 then 0
    else if b < 0xC0 then 1
    else if b < 0xE0 then 2
    else if b < 0xF0 then 3
    else if b < 0xF8 then 4
    else 5
  }

  /** The code point bits carried by a lead octet of an `n`-octet sequence. */
  function LeadBits(b: nat, n: nat): nat
    requires 2 <= n <= 4
  {
    b % (if n == 2 then 32 else if n == 3 then 16 else 8)
  }

  /** Appends the six payload bits of each continuation octet to `acc`. */
  function Accumulate(acc: nat, tail: seq<nat>): nat
    decreases |tail|
  {
    if |tail| == 0 then acc else Accumulate(acc * 64 + tail[0] % 64, tail[1..])
  }

  /**
   * An `n`-octet sequence decoded to `cp` is valid UTF-8: not overlong, not a
   * surrogate, not above U+10FFFF.
   */
  predicate IsUtf8CodePoint(n: nat, cp: nat) {
    && cp >= (if n == 2 then 0x80 else if n == 3 then 0x800 else 0x10000)
    && cp <= 0x10FFFF
    && !(0xD800 <= cp <= 0xDFFF)
  }

  /**
   * Reads `count` continuation escapes from the front of `s`; each must be a
   * well-formed escape whose octet has the form 10xxxxxx.
   */
  function Continuation(s: string, count: nat): (r: Result<seq<nat>, UriError>)
    ensures r.Ok? ==> |r.value| == count
  {
    if count == 0 then Ok([])
    else if !StartsWithEscape(s) then Err(UriError)
    else
      var b := Octet(s[1], s[2]);
      if b < 0x80 || b >= 0xC0 then Err(UriError)
      else
        match Continuation(s[3..], count - 1)
        case Err(e) => Err(e)
        case Ok(bs) => Ok([b] + bs)
  }

  /**
   * Decodes the escape at the front of `s` (which starts with `%`): the
   * character it stands for and the number of characters of `s` it used.
   */
  function DecodeEscape(s: string): (r: Result<(char, nat), UriError>)
    requires |s| > 0 && s[0] == '%'
    ensures r.Ok? ==> 0 < r.value.1 <= |s|
  {
    if 2 >= |s| || !IsHexDigit(s[1]) || !IsHexDigit(s[2]) then Err(UriError)
    else
      var b := Octet(s[1], s[2]);
      var n := LeadingOnes(b);
      if n == 0 then Ok((b as char, 3))
      else if n == 1 || n > 4 then Err(UriError)
      else if 2 + 3 * (n - 1) >= |s| then Err(UriError)
      else
        match Continuation(s[3..], n - 1)
        case Err(e) => Err(e)
        case Ok(tail) =>
          var cp := Accumulate(LeadBits(b, n), tail);
          if IsUtf8CodePoint(n, cp) then Ok((cp as char, 3 * n)) else Err(UriError)
  }

  /**
   * decodeURIComponent(s). Text without any `%` comes back unchanged.
   */
  function Decode(s: string): (r: Result<string, UriError>)
    ensures '%' !in s ==> r == Ok(s)
    decreases |s|
  {
    if |s| == 0 then Ok("")
    else if s[0] != '%' then
      assert '%' !in s ==> '%' !in s[1..];
      match Decode(s[1..])
      case Err(e) => Err(e)
      case Ok(rest) =>
        assert s == [s[0]] + s[1..];
        Ok([s[0]] + rest)
    else
      match DecodeEscape(s)
      case Err(e) => Err(e)
      case Ok((c, used)) =>
        match Decode(s[used..])
        case Err(e) => Err(e)
        case Ok(rest) => Ok([c] + rest)
  }

  /** Every character of `s` is ASCII. */
  predicate IsAscii(s: string) {
    forall i | 0 <= i < |s| :: s[i] as int < 0x80
  }

  /** Writes every character of an ASCII string as its `%XX` escape. */
  function EscapeAll(s: string): (e: string)
    requires IsAscii(s)
    ensures |e| == 3 * |s|
  {
    if |s| == 0 then ""
    else
      var b := s[0] as int;
      ['%', HexDigit(b / 16), HexDigit(b % 16)] + EscapeAll(s[1..])
  }

  /** decodeURIComponent reads back every escaped ASCII string. */
  lemma {:induction false} DecodeEscapeAll(s: string)
    requires IsAscii(s)
    ensures Decode(EscapeAll(s)) == Ok(s)
  {
    if |s| > 0 {
      var e := EscapeAll(s);
      var b := s[0] as int;
      assert e[1] == HexDigit(b / 16) && e[2] == HexDigit(b % 16);
      assert Octet(e[1], e[2]) == b;
      assert (b as char) == s[0];
      assert DecodeEscape(e) == Ok((s[0], 3));
      assert e[3..] == EscapeAll(s[1..]);
      DecodeEscapeAll(s[1..]);
      assert s == [s[0]] + s[1..];
    }
  }
}
