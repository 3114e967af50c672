/** Percent-encoding (section 2.1 of RFC 3986) as Python's
    `urllib.parse.quote(s, safe="")` does it: the text is encoded as UTF-8 and
    every octet outside `A-Z a-z 0-9 _ . - ~` becomes `%XX` in upper-case hex. */
module Percent {
  import opened Wrappers
  import Utf8

  /** The octets quote never escapes. */
  predicate Unreserved(b: byte) {
    ('A' as int <= b <= 'Z' as int) || ('a' as int <= b <= 'z' as int) ||
    ('0' as int <= b <= '9' as int) || b == '_' as int || b == '.' as int ||
    b == '-' as int || b == '~' as int
  }

  function HexDigit(d: nat): (c: char)
    requires d < 16
    ensures HexValue(c) == Some(d)
  {
    if d < 10 then ('0' as int + d) as char else ('A' as int + (d - 10)) as char
  }

  /** The value of an upper-case hex digit. */
  function HexValue(c: char): (r: Option<nat>)
    ensures r.Some? ==> r.value < 16
  {
    if '0' <= c <= '9' then Some(c as int - '0' as int)
    else if 'A' <= c <= 'F' then Some(c as int - 'A' as int + 10)
    else None
  }

  /** One octet, escaped or kept. */
  function QuoteByte(b: byte): (r: string)
    ensures r == [b as char] || r == ['%', HexDigit(b / 16), HexDigit(b % 16)]
  {
    if Unreserved(b) then [b as char] else ['%', HexDigit(b / 16), HexDigit(b % 16)]
  }

  function QuoteBytes(bs: seq<byte>): string {
    if bs == [] then "" else QuoteByte(bs[0]) + QuoteBytes(bs[1..])
  }

  /** `urllib.parse.quote(s, safe="")`. */
  function Quote(s: string): string {
    QuoteBytes(Utf8.Encode(s))
  }

  /** A character that can appear in quoted text. */
  predicate QuotedChar(c: char) {
    c == '%' || (c as int < 256 && Unreserved(c as int)) || HexValue(c).Some?
  }

  /** Quoted text holds only unreserved characters, '%' and hex digits, so never
      a query separator such as '&' or '='. */
  lemma {:induction false} QuoteBytesAlphabet(bs: seq<byte>)
    ensures forall i :: 0 <= i < |QuoteBytes(bs)| ==> QuotedChar(QuoteBytes(bs)[i])
  {
    if bs != [] {
      QuoteBytesAlphabet(bs[1..]);
      var h := QuoteByte(bs[0]);
      var t := QuoteBytes(bs[1..]);
      assert QuoteBytes(bs) == h + t;
      assert forall i :: 0 <= i < |h| ==> QuotedChar(h[i]);
      forall i | 0 <= i < |h + t| ensures QuotedChar((h + t)[i]) {
        if i >= |h| {
          assert (h + t)[i] == t[i - |h|];
        }
      }
    }
  }

  lemma QuoteAlphabet(s: string)
    ensures forall i :: 0 <= i < |Quote(s)| ==> QuotedChar(Quote(s)[i])
    ensures forall i :: 0 <= i < |Quote(s)| ==> Quote(s)[i] != '&' && Quote(s)[i] != '='
  {
    QuoteBytesAlphabet(Utf8.Encode(s));
  }

  /** `urllib.parse.unquote_to_bytes` restricted to well-formed input: None when an
      escape is cut short or the text holds a character quote never emits. */
  function UnquoteBytes(t: string): Option<seq<byte>>
    decreases |t|
  {
    if t == [] then Some([])
    else if t[0] == '%' then
      if |t| < 3 then None
      else
        var hi := HexValue(t[1]);
        var lo := HexValue(t[2]);
        if hi.None? || lo.None? then None
        else
          match UnquoteBytes(t[3..])
          case None => None
          case Some(rest) => Some([hi.value * 16 + lo.value] + rest)
    else if t[0] as int < 256 && Unreserved(t[0] as int) then
      match UnquoteBytes(t[1..])
      case None => None
      case Some(rest) => Some([t[0] as int] + rest)
    else None
  }

  /** Unquoting undoes quoting, octet for octet. */
  lemma {:induction false} UnquoteQuoteBytes(bs: seq<byte>)
    ensures UnquoteBytes(QuoteBytes(bs)) == Some(bs)
  {
    if bs != [] {
      UnquoteQuoteBytes(bs[1..]);
      var b := bs[0];
      var h := QuoteByte(b);
      var t := QuoteBytes(bs[1..]);
      assert QuoteBytes(bs) == h + t;
      if Unreserved(b) {
        assert (h + t)[1..] == t;
      } else {
        assert (h + t)[3..] == t;
        assert b / 16 * 16 + b % 16 == b;
      }
      assert bs == [b] + bs[1..];
    }
  }

  /** So the quoted text determines the UTF-8 octets of the original. */
  lemma UnquoteQuote(s: string)
    ensures UnquoteBytes(Quote(s)) == Some(Utf8.Encode(s))
  {
    UnquoteQuoteBytes(Utf8.Encode(s));
  }
}
