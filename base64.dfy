/** Base64 with the standard alphabet and `=` padding (section 4 of RFC 4648),
    as Python's base64.b64encode produces it, with the decoder that inverts it. */
module Base64 {
  import opened Wrappers

  /** The character for a 6-bit value: A-Z, a-z, 0-9, '+', '/'. */
  function CharOf(i: nat): (c: char)
    requires i < 64
    ensures c != '='
  {
    if i < 26 then ('A' as int + i) as char
    else if i < 52 then ('a' as int + (i - 26)) as char
    else if i < 62 then ('0' as int + (i - 52)) as char
    else if i == 62 then '+'
    else '/'
  }

  /** The 6-bit value of an alphabet character; None for any other character. */
  function IndexOf(c: char): (r: Option<nat>)
    ensures r.Some? ==> r.value < 64
  {
    if 'A' <= c <= 'Z' then Some(c as int - 'A' as int)
    else if 'a' <= c <= 'z' then Some(c as int - 'a' as int + 26)
    else if '0' <= c <= '9' then Some(c as int - '0' as int + 52)
    else if c == '+' then Some(62)
    else if c == '/' then Some(63)
    else None
  }

  lemma IndexOfCharOf(i: nat)
    requires i < 64
    ensures IndexOf(CharOf(i)) == Some(i)
  {
  }

  predicate IsAlphabet(c: char) { IndexOf(c).Some? }

  /** Three octets become four characters. */
  function EncodeBlock(b0: byte, b1: byte, b2: byte): string {
    [CharOf(b0 / 4), CharOf((b0 % 4) * 16 + b1 / 16), CharOf((b1 % 16) * 4 + b2 / 64), CharOf(b2 % 64)]
  }

  /** `base64.b64encode(b).decode("ascii")`. */
  function Encode(b: seq<byte>): (r: string)
    ensures |r| == (|b| + 2) / 3 * 4
    decreases |b|
  {
    if |b| >= 3 then EncodeBlock(b[0], b[1], b[2]) + Encode(b[3..])
    else if |b| == 2 then [CharOf(b[0] / 4), CharOf((b[0] % 4) * 16 + b[1] / 16), CharOf((b[1] % 16) * 4), '=']
    else if |b| == 1 then [CharOf(b[0] / 4), CharOf((b[0] % 4) * 16), '=', '=']
    else []
  }

  /** Every character of an encoding is from the alphabet or is the padding '='. */
  lemma {:induction false} EncodeAlphabet(b: seq<byte>)
    ensures forall i :: 0 <= i < |Encode(b)| ==> IsAlphabet(Encode(b)[i]) || Encode(b)[i] == '='
    decreases |b|
  {
    if |b| >= 3 {
      EncodeAlphabet(b[3..]);
      var e := Encode(b);
      var blk := EncodeBlock(b[0], b[1], b[2]);
      assert e == blk + Encode(b[3..]);
      forall i | 0 <= i < |e| ensures IsAlphabet(e[i]) || e[i] == '=' {
        if i < 4 {
          assert e[i] == blk[i];
          IndexOfCharOf(if i == 0 then b[0] / 4 else if i == 1 then (b[0] % 4) * 16 + b[1] / 16
                        else if i == 2 then (b[1] % 16) * 4 + b[2] / 64 else b[2] % 64);
        } else {
          assert e[i] == Encode(b[3..])[i - 4];
        }
      }
    } else if |b| == 2 {
      IndexOfCharOf(b[0] / 4);
      IndexOfCharOf((b[0] % 4) * 16 + b[1] / 16);
      IndexOfCharOf((b[1] % 16) * 4);
    } else if |b| == 1 {
      IndexOfCharOf(b[0] / 4);
      IndexOfCharOf((b[0] % 4) * 16);
    }
  }

  /** Four characters back to one, two or three octets; padding only where allowed. */
  function DecodeQuad(q: string, last: bool): Option<seq<byte>>
    requires |q| == 4
  {
    var a := IndexOf(q[0]);
    var b := IndexOf(q[1]);
    if a.None? || b.None? then None
    else if last && q[2] == '=' && q[3] == '=' then
      Some([a.value * 4 + b.value / 16])
    else
      var c := IndexOf(q[2]);
      if c.None? then None
      else if last && q[3] == '=' then
        Some([a.value * 4 + b.value / 16, (b.value % 16) * 16 + c.value / 4])
      else
        var d := IndexOf(q[3]);
        if d.None? then None
        else Some([a.value * 4 + b.value / 16, (b.value % 16) * 16 + c.value / 4, (c.value % 4) * 64 + d.value])
  }

  /** Decoding of a padded Base64 text; None for anything that is not one. */
  function Decode(s: string): Option<seq<byte>>
    decreases |s|
  {
    if s == [] then Some([])
    else if |s| < 4 then None
    else
      match DecodeQuad(s[..4], |s| == 4)
      case None => None
      case Some(head) =>
        match Decode(s[4..])
        case None => None
        case Some(tail) => Some(head + tail)
  }

  lemma BlockRoundTrip(b0: byte, b1: byte, b2: byte, last: bool)
    ensures DecodeQuad(EncodeBlock(b0, b1, b2), last) == Some([b0, b1, b2])
  {
    var q := EncodeBlock(b0, b1, b2);
    var x, y, z, w := b0 / 4, (b0 % 4) * 16 + b1 / 16, (b1 % 16) * 4 + b2 / 64, b2 % 64;
    IndexOfCharOf(x);
    IndexOfCharOf(y);
    IndexOfCharOf(z);
    IndexOfCharOf(w);
    assert y / 16 == b0 % 4 && y % 16 == b1 / 16;
    assert z / 4 == b1 % 16 && z % 4 == b2 / 64;
  }

  /** The encoding of a final pair of octets decodes back to them. */
  lemma PairRoundTrip(b0: byte, b1: byte)
    ensures Decode(Encode([b0, b1])) == Some([b0, b1])
  {
    var e := Encode([b0, b1]);
    var x, y, z := b0 / 4, (b0 % 4) * 16 + b1 / 16, (b1 % 16) * 4;
    IndexOfCharOf(x);
    IndexOfCharOf(y);
    IndexOfCharOf(z);
    assert y / 16 == b0 % 4 && y % 16 == b1 / 16 && z / 4 == b1 % 16;
    assert e[..4] == e && e[4..] == [];
    assert DecodeQuad(e[..4], |e| == 4) == Some([b0, b1]);
    assert Decode(e[4..]) == Some([]);
    assert [b0, b1] + [] == [b0, b1];
  }

  /** The encoding of a final single octet decodes back to it. */
  lemma SingleRoundTrip(b0: byte)
    ensures Decode(Encode([b0])) == Some([b0])
  {
    var e := Encode([b0]);
    var x, y := b0 / 4, (b0 % 4) * 16;
    IndexOfCharOf(x);
    IndexOfCharOf(y);
    assert y / 16 == b0 % 4;
    assert e[..4] == e && e[4..] == [];
    assert DecodeQuad(e[..4], |e| == 4) == Some([b0]);
    assert Decode(e[4..]) == Some([]);
    assert [b0] + [] == [b0];
  }

  /** Decoding a quad followed by more text. */
  lemma DecodeCons(q: string, rest: string, head: seq<byte>, tail: seq<byte>)
    requires |q| == 4 && DecodeQuad(q, rest == []) == Some(head) && Decode(rest) == Some(tail)
    ensures Decode(q + rest) == Some(head + tail)
  {
    assert (q + rest)[..4] == q;
    assert (q + rest)[4..] == rest;
  }

  /** A full block in front of text that already decodes. */
  lemma BlockCase(b0: byte, b1: byte, b2: byte, rest: string, tail: seq<byte>)
    requires Decode(rest) == Some(tail)
    ensures Decode(EncodeBlock(b0, b1, b2) + rest) == Some([b0, b1, b2] + tail)
  {
    BlockRoundTrip(b0, b1, b2, rest == []);
    DecodeCons(EncodeBlock(b0, b1, b2), rest, [b0, b1, b2], tail);
  }

  /** Decoding an encoding gives the octets back. */
  lemma {:induction false} DecodeEncode(b: seq<byte>)
    ensures Decode(Encode(b)) == Some(b)
    decreases |b|
  {
    if |b| >= 3 {
      DecodeEncode(b[3..]);
      BlockCase(b[0], b[1], b[2], Encode(b[3..]), b[3..]);
      assert [b[0], b[1], b[2]] == b[..3];
      assert b[..3] + b[3..] == b;
    } else if |b| == 2 {
      PairRoundTrip(b[0], b[1]);
      assert b == [b[0], b[1]];
    } else if |b| == 1 {
      SingleRoundTrip(b[0]);
      assert b == [b[0]];
    }
  }
}
