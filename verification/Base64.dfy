/**
 * The base 64 encoding of section 4 of RFC 4648 (alphabet A-Z a-z 0-9 + /,
 * '=' padding), which the browser's `btoa` applies to a binary string.
 */
module Base64 {
  import opened Wrappers

  type byte = x: int | 0 <= x < 256

  /** The character for a 6-bit group (table 1 of the RFC). */
  function Sextet(i: int): (c: char)
    requires 0 <= i < 64
  {
    if i < 26 then ('A' as int + i) as char
    else if i < 52 then ('a' as int + (i - 26)) as char
    else if i < 62 then ('0' as int + (i - 52)) as char
    else if i == 62 then '+'
    else '/'
  }

  /** The 6-bit group a character of the alphabet stands for; None for any other character. */
  function SextetValue(c: char): (r: Option<int>)
    ensures r.Some? ==> 0 <= r.value < 64 && Sextet(r.value) == c
  {
    if 'A' <= c <= 'Z' then Some(c as int - 'A' as int)
    else if 'a' <= c <= 'z' then Some(c as int - 'a' as int + 26)
    else if '0' <= c <= '9' then Some(c as int - '0' as int + 52)
    else if c == '+' then Some(62)
    else if c == '/' then Some(63)
    else None
  }

  predicate InAlphabet(c: char) {
    SextetValue(c).Some?
  }

  /** Three bytes as four characters: the 24 bits cut into four 6-bit groups. */
  function EncodeGroup(a: byte, b: byte, c: byte): string {
    [Sextet(a / 4), Sextet(a % 4 * 16 + b / 16), Sextet(b % 16 * 4 + c / 64), Sextet(c % 64)]
  }

  /** A final single byte: two characters and "==". */
  function EncodeTail1(a: byte): string {
    [Sextet(a / 4), Sextet(a % 4 * 16), '=', '=']
  }

  /** A final pair of bytes: three characters and "=". */
  function EncodeTail2(a: byte, b: byte): string {
    [Sextet(a / 4), Sextet(a % 4 * 16 + b / 16), Sextet(b % 16 * 4), '=']
  }

  /** The encoding of a byte string, groups of three bytes taken from the front. */
  function Encode(data: seq<byte>): string
    decreases |data|
  {
    if |data| == 0 then ""
    else if |data| == 1 then EncodeTail1(data[0])
    else if |data| == 2 then EncodeTail2(data[0], data[1])
    else EncodeGroup(data[0], data[1], data[2]) + Encode(data[3..])
  }

  /** Four characters back to their bytes: 3, or fewer when the quadruple is padded. */
  function DecodeQuad(q: string): (r: Option<seq<byte>>)
    requires |q| == 4
  {
    match (SextetValue(q[0]), SextetValue(q[1]), SextetValue(q[2]), SextetValue(q[3]))
    case (Some(w), Some(x), Some(y), Some(z)) =>
      Some([w * 4 + x / 16, x % 16 * 16 + y / 4, y % 4 * 64 + z])
    case (Some(w), Some(x), Some(y), None) =>
      if q[3] == '=' then Some([w * 4 + x / 16, x % 16 * 16 + y / 4]) else None
    case (Some(w), Some(x), None, None) =>
      if q[2] == '=' && q[3] == '=' then Some([w * 4 + x / 16]) else None
    case _ => None
  }

  /** Decoding: quadruples from the front; padding only in the last one. */
  function Decode(s: string): Option<seq<byte>>
    decreases |s|
  {
    if |s| == 0 then Some([])
    else if |s| < 4 then None
    else
      match DecodeQuad(s[..4])
      case None => None
      case Some(head) =>
        if |s| == 4 then Some(head)
        else if |head| < 3 then None
        else
          match Decode(s[4..])
          case None => None
          case Some(rest) => Some(head + rest)
  }

  lemma SextetInverse(i: int)
    requires 0 <= i < 64
    ensures SextetValue(Sextet(i)) == Some(i)
  {
  }

  lemma Split16(q: int, r: int)
    requires 0 <= r < 16
    ensures (q * 16 + r) / 16 == q && (q * 16 + r) % 16 == r
  {
  }

  lemma Split4(q: int, r: int)
    requires 0 <= r < 4
    ensures (q * 4 + r) / 4 == q && (q * 4 + r) % 4 == r
  {
  }

  lemma GroupRoundTrip(a: byte, b: byte, c: byte)
    ensures DecodeQuad(EncodeGroup(a, b, c)) == Some([a, b, c])
  {
    var w, x, y, z := a / 4, a % 4 * 16 + b / 16, b % 16 * 4 + c / 64, c % 64;
    SextetInverse(w); SextetInverse(x); SextetInverse(y); SextetInverse(z);
    Split16(a % 4, b / 16);
    Split4(b % 16, c / 64);
  }

  lemma Tail1RoundTrip(a: byte)
    ensures DecodeQuad(EncodeTail1(a)) == Some([a])
  {
    SextetInverse(a / 4); SextetInverse(a % 4 * 16);
    Split16(a % 4, 0);
  }

  lemma Tail2RoundTrip(a: byte, b: byte)
    ensures DecodeQuad(EncodeTail2(a, b)) == Some([a, b])
  {
    SextetInverse(a / 4); SextetInverse(a % 4 * 16 + b / 16); SextetInverse(b % 16 * 4);
    Split16(a % 4, b / 16);
    Split4(b % 16, 0);
  }

  /** Every encoding is 4 characters for each started group of 3 bytes. */
  lemma {:induction false} EncodeLength(data: seq<byte>)
    ensures |Encode(data)| == 4 * ((|data| + 2) / 3)
    decreases |data|
  {
    if |data| > 2 {
      EncodeLength(data[3..]);
    }
  }

  lemma DecodeOneQuad(q: string)
    requires |q| == 4
    ensures Decode(q) == DecodeQuad(q)
  {
    assert q[..4] == q;
  }

  lemma DecodeCons(q: string, h: seq<byte>, rest: string, r: seq<byte>)
    requires |q| == 4 && |rest| > 0
    requires DecodeQuad(q) == Some(h) && |h| == 3
    requires Decode(rest) == Some(r)
    ensures Decode(q + rest) == Some(h + r)
  {
    var s := q + rest;
    assert s[..4] == q;
    assert s[4..] == rest;
  }

  /**
   * Decoding undoes encoding: the encoding loses nothing, and the base 64 text
   * determines the bytes it was made from.
   */
  lemma {:induction false} DecodeEncode(data: seq<byte>)
    ensures Decode(Encode(data)) == Some(data)
    decreases |data|
  {
    if |data| == 1 {
      DecodeEncode1(data);
    } else if |data| == 2 {
      DecodeEncode2(data);
    } else if |data| == 3 {
      DecodeEncode3(data);
    } else if |data| > 3 {
      DecodeEncode(data[3..]);
      DecodeEncodeStep(data);
    }
  }

  lemma DecodeEncode1(data: seq<byte>)
    requires |data| == 1
    ensures Decode(Encode(data)) == Some(data)
  {
    Tail1RoundTrip(data[0]);
    assert Encode(data) == EncodeTail1(data[0]);
    DecodeOneQuad(EncodeTail1(data[0]));
    assert data == [data[0]];
  }

  lemma DecodeEncode2(data: seq<byte>)
    requires |data| == 2
    ensures Decode(Encode(data)) == Some(data)
  {
    Tail2RoundTrip(data[0], data[1]);
    assert Encode(data) == EncodeTail2(data[0], data[1]);
    DecodeOneQuad(EncodeTail2(data[0], data[1]));
    assert data == [data[0], data[1]];
  }

  lemma DecodeEncode3(data: seq<byte>)
    requires |data| == 3
    ensures Decode(Encode(data)) == Some(data)
  {
    var g := EncodeGroup(data[0], data[1], data[2]);
    GroupRoundTrip(data[0], data[1], data[2]);
    assert Encode(data) == g + Encode([]);
    assert g + Encode([]) == g;
    DecodeOneQuad(g);
    assert data == [data[0], data[1], data[2]];
  }

  lemma EncodeCons(data: seq<byte>)
    requires |data| > 3
    ensures Encode(data) == EncodeGroup(data[0], data[1], data[2]) + Encode(data[3..])
  {
  }

  lemma DecodeEncodeStep(data: seq<byte>)
    requires |data| > 3
    requires Decode(Encode(data[3..])) == Some(data[3..])
    ensures Decode(Encode(data)) == Some(data)
  {
    var tail := data[3..];
    var g, h := EncodeGroup(data[0], data[1], data[2]), [data[0], data[1], data[2]];
    assert Encode(data) == g + Encode(tail) by {
      EncodeCons(data);
    }
    assert Decode(g + Encode(tail)) == Some(h + tail) by {
      GroupThenRest(data[0], data[1], data[2], tail);
    }
    SplitHead(data);
  }

  lemma SplitHead(data: seq<byte>)
    requires |data| > 3
    ensures [data[0], data[1], data[2]] + data[3..] == data
  {
  }

  lemma GroupThenRest(a: byte, b: byte, c: byte, tail: seq<byte>)
    requires |tail| > 0
    requires Decode(Encode(tail)) == Some(tail)
    ensures Decode(EncodeGroup(a, b, c) + Encode(tail)) == Some([a, b, c] + tail)
  {
    var q, rest := EncodeGroup(a, b, c), Encode(tail);
    assert |q| == 4 && DecodeQuad(q) == Some([a, b, c]) by {
      GroupRoundTrip(a, b, c);
    }
    assert |rest| > 0 by {
      EncodeEmpty(tail);
    }
    DecodeCons(q, [a, b, c], rest, tail);
  }

  /** Base 64 text of bytes is empty exactly when there were no bytes. */
  lemma EncodeEmpty(data: seq<byte>)
    ensures Encode(data) == "" <==> data == []
  {
    EncodeLength(data);
  }

  /** `btoa`: a string whose characters are all below 256 is encoded as those bytes; otherwise it throws. */
  function Btoa(binary: string): (r: Result<string, string>)
    ensures r.Ok? <==> forall i | 0 <= i < |binary| :: binary[i] as int < 256
  {
    if forall i | 0 <= i < |binary| :: binary[i] as int < 256 then
      Ok(Encode(seq(|binary|, i requires 0 <= i < |binary| => binary[i] as int as byte)))
    else
      Err("InvalidCharacterError")
  }
}
