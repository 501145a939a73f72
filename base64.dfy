/**
 * Bytes and the standard base64 alphabet of RFC 4648 (section 4), with `=` padding:
 * what `Buffer.prototype.toString("base64")` produces for an uploaded image.
 */
module Base64 {
  import opened Common

  newtype byte = x: int | 0 <= x < 256

  /** The character for a six-bit value: A-Z, a-z, 0-9, '+', '/'. */
  function Sextet(k: int): (c: char)
    requires 0 <= k < 64
  {
    if k < 26 then ('A' as int + k) as char
    else if k < 52 then ('a' as int + k - 26) as char
    else if k < 62 then ('0' as int + k - 52) as char
    else if k == 62 then '+'
    else '/'
  }

  /** The six-bit value of an alphabet character, or -1 for any other character. */
  function SextetValue(c: char): (k: int)
    ensures -1 <= k < 64
    ensures k >= 0 ==> Sextet(k) == c
  {
    if 'A' <= c <= 'Z' then c as int - 'A' as int
    else if 'a' <= c <= 'z' then c as int - 'a' as int + 26
    else if '0' <= c <= '9' then c as int - '0' as int + 52
    else if c == '+' then 62
    else if c == '/' then 63
    else -1
  }

  predicate InAlphabet(c: char) {
    SextetValue(c) >= 0
  }

  lemma SextetValueOfSextet(k: int)
    requires 0 <= k < 64
    ensures SextetValue(Sextet(k)) == k
  {
  }

  function Encode(b: seq<byte>): (r: string)
    ensures |r| == 4 * ((|b| + 2) / 3)
    ensures forall i :: 0 <= i < |r| ==> InAlphabet(r[i]) || r[i] == '='
    decreases |b|
  {
    if |b| == 0 then ""
    else
      var b0 := b[0] as int;
      if |b| == 1 then
        [Sextet(b0 / 4), Sextet((b0 % 4) * 16), '=', '=']
      else
        var b1 := b[1] as int;
        if |b| == 2 then
          [Sextet(b0 / 4), Sextet((b0 % 4) * 16 + b1 / 16), Sextet((b1 % 16) * 4), '=']
        else
          var b2 := b[2] as int;
          [Sextet(b0 / 4), Sextet((b0 % 4) * 16 + b1 / 16), Sextet((b1 % 16) * 4 + b2 / 64), Sextet(b2 % 64)]
          + Encode(b[3..])
  }

  /** Decoding of padded base64 text; None when the text is not of that form. */
  function Decode(s: string): Option<seq<byte>>
    decreases |s|
  {
    if s == [] then Some([])
    else if |s| < 4 then None
    else
      var i0 := SextetValue(s[0]);
      var i1 := SextetValue(s[1]);
      var i2 := SextetValue(s[2]);
      var i3 := SextetValue(s[3]);
      if i0 < 0 || i1 < 0 then None
      else if s[2] == '=' && s[3] == '=' && |s| == 4 then
        Some([(i0 * 4 + i1 / 16) as byte])
      else if i2 < 0 then None
      else if s[3] == '=' && |s| == 4 then
        Some([(i0 * 4 + i1 / 16) as byte, ((i1 % 16) * 16 + i2 / 4) as byte])
      else if i3 < 0 then None
      else
        match Decode(s[4..])
        case None => None
        case Some(rest) =>
          Some([(i0 * 4 + i1 / 16) as byte, ((i1 % 16) * 16 + i2 / 4) as byte, ((i2 % 4) * 64 + i3) as byte] + rest)
  }

  /** The bit regrouping of one 3-byte group into four sextets undoes itself. */
  lemma Regroup(x: int, y: int, m: int)
    requires 0 <= x < 256 && 0 <= y < 256 && (m == 4 || m == 16)
    ensures (x / m) * m + x % m == x
    ensures m == 4 ==> ((x % 4) * 16 + y / 16) / 16 == x % 4 && ((x % 4) * 16 + y / 16) % 16 == y / 16
    ensures m == 16 ==> ((x % 16) * 4 + y / 64) / 4 == x % 16 && ((x % 16) * 4 + y / 64) % 4 == y / 64
  {
  }

  lemma DecodeOne(b0: byte)
    ensures Decode(Encode([b0])) == Some([b0])
  {
    var x := b0 as int;
    SextetValueOfSextet(x / 4);
    SextetValueOfSextet((x % 4) * 16);
    Regroup(x, 0, 4);
  }

  lemma DecodeTwo(b0: byte, b1: byte)
    ensures Decode(Encode([b0, b1])) == Some([b0, b1])
  {
    var x, y := b0 as int, b1 as int;
    SextetValueOfSextet(x / 4);
    SextetValueOfSextet((x % 4) * 16 + y / 16);
    SextetValueOfSextet((y % 16) * 4);
    Regroup(x, y, 4);
    Regroup(y, 0, 16);
  }

  lemma DecodeGroup(b0: byte, b1: byte, b2: byte, tail: string)
    ensures var e := [Sextet(b0 as int / 4), Sextet((b0 as int % 4) * 16 + b1 as int / 16),
                      Sextet((b1 as int % 16) * 4 + b2 as int / 64), Sextet(b2 as int % 64)] + tail;
            Decode(e) == (match Decode(tail) case None => None case Some(rest) => Some([b0, b1, b2] + rest))
  {
    var x, y, z := b0 as int, b1 as int, b2 as int;
    SextetValueOfSextet(x / 4);
    SextetValueOfSextet((x % 4) * 16 + y / 16);
    SextetValueOfSextet((y % 16) * 4 + z / 64);
    SextetValueOfSextet(z % 64);
    Regroup(x, y, 4);
    Regroup(y, z, 16);
    Regroup(z, 0, 16);
    var e := [Sextet(x / 4), Sextet((x % 4) * 16 + y / 16), Sextet((y % 16) * 4 + z / 64), Sextet(z % 64)] + tail;
    assert e[4..] == tail;
  }

  /** Encoding three or more bytes writes their four characters before the rest. */
  lemma EncodeGroup(b: seq<byte>)
    requires |b| >= 3
    ensures Encode(b) == [Sextet(b[0] as int / 4), Sextet((b[0] as int % 4) * 16 + b[1] as int / 16),
                          Sextet((b[1] as int % 16) * 4 + b[2] as int / 64), Sextet(b[2] as int % 64)] + Encode(b[3..])
  {
  }

  /** A sequence of three or more elements is its first three followed by the rest. */
  lemma SplitThree(b: seq<byte>)
    requires |b| >= 3
    ensures [b[0], b[1], b[2]] + b[3..] == b
  {
  }

  /** The round trip for the last, padded group. */
  lemma DecodeEncodeShort(b: seq<byte>)
    requires 1 <= |b| <= 2
    ensures Decode(Encode(b)) == Some(b)
  {
    if |b| == 1 {
      assert b == [b[0]];
      DecodeOne(b[0]);
    } else {
      assert b == [b[0], b[1]];
      DecodeTwo(b[0], b[1]);
    }
  }

  /** Every byte string survives an encode / decode round trip. */
  lemma {:induction false} DecodeEncode(b: seq<byte>)
    ensures Decode(Encode(b)) == Some(b)
    decreases |b|
  {
    if 1 <= |b| <= 2 {
      DecodeEncodeShort(b);
    } else if |b| >= 3 {
      DecodeEncode(b[3..]);
      EncodeGroup(b);
      DecodeGroup(b[0], b[1], b[2], Encode(b[3..]));
      SplitThree(b);
    }
  }
}
