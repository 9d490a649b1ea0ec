/**
 The payload encoding of section 4 of RFC 4648, and the size computation the
 bridge uses to avoid decoding audio it only relays.
 */
module Base64 {

  type Byte = n: int | 0 <= n < 256

  /** Position of a character in the alphabet, or -1. */
  function Value(c: char): (v: int)
    ensures -1 <= v < 64
  {
    if 'A' <= c <= 'Z' then (c - 'A') as int
    else if 'a' <= c <= 'z' then (c - 'a') as int + 26
    else if '0' <= c <= '9' then (c - '0') as int + 52
    else if c == '+' then 62
    else if c == '/' then 63
    else -1
  }

  function Letter(v: int): (c: char)
    requires 0 <= v < 64
    ensures Value(c) == v && c != '='
  {
    if v < 26 then 'A' + v as char
    else if v < 52 then 'a' + (v - 26) as char
    else if v < 62 then '0' + (v - 52) as char
    else if v == 62 then '+'
    else '/'
  }

  /** Whole quartets, with `=` only as the last one or two characters. */
  predicate Valid(p: string) {
    && |p| % 4 == 0
    && forall i | 0 <= i < |p| ::
         || Value(p[i]) >= 0
         || (p[i] == '=' && i == |p| - 1)
         || (p[i] == '=' && i == |p| - 2 && p[|p| - 1] == '=')
  }

  function Decode(p: string): seq<Byte>
    requires Valid(p)
  {
    if p == "" then []
    else
      var v0, v1 := Value(p[0]), Value(p[1]);
      var first := v0 * 4 + v1 / 16;
      if p[2] == '=' then [first]
      else
        var v2 := Value(p[2]);
        var second := v1 % 16 * 16 + v2 / 4;
        if p[3] == '=' then [first, second]
        else [first, second, v2 % 4 * 64 + Value(p[3])] + Decode(p[4..])
  }

  function Encode(bytes: seq<Byte>): string
  {
    if bytes == [] then ""
    else if |bytes| == 1 then
      [Letter(bytes[0] / 4), Letter(bytes[0] % 4 * 16), '=', '=']
    else if |bytes| == 2 then
      [Letter(bytes[0] / 4), Letter(bytes[0] % 4 * 16 + bytes[1] / 16), Letter(bytes[1] % 16 * 4), '=']
    else
      [Letter(bytes[0] / 4), Letter(bytes[0] % 4 * 16 + bytes[1] / 16),
       Letter(bytes[1] % 16 * 4 + bytes[2] / 64), Letter(bytes[2] % 64)] + Encode(bytes[3..])
  }

  /** How many of the last two characters are padding. */
  function Padding(p: string): nat {
    (if |p| > 0 && p[|p| - 1] == '=' then 1 else 0) + (if |p| > 1 && p[|p| - 2] == '=' then 1 else 0)
  }

  /** The decoded byte count, without decoding. */
  function DecodedSize(p: string): int {
    if p == "" then 0 else |p| / 4 * 3 - Padding(p)
  }

  /** The shortcut agrees with a real decode on every padded encoding. */
  lemma {:induction false} DecodedSizeExact(p: string)
    requires Valid(p)
    ensures DecodedSize(p) == |Decode(p)|
    ensures p != "" ==> DecodedSize(p) > 0
  {
    if |p| > 4 {
      assert p[2] != '=' && p[3] != '=';
      DecodedSizeExact(p[4..]);
      assert p[4..][|p| - 5] == p[|p| - 1] && p[4..][|p| - 6] == p[|p| - 2];
    }
  }

  lemma {:induction false} EncodeValid(bytes: seq<Byte>)
    ensures Valid(Encode(bytes))
  {
    if |bytes| >= 3 {
      EncodeValid(bytes[3..]);
      var quartet := Encode(bytes)[..4];
      assert Encode(bytes) == quartet + Encode(bytes[3..]);
      ValidBehind(quartet, Encode(bytes[3..]));
    }
  }

  lemma ValidBehind(quartet: string, rest: string)
    requires |quartet| == 4 && Valid(rest) && forall i | 0 <= i < 4 :: Value(quartet[i]) >= 0
    ensures Valid(quartet + rest)
  {
    var p := quartet + rest;
    forall i | 0 <= i < |p|
      ensures || Value(p[i]) >= 0
              || (p[i] == '=' && i == |p| - 1)
              || (p[i] == '=' && i == |p| - 2 && p[|p| - 1] == '=')
    {
      if i >= 4 {
        assert p[i] == rest[i - 4] && p[|p| - 1] == rest[|rest| - 1];
      }
    }
  }

  /** Three bytes survive being cut into four six-bit values and reassembled. */
  lemma SixBitGroups(b0: Byte, b1: Byte, b2: Byte)
    ensures b0 / 4 * 4 + (b0 % 4 * 16 + b1 / 16) / 16 == b0
    ensures (b0 % 4 * 16 + b1 / 16) % 16 * 16 + (b1 % 16 * 4 + b2 / 64) / 4 == b1
    ensures (b1 % 16 * 4 + b2 / 64) % 4 * 64 + b2 % 64 == b2
  {
  }

  lemma QuartetDecodes(b0: Byte, b1: Byte, b2: Byte, rest: string, p: string)
    requires Valid(rest) && Valid(p)
    requires p == [Letter(b0 / 4), Letter(b0 % 4 * 16 + b1 / 16),
                   Letter(b1 % 16 * 4 + b2 / 64), Letter(b2 % 64)] + rest
    ensures Decode(p) == [b0, b1, b2] + Decode(rest)
  {
    SixBitGroups(b0, b1, b2);
    QuartetFirst(p, rest, b0 / 4, b0 % 4 * 16 + b1 / 16, b1 % 16 * 4 + b2 / 64, b2 % 64);
  }

  lemma QuartetFirst(p: string, rest: string, v0: int, v1: int, v2: int, v3: int)
    requires 0 <= v0 < 64 && 0 <= v1 < 64 && 0 <= v2 < 64 && 0 <= v3 < 64
    requires p == [Letter(v0), Letter(v1), Letter(v2), Letter(v3)] + rest && Valid(p) && Valid(rest)
    ensures Decode(p) == [v0 * 4 + v1 / 16, v1 % 16 * 16 + v2 / 4, v2 % 4 * 64 + v3] + Decode(rest)
  {
    assert p[4..] == rest;
  }

  lemma PairDecodes(b0: Byte, b1: Byte)
    ensures var p := [Letter(b0 / 4), Letter(b0 % 4 * 16 + b1 / 16), Letter(b1 % 16 * 4), '='];
            Valid(p) ==> Decode(p) == [b0, b1]
  {
    SixBitGroups(b0, b1, 0);
  }

  lemma SingleDecodes(b0: Byte)
    ensures var p := [Letter(b0 / 4), Letter(b0 % 4 * 16), '=', '='];
            Valid(p) ==> Decode(p) == [b0]
  {
    SixBitGroups(b0, 0, 0);
  }

  /** Every byte string has a padded encoding, and decoding it gives the bytes back. */
  lemma {:induction false} RoundTrip(bytes: seq<Byte>)
    ensures Valid(Encode(bytes))
    ensures Decode(Encode(bytes)) == bytes
    decreases |bytes|, 1
  {
    EncodeValid(bytes);
    if |bytes| == 1 {
      SingleDecodes(bytes[0]);
      assert bytes == [bytes[0]];
    } else if |bytes| == 2 {
      PairDecodes(bytes[0], bytes[1]);
      assert bytes == [bytes[0], bytes[1]];
    } else if |bytes| >= 3 {
      LongRoundTrip(bytes);
    }
  }

  lemma {:induction false} LongRoundTrip(bytes: seq<Byte>)
    requires |bytes| >= 3 && Valid(Encode(bytes))
    ensures Decode(Encode(bytes)) == bytes
    decreases |bytes|, 0
  {
    var rest := Encode(bytes[3..]);
    RoundTrip(bytes[3..]);
    QuartetDecodes(bytes[0], bytes[1], bytes[2], rest, Encode(bytes));
    assert bytes == [bytes[0], bytes[1], bytes[2]] + bytes[3..];
  }

  /** Outside the padded encodings the shortcut can even be negative. */
  lemma StrayPaddingIsNegative()
    ensures DecodedSize("=") == -1 && !Valid("=")
  {
  }

  /** Vectors of section 10 of RFC 4648. */
  lemma KnownVectors()
    ensures Encode([102]) == "Zg==" && Encode([102, 111]) == "Zm8=" && Encode([102, 111, 111]) == "Zm9v"
  {
    assert [102, 111, 111][3..] == [];
  }

  /** The last two letters of the alphabet, in their order. */
  lemma LastLetters()
    ensures Encode([251, 255, 191]) == "+/+/"
  {
    assert [251, 255, 191][3..] == [];
  }
}
