/**
 The digest label: a 32-byte digest written in base64 (section 4 of RFC 4648) without padding (section 3.2),
 over an alphabet chosen so that the text is a legal Kubernetes label value, and wrapped in `A...A`.
 */
module LabelEncoding {

  type byte = x: int | 0 <= x < 256

  /** A SHA-256 digest. */
  type Digest = s: seq<byte> | |s| == 32 witness seq(32, _ => 0)

  type sextet = x: int | 0 <= x < 64

  /** The custom alphabet: the letters in keyboard order, then `_`, `.` and the decimal digits. */
  function Digit(v: sextet): char {
    match v
    case 0 => 'q' case 1 => 'w' case 2 => 'e' case 3 => 'r' case 4 => 't' case 5 => 'y' case 6 => 'u'
    case 7 => 'i' case 8 => 'o' case 9 => 'p' case 10 => 'a' case 11 => 's' case 12 => 'd' case 13 => 'f'
    case 14 => 'g' case 15 => 'h' case 16 => 'j' case 17 => 'k' case 18 => 'l' case 19 => 'z' case 20 => 'x'
    case 21 => 'c' case 22 => 'v' case 23 => 'b' case 24 => 'n' case 25 => 'm' case 26 => 'Q' case 27 => 'W'
    case 28 => 'E' case 29 => 'R' case 30 => 'T' case 31 => 'Y' case 32 => 'U' case 33 => 'I' case 34 => 'O'
    case 35 => 'P' case 36 => 'A' case 37 => 'S' case 38 => 'D' case 39 => 'F' case 40 => 'G' case 41 => 'H'
    case 42 => 'J' case 43 => 'K' case 44 => 'L' case 45 => 'Z' case 46 => 'X' case 47 => 'C' case 48 => 'V'
    case 49 => 'B' case 50 => 'N' case 51 => 'M' case 52 => '_' case 53 => '.' case 54 => '0' case 55 => '1'
    case 56 => '2' case 57 => '3' case 58 => '4' case 59 => '5' case 60 => '6' case 61 => '7' case 62 => '8'
    case 63 => '9'
  }

  /** The value of a digit, -1 for a character outside the alphabet. */
  function Value(c: char): int {
    match c
    case 'q' => 0 case 'w' => 1 case 'e' => 2 case 'r' => 3 case 't' => 4 case 'y' => 5 case 'u' => 6
    case 'i' => 7 case 'o' => 8 case 'p' => 9 case 'a' => 10 case 's' => 11 case 'd' => 12 case 'f' => 13
    case 'g' => 14 case 'h' => 15 case 'j' => 16 case 'k' => 17 case 'l' => 18 case 'z' => 19 case 'x' => 20
    case 'c' => 21 case 'v' => 22 case 'b' => 23 case 'n' => 24 case 'm' => 25 case 'Q' => 26 case 'W' => 27
    case 'E' => 28 case 'R' => 29 case 'T' => 30 case 'Y' => 31 case 'U' => 32 case 'I' => 33 case 'O' => 34
    case 'P' => 35 case 'A' => 36 case 'S' => 37 case 'D' => 38 case 'F' => 39 case 'G' => 40 case 'H' => 41
    case 'J' => 42 case 'K' => 43 case 'L' => 44 case 'Z' => 45 case 'X' => 46 case 'C' => 47 case 'V' => 48
    case 'B' => 49 case 'N' => 50 case 'M' => 51 case '_' => 52 case '.' => 53 case '0' => 54 case '1' => 55
    case '2' => 56 case '3' => 57 case '4' => 58 case '5' => 59 case '6' => 60 case '7' => 61 case '8' => 62
    case '9' => 63 case _ => -1
  }

  lemma ValueOfDigit(v: sextet)
    ensures Value(Digit(v)) == v
  {
  }

  /** Base64 groups of three bytes; a group of one or two bytes at the end takes two or three digits. */
  function Sextets(b: seq<byte>): (v: seq<sextet>)
    ensures |v| == |b| / 3 * 4 + (if |b| % 3 == 0 then 0 else |b| % 3 + 1)
  {
    if |b| == 0 then []
    else if |b| == 1 then [b[0] / 4, b[0] % 4 * 16]
    else if |b| == 2 then [b[0] / 4, b[0] % 4 * 16 + b[1] / 16, b[1] % 16 * 4]
    else Group(b[0], b[1], b[2]) + Sextets(b[3..])
  }

  /** The four digits of three bytes. */
  function Group(b0: byte, b1: byte, b2: byte): seq<sextet> {
    [b0 / 4, b0 % 4 * 16 + b1 / 16, b1 % 16 * 4 + b2 / 64, b2 % 64]
  }

  function Encode(b: seq<byte>): string {
    var v := Sextets(b);
    seq(|v|, i requires 0 <= i < |v| => Digit(v[i]))
  }

  /** The inverse reading: four digits give three bytes, the bits left over in a short group are dropped. */
  function Bytes(v: seq<int>): seq<int> {
    if |v| < 2 then []
    else if |v| == 2 then [v[0] * 4 + v[1] / 16]
    else if |v| == 3 then [v[0] * 4 + v[1] / 16, v[1] % 16 * 16 + v[2] / 4]
    else [v[0] * 4 + v[1] / 16, v[1] % 16 * 16 + v[2] / 4, v[2] % 4 * 64 + v[3]] + Bytes(v[4..])
  }

  function Decode(s: string): seq<int> {
    Bytes(seq(|s|, i requires 0 <= i < |s| => Value(s[i])))
  }

  predicate Alphanumeric(c: char) {
    'a' <= c <= 'z' || 'A' <= c <= 'Z' || '0' <= c <= '9'
  }

  /** Kubernetes label values: at most 63 characters of `[-A-Za-z0-9_.]`, an alphanumeric one at both ends. */
  ghost predicate IsLabelValue(s: string) {
    && |s| <= 63
    && (forall i :: 0 <= i < |s| ==> Alphanumeric(s[i]) || s[i] == '-' || s[i] == '_' || s[i] == '.')
    && (|s| > 0 ==> Alphanumeric(s[0]) && Alphanumeric(s[|s| - 1]))
  }

  /** The text `getWebServerHash` and `getWebImageStreamHash` put in a label. */
  function DigestLabel(d: Digest): (s: string) {
    "A" + Encode(d) + "A"
  }

  lemma EncodeIsLegal(b: seq<byte>)
    ensures forall i :: 0 <= i < |Encode(b)| ==>
                          Alphanumeric(Encode(b)[i]) || Encode(b)[i] == '_' || Encode(b)[i] == '.'
  {
  }

  lemma GroupRoundTrip(b0: byte, b1: byte, b2: byte)
    ensures b0 / 4 * 4 + (b0 % 4 * 16 + b1 / 16) / 16 == b0
    ensures (b0 % 4 * 16 + b1 / 16) % 16 * 16 + (b1 % 16 * 4 + b2 / 64) / 4 == b1
    ensures (b1 % 16 * 4 + b2 / 64) % 4 * 64 + b2 % 64 == b2
  {
  }

  lemma BytesBehindGroup(b0: byte, b1: byte, b2: byte, rest: seq<sextet>)
    ensures Bytes(Group(b0, b1, b2) + rest) == [b0, b1, b2] + Bytes(rest)
  {
    var v := Group(b0, b1, b2) + rest;
    GroupRoundTrip(b0, b1, b2);
    assert v[4..] == rest;
  }

  lemma {:induction false} BytesInvertSextets(b: seq<byte>)
    ensures Bytes(Sextets(b)) == b
  {
    if |b| == 1 {
      GroupRoundTrip(b[0], 0, 0);
    } else if |b| == 2 {
      GroupRoundTrip(b[0], b[1], 0);
    } else if |b| >= 3 {
      BytesBehindGroup(b[0], b[1], b[2], Sextets(b[3..]));
      BytesInvertSextets(b[3..]);
      assert b == [b[0], b[1], b[2]] + b[3..];
    }
  }

  /** Decoding undoes encoding, for byte strings of every length. */
  lemma DecodeInvertsEncode(b: seq<byte>)
    ensures Decode(Encode(b)) == b
  {
    var v, s := Sextets(b), Encode(b);
    forall i | 0 <= i < |v| ensures Value(s[i]) == v[i] { ValueOfDigit(v[i]); }
    assert seq(|s|, i requires 0 <= i < |s| => Value(s[i])) == v;
    BytesInvertSextets(b);
  }

  /** Every digest gives a legal label of 45 characters, which reads back as that digest. */
  lemma DigestLabelIsLegalAndLossless(d: Digest)
    ensures |DigestLabel(d)| == 45
    ensures IsLabelValue(DigestLabel(d))
    ensures '-' !in DigestLabel(d)
    ensures Decode(DigestLabel(d)[1..44]) == d
  {
    EncodeIsLegal(d);
    DecodeInvertsEncode(d);
    assert DigestLabel(d)[1..44] == Encode(d);
  }

  lemma DistinctDigestsHaveDistinctLabels(d: Digest, e: Digest)
    ensures DigestLabel(d) == DigestLabel(e) <==> d == e
  {
    DigestLabelIsLegalAndLossless(d);
    DigestLabelIsLegalAndLossless(e);
  }
}
