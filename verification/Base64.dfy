/** Strict base64 (sections 3.5 and 4 of RFC 4648): only canonical encodings are accepted. */
module Base64 {
  import opened Common

  type Byte = x: int | 0 <= x < 256
  type Sextet = x: int | 0 <= x < 64

  predicate InAlphabet(c: char) {
    'A' <= c <= 'Z' || 'a' <= c <= 'z' || '0' <= c <= '9' || c == '+' || c == '/'
  }

  function CharOf(v: Sextet): (c: char)
    ensures InAlphabet(c) && SextetOf(c) == v
  {
    if v < 26 then ('A' as int + v) as char
    else if v < 52 then ('a' as int + v - 26) as char
    else if v < 62 then ('0' as int + v - 52) as char
    else if v == 62 then '+'
    else '/'
  }

  function SextetOf(c: char): Sextet
    requires InAlphabet(c)
  {
    if 'A' <= c <= 'Z' then c as int - 'A' as int
    else if 'a' <= c <= 'z' then c as int - 'a' as int + 26
    else if '0' <= c <= '9' then c as int - '0' as int + 52
    else if c == '+' then 62
    else 63
  }

  predicate AllInAlphabet(s: string) {
    forall i :: 0 <= i < |s| ==> InAlphabet(s[i])
  }

  // ----- encoding -----

  /** Three bytes as four characters. */
  function Group(x: Byte, y: Byte, z: Byte): (s: string)
    ensures |s| == 4 && AllInAlphabet(s)
  {
    [CharOf(x / 4), CharOf(x % 4 * 16 + y / 16), CharOf(y % 16 * 4 + z / 64), CharOf(z % 64)]
  }

  /** The encoding without its padding: three bytes to four characters, one or two left over. */
  function Bare(b: seq<Byte>): (s: string)
    ensures AllInAlphabet(s)
  {
    if |b| == 0 then ""
    else if |b| == 1 then [CharOf(b[0] / 4), CharOf(b[0] % 4 * 16)]
    else if |b| == 2 then [CharOf(b[0] / 4), CharOf(b[0] % 4 * 16 + b[1] / 16), CharOf(b[1] % 16 * 4)]
    else Group(b[0], b[1], b[2]) + Bare(b[3..])
  }

  /** Fills the last group of characters up to four. */
  function Padding(b: seq<Byte>): string {
    if |b| == 0 then "" else if |b| == 1 then "==" else if |b| == 2 then "=" else Padding(b[3..])
  }

  function Encode(b: seq<Byte>): string {
    Bare(b) + Padding(b)
  }

  // ----- decoding -----

  /** What the platform decoder makes of alphabet characters: leftover bits are dropped unseen. */
  function DecodeBare(s: string): seq<Byte>
    requires AllInAlphabet(s)
  {
    if |s| < 2 then []
    else if |s| == 2 then [SextetOf(s[0]) * 4 + SextetOf(s[1]) / 16]
    else if |s| == 3 then
      [SextetOf(s[0]) * 4 + SextetOf(s[1]) / 16, SextetOf(s[1]) % 16 * 16 + SextetOf(s[2]) / 4]
    else
      [SextetOf(s[0]) * 4 + SextetOf(s[1]) / 16,
       SextetOf(s[1]) % 16 * 16 + SextetOf(s[2]) / 4,
       SextetOf(s[2]) % 4 * 64 + SextetOf(s[3])] + DecodeBare(s[4..])
  }

  /** `s` without the at most two padding characters at its end. */
  function Unpadded(s: string): string {
    if |s| >= 2 && s[|s| - 2..] == "==" then s[..|s| - 2]
    else if |s| >= 1 && s[|s| - 1] == '=' then s[..|s| - 1]
    else s
  }

  function DecodeStrict(value: string): Option<seq<Byte>> {
    if |value| == 0 || |value| % 4 != 0 then None
    else if Unpadded(value) == "" || !AllInAlphabet(Unpadded(value)) then None
    else
      var decoded := DecodeBare(Unpadded(value));
      if Encode(decoded) == value then Some(decoded) else None
  }

  // ----- correctness -----

  lemma DecodeGroup(v0: Sextet, v1: Sextet, v2: Sextet, v3: Sextet, rest: string)
    requires AllInAlphabet(rest)
    ensures AllInAlphabet([CharOf(v0), CharOf(v1), CharOf(v2), CharOf(v3)] + rest)
    ensures DecodeBare([CharOf(v0), CharOf(v1), CharOf(v2), CharOf(v3)] + rest) ==
            [v0 * 4 + v1 / 16, v1 % 16 * 16 + v2 / 4, v2 % 4 * 64 + v3] + DecodeBare(rest)
  {
    var s := [CharOf(v0), CharOf(v1), CharOf(v2), CharOf(v3)] + rest;
    assert s[4..] == rest;
  }

  lemma GroupRoundTrip(x: Byte, y: Byte, z: Byte)
    ensures x / 4 * 4 + (x % 4 * 16 + y / 16) / 16 == x
    ensures (x % 4 * 16 + y / 16) % 16 * 16 + (y % 16 * 4 + z / 64) / 4 == y
    ensures (y % 16 * 4 + z / 64) % 4 * 64 + z % 64 == z
  {
  }

  /** One full group of bytes decodes to itself and leaves the rest alone. */
  lemma GroupDecodes(x: Byte, y: Byte, z: Byte, rest: string)
    requires AllInAlphabet(rest)
    ensures AllInAlphabet(Group(x, y, z) + rest)
    ensures DecodeBare(Group(x, y, z) + rest) == [x, y, z] + DecodeBare(rest)
  {
    DecodeGroup(x / 4, x % 4 * 16 + y / 16, y % 16 * 4 + z / 64, z % 64, rest);
    GroupRoundTrip(x, y, z);
  }

  /** Decoding undoes encoding, for every byte string. */
  lemma {:induction false} BareRoundTrip(b: seq<Byte>)
    ensures DecodeBare(Bare(b)) == b
  {
    if |b| >= 3 {
      BareRoundTrip(b[3..]);
      GroupDecodes(b[0], b[1], b[2], Bare(b[3..]));
      assert b == [b[0], b[1], b[2]] + b[3..];
    } else {
      ShortRoundTrip(b);
    }
  }

  lemma DecodeShort(v0: Sextet, v1: Sextet, v2: Sextet)
    ensures DecodeBare([CharOf(v0), CharOf(v1)]) == [v0 * 4 + v1 / 16]
    ensures DecodeBare([CharOf(v0), CharOf(v1), CharOf(v2)]) == [v0 * 4 + v1 / 16, v1 % 16 * 16 + v2 / 4]
  {
  }

  lemma OneByte(x: Byte)
    ensures DecodeBare(Bare([x])) == [x]
  {
    DecodeShort(x / 4, x % 4 * 16, 0);
    GroupRoundTrip(x, 0, 0);
  }

  lemma TwoBytes(x: Byte, y: Byte)
    ensures DecodeBare(Bare([x, y])) == [x, y]
  {
    DecodeShort(x / 4, x % 4 * 16 + y / 16, y % 16 * 4);
    GroupRoundTrip(x, y, 0);
  }

  lemma ShortRoundTrip(b: seq<Byte>)
    requires |b| < 3
    ensures DecodeBare(Bare(b)) == b
  {
    if |b| == 2 {
      assert b == [b[0], b[1]];
      TwoBytes(b[0], b[1]);
    } else if |b| == 1 {
      assert b == [b[0]];
      OneByte(b[0]);
    }
  }

  lemma UnpaddedOf(s: string, pad: string)
    requires AllInAlphabet(s) && pad in ["", "=", "=="]
    ensures Unpadded(s + pad) == s
  {
    var t := s + pad;
    if pad == "==" {
      assert t[|t| - 2..] == "==";
    } else if pad == "=" {
      assert |t| >= 2 ==> t[|t| - 2..][0] == s[|s| - 1];
    } else {
      assert t == s;
      assert |t| >= 2 ==> t[|t| - 2..][1] == s[|s| - 1];
    }
  }

  lemma {:induction false} EncodingFillsGroups(b: seq<Byte>)
    ensures (|Bare(b)| + |Padding(b)|) % 4 == 0
    ensures Padding(b) in ["", "=", "=="]
  {
    if |b| < 3 {
    } else {
      EncodingFillsGroups(b[3..]);
      assert |Bare(b)| == 4 + |Bare(b[3..])| && Padding(b) == Padding(b[3..]);
    }
  }

  lemma UnpaddedEncoding(b: seq<Byte>)
    ensures Unpadded(Encode(b)) == Bare(b)
    ensures |Encode(b)| % 4 == 0
  {
    EncodingFillsGroups(b);
    UnpaddedOf(Bare(b), Padding(b));
  }

  /**
   A string is accepted exactly when it is the canonical encoding of a non-empty byte string, and
   then that byte string is the result. So no two spellings of one blank are accepted.
   */
  lemma AcceptsExactlyCanonicalEncodings(value: string, b: seq<Byte>)
    ensures DecodeStrict(value) == Some(b) <==> b != [] && value == Encode(b)
  {
    if DecodeStrict(value) == Some(b) {
      assert value == Encode(b);
      assert b != [] by {
        assert Encode([]) == "";
      }
    }
    if b != [] && value == Encode(b) {
      UnpaddedEncoding(b);
      BareRoundTrip(b);
    }
  }

  /** Encoding is injective: a byte string has one accepted spelling, a spelling one byte string. */
  lemma EncodingIsInjective(a: seq<Byte>, b: seq<Byte>)
    requires Encode(a) == Encode(b)
    ensures a == b
  {
    UnpaddedEncoding(a);
    UnpaddedEncoding(b);
    BareRoundTrip(a);
    BareRoundTrip(b);
  }

  /** Accepted strings hold only alphabet characters and padding. */
  lemma AcceptedCharacters(value: string, i: nat)
    requires DecodeStrict(value).Some? && i < |value|
    ensures InAlphabet(value[i]) || value[i] == '='
  {
    var b := DecodeStrict(value).value;
    assert value == Bare(b) + Padding(b);
  }

  // ----- the standard's alphabet and bit order -----

  lemma AlphabetIsTheStandards(v: Sextet)
    ensures v < 26 ==> CharOf(v) == "ABCDEFGHIJKLMNOPQRSTUVWXYZ"[v]
    ensures 26 <= v < 52 ==> CharOf(v) == "abcdefghijklmnopqrstuvwxyz"[v - 26]
    ensures 52 <= v < 62 ==> CharOf(v) == "0123456789"[v - 52]
    ensures v == 62 ==> CharOf(v) == '+'
    ensures v == 63 ==> CharOf(v) == '/'
  {
  }

  /** Four characters spell three bytes, most significant bits first. */
  lemma GroupsAreBigEndian(x: Byte, y: Byte, z: Byte)
    ensures var s := Group(x, y, z);
      262144 * SextetOf(s[0]) + 4096 * SextetOf(s[1]) + 64 * SextetOf(s[2]) + SextetOf(s[3]) == 65536 * x + 256 * y + z
  {
  }

  /** In a last group of one or two bytes the bits left over are zero. */
  lemma LeftoverBitsAreZero(x: Byte, y: Byte)
    ensures |Bare([x])| == 2 && 64 * SextetOf(Bare([x])[0]) + SextetOf(Bare([x])[1]) == 16 * x
    ensures |Bare([x, y])| == 3
    ensures 4096 * SextetOf(Bare([x, y])[0]) + 64 * SextetOf(Bare([x, y])[1]) + SextetOf(Bare([x, y])[2]) == 4 * (256 * x + y)
  {
  }

  /** Groups follow one another, and padding fills the last one. */
  lemma EncodingGoesGroupByGroup(x: Byte, y: Byte, z: Byte, rest: seq<Byte>)
    ensures Encode([x, y, z] + rest) == Group(x, y, z) + Encode(rest)
    ensures Encode([]) == "" && Encode([x]) == Bare([x]) + "==" && Encode([x, y]) == Bare([x, y]) + "="
  {
    var b := [x, y, z] + rest;
    assert b[3..] == rest;
  }

  /** The test vectors of section 10 of RFC 4648, up to three bytes. */
  lemma TestVectors()
    ensures Encode([102]) == "Zg==" && Encode([102, 111]) == "Zm8=" && Encode([102, 111, 111]) == "Zm9v"
  {
    assert [102, 111, 111][3..] == [];
  }
}
