/** The browser's `btoa` and `atob`: Base64 as in section 4 of RFC 4648, with `atob` decoding
    by the "forgiving-base64 decode" of the WHATWG Infra standard (ASCII whitespace is skipped,
    padding is optional, bits left over at the end are discarded). Strings passed to `btoa` and
    returned by `atob` are "binary strings": one character per byte. */
module Base64 {
  import opened Types

  // ---------------------------------------------------------------- alphabet

  /** A character of the Base64 alphabet (Table 1 of RFC 4648). */
  predicate IsAlphabetChar(c: char)
  {
    'A' <= c <= 'Z' || 'a' <= c <= 'z' || '0' <= c <= '9' || c == '+' || c == '/'
  }

  predicate AllAlphabet(s: seq<char>)
  {
    forall i :: 0 <= i < |s| ==> IsAlphabetChar(s[i])
  }

  /** The character that encodes the 6-bit value `v`. */
  function IndexChar(v: int): (c: char)
    requires 0 <= v < 64
    ensures IsAlphabetChar(c)
  {
    if v < 26 then ('A' as int + v) as char
    else if v < 52 then ('a' as int + (v - 26)) as char
    else if v < 62 then ('0' as int + (v - 52)) as char
    else if v == 62 then '+'
    else '/'
  }

  /** The 6-bit value a character of the alphabet stands for. */
  function CharIndex(c: char): (v: int)
    requires IsAlphabetChar(c)
    ensures 0 <= v < 64
  {
    if 'A' <= c <= 'Z' then c as int - 'A' as int
    else if 'a' <= c <= 'z' then c as int - 'a' as int + 26
    else if '0' <= c <= '9' then c as int - '0' as int + 52
    else if c == '+' then 62
    else 63
  }

  lemma CharIndexOfIndexChar(v: int)
    requires 0 <= v < 64
    ensures CharIndex(IndexChar(v)) == v
  {
  }

  // ---------------------------------------------------------------- encoding

  /** Four characters for three bytes (24 bits, most significant sextet first). */
  function EncodeTriple(a: byte, b: byte, c: byte): seq<char>
  {
    [IndexChar(a as int / 4),
     IndexChar((a as int % 4) * 16 + b as int / 16),
     IndexChar((b as int % 16) * 4 + c as int / 64),
     IndexChar(c as int % 64)]
  }

  /** The characters that encode `b`, without the trailing `=` padding: a final group of one
      byte gives two characters, of two bytes three characters (bits filled with zero). */
  function EncodeUnpadded(b: seq<byte>): (s: seq<char>)
    ensures |s| == (4 * |b| + 2) / 3
    ensures AllAlphabet(s)
    decreases |b|
  {
    if |b| == 0 then []
    else if |b| == 1 then [IndexChar(b[0] as int / 4), IndexChar((b[0] as int % 4) * 16)]
    else if |b| == 2 then
      [IndexChar(b[0] as int / 4),
       IndexChar((b[0] as int % 4) * 16 + b[1] as int / 16),
       IndexChar((b[1] as int % 16) * 4)]
    else EncodeTriple(b[0], b[1], b[2]) + EncodeUnpadded(b[3..])
  }

  function Padding(n: nat): string
  {
    if n % 3 == 1 then "==" else if n % 3 == 2 then "=" else ""
  }

  /** Base64 encoding of `b` (section 4 of RFC 4648, with padding). */
  function Encode(b: seq<byte>): (s: string)
    ensures |s| == 4 * ((|b| + 2) / 3)
    ensures forall i :: 0 <= i < |s| ==> IsAlphabetChar(s[i]) || s[i] == '='
  {
    EncodedLength(|b|);
    EncodeUnpadded(b) + Padding(|b|)
  }

  // ---------------------------------------------------------------- decoding

  /** ASCII whitespace as the WHATWG Infra standard defines it: TAB, LF, FF, CR, SPACE. */
  predicate IsAsciiWhitespace(c: char)
  {
    c == '\t' || c == '\n' || c == '\U{000C}' || c == '\r' || c == ' '
  }

  /** The number of ASCII whitespace characters in `s`. */
  function CountWhitespace(s: string): nat
  {
    if s == [] then 0 else (if IsAsciiWhitespace(s[0]) then 1 else 0) + CountWhitespace(s[1..])
  }

  /** The first step of forgiving-base64 decoding: remove all ASCII whitespace. What is left
      is `s` without its whitespace characters and with every other character kept, in order. */
  function StripWhitespace(s: string): (t: string)
    ensures forall i :: 0 <= i < |t| ==> !IsAsciiWhitespace(t[i])
    ensures IsSubsequence(t, s)
    ensures |t| == |s| - CountWhitespace(s)
  {
    if s == [] then []
    else if IsAsciiWhitespace(s[0]) then StripWhitespace(s[1..])
    else [s[0]] + StripWhitespace(s[1..])
  }

  /** When the length is a multiple of four, one or two trailing `=` are dropped. */
  function StripPadding(t: string): string
  {
    if |t| % 4 == 0 && |t| >= 2 && t[|t| - 2] == '=' && t[|t| - 1] == '=' then t[..|t| - 2]
    else if |t| % 4 == 0 && |t| >= 1 && t[|t| - 1] == '=' then t[..|t| - 1]
    else t
  }

  /** Three bytes from four characters. */
  function DecodeQuad(s: seq<char>): seq<byte>
    requires |s| == 4 && AllAlphabet(s)
  {
    var v0, v1, v2, v3 := CharIndex(s[0]), CharIndex(s[1]), CharIndex(s[2]), CharIndex(s[3]);
    [(v0 * 4 + v1 / 16) as byte, ((v1 % 16) * 16 + v2 / 4) as byte, ((v2 % 4) * 64 + v3) as byte]
  }

  /** The bytes of unpadded Base64 text; a final group of two or three characters yields one
      or two bytes, and the bits that do not fill a byte are discarded. */
  function DecodeUnpadded(s: seq<char>): (b: seq<byte>)
    requires AllAlphabet(s) && |s| % 4 != 1
    ensures |b| == 3 * |s| / 4
    decreases |s|
  {
    if |s| == 0 then []
    else if |s| == 2 then [(CharIndex(s[0]) * 4 + CharIndex(s[1]) / 16) as byte]
    else if |s| == 3 then
      [(CharIndex(s[0]) * 4 + CharIndex(s[1]) / 16) as byte,
       ((CharIndex(s[1]) % 16) * 16 + CharIndex(s[2]) / 4) as byte]
    else DecodeQuad(s[..4]) + DecodeUnpadded(s[4..])
  }

  /** Forgiving-base64 decode: `None` is the failure that makes `atob` throw. */
  function Decode(s: string): (r: Option<seq<byte>>)
  {
    var u := StripPadding(StripWhitespace(s));
    if |u| % 4 == 1 || !AllAlphabet(u) then None else Some(DecodeUnpadded(u))
  }

  // ---------------------------------------------------------------- round trip

  /** The bit arithmetic of one group: the sextets of three bytes recombine into the bytes. */
  lemma GroupArithmetic(a: int, b: int, c: int)
    requires 0 <= a < 256 && 0 <= b < 256 && 0 <= c < 256
    ensures (a / 4) * 4 + ((a % 4) * 16 + b / 16) / 16 == a
    ensures (((a % 4) * 16 + b / 16) % 16) * 16 + ((b % 16) * 4 + c / 64) / 4 == b
    ensures (((b % 16) * 4 + c / 64) % 4) * 64 + c % 64 == c
    ensures (a / 4) * 4 + ((a % 4) * 16) / 16 == a
    ensures (((a % 4) * 16 + b / 16) % 16) * 16 + ((b % 16) * 4) / 4 == b
  {
  }

  lemma DecodeEncodeTriple(a: byte, b: byte, c: byte)
    ensures AllAlphabet(EncodeTriple(a, b, c))
    ensures DecodeQuad(EncodeTriple(a, b, c)) == [a, b, c]
  {
    var v0, v1 := a as int / 4, (a as int % 4) * 16 + b as int / 16;
    var v2, v3 := (b as int % 16) * 4 + c as int / 64, c as int % 64;
    CharIndexOfIndexChar(v0);
    CharIndexOfIndexChar(v1);
    CharIndexOfIndexChar(v2);
    CharIndexOfIndexChar(v3);
    GroupArithmetic(a as int, b as int, c as int);
    var s := EncodeTriple(a, b, c);
    assert s == [IndexChar(v0), IndexChar(v1), IndexChar(v2), IndexChar(v3)];
    var d := DecodeQuad(s);
    assert d[0] as int == v0 * 4 + v1 / 16 == a as int;
    assert d[1] as int == (v1 % 16) * 16 + v2 / 4 == b as int;
    assert d[2] as int == (v2 % 4) * 64 + v3 == c as int;
  }

  /** How long an encoding is, group by group. */
  lemma EncodedLength(n: nat)
    ensures ((4 * n + 2) / 3) % 4 == (if n % 3 == 0 then 0 else n % 3 + 1)
    ensures 4 * ((n + 2) / 3) == (4 * n + 2) / 3 + |Padding(n)|
  {
    var k, r := n / 3, n % 3;
    assert n == 3 * k + r;
    if r == 0 {
      assert 4 * n + 2 == 3 * (4 * k) + 2;
      assert (4 * n + 2) / 3 == 4 * k;
      assert (n + 2) / 3 == k;
    } else if r == 1 {
      assert 4 * n + 2 == 3 * (4 * k + 2) + 0;
      assert (4 * n + 2) / 3 == 4 * k + 2;
      assert (n + 2) / 3 == k + 1;
    } else {
      assert 4 * n + 2 == 3 * (4 * k + 3) + 1;
      assert (4 * n + 2) / 3 == 4 * k + 3;
      assert (n + 2) / 3 == k + 1;
    }
  }

  lemma DecodeEncodeOne(a: byte)
    ensures AllAlphabet(EncodeUnpadded([a]))
    ensures DecodeUnpadded(EncodeUnpadded([a])) == [a]
  {
    var v0, v1 := a as int / 4, (a as int % 4) * 16;
    CharIndexOfIndexChar(v0);
    CharIndexOfIndexChar(v1);
    GroupArithmetic(a as int, 0, 0);
    var s := EncodeUnpadded([a]);
    assert s == [IndexChar(v0), IndexChar(v1)];
    var d := DecodeUnpadded(s);
    assert d[0] as int == v0 * 4 + v1 / 16 == a as int;
  }

  lemma DecodeEncodeTwo(a: byte, b: byte)
    ensures AllAlphabet(EncodeUnpadded([a, b]))
    ensures DecodeUnpadded(EncodeUnpadded([a, b])) == [a, b]
  {
    var v0, v1 := a as int / 4, (a as int % 4) * 16 + b as int / 16;
    var v2 := (b as int % 16) * 4;
    CharIndexOfIndexChar(v0);
    CharIndexOfIndexChar(v1);
    CharIndexOfIndexChar(v2);
    GroupArithmetic(a as int, b as int, 0);
    var s := EncodeUnpadded([a, b]);
    assert s == [IndexChar(v0), IndexChar(v1), IndexChar(v2)];
    var d := DecodeUnpadded(s);
    assert d[0] as int == v0 * 4 + v1 / 16 == a as int;
    assert d[1] as int == (v1 % 16) * 16 + v2 / 4 == b as int;
  }

  /** Decoding undoes encoding, group by group. */
  lemma {:induction false} DecodeUnpaddedEncodeUnpadded(b: seq<byte>)
    ensures |EncodeUnpadded(b)| % 4 != 1
    ensures DecodeUnpadded(EncodeUnpadded(b)) == b
    decreases |b|
  {
    if |b| == 0 {
    } else if |b| == 1 {
      assert b == [b[0]];
      DecodeEncodeOne(b[0]);
    } else if |b| == 2 {
      assert b == [b[0], b[1]];
      DecodeEncodeTwo(b[0], b[1]);
    } else {
      DecodeUnpaddedEncodeUnpadded(b[3..]);
      DecodeEncodeStep(b);
    }
  }

  /** One inductive step: a first group of three bytes in front of an encoding that round-trips. */
  lemma DecodeEncodeStep(b: seq<byte>)
    requires |b| >= 3
    requires |EncodeUnpadded(b[3..])| % 4 != 1
    requires DecodeUnpadded(EncodeUnpadded(b[3..])) == b[3..]
    ensures |EncodeUnpadded(b)| % 4 != 1
    ensures DecodeUnpadded(EncodeUnpadded(b)) == b
  {
    var t, rest := EncodeTriple(b[0], b[1], b[2]), EncodeUnpadded(b[3..]);
    assert EncodeUnpadded(b) == t + rest;
    DecodeEncodeTriple(b[0], b[1], b[2]);
    DecodeUnpaddedConcat(t, rest);
    assert b == [b[0], b[1], b[2]] + b[3..];
  }

  lemma DecodeUnpaddedConcat(t: seq<char>, rest: seq<char>)
    requires |t| == 4 && AllAlphabet(t) && AllAlphabet(rest) && |rest| % 4 != 1
    ensures AllAlphabet(t + rest) && |t + rest| % 4 != 1
    ensures DecodeUnpadded(t + rest) == DecodeQuad(t) + DecodeUnpadded(rest)
  {
    var s := t + rest;
    assert s[..4] == t;
    assert s[4..] == rest;
  }

  lemma StripWhitespaceNoop(s: string)
    requires forall i :: 0 <= i < |s| ==> !IsAsciiWhitespace(s[i])
    ensures StripWhitespace(s) == s
  {
  }

  /** Dropping the padding of an encoding leaves its unpadded characters. */
  lemma StripPaddingOfEncode(b: seq<byte>)
    ensures StripPadding(Encode(b)) == EncodeUnpadded(b)
  {
    var s, u := Encode(b), EncodeUnpadded(b);
    EncodedLength(|b|);
    var n := |u|;
    assert |s| % 4 == 0;
    if |b| % 3 == 1 {
      assert s == u + "==";
      assert s[n] == '=' && s[n + 1] == '=';
      assert s[..n] == u;
    } else if |b| % 3 == 2 {
      assert s == u + "=";
      assert n >= 3 && s[n - 1] == u[n - 1] && IsAlphabetChar(u[n - 1]);
      assert s[..n] == u;
    } else {
      assert s == u;
      assert n > 0 ==> IsAlphabetChar(s[n - 1]);
    }
  }

  /** `atob(btoa(x))` gives back `x`: decoding an encoding yields the original bytes. */
  lemma {:induction false} DecodeEncode(b: seq<byte>)
    ensures Decode(Encode(b)) == Some(b)
  {
    var s := Encode(b);
    StripWhitespaceNoop(s);
    StripPaddingOfEncode(b);
    DecodeUnpaddedEncodeUnpadded(b);
  }

  // ---------------------------------------------------------------- binary strings

  /** Every character is a single byte (code below 256). */
  predicate IsBinaryString(s: string)
  {
    forall i :: 0 <= i < |s| ==> s[i] as int < 256
  }

  /** The binary string whose i-th character has code `b[i]` (`String.fromCharCode`). */
  function Latin1(b: seq<byte>): (s: string)
    ensures |s| == |b|
    ensures forall i :: 0 <= i < |b| ==> s[i] as int == b[i] as int
  {
    seq(|b|, i requires 0 <= i < |b| => b[i] as int as char)
  }

  /** The character codes of a binary string (`charCodeAt`). */
  function CharCodes(s: string): (b: seq<byte>)
    requires IsBinaryString(s)
    ensures |b| == |s|
    ensures forall i :: 0 <= i < |s| ==> b[i] as int == s[i] as int
  {
    seq(|s|, i requires 0 <= i < |s| => s[i] as int as byte)
  }

  /** `btoa`: throws `InvalidCharacterError` on a character above U+00FF. */
  function BtoA(s: string): (r: Result<string>)
  {
    if IsBinaryString(s) then Ok(Encode(CharCodes(s))) else Err(InvalidCharacterError)
  }

  /** `atob`: throws `InvalidCharacterError` when forgiving-base64 decoding fails. */
  function AtoB(s: string): (r: Result<string>)
    ensures r.Ok? ==> IsBinaryString(r.value)
  {
    match Decode(s)
    case None => Err(InvalidCharacterError)
    case Some(b) => Ok(Latin1(b))
  }

  lemma CharCodesLatin1(b: seq<byte>)
    ensures IsBinaryString(Latin1(b)) && CharCodes(Latin1(b)) == b
  {
  }

  /** `atob(btoa(s)) == s` for every binary string, and `btoa` accepts exactly binary strings. */
  lemma AtoBBtoA(s: string)
    ensures BtoA(s).Ok? <==> IsBinaryString(s)
    ensures IsBinaryString(s) ==> AtoB(BtoA(s).value) == Ok(s)
  {
    if IsBinaryString(s) {
      var b := CharCodes(s);
      DecodeEncode(b);
      assert Latin1(b) == s;
    }
  }
}
