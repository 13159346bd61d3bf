/**
 * Base 64 encoding as in RFC 4648, in the two forms the handlers use:
 * Go's `base64.StdEncoding` (the alphabet of section 4, with '=' padding) and
 * `base64.RawURLEncoding` (the URL- and filename-safe alphabet of section 5,
 * padding omitted as section 3.2 permits).
 *
 * Encoding is split in two steps: `Pack` cuts the bytes into 6-bit values
 * (four per group of three bytes, two or three for a final partial group)
 * and `Chars` writes each value as one character of the alphabet.
 * Decoding undoes the two steps in the opposite order.
 */
module Base64 {
  import opened Outcomes

  /** A Go `byte`. */
  type Byte = b: int | 0 <= b < 256

  /** A 6-bit value: one character of the encoded text. */
  type Sextet = v: int | 0 <= v < 64

  /** Section 4 ("+", "/") or section 5 ("-", "_") of RFC 4648. */
  datatype Alphabet = Standard | UrlSafe

  /** Go's `base64.Encoding`: an alphabet, and whether '=' padding is written. */
  datatype Encoding = Encoding(alphabet: Alphabet, padded: bool)

  const StdEncoding := Encoding(Standard, true)
  const RawURLEncoding := Encoding(UrlSafe, false)
  const PadChar := '='

  /** Decodes one character, or None for a character outside the alphabet. */
  function CharSextet(a: Alphabet, c: char): Option<Sextet>
  {
    if 'A' <= c <= 'Z' then Some(c as int - 'A' as int)
    else if 'a' <= c <= 'z' then Some(c as int - 'a' as int + 26)
    else if '0' <= c <= '9' then Some(c as int - '0' as int + 52)
    else if c == (if a == Standard then '+' else '-') then Some(62)
    else if c == (if a == Standard then '/' else '_') then Some(63)
    else None
  }

  predicate InAlphabet(a: Alphabet, c: char)
  {
    CharSextet(a, c).Some?
  }

  /** The characters of section 5 of RFC 4648: `[A-Za-z0-9-_]`. */
  predicate IsUrlSafeChar(c: char)
  {
    ('A' <= c <= 'Z') || ('a' <= c <= 'z') || ('0' <= c <= '9') || c == '-' || c == '_'
  }

  /** The character that encodes `v`; decoding it gives `v` back. */
  function SextetChar(a: Alphabet, v: Sextet): (c: char)
    ensures CharSextet(a, c) == Some(v)
  {
    if v < 26 then ('A' as int + v) as char
    else if v < 52 then ('a' as int + (v - 26)) as char
    else if v < 62 then ('0' as int + (v - 52)) as char
    else if v == 62 then (if a == Standard then '+' else '-')
    else (if a == Standard then '/' else '_')
  }

  /** The url-safe alphabet is exactly `[A-Za-z0-9-_]`, and '=' belongs to neither alphabet. */
  lemma UrlAlphabetIsUrlSafe(c: char)
    ensures InAlphabet(UrlSafe, c) <==> IsUrlSafeChar(c)
    ensures !InAlphabet(Standard, PadChar) && !InAlphabet(UrlSafe, PadChar)
  {
  }

  /** Go's `Encoding.EncodedLen`, as written there for the two cases. */
  function EncodedLen(enc: Encoding, n: nat): nat
  {
    if enc.padded then (n + 2) / 3 * 4
    else n / 3 * 4 + (n % 3 * 8 + 5) / 6
  }

  /** The four 6-bit values of the group `b0 b1 b2`, most significant bits first. */
  function Hi(b0: Byte): Sextet { b0 / 4 }
  function MidHi(b0: Byte, b1: Byte): Sextet { b0 % 4 * 16 + b1 / 16 }
  function MidLo(b1: Byte, b2: Byte): Sextet { b1 % 16 * 4 + b2 / 64 }
  function Lo(b2: Byte): Sextet { b2 % 64 }

  /** The three bytes of the group `v0 v1 v2 v3`. */
  function First(v0: Sextet, v1: Sextet): Byte { v0 * 4 + v1 / 16 }
  function Second(v1: Sextet, v2: Sextet): Byte { v1 % 16 * 16 + v2 / 4 }
  function Third(v2: Sextet, v3: Sextet): Byte { v2 % 4 * 64 + v3 }

  /** The 6-bit values of `src`; a partial last group is zero-filled as Go does. */
  function Pack(src: seq<Byte>): (s: seq<Sextet>)
    ensures |s| == EncodedLen(Encoding(Standard, false), |src|)
    decreases |src|
  {
    if |src| == 0 then []
    else if |src| == 1 then [Hi(src[0]), MidHi(src[0], 0)]
    else if |src| == 2 then [Hi(src[0]), MidHi(src[0], src[1]), MidLo(src[1], 0)]
    else [Hi(src[0]), MidHi(src[0], src[1]), MidLo(src[1], src[2]), Lo(src[2])] + Pack(src[3..])
  }

  /** The bytes carried by 6-bit values; the unused low bits of a partial group are ignored. */
  function Unpack(s: seq<Sextet>): seq<Byte>
    requires |s| % 4 != 1
    decreases |s|
  {
    if |s| == 0 then []
    else if |s| == 2 then [First(s[0], s[1])]
    else if |s| == 3 then [First(s[0], s[1]), Second(s[1], s[2])]
    else [First(s[0], s[1]), Second(s[1], s[2]), Third(s[2], s[3])] + Unpack(s[4..])
  }

  lemma FirstRoundTrip(b0: Byte, b1: Byte)
    ensures First(Hi(b0), MidHi(b0, b1)) == b0
  {
  }

  lemma SecondRoundTrip(b0: Byte, b1: Byte, b2: Byte)
    ensures Second(MidHi(b0, b1), MidLo(b1, b2)) == b1
  {
    var hi, lo := b1 / 16, b1 % 16;
    assert b1 == 16 * hi + lo;
    assert MidHi(b0, b1) == 16 * (b0 % 4) + hi && hi < 16;
    assert MidHi(b0, b1) % 16 == hi;
    assert MidLo(b1, b2) == 4 * lo + b2 / 64 && b2 / 64 < 4;
    assert MidLo(b1, b2) / 4 == lo;
  }

  lemma ThirdRoundTrip(b1: Byte, b2: Byte)
    ensures Third(MidLo(b1, b2), Lo(b2)) == b2
  {
  }

  /** The raw length is four characters per whole group plus two or three for a partial one. */
  lemma RawLenSplit(n: nat)
    ensures EncodedLen(Encoding(Standard, false), n) % 4 != 1
    ensures n >= 3 ==> EncodedLen(Encoding(Standard, false), n)
                       == EncodedLen(Encoding(Standard, false), n - 3) + 4
  {
    var r := n % 3;
    assert (r * 8 + 5) / 6 == (if r == 0 then 0 else r + 1);
    if n >= 3 {
      assert n / 3 == (n - 3) / 3 + 1;
      assert (n - 3) % 3 == r;
    }
  }

  /** Unpacking what was packed gives the bytes back. */
  lemma {:induction false} UnpackPack(src: seq<Byte>)
    ensures |Pack(src)| % 4 != 1
    ensures Unpack(Pack(src)) == src
    decreases |src|
  {
    RawLenSplit(|src|);
    var p := Pack(src);
    if |src| >= 3 {
      var tail := Pack(src[3..]);
      UnpackPack(src[3..]);
      assert p == [Hi(src[0]), MidHi(src[0], src[1]), MidLo(src[1], src[2]), Lo(src[2])] + tail;
      assert p[4..] == tail;
      FirstRoundTrip(src[0], src[1]);
      SecondRoundTrip(src[0], src[1], src[2]);
      ThirdRoundTrip(src[1], src[2]);
      assert Unpack(p) == [src[0], src[1], src[2]] + src[3..];
    } else if |src| == 2 {
      assert p == [Hi(src[0]), MidHi(src[0], src[1]), MidLo(src[1], 0)];
      FirstRoundTrip(src[0], src[1]);
      SecondRoundTrip(src[0], src[1], 0);
      assert Unpack(p) == [src[0], src[1]];
    } else if |src| == 1 {
      assert p == [Hi(src[0]), MidHi(src[0], 0)];
      FirstRoundTrip(src[0], 0);
      assert Unpack(p) == [src[0]];
    }
  }

  /** The characters of a sequence of 6-bit values. */
  function Chars(a: Alphabet, s: seq<Sextet>): (t: string)
    ensures |t| == |s|
    ensures forall i :: 0 <= i < |t| ==> CharSextet(a, t[i]) == Some(s[i])
  {
    seq(|s|, i requires 0 <= i < |s| => SextetChar(a, s[i]))
  }

  /** The 6-bit values of a text, or None if some character is outside the alphabet. */
  function Sextets(a: Alphabet, t: string): (r: Option<seq<Sextet>>)
    decreases |t|
  {
    if |t| == 0 then Some([])
    else match (CharSextet(a, t[0]), Sextets(a, t[1..]))
      case (Some(v), Some(rest)) => Some([v] + rest)
      case _ => None
  }

  /** Reading back the characters of `s` gives `s`. */
  lemma {:induction false} SextetsChars(a: Alphabet, s: seq<Sextet>)
    ensures Sextets(a, Chars(a, s)) == Some(s)
    decreases |s|
  {
    if |s| > 0 {
      SextetsChars(a, s[1..]);
      assert Chars(a, s)[1..] == Chars(a, s[1..]);
      assert s == [s[0]] + s[1..];
    }
  }

  /** Encoding without padding. */
  function EncodeRaw(a: Alphabet, src: seq<Byte>): (t: string)
    ensures |t| == EncodedLen(Encoding(a, false), |src|)
    ensures forall i :: 0 <= i < |t| ==> InAlphabet(a, t[i])
  {
    Chars(a, Pack(src))
  }

  /** The '=' characters that complete the last group of four. */
  function Padding(n: nat): string
  {
    if n % 3 == 1 then "==" else if n % 3 == 2 then "=" else ""
  }

  /** Go's `Encoding.EncodeToString`. */
  function Encode(enc: Encoding, src: seq<Byte>): (t: string)
    ensures |t| == EncodedLen(enc, |src|)
  {
    EncodeRaw(enc.alphabet, src) + (if enc.padded then Padding(|src|) else "")
  }

  /** Decoding of text written without padding. */
  function DecodeRaw(a: Alphabet, t: string): Option<seq<Byte>>
  {
    if |t| % 4 == 1 then None
    else match Sextets(a, t)
      case Some(s) => (assert |s| == |t| by { SextetsLength(a, t); } Some(Unpack(s)))
      case None => None
  }

  lemma {:induction false} SextetsLength(a: Alphabet, t: string)
    ensures Sextets(a, t).Some? ==> |Sextets(a, t).value| == |t|
    decreases |t|
  {
    if |t| > 0 {
      SextetsLength(a, t[1..]);
    }
  }

  /** Removes at most two trailing '=' characters. */
  function StripPadding(t: string): string
  {
    if |t| >= 2 && t[|t| - 2..] == "==" then t[..|t| - 2]
    else if |t| >= 1 && t[|t| - 1] == PadChar then t[..|t| - 1]
    else t
  }

  /** The inverse of `Encode` that its round-trip lemmas use. */
  function Decode(enc: Encoding, t: string): Option<seq<Byte>>
  {
    if !enc.padded then DecodeRaw(enc.alphabet, t)
    else if |t| % 4 != 0 then None
    else DecodeRaw(enc.alphabet, StripPadding(t))
  }

  lemma DecodeRawEncodeRaw(a: Alphabet, src: seq<Byte>)
    ensures DecodeRaw(a, EncodeRaw(a, src)) == Some(src)
  {
    UnpackPack(src);
    SextetsChars(a, Pack(src));
  }

  /** Stripping removes exactly the padding that was appended to unpadded text. */
  lemma StripAppendedPadding(raw: string, pad: string)
    requires pad == "" || pad == "=" || pad == "=="
    requires |raw| > 0 ==> raw[|raw| - 1] != PadChar
    ensures StripPadding(raw + pad) == raw
  {
    var t := raw + pad;
    if pad == "==" {
      assert t[|t| - 2..] == "==";
      assert t[..|t| - 2] == raw;
    } else if pad == "=" {
      assert |raw| > 0 ==> t[|t| - 2] == raw[|raw| - 1];
      assert t[..|t| - 1] == raw;
    } else {
      assert t == raw;
      assert |t| > 0 ==> t[|t| - 1] == raw[|raw| - 1];
    }
  }

  /** A padded encoding is a whole number of groups of four characters. */
  lemma PaddedLength(a: Alphabet, n: nat)
    ensures EncodedLen(Encoding(a, true), n) % 4 == 0
  {
    var q := (n + 2) / 3;
    assert EncodedLen(Encoding(a, true), n) == 4 * q;
  }

  /** Padded encoding is unpadded encoding followed by the padding. */
  lemma StripEncodePadded(a: Alphabet, src: seq<Byte>)
    ensures StripPadding(Encode(Encoding(a, true), src)) == EncodeRaw(a, src)
  {
    var raw := EncodeRaw(a, src);
    UrlAlphabetIsUrlSafe(PadChar);
    assert |raw| > 0 ==> InAlphabet(a, raw[|raw| - 1]);
    StripAppendedPadding(raw, Padding(|src|));
  }

  /** Decoding an encoding gives the bytes back, for every encoding and every input. */
  lemma DecodeEncode(enc: Encoding, src: seq<Byte>)
    ensures Decode(enc, Encode(enc, src)) == Some(src)
  {
    DecodeRawEncodeRaw(enc.alphabet, src);
    if enc.padded {
      assert enc == Encoding(enc.alphabet, true);
      var t := Encode(enc, src);
      PaddedLength(enc.alphabet, |src|);
      StripEncodePadded(enc.alphabet, src);
      assert |t| % 4 == 0 && StripPadding(t) == EncodeRaw(enc.alphabet, src);
      assert Decode(enc, t) == DecodeRaw(enc.alphabet, EncodeRaw(enc.alphabet, src));
    } else {
      assert Encode(enc, src) == EncodeRaw(enc.alphabet, src);
    }
  }

  /** Distinct inputs have distinct encodings. */
  lemma EncodeInjective(enc: Encoding, s1: seq<Byte>, s2: seq<Byte>)
    requires Encode(enc, s1) == Encode(enc, s2)
    ensures s1 == s2
  {
    DecodeEncode(enc, s1);
    DecodeEncode(enc, s2);
  }

  /** Every character of a padded encoding is in the alphabet, except at most two trailing '='. */
  lemma PaddedAlphabet(a: Alphabet, src: seq<Byte>)
    ensures var t := Encode(Encoding(a, true), src);
      |t| % 4 == 0 &&
      forall i :: 0 <= i < |t| ==>
        InAlphabet(a, t[i]) || (t[i] == PadChar && i >= |t| - 2)
  {
  }

  /** A raw url-safe encoding uses only `[A-Za-z0-9-_]`, so in particular no '=', '.' or ','. */
  lemma RawUrlChars(src: seq<Byte>)
    ensures forall i :: 0 <= i < |Encode(RawURLEncoding, src)| ==>
      IsUrlSafeChar(Encode(RawURLEncoding, src)[i])
  {
    var t := Encode(RawURLEncoding, src);
    forall i | 0 <= i < |t| ensures IsUrlSafeChar(t[i]) {
      UrlAlphabetIsUrlSafe(t[i]);
    }
  }
}
