/**
 * Storage keys and asset URLs (assets.go): the extension table, the random
 * key `<name>.<ext>` whose name is 32 random bytes in unpadded url-safe base 64,
 * and the local asset URL.
 */
module Assets {
  import opened Outcomes
  import opened Base64

  /** The number of random bytes drawn for one key (the buffer `getAssetPath` allocates). */
  const RandomByteCount := 32

  /** The length of the name part of a key: 32 bytes in unpadded base 64. */
  const FileNameLength := 43

  const KnownExtensions: set<string> := {"jpg", "png", "gif", "bin"}

  /** The media types the extension table names; every other string maps to "bin". */
  const TabledMediaTypes: set<string> := {"image/jpeg", "image/png", "image/gif"}

  /** `mediaTypeToExtension`: a total lookup on the exact media-type string. */
  function MediaTypeToExtension(mediaType: string): (ext: string)
    ensures ext in KnownExtensions && |ext| == 3
    ensures ext == "bin" <==> mediaType !in TabledMediaTypes
  {
    if mediaType == "image/jpeg" then "jpg"
    else if mediaType == "image/png" then "png"
    else if mediaType == "image/gif" then "gif"
    else "bin"
  }

  /** The table maps each named image type to its own extension and nothing else to it. */
  lemma ExtensionTable(mediaType: string)
    ensures MediaTypeToExtension(mediaType) == "jpg" <==> mediaType == "image/jpeg"
    ensures MediaTypeToExtension(mediaType) == "png" <==> mediaType == "image/png"
    ensures MediaTypeToExtension(mediaType) == "gif" <==> mediaType == "image/gif"
  {
  }

  /** No case for video, for the empty string, for parameters or for other letter case. */
  lemma UnlistedTypesAreBin()
    ensures MediaTypeToExtension("video/mp4") == "bin"
    ensures MediaTypeToExtension("") == "bin"
    ensures MediaTypeToExtension("image/png; q=1") == "bin"
    ensures MediaTypeToExtension("IMAGE/PNG") == "bin"
  {
    assert "video/mp4" !in TabledMediaTypes;
    assert "image/png; q=1" !in TabledMediaTypes;
    assert "IMAGE/PNG" !in TabledMediaTypes;
  }

  /** The outcome of `rand.Read` on the 32-byte buffer. */
  datatype RandomRead = Filled(bytes: seq<Byte>) | ReadFailed(cause: string)

  const RandomErrorPrefix := "couldn't generate random bytes for thumbnail filename: "

  /** The name part of a key: the random bytes in unpadded url-safe base 64. */
  function FileName(bytes: seq<Byte>): (name: string)
    ensures |name| == EncodedLen(RawURLEncoding, |bytes|)
    ensures Decode(RawURLEncoding, name) == Some(bytes)
  {
    DecodeEncode(RawURLEncoding, bytes);
    Encode(RawURLEncoding, bytes)
  }

  /** `getAssetPath`: `<name>.<ext>`, or the wrapped error when the random read fails. */
  function GetAssetPath(mediaType: string, random: RandomRead): (r: Result<string>)
    requires random.Filled? ==> |random.bytes| == RandomByteCount
    ensures r.Err? <==> random.ReadFailed?
    ensures random.ReadFailed? ==> r == Err(RandomErrorPrefix + random.cause)
    ensures r.Ok? ==> |r.value| == FileNameLength + 1 + 3
  {
    match random
    case ReadFailed(cause) => Err(RandomErrorPrefix + cause)
    case Filled(bytes) => Ok(FileName(bytes) + "." + MediaTypeToExtension(mediaType))
  }

  /** 32 bytes give a 43-character name made only of `[A-Za-z0-9-_]`, with no '=' padding. */
  lemma FileNameShape(bytes: seq<Byte>)
    requires |bytes| == RandomByteCount
    ensures |FileName(bytes)| == FileNameLength
    ensures forall i :: 0 <= i < |FileName(bytes)| ==> IsUrlSafeChar(FileName(bytes)[i])
    ensures PadChar !in FileName(bytes) && '.' !in FileName(bytes)
  {
    RawUrlChars(bytes);
  }

  /** The number of occurrences of `c` in `s`. */
  function Count(s: string, c: char): nat
  {
    if |s| == 0 then 0 else (if s[0] == c then 1 else 0) + Count(s[1..], c)
  }

  lemma {:induction false} CountAppend(s: string, t: string, c: char)
    ensures Count(s + t, c) == Count(s, c) + Count(t, c)
    decreases |s|
  {
    if |s| > 0 {
      assert (s + t)[1..] == s[1..] + t;
      CountAppend(s[1..], t, c);
    } else {
      assert s + t == t;
    }
  }

  lemma {:induction false} CountAbsent(s: string, c: char)
    requires c !in s
    ensures Count(s, c) == 0
    decreases |s|
  {
    if |s| > 0 {
      CountAbsent(s[1..], c);
    }
  }

  /** The position of the first `c` in `s`, or `|s|` when there is none. */
  function FirstIndexOf(s: string, c: char): (i: nat)
    ensures i <= |s|
    ensures i < |s| ==> s[i] == c
    ensures forall j :: 0 <= j < i ==> s[j] != c
    decreases |s|
  {
    if |s| == 0 then 0 else if s[0] == c then 0 else 1 + FirstIndexOf(s[1..], c)
  }

  /** Splits a key at its first '.', into name and extension. */
  function SplitKey(key: string): Option<(string, string)>
  {
    var i := FirstIndexOf(key, '.');
    if i == |key| then None else Some((key[..i], key[i + 1..]))
  }

  /**
   * A key holds exactly one '.', and splitting at it gives back the name and
   * the extension it was built from.
   */
  lemma AssetKeyFormat(mediaType: string, bytes: seq<Byte>)
    requires |bytes| == RandomByteCount
    ensures var key := GetAssetPath(mediaType, Filled(bytes)).value;
      && key == FileName(bytes) + "." + MediaTypeToExtension(mediaType)
      && Count(key, '.') == 1
      && SplitKey(key) == Some((FileName(bytes), MediaTypeToExtension(mediaType)))
  {
    var name, ext := FileName(bytes), MediaTypeToExtension(mediaType);
    var key := name + "." + ext;
    FileNameShape(bytes);
    CountAppend(name, "." + ext, '.');
    CountAppend(".", ext, '.');
    CountAbsent(name, '.');
    CountAbsent(ext, '.');
    assert key == name + ("." + ext);
    assert Count(".", '.') == 1 by { assert "."[1..] == ""; }
    assert key[FileNameLength] == '.';
    assert FirstIndexOf(key, '.') == FileNameLength;
    assert key[..FileNameLength] == name;
    assert key[FileNameLength + 1..] == ext;
  }

  /** Distinct random draws give distinct keys, whatever the two media types. */
  lemma AssetKeyInjective(mt1: string, mt2: string, b1: seq<Byte>, b2: seq<Byte>)
    requires |b1| == RandomByteCount && |b2| == RandomByteCount
    requires b1 != b2
    ensures GetAssetPath(mt1, Filled(b1)) != GetAssetPath(mt2, Filled(b2))
  {
    AssetKeyFormat(mt1, b1);
    AssetKeyFormat(mt2, b2);
    if GetAssetPath(mt1, Filled(b1)) == GetAssetPath(mt2, Filled(b2)) {
      EncodeInjective(RawURLEncoding, b1, b2);
    }
  }

  const AssetURLPrefix := "http://localhost:"
  const AssetURLPath := "/assets/"

  /** `getAssetURL`, with the configured port as a parameter. */
  function GetAssetURL(port: string, assetPath: string): (url: string)
    ensures |url| == |AssetURLPrefix| + |port| + |AssetURLPath| + |assetPath|
    ensures url[..|AssetURLPrefix|] == AssetURLPrefix
    ensures url[|url| - |assetPath|..] == assetPath
  {
    AssetURLPrefix + port + AssetURLPath + assetPath
  }

  /** The asset path of a local asset URL for the given port. */
  function AssetPathOf(port: string, url: string): Option<string>
  {
    var head := AssetURLPrefix + port + AssetURLPath;
    if |url| >= |head| && url[..|head|] == head then Some(url[|head|..]) else None
  }

  /** The URL determines the asset path it was built from. */
  lemma AssetURLRoundTrip(port: string, assetPath: string)
    ensures AssetPathOf(port, GetAssetURL(port, assetPath)) == Some(assetPath)
  {
    var head := AssetURLPrefix + port + AssetURLPath;
    assert GetAssetURL(port, assetPath) == head + assetPath;
  }
}
