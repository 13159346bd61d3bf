# Tubely upload handlers, modelled in Dafny

Tubely is a small video-sharing service. Its API server stores video files in S3
and keeps thumbnails as data URIs in the database. This project models three of
its files:

- `assets.go`: how an asset key is made. It maps a media type to an extension,
  draws 32 random bytes, encodes them in unpadded URL-safe base 64 and appends the
  extension. It also builds the local asset URL.
- `handler_upload_thumbnail.go`: the thumbnail upload handler. It checks the
  request, reads the file, checks ownership, builds a `data:` URI with the
  padded standard base 64 of the image, and writes it to the video record.
- `handler_upload_video.go`: the video upload handler. It checks the request and
  ownership, checks that the media type is mp4, and spools the upload to a
  temporary file. It then rewinds the file, makes a key and puts the object to
  S3. Only after the put succeeds does it write the object URL to the record.
  The temporary file is removed on every exit.

Modules:

- `Outcomes`: `Option` and `Result`.
- `Base64`: RFC 4648 in Go's two forms. `StdEncoding` is the alphabet of
  section 4 with '=' padding. `RawURLEncoding` is the alphabet of section 5
  without padding, as section 3.2 permits. Both directions are modelled, with
  round-trip, length, alphabet and injectivity lemmas.
- `Assets`: `mediaTypeToExtension`, `getAssetPath` and `getAssetURL`. The
  outcome of `rand.Read` is an input.
- `Store`: the collaborators whose state the handlers change, as classes with
  mutable fields:
  - the video table (`Database.rows`);
  - the object store (`ObjectStore.objects`);
  - the temporary-file system (`FileSystem.files`, `OpenFile.offset`).
- `Requests`: the parsed request, the response, and `Step`. A `Step` records one
  call to a collaborator. A handler's list of steps is its call trace.
- `ThumbnailUpload` and `VideoUpload`: each handler's check ladder as a function
  of the request, the outcomes of the external calls and the current state. The
  function gives the response, the trace and the new state. The lemmas about
  these functions state what the handlers promise.
- `Handlers`: `apiConfig` as the class `ApiConfig`, with the two handlers as
  imperative early-return methods. Each method's postcondition says its response,
  trace and new state are those of the matching function.

The result of each external call is a parameter:

- `uuid.Parse`, `auth.GetBearerToken`, `auth.ValidateJWT`;
- `FormFile` and `io.ReadAll`/`io.Copy` on the form file;
- `mime.ParseMediaType`, the name `os.CreateTemp` picks, and the outcome of `Seek`;
- the 32 bytes of `rand.Read`;
- whether `GetVideo`, `PutObject` or `UpdateVideo` fails.

`getObjectURL` is an uninterpreted function held by `ApiConfig`.

Facts of the code that shape the model:

- The key's name is 32 random bytes in unpadded URL-safe base 64 (43
  characters), followed by `.` and the extension. The key has no directory part.
- A `video/mp4` upload is stored under a key ending in `.bin`, because
  `mediaTypeToExtension` has no video case.
- The video handler checks ownership right after the fetch, before the form is
  read. So the one object an upload can leave orphaned is one whose record
  update failed after the put.

## Model

| member | source | states |
|---|---|---|
| Base64.SextetChar | assets.go:27 | the character written for a 6-bit value decodes back to that value, in either alphabet |
| Base64.UrlAlphabetIsUrlSafe | assets.go:27 | the URL-safe alphabet is exactly `[A-Za-z0-9-_]`; '=' belongs to neither alphabet |
| Base64.Pack | assets.go:27 | three bytes become four 6-bit values; a final partial group of one or two bytes becomes two or three; the count equals Go's unpadded `EncodedLen` |
| Base64.UnpackPack | assets.go:27 | regrouping the 6-bit values gives back every byte exactly |
| Base64.Chars | handler_upload_thumbnail.go:74 | each 6-bit value becomes one alphabet character that decodes back to it |
| Base64.SextetsChars | handler_upload_thumbnail.go:74 | reading the characters back gives the 6-bit values |
| Base64.EncodeRaw | assets.go:27 | the unpadded text has Go's `EncodedLen` length and uses only alphabet characters |
| Base64.Encode | handler_upload_thumbnail.go:74 | the text has the length Go's `EncodedLen` gives for the encoding, padded or not |
| Base64.DecodeRawEncodeRaw | assets.go:27 | decoding unpadded text gives the bytes back |
| Base64.DecodeEncode | handler_upload_thumbnail.go:74 | for both encodings, decoding what `EncodeToString` writes gives the original bytes |
| Base64.EncodeInjective | assets.go:27 | different byte strings give different texts |
| Base64.PaddedLength | handler_upload_thumbnail.go:74 | padded text is always a multiple of four long |
| Base64.StripEncodePadded | handler_upload_thumbnail.go:74 | padded text is the unpadded text followed by '=' padding only |
| Base64.PaddedAlphabet | handler_upload_thumbnail.go:74 | padded text is a multiple of four long; each character is in the alphabet or is an '=' in the last two positions |
| Base64.RawUrlChars | assets.go:27 | every character of `RawURLEncoding` text is in `[A-Za-z0-9-_]` |
| Assets.MediaTypeToExtension | assets.go:41-52 | the lookup is total; its result is one of jpg, png, gif, bin; it is bin exactly when the type is not one of the three image types |
| Assets.ExtensionTable | assets.go:42-48 | jpg, png and gif come from image/jpeg, image/png and image/gif and from nothing else |
| Assets.UnlistedTypesAreBin | assets.go:49-50 | video/mp4, the empty string, a type with parameters and an upper-case type all map to bin |
| Assets.FileName | assets.go:27 | the name has Go's unpadded `EncodedLen` length and decodes back to the random bytes |
| Assets.GetAssetPath | assets.go:18-31 | the key fails exactly when the random read fails, and the error wraps that read's error; a key is 47 characters |
| Assets.FileNameShape | assets.go:20-27 | 32 bytes give a 43-character name of URL-safe characters with no '=' and no '.' |
| Assets.AssetKeyFormat | assets.go:27-30 | the key is name "." extension, holds exactly one '.', and splitting at it gives back the name and the extension |
| Assets.AssetKeyInjective | assets.go:27-30 | different random bytes give different keys, whatever the two media types |
| Assets.GetAssetURL | assets.go:37-39 | the URL starts with `http://localhost:`, then the port and `/assets/`, and ends with the asset path |
| Assets.AssetURLRoundTrip | assets.go:37-39 | for a given port the asset path can be read back from the URL |
| ThumbnailUpload.DataURI | handler_upload_thumbnail.go:74-76 | the URI starts with `data:`; its length is the scheme, the media type, `;base64,` and `4*((n+2)/3)` characters of payload |
| ThumbnailUpload.PayloadHasNoComma | handler_upload_thumbnail.go:74 | the base 64 payload holds no ',' |
| ThumbnailUpload.DataURIRoundTrip | handler_upload_thumbnail.go:74-76 | parsing the URI at its last ',' gives back the media type verbatim and the image bytes |
| ThumbnailUpload.DataURIPayload | handler_upload_thumbnail.go:74-76 | the text after `;base64,` is the padded standard encoding, `4*((n+2)/3)` long, and decodes to the image bytes |
| ThumbnailUpload.WithThumbnail | handler_upload_thumbnail.go:74-78 | the record keeps its id, owner, title, description and video URL; its thumbnail URL parses back to the Content-Type and the image bytes |
| ThumbnailUpload.UploadThumbnail | handler_upload_thumbnail.go:13-89 | the answer is 200 exactly when every check passes and every call succeeds; any other answer leaves the table unchanged |
| ThumbnailUpload.ThumbnailRequestChecks | handler_upload_thumbnail.go:14-31 | a bad id answers 400 and a missing or invalid token 401, with no call to the form or the table |
| ThumbnailUpload.ThumbnailMissingContentType | handler_upload_thumbnail.go:48-52 | an empty Content-Type answers 400 after the form call alone and leaves the table unchanged |
| ThumbnailUpload.ThumbnailReadFailure | handler_upload_thumbnail.go:55-66 | a failed read answers 500 before the video is fetched |
| ThumbnailUpload.ThumbnailNotOwner | handler_upload_thumbnail.go:68-71 | somebody else's video answers 401, `UpdateVideo` is never called and the table is unchanged |
| ThumbnailUpload.ThumbnailSuccess | handler_upload_thumbnail.go:48-87 | only a 200 changes the table; it then writes, under its own id, a copy of the fetched record whose only change is a thumbnail URL holding the Content-Type verbatim and the padded base 64 of the bytes, and returns that record |
| ThumbnailUpload.ThumbnailKeepsTableKeyed | handler_upload_thumbnail.go:62-87 | on a table whose rows sit under their own ids, the table stays so, no row is added, and a 200 replaces exactly the requested row with the returned record |
| ThumbnailUpload.ThumbnailSucceedsWhenAllSucceed | handler_upload_thumbnail.go:13-89 | when every call succeeds and the requester owns the video, the answer is 200 |
| Store.TempPath | handler_upload_video.go:87 | the path is the directory, '/', the pattern's prefix, the random part and the pattern's suffix, in that order |
| VideoUpload.TempFileName | handler_upload_video.go:87 | the temporary file's name starts with the directory and `tubely-upload-` and ends with `.` and the header's extension |
| VideoUpload.UploadVideo | handler_upload_video.go:17-142 | the answer is 200 exactly when every check passes and every call succeeds; any other answer leaves the table unchanged |
| VideoUpload.UploadTempFile | handler_upload_video.go:92-140 | once the temporary file exists, the answer is 200 exactly when the copy, rewind, random read, put and update all succeed; any other answer leaves the table unchanged |
| VideoUpload.StoreVideo | handler_upload_video.go:117-140 | after the key is made, the answer is 200 exactly when the put and the update succeed; any other answer leaves the table unchanged |
| VideoUpload.VideoRequestChecks | handler_upload_video.go:23-42 | a bad id answers 400 and a missing or invalid token 401, before any call |
| VideoUpload.VideoNotOwner | handler_upload_video.go:51-54 | somebody else's video answers 401 after the fetch alone: no form read, no temporary file, no put, tables unchanged |
| VideoUpload.VideoMediaTypeRejected | handler_upload_video.go:65-84 | an empty, unparseable or non-mp4 Content-Type answers 400 before a temporary file is created |
| VideoUpload.VideoSuccess | handler_upload_video.go:110-140 | only a 200 changes the table; it then sets only the video URL, to the object URL of the key made from the raw header, and the object under that key holds the uploaded bytes typed with the header |
| VideoUpload.VideoSucceedsWhenAllSucceed | handler_upload_video.go:17-142 | when every call succeeds, the requester owns the video and the type is mp4, the answer is 200 |
| VideoUpload.VideoKeyEndsInBin | handler_upload_video.go:72-132 | when the media-type parse returns a tabled image type as itself, as `mime.ParseMediaType` does, every 200 stores a URL for a key ending in `.bin` |
| VideoUpload.VideoCallOrder | handler_upload_video.go:87-137 | on every path: a put follows a successful rewind and sends the request's bytes with the header as content type; the update follows a successful put and stores the URL of the key just put; once the temporary file exists, the last call removes it |
| VideoUpload.VideoSeekFailure | handler_upload_video.go:104-107 | a failed rewind never answers 200, puts nothing and leaves the object store unchanged; once the rewind is reached it answers 500, and the only call after the seek removes the temporary file |
| VideoUpload.VideoKeepsTableKeyed | handler_upload_video.go:45-140 | on a table whose rows sit under their own ids, the table stays so, no row is added, and a 200 replaces exactly the requested row with the returned record |
| VideoUpload.VideoOrphanOnUpdateFailure | handler_upload_video.go:124-137 | a failed update after a successful put answers 500, leaves the table unchanged, and the object stays stored |
| Store.Database.GetVideo | handler_upload_video.go:45-49 | the fetch succeeds exactly when it does not fail and the id is in the table, and then returns that row |
| Store.Database.UpdateVideo | handler_upload_video.go:134-137 | a successful update replaces the row under the record's id; a failed one changes nothing |
| Store.ObjectStore.PutObject | handler_upload_video.go:117-128 | a successful put stores the body and content type under bucket and key; a failed one changes nothing |
| Store.FileSystem.CreateTemp | handler_upload_video.go:87-91 | a new, empty file at offset 0 exists exactly when a name was drawn and it was free |
| Store.FileSystem.Copy | handler_upload_video.go:96-99 | a successful copy appends the upload to the file and moves the offset to its end |
| Store.FileSystem.SeekStart | handler_upload_video.go:104-107 | a successful seek puts the offset back to 0 |
| Store.FileSystem.ReadRest | handler_upload_video.go:117-124 | the put's body is the file from the current offset to its end |
| Store.FileSystem.Remove | handler_upload_video.go:92 | the file is gone and no other file changes |
| Handlers.ApiConfig.HandlerUploadThumbnail | handler_upload_thumbnail.go:13-89 | the method's response, calls and new table are those of `ThumbnailUpload.UploadThumbnail` |
| Handlers.ApiConfig.HandlerUploadVideo | handler_upload_video.go:17-142 | the method's response, calls, new table and new object store are those of `VideoUpload.UploadVideo`; the temporary files are as before the call |
| Handlers.ApiConfig.UploadTempFile | handler_upload_video.go:92-140 | once the temporary file exists, copy, rewind, key, put and update match `VideoUpload.UploadTempFile`, and the file is removed |
| Handlers.ApiConfig.StoreVideo | handler_upload_video.go:117-140 | reading the rewound file, the put and the update match `VideoUpload.StoreVideo`, and the file is removed |

## Left out

- HTTP framing is not modelled. This covers `PathValue`, `respondWithError`/`respondWithJSON`, the JSON encoding of the video record and `ParseMultipartForm`. The parse's ignored error and `MaxBytesReader`'s 1 GB limit show up only as a failed `FormFile` or a failed copy.
- `uuid.Parse`, `auth.GetBearerToken`, `auth.ValidateJWT` and `mime.ParseMediaType` are oracles: their outcomes are inputs. The `auth` package is not part of this model.
- `getObjectURL` is not part of this model. It is an uninterpreted function of the key.
- The database package is not part of this model. A video is a row keyed by its id with the fields the handlers touch. Timestamps and other columns are left out.
- `crypto/rand` is an input: either 32 bytes or a read error.
- `ensureAssetsDir` and `getAssetDiskPath` are left out. They are not on either handler's path, and `filepath.Join`'s path cleaning is library behaviour.
- `os.CreateTemp`'s directory lookup and random name are left out. They are the parameters `tempDir` and `tempNonce`, and the name pattern puts the nonce where the `*` is.
- The copy is all or nothing. A partial `io.Copy` that fails midway, `file.Close`, and an ignored `os.Remove` error are not modelled.
- `fmt.Println` logging is left out.
- Context cancellation and concurrent requests are left out.
- The `Base64` decoder is specified only as the inverse of the encoder (`DecodeEncode`). Its behaviour on text the encoder never writes is not modelled: non-canonical trailing bits, newlines, and Go's error offsets. The handlers never decode.
- Strings are Dafny `string`, a sequence of characters, where Go's are byte sequences. Lengths such as the one in `ThumbnailUpload.DataURI`'s contract count characters, which differs from Go's byte count for a non-ASCII Content-Type.
- Store.FileSystem.CreateTemp: a name already taken makes the call fail. Go's `os.CreateTemp` draws another name instead, and fails only after many taken draws. The nonce stands for the draw it settles on.
- Store.Database.UpdateVideo: writes the row under the record's id even when no such row exists, where an SQL `UPDATE` would change nothing. On a table keyed by id the handlers only ever write a row that exists (`ThumbnailKeepsTableKeyed`, `VideoKeepsTableKeyed`).
- VideoUpload.VideoKeyEndsInBin: holds under `MimeParseSound`, which states what `mime.ParseMediaType` returns for the three tabled image types. The parse is otherwise an unconstrained input.
