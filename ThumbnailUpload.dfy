/**
 * The thumbnail upload (handler_upload_thumbnail.go): the data URI of RFC 2397
 * that is stored as the thumbnail, and the ordered checks of
 * `handlerUploadThumbnail` as a function of the request, the outcomes of the
 * database calls and the table, giving the response, the calls made and the table after.
 */
module ThumbnailUpload {
  import opened Outcomes
  import opened Base64
  import opened Store
  import opened Requests

  const DataScheme := "data:"
  const Base64Marker := ";base64,"

  /** `fmt.Sprintf("data:%s;base64,%s", mediaType, base64.StdEncoding.EncodeToString(imgData))`. */
  function DataURI(mediaType: string, imgData: seq<Byte>): (uri: string)
    ensures |uri| == |DataScheme| + |mediaType| + |Base64Marker| + (|imgData| + 2) / 3 * 4
    ensures uri[..|DataScheme|] == DataScheme
  {
    DataScheme + mediaType + Base64Marker + Encode(StdEncoding, imgData)
  }

  /** The position of the last `c` in `s`, if any. */
  function LastIndexOf(s: string, c: char): (r: Option<nat>)
    ensures r.Some? ==> r.value < |s| && s[r.value] == c
    ensures r.Some? ==> forall j :: r.value < j < |s| ==> s[j] != c
    ensures r.None? ==> forall j :: 0 <= j < |s| ==> s[j] != c
    decreases |s|
  {
    if |s| == 0 then None
    else if s[|s| - 1] == c then Some(|s| - 1)
    else LastIndexOf(s[..|s| - 1], c)
  }

  /**
   * Reads a base 64 data URI back: the media type lies between "data:" and the
   * ";base64," that ends at the last ',' and the bytes are the padded base 64 after it.
   */
  function ParseDataURI(uri: string): Option<(string, seq<Byte>)>
  {
    match LastIndexOf(uri, ',')
    case None => None
    case Some(i) =>
      var head := uri[..i + 1];
      if |head| < |DataScheme| + |Base64Marker|
         || head[..|DataScheme|] != DataScheme
         || head[|head| - |Base64Marker|..] != Base64Marker
      then None
      else match Decode(StdEncoding, uri[i + 1..])
        case None => None
        case Some(data) => Some((head[|DataScheme|..|head| - |Base64Marker|], data))
  }

  /** The base 64 text of a data URI has no ','. */
  lemma PayloadHasNoComma(imgData: seq<Byte>)
    ensures forall j :: 0 <= j < |Encode(StdEncoding, imgData)| ==> Encode(StdEncoding, imgData)[j] != ','
  {
    PaddedAlphabet(Standard, imgData);
    assert !InAlphabet(Standard, ',');
  }

  /**
   * The stored URI determines the media type and the image bytes: parsing it gives
   * both back, whatever the (unchecked) media type contains.
   */
  lemma DataURIRoundTrip(mediaType: string, imgData: seq<Byte>)
    ensures ParseDataURI(DataURI(mediaType, imgData)) == Some((mediaType, imgData))
  {
    var uri := DataURI(mediaType, imgData);
    var head := DataScheme + mediaType + Base64Marker;
    var payload := Encode(StdEncoding, imgData);
    assert uri == head + payload;
    PayloadHasNoComma(imgData);
    var k := |head| - 1;
    assert uri[k] == ',';
    var r := LastIndexOf(uri, ',');
    assert r.Some? && r.value == k;
    assert uri[..k + 1] == head;
    assert uri[k + 1..] == payload;
    assert head[..|DataScheme|] == DataScheme;
    assert head[|head| - |Base64Marker|..] == Base64Marker;
    assert head[|DataScheme|..|head| - |Base64Marker|] == mediaType;
    DecodeEncode(StdEncoding, imgData);
  }

  /**
   * After ";base64," comes the padded base 64 of the image: `4 * ((n + 2) / 3)`
   * characters, a whole number of groups of four, that decode to the image.
   */
  lemma DataURIPayload(mediaType: string, imgData: seq<Byte>)
    ensures var payload := DataURI(mediaType, imgData)[|DataScheme + mediaType + Base64Marker|..];
      && payload == Encode(StdEncoding, imgData)
      && |payload| == 4 * ((|imgData| + 2) / 3)
      && |payload| % 4 == 0
      && Decode(StdEncoding, payload) == Some(imgData)
  {
    var head := DataScheme + mediaType + Base64Marker;
    assert DataURI(mediaType, imgData) == head + Encode(StdEncoding, imgData);
    PaddedLength(Standard, |imgData|);
    DecodeEncode(StdEncoding, imgData);
  }

  /** The outcomes of the two database calls. */
  datatype ThumbnailEnv = ThumbnailEnv(getFault: bool, updateFault: bool)

  /** The response, the calls made, and the video table afterwards. */
  datatype ThumbnailRun = ThumbnailRun(resp: Response, steps: seq<Step>, rows: map<UUID, Video>)

  /** The record `handlerUploadThumbnail` writes: the fetched one with only the thumbnail replaced. */
  function WithThumbnail(v: Video, form: FormFile): (w: Video)
    requires form.data.Some?
    ensures w.id == v.id && w.userID == v.userID && w.title == v.title
    ensures w.description == v.description && w.videoURL == v.videoURL
    ensures w.thumbnailURL.Some?
    ensures ParseDataURI(w.thumbnailURL.value) == Some((form.contentType, form.data.value))
  {
    DataURIRoundTrip(form.contentType, form.data.value);
    v.(thumbnailURL := Some(DataURI(form.contentType, form.data.value)))
  }

  /** Every check passes and every call succeeds: a well-formed request by the video's owner. */
  predicate ThumbnailAccepted(req: UploadRequest, env: ThumbnailEnv, rows: map<UUID, Video>)
  {
    && req.videoID.Some? && req.token.Some? && req.user.Some? && req.form.Some?
    && req.form.value.contentType != "" && req.form.value.data.Some?
    && !env.getFault && req.videoID.value in rows && rows[req.videoID.value].userID == req.user.value
    && !env.updateFault
  }

  /** `handlerUploadThumbnail`, check by check. */
  function UploadThumbnail(req: UploadRequest, env: ThumbnailEnv, rows: map<UUID, Video>): (run: ThumbnailRun)
    ensures run.resp.status == StatusOK <==> ThumbnailAccepted(req, env, rows)
    ensures run.resp.status != StatusOK ==> run.rows == rows
  {
    if req.videoID.None? then
      ThumbnailRun(ErrorResponse(StatusBadRequest, "Invalid ID"), [], rows)
    else if req.token.None? then
      ThumbnailRun(ErrorResponse(StatusUnauthorized, "Couldn't find JWT"), [], rows)
    else if req.user.None? then
      ThumbnailRun(ErrorResponse(StatusUnauthorized, "Couldn't validate JWT"), [], rows)
    else if req.form.None? then
      ThumbnailRun(ErrorResponse(StatusBadRequest, "Couldn't get file from form"), [FormFileCall], rows)
    else if req.form.value.contentType == "" then
      ThumbnailRun(ErrorResponse(StatusBadRequest, "Missing Content-Type for thumbnail"), [FormFileCall], rows)
    else if req.form.value.data.None? then
      ThumbnailRun(ErrorResponse(StatusInternalServerError, "Couldn't read file data"),
        [FormFileCall, ReadAllCall], rows)
    else
      var id := req.videoID.value;
      var fetched := [FormFileCall, ReadAllCall, GetVideoCall(id)];
      if env.getFault || id !in rows then
        ThumbnailRun(ErrorResponse(StatusInternalServerError, "Couldn't get video metadata"), fetched, rows)
      else if rows[id].userID != req.user.value then
        ThumbnailRun(ErrorResponse(StatusUnauthorized, NotOwnerMessage), fetched, rows)
      else
        var video := WithThumbnail(rows[id], req.form.value);
        var steps := fetched + [UpdateVideoCall(video)];
        if env.updateFault then
          ThumbnailRun(ErrorResponse(StatusInternalServerError,
            "Couldn't update video metadata with thumbnail URL"), steps, rows)
        else
          ThumbnailRun(Response(StatusOK, VideoBody(video)), steps, rows[video.id := video])
  }

  /**
   * Success and only success changes the table: it then replaces exactly the
   * requested record, changing only its thumbnail, which becomes the data URI of
   * the uploaded bytes with the Content-Type embedded verbatim.
   */
  lemma ThumbnailSuccess(req: UploadRequest, env: ThumbnailEnv, rows: map<UUID, Video>)
    ensures var run := UploadThumbnail(req, env, rows);
      run.resp.status != StatusOK ==> run.rows == rows
    ensures var run := UploadThumbnail(req, env, rows);
      run.resp.status == StatusOK ==>
        && req.videoID.Some? && req.user.Some? && req.form.Some? && req.form.value.data.Some?
        && req.form.value.contentType != ""
        && req.videoID.value in rows && rows[req.videoID.value].userID == req.user.value
        && var before := rows[req.videoID.value];
           var after := before.(thumbnailURL := Some(
             DataScheme + req.form.value.contentType + Base64Marker
             + Encode(StdEncoding, req.form.value.data.value)));
           && run.rows == rows[before.id := after]
           && run.resp.body == VideoBody(after)
  {
  }

  /** When every call succeeds and the requester owns the video, the upload succeeds. */
  lemma ThumbnailSucceedsWhenAllSucceed(req: UploadRequest, env: ThumbnailEnv, rows: map<UUID, Video>)
    requires req.videoID.Some? && req.token.Some? && req.user.Some? && req.form.Some?
    requires req.form.value.contentType != "" && req.form.value.data.Some?
    requires !env.getFault && !env.updateFault
    requires req.videoID.value in rows && rows[req.videoID.value].userID == req.user.value
    ensures UploadThumbnail(req, env, rows).resp.status == StatusOK
  {
  }

  /** A bad id answers 400 and a missing or invalid token 401, before the form or the table is touched. */
  lemma ThumbnailRequestChecks(req: UploadRequest, env: ThumbnailEnv, rows: map<UUID, Video>)
    ensures req.videoID.None? ==> UploadThumbnail(req, env, rows).resp.status == StatusBadRequest
    ensures req.videoID.Some? && (req.token.None? || req.user.None?) ==>
      UploadThumbnail(req, env, rows).resp.status == StatusUnauthorized
    ensures req.videoID.None? || req.token.None? || req.user.None? ==>
      UploadThumbnail(req, env, rows).steps == []
  {
  }

  /** A missing Content-Type answers 400 without reading the file or the table. */
  lemma ThumbnailMissingContentType(req: UploadRequest, env: ThumbnailEnv, rows: map<UUID, Video>)
    requires req.videoID.Some? && req.token.Some? && req.user.Some?
    requires req.form.Some? && req.form.value.contentType == ""
    ensures UploadThumbnail(req, env, rows).resp.status == StatusBadRequest
    ensures UploadThumbnail(req, env, rows).steps == [FormFileCall]
    ensures UploadThumbnail(req, env, rows).rows == rows
  {
  }

  /** A failed read answers 500 before the video is fetched. */
  lemma ThumbnailReadFailure(req: UploadRequest, env: ThumbnailEnv, rows: map<UUID, Video>)
    requires req.videoID.Some? && req.token.Some? && req.user.Some?
    requires req.form.Some? && req.form.value.contentType != "" && req.form.value.data.None?
    ensures UploadThumbnail(req, env, rows).resp.status == StatusInternalServerError
    ensures UploadThumbnail(req, env, rows).steps == [FormFileCall, ReadAllCall]
  {
  }

  /** Somebody else's video answers 401 and is never written. */
  lemma ThumbnailNotOwner(req: UploadRequest, env: ThumbnailEnv, rows: map<UUID, Video>)
    requires req.videoID.Some? && req.token.Some? && req.user.Some? && req.form.Some?
    requires req.form.value.contentType != "" && req.form.value.data.Some?
    requires !env.getFault && req.videoID.value in rows
    requires rows[req.videoID.value].userID != req.user.value
    ensures UploadThumbnail(req, env, rows).resp.status == StatusUnauthorized
    ensures forall i :: 0 <= i < |UploadThumbnail(req, env, rows).steps| ==>
      !UploadThumbnail(req, env, rows).steps[i].UpdateVideoCall?
    ensures UploadThumbnail(req, env, rows).rows == rows
  {
  }

  /**
   * On a table whose rows sit under their own ids, a successful upload replaces
   * the requested row and adds none, and the table stays keyed.
   */
  lemma ThumbnailKeepsTableKeyed(req: UploadRequest, env: ThumbnailEnv, rows: map<UUID, Video>)
    requires Keyed(rows)
    ensures var run := UploadThumbnail(req, env, rows);
      && Keyed(run.rows)
      && run.rows.Keys == rows.Keys
      && (run.resp.status == StatusOK ==>
            run.resp.body.VideoBody? && run.rows == rows[req.videoID.value := run.resp.body.video])
  {
    ThumbnailSuccess(req, env, rows);
  }
}
