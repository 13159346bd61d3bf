/**
 * The video upload (handler_upload_video.go): the ordered checks, the temporary
 * file, the upload and the commit of `handlerUploadVideo`, as a function of the
 * request, the outcomes of the external calls and the collaborators' state,
 * giving the response, the calls made, and the table and store afterwards.
 */
module VideoUpload {
  import opened Outcomes
  import opened Base64
  import opened Assets
  import opened Store
  import opened Requests

  /** The only media type the handler accepts, after `mime.ParseMediaType`. */
  const AcceptedMimeType := "video/mp4"

  /** The pattern `tubely-upload-*.<ext>` of the temporary file, split at '*'. */
  const TempPrefix := "tubely-upload-"

  /**
   * The outcomes of the calls `handlerUploadVideo` makes besides reading the
   * request: `GetVideo`, `mime.ParseMediaType` on the header, `os.CreateTemp`
   * (the temporary directory and the random part of the name, None on failure),
   * `Seek`, `rand.Read`, `PutObject` and `UpdateVideo`.
   */
  datatype VideoEnv = VideoEnv(
    getFault: bool,
    mimeType: Option<string>,
    tempDir: string,
    tempNonce: Option<string>,
    seekOk: bool,
    random: RandomRead,
    putFault: bool,
    updateFault: bool)

  /** What the upload needs from `apiConfig`: the bucket and `getObjectURL`, which is not part of this model. */
  datatype StoreConfig = StoreConfig(bucket: string, objectURL: string -> string)

  /** The response, the calls made, and the table and the store afterwards. */
  datatype VideoRun = VideoRun(
    resp: Response,
    steps: seq<Step>,
    rows: map<UUID, Video>,
    objects: map<ObjectRef, StoredObject>)

  /** The temporary file's path for a Content-Type header. */
  function TempFileName(env: VideoEnv, mediaType: string): (name: string)
    requires env.tempNonce.Some?
    ensures |name| == |env.tempDir| + 1 + |TempPrefix| + |env.tempNonce.value| + 4
    ensures name[..|env.tempDir| + 1 + |TempPrefix|] == env.tempDir + "/" + TempPrefix
    ensures name[|name| - 4..] == "." + MediaTypeToExtension(mediaType)
  {
    TempPath(env.tempDir, TempPrefix, env.tempNonce.value, "." + MediaTypeToExtension(mediaType))
  }

  /**
   * Every check up to `os.CreateTemp` passes: a well-formed request by the video's
   * owner, an mp4 upload, and a free temporary file name.
   */
  predicate ReachesTempFile(req: UploadRequest, env: VideoEnv, rows: map<UUID, Video>, existing: set<string>)
  {
    && req.videoID.Some? && req.token.Some? && req.user.Some? && req.form.Some?
    && !env.getFault && req.videoID.value in rows && rows[req.videoID.value].userID == req.user.value
    && req.form.value.contentType != "" && env.mimeType == Some(AcceptedMimeType)
    && env.tempNonce.Some? && TempFileName(env, req.form.value.contentType) !in existing
  }

  /** Every check passes and every call succeeds. */
  predicate VideoAccepted(req: UploadRequest, env: VideoEnv, rows: map<UUID, Video>, existing: set<string>)
  {
    && ReachesTempFile(req, env, rows, existing)
    && req.form.value.data.Some? && env.seekOk && env.random.Filled?
    && !env.putFault && !env.updateFault
  }

  /**
   * `mime.ParseMediaType` lower-cases the type and drops parameters, so a header
   * that is one of the tabled image types parses to itself.
   */
  predicate MimeParseSound(req: UploadRequest, env: VideoEnv)
  {
    req.form.Some? && env.mimeType.Some? && req.form.value.contentType in TabledMediaTypes ==>
      env.mimeType.value == req.form.value.contentType
  }

  /** `handlerUploadVideo`, check by check. */
  function UploadVideo(cfg: StoreConfig, req: UploadRequest, env: VideoEnv,
                       rows: map<UUID, Video>, objects: map<ObjectRef, StoredObject>,
                       existing: set<string>): (run: VideoRun)
    requires env.random.Filled? ==> |env.random.bytes| == RandomByteCount
    ensures run.resp.status == StatusOK <==> VideoAccepted(req, env, rows, existing)
    ensures run.resp.status != StatusOK ==> run.rows == rows
  {
    if req.videoID.None? then
      VideoRun(ErrorResponse(StatusBadRequest, "Invalid ID"), [], rows, objects)
    else if req.token.None? then
      VideoRun(ErrorResponse(StatusUnauthorized, "Couldn't find JWT"), [], rows, objects)
    else if req.user.None? then
      VideoRun(ErrorResponse(StatusUnauthorized, "Couldn't validate JWT"), [], rows, objects)
    else
      var id := req.videoID.value;
      if env.getFault || id !in rows then
        VideoRun(ErrorResponse(StatusInternalServerError, "Couldn't get video metadata"),
          [GetVideoCall(id)], rows, objects)
      else if rows[id].userID != req.user.value then
        VideoRun(ErrorResponse(StatusUnauthorized, NotOwnerMessage), [GetVideoCall(id)], rows, objects)
      else if req.form.None? then
        VideoRun(ErrorResponse(StatusBadRequest, "Couldn't get file from form"),
          [GetVideoCall(id), FormFileCall], rows, objects)
      else
        var mediaType := req.form.value.contentType;
        if mediaType == "" then
          VideoRun(ErrorResponse(StatusBadRequest, "Missing Content-Type"),
            [GetVideoCall(id), FormFileCall], rows, objects)
        else if env.mimeType.None? then
          VideoRun(ErrorResponse(StatusBadRequest, "Invalid Content-Type"),
            [GetVideoCall(id), FormFileCall], rows, objects)
        else if env.mimeType.value != AcceptedMimeType then
          VideoRun(ErrorResponse(StatusBadRequest, "Unsupported media type. Only video/mp4 is allowed"),
            [GetVideoCall(id), FormFileCall], rows, objects)
        else if env.tempNonce.None? || TempFileName(env, mediaType) in existing then
          VideoRun(ErrorResponse(StatusInternalServerError, "Couldn't create video file on server"),
            [GetVideoCall(id), FormFileCall], rows, objects)
        else
          UploadTempFile(cfg, env, rows, objects, id, mediaType, req.form.value.data,
                         TempFileName(env, mediaType))
  }

  /**
   * The part of `handlerUploadVideo` that runs once the temporary file `name`
   * exists: copy, rewind, key, put and update. Every exit ends by removing the file.
   */
  function UploadTempFile(cfg: StoreConfig, env: VideoEnv,
                          rows: map<UUID, Video>, objects: map<ObjectRef, StoredObject>,
                          id: UUID, mediaType: string, upload: Option<seq<Byte>>, name: string): (run: VideoRun)
    requires id in rows
    requires env.random.Filled? ==> |env.random.bytes| == RandomByteCount
    ensures run.resp.status == StatusOK <==>
      upload.Some? && env.seekOk && env.random.Filled? && !env.putFault && !env.updateFault
    ensures run.resp.status != StatusOK ==> run.rows == rows
  {
    if upload.None? then
      VideoRun(ErrorResponse(StatusInternalServerError, "Couldn't save video file on server"),
        [GetVideoCall(id), FormFileCall, TempCreated(name), CopyCall(name), TempRemoved(name)],
        rows, objects)
    else if !env.seekOk then
      VideoRun(ErrorResponse(StatusInternalServerError, "Couldn't reset file pointer for video upload"),
        [GetVideoCall(id), FormFileCall, TempCreated(name), CopyCall(name), SeekCall(name),
         TempRemoved(name)], rows, objects)
    else if GetAssetPath(mediaType, env.random).Err? then
      VideoRun(ErrorResponse(StatusInternalServerError, "Couldn't generate S3 object key"),
        [GetVideoCall(id), FormFileCall, TempCreated(name), CopyCall(name), SeekCall(name),
         TempRemoved(name)], rows, objects)
    else
      StoreVideo(cfg, env, rows, objects, id, mediaType, upload.value,
                 GetAssetPath(mediaType, env.random).value, name)
  }

  /**
   * The last part of `handlerUploadVideo`: the rewound file `name`, holding `data`,
   * is put under `key`, the row is updated, and the file is removed.
   */
  function StoreVideo(cfg: StoreConfig, env: VideoEnv,
                      rows: map<UUID, Video>, objects: map<ObjectRef, StoredObject>,
                      id: UUID, mediaType: string, data: seq<Byte>, key: string, name: string): (run: VideoRun)
    requires id in rows
    ensures run.resp.status == StatusOK <==> !env.putFault && !env.updateFault
    ensures run.resp.status != StatusOK ==> run.rows == rows
  {
    var put := PutObjectCall(ObjectRef(cfg.bucket, key), mediaType, data);
    if env.putFault then
      VideoRun(ErrorResponse(StatusInternalServerError, "Couldn't upload video to S3"),
        [GetVideoCall(id), FormFileCall, TempCreated(name), CopyCall(name), SeekCall(name), put,
         TempRemoved(name)], rows, objects)
    else
      var stored := objects[ObjectRef(cfg.bucket, key) := StoredObject(mediaType, data)];
      var video := rows[id].(videoURL := Some(cfg.objectURL(key)));
      var steps := [GetVideoCall(id), FormFileCall, TempCreated(name), CopyCall(name), SeekCall(name),
                    put, UpdateVideoCall(video), TempRemoved(name)];
      if env.updateFault then
        VideoRun(ErrorResponse(StatusInternalServerError,
          "Couldn't update video metadata with thumbnail URL"), steps, rows, stored)
      else
        VideoRun(Response(StatusOK, VideoBody(video)), steps, rows[video.id := video], stored)
  }

  /** What `UploadTempFile` leaves behind, stated for `UploadVideo`'s lemmas. */
  lemma TempFileOutcome(cfg: StoreConfig, env: VideoEnv,
                        rows: map<UUID, Video>, objects: map<ObjectRef, StoredObject>,
                        id: UUID, mediaType: string, upload: Option<seq<Byte>>, name: string)
    requires id in rows
    requires env.random.Filled? ==> |env.random.bytes| == RandomByteCount
    ensures var run := UploadTempFile(cfg, env, rows, objects, id, mediaType, upload, name);
      && (run.resp.status != StatusOK ==> run.rows == rows)
      && (!env.seekOk ==> run.resp.status != StatusOK && run.objects == objects)
      && (run.resp.status == StatusOK ==>
            && upload.Some? && env.random.Filled?
            && var key := FileName(env.random.bytes) + "." + MediaTypeToExtension(mediaType);
               var after := rows[id].(videoURL := Some(cfg.objectURL(key)));
               && run.rows == rows[rows[id].id := after]
               && run.resp.body == VideoBody(after)
               && run.objects == objects[ObjectRef(cfg.bucket, key) := StoredObject(mediaType, upload.value)])
  {
    if upload.Some? && env.seekOk && env.random.Filled? {
      var key := GetAssetPath(mediaType, env.random).value;
      assert UploadTempFile(cfg, env, rows, objects, id, mediaType, upload, name)
          == StoreVideo(cfg, env, rows, objects, id, mediaType, upload.value, key, name);
    }
  }

  /** A bad id answers 400 and a missing or invalid token 401, before the table is read. */
  lemma VideoRequestChecks(cfg: StoreConfig, req: UploadRequest, env: VideoEnv,
                           rows: map<UUID, Video>, objects: map<ObjectRef, StoredObject>, existing: set<string>)
    requires env.random.Filled? ==> |env.random.bytes| == RandomByteCount
    ensures req.videoID.None? ==>
      UploadVideo(cfg, req, env, rows, objects, existing).resp.status == StatusBadRequest
    ensures req.videoID.Some? && (req.token.None? || req.user.None?) ==>
      UploadVideo(cfg, req, env, rows, objects, existing).resp.status == StatusUnauthorized
    ensures req.videoID.None? || req.token.None? || req.user.None? ==>
      UploadVideo(cfg, req, env, rows, objects, existing).steps == []
  {
  }

  /** Somebody else's video answers 401 after the fetch alone: no form read, no temporary file, no upload. */
  lemma VideoNotOwner(cfg: StoreConfig, req: UploadRequest, env: VideoEnv,
                      rows: map<UUID, Video>, objects: map<ObjectRef, StoredObject>, existing: set<string>)
    requires env.random.Filled? ==> |env.random.bytes| == RandomByteCount
    requires req.videoID.Some? && req.token.Some? && req.user.Some?
    requires !env.getFault && req.videoID.value in rows
    requires rows[req.videoID.value].userID != req.user.value
    ensures var run := UploadVideo(cfg, req, env, rows, objects, existing);
      && run.resp.status == StatusUnauthorized
      && run.steps == [GetVideoCall(req.videoID.value)]
      && run.rows == rows && run.objects == objects
  {
  }

  /**
   * A missing, unparseable or non-mp4 Content-Type answers 400 before any
   * temporary file is created.
   */
  lemma VideoMediaTypeRejected(cfg: StoreConfig, req: UploadRequest, env: VideoEnv,
                               rows: map<UUID, Video>, objects: map<ObjectRef, StoredObject>, existing: set<string>)
    requires env.random.Filled? ==> |env.random.bytes| == RandomByteCount
    requires req.videoID.Some? && req.token.Some? && req.user.Some? && req.form.Some?
    requires !env.getFault && req.videoID.value in rows
    requires rows[req.videoID.value].userID == req.user.value
    requires req.form.value.contentType == "" || env.mimeType.None? || env.mimeType.value != AcceptedMimeType
    ensures var run := UploadVideo(cfg, req, env, rows, objects, existing);
      && run.resp.status == StatusBadRequest
      && run.steps == [GetVideoCall(req.videoID.value), FormFileCall]
      && run.rows == rows && run.objects == objects
  {
  }

  /**
   * The record is written only on success, and then only its video URL changes, to
   * the object URL of the key built from the raw Content-Type header; the object
   * stored under that key holds the uploaded bytes with that header as its type.
   */
  lemma VideoSuccess(cfg: StoreConfig, req: UploadRequest, env: VideoEnv,
                     rows: map<UUID, Video>, objects: map<ObjectRef, StoredObject>, existing: set<string>)
    requires env.random.Filled? ==> |env.random.bytes| == RandomByteCount
    ensures var run := UploadVideo(cfg, req, env, rows, objects, existing);
      run.resp.status != StatusOK ==> run.rows == rows
    ensures var run := UploadVideo(cfg, req, env, rows, objects, existing);
      run.resp.status == StatusOK ==>
        && req.videoID.Some? && req.videoID.value in rows && req.user.Some?
        && rows[req.videoID.value].userID == req.user.value
        && req.form.Some? && req.form.value.data.Some? && env.random.Filled?
        && env.mimeType == Some(AcceptedMimeType)
        && var header := req.form.value.contentType;
           var key := FileName(env.random.bytes) + "." + MediaTypeToExtension(header);
           var before := rows[req.videoID.value];
           var after := before.(videoURL := Some(cfg.objectURL(key)));
           && run.rows == rows[before.id := after]
           && run.resp.body == VideoBody(after)
           && run.objects == objects[ObjectRef(cfg.bucket, key) := StoredObject(header, req.form.value.data.value)]
  {
    if req.videoID.Some? && req.token.Some? && req.user.Some? {
      var id := req.videoID.value;
      if !env.getFault && id in rows && rows[id].userID == req.user.value && req.form.Some? {
        var mediaType := req.form.value.contentType;
        if mediaType != "" && env.mimeType == Some(AcceptedMimeType) && env.tempNonce.Some? {
          TempFileOutcome(cfg, env, rows, objects, id, mediaType, req.form.value.data,
                          TempFileName(env, mediaType));
        }
      }
    }
  }

  /** When every call succeeds, the requester owns the video and it is mp4, the upload succeeds. */
  lemma VideoSucceedsWhenAllSucceed(cfg: StoreConfig, req: UploadRequest, env: VideoEnv,
                                    rows: map<UUID, Video>, objects: map<ObjectRef, StoredObject>,
                                    existing: set<string>)
    requires req.videoID.Some? && req.token.Some? && req.user.Some? && req.form.Some?
    requires !env.getFault && req.videoID.value in rows && rows[req.videoID.value].userID == req.user.value
    requires req.form.value.contentType != "" && env.mimeType == Some(AcceptedMimeType)
    requires env.tempNonce.Some? && TempFileName(env, req.form.value.contentType) !in existing
    requires req.form.value.data.Some? && env.seekOk
    requires env.random.Filled? && |env.random.bytes| == RandomByteCount
    requires !env.putFault && !env.updateFault
    ensures UploadVideo(cfg, req, env, rows, objects, existing).resp.status == StatusOK
  {
  }

  /**
   * Every successful upload stores a URL for a key ending in ".bin": the header
   * parsed to "video/mp4", so it cannot be one of the tabled image types, which
   * parse to themselves, and the extension table maps every other header to bin.
   */
  lemma VideoKeyEndsInBin(cfg: StoreConfig, req: UploadRequest, env: VideoEnv,
                          rows: map<UUID, Video>, objects: map<ObjectRef, StoredObject>, existing: set<string>)
    requires env.random.Filled? ==> |env.random.bytes| == RandomByteCount
    requires MimeParseSound(req, env)
    requires UploadVideo(cfg, req, env, rows, objects, existing).resp.status == StatusOK
    ensures var body := UploadVideo(cfg, req, env, rows, objects, existing).resp.body;
      && env.random.Filled? && body.VideoBody?
      && body.video.videoURL == Some(cfg.objectURL(FileName(env.random.bytes) + ".bin"))
  {
    VideoSuccess(cfg, req, env, rows, objects, existing);
    var header := req.form.value.contentType;
    assert header !in TabledMediaTypes;
    var name := FileName(env.random.bytes);
    assert name + "." + MediaTypeToExtension(header) == name + ".bin";
  }

  /** The calls made before the put: fetch, form, and the temporary file created, written and rewound. */
  function Prepared(id: UUID, name: string): seq<Step>
  {
    [GetVideoCall(id), FormFileCall, TempCreated(name), CopyCall(name), SeekCall(name)]
  }

  /** The record is updated right after a successful put, with the URL of the key just put. */
  ghost predicate UpdateFollowsPut(steps: seq<Step>, objectURL: string -> string, putFault: bool)
  {
    forall i :: 0 <= i < |steps| && steps[i].UpdateVideoCall? ==>
      && i >= 1 && steps[i - 1].PutObjectCall? && !putFault
      && steps[i].video.videoURL == Some(objectURL(steps[i - 1].obj.key))
  }

  /** Every put comes right after a successful rewind and uploads `data` as `contentType` to `bucket`. */
  ghost predicate PutFollowsSeek(steps: seq<Step>, seekOk: bool, bucket: string, contentType: string, data: seq<Byte>)
  {
    forall i :: 0 <= i < |steps| && steps[i].PutObjectCall? ==>
      && i >= 1 && steps[i - 1].SeekCall? && seekOk
      && steps[i] == PutObjectCall(ObjectRef(bucket, steps[i].obj.key), contentType, data)
  }

  /** A temporary file, once created, is removed by the last call. */
  ghost predicate TempRemovedLast(steps: seq<Step>)
  {
    forall i :: 0 <= i < |steps| && steps[i].TempCreated? ==> steps[|steps| - 1] == TempRemoved(steps[i].name)
  }

  /** The order properties of one trace, for the given configuration, request and outcomes. */
  ghost predicate CallOrder(steps: seq<Step>, cfg: StoreConfig, req: UploadRequest, env: VideoEnv)
  {
    && UpdateFollowsPut(steps, cfg.objectURL, env.putFault)
    && TempRemovedLast(steps)
    && (req.form.Some? && req.form.value.data.Some? ==>
          PutFollowsSeek(steps, env.seekOk, cfg.bucket, req.form.value.contentType, req.form.value.data.value))
    && (forall i :: 0 <= i < |steps| && steps[i].PutObjectCall? ==> req.form.Some? && req.form.value.data.Some?)
  }

  /** Traces without a temporary file hold no put and no update. */
  lemma OrderWithoutFile(steps: seq<Step>, cfg: StoreConfig, req: UploadRequest, env: VideoEnv, id: UUID)
    requires steps == [] || steps == [GetVideoCall(id)] || steps == [GetVideoCall(id), FormFileCall]
    ensures CallOrder(steps, cfg, req, env)
  {
  }

  lemma OrderCopyFailed(steps: seq<Step>, cfg: StoreConfig, req: UploadRequest, env: VideoEnv,
                        id: UUID, name: string)
    requires steps == [GetVideoCall(id), FormFileCall, TempCreated(name), CopyCall(name), TempRemoved(name)]
    ensures CallOrder(steps, cfg, req, env)
  {
  }

  lemma OrderBeforePut(steps: seq<Step>, cfg: StoreConfig, req: UploadRequest, env: VideoEnv,
                       id: UUID, name: string)
    requires steps == Prepared(id, name) + [TempRemoved(name)]
    ensures CallOrder(steps, cfg, req, env)
  {
  }

  lemma OrderPutFailed(steps: seq<Step>, cfg: StoreConfig, req: UploadRequest, env: VideoEnv,
                       id: UUID, name: string, key: string)
    requires req.form.Some? && req.form.value.data.Some? && env.seekOk
    requires steps == Prepared(id, name) + [
      PutObjectCall(ObjectRef(cfg.bucket, key), req.form.value.contentType, req.form.value.data.value),
      TempRemoved(name)]
    ensures CallOrder(steps, cfg, req, env)
  {
  }

  lemma OrderUploaded(steps: seq<Step>, cfg: StoreConfig, req: UploadRequest, env: VideoEnv,
                      id: UUID, name: string, key: string, video: Video)
    requires req.form.Some? && req.form.value.data.Some? && env.seekOk && !env.putFault
    requires video.videoURL == Some(cfg.objectURL(key))
    requires steps == Prepared(id, name) + [
      PutObjectCall(ObjectRef(cfg.bucket, key), req.form.value.contentType, req.form.value.data.value),
      UpdateVideoCall(video), TempRemoved(name)]
    ensures CallOrder(steps, cfg, req, env)
  {
  }

  /**
   * The order of the calls on every path: a put comes right after a successful
   * rewind and uploads the request's bytes, the record update comes right after a
   * successful put and stores the URL of the key just put, and the temporary file
   * is removed by the last call.
   */
  lemma VideoCallOrder(cfg: StoreConfig, req: UploadRequest, env: VideoEnv,
                       rows: map<UUID, Video>, objects: map<ObjectRef, StoredObject>, existing: set<string>)
    requires env.random.Filled? ==> |env.random.bytes| == RandomByteCount
    ensures CallOrder(UploadVideo(cfg, req, env, rows, objects, existing).steps, cfg, req, env)
  {
    var steps := UploadVideo(cfg, req, env, rows, objects, existing).steps;
    if req.videoID.None? || req.token.None? || req.user.None? {
      OrderWithoutFile(steps, cfg, req, env, "");
    } else {
      var id := req.videoID.value;
      if env.getFault || id !in rows || rows[id].userID != req.user.value {
        OrderWithoutFile(steps, cfg, req, env, id);
      } else if req.form.None? || req.form.value.contentType == "" || env.mimeType != Some(AcceptedMimeType)
        || env.tempNonce.None? || TempFileName(env, req.form.value.contentType) in existing {
        OrderWithoutFile(steps, cfg, req, env, id);
      } else {
        var mediaType := req.form.value.contentType;
        TempFileCallOrder(cfg, req, env, rows, objects, id, TempFileName(env, mediaType));
      }
    }
  }

  /** `VideoCallOrder` on the paths that create the temporary file `name`. */
  lemma TempFileCallOrder(cfg: StoreConfig, req: UploadRequest, env: VideoEnv,
                          rows: map<UUID, Video>, objects: map<ObjectRef, StoredObject>, id: UUID, name: string)
    requires id in rows && req.form.Some?
    requires env.random.Filled? ==> |env.random.bytes| == RandomByteCount
    ensures CallOrder(UploadTempFile(cfg, env, rows, objects, id, req.form.value.contentType,
                                     req.form.value.data, name).steps, cfg, req, env)
  {
    var mediaType := req.form.value.contentType;
    var steps := UploadTempFile(cfg, env, rows, objects, id, mediaType, req.form.value.data, name).steps;
    if req.form.value.data.None? {
      OrderCopyFailed(steps, cfg, req, env, id, name);
    } else if !env.seekOk || GetAssetPath(mediaType, env.random).Err? {
      OrderBeforePut(steps, cfg, req, env, id, name);
    } else {
      var key := GetAssetPath(mediaType, env.random).value;
      assert steps == StoreVideo(cfg, env, rows, objects, id, mediaType, req.form.value.data.value, key, name).steps;
      if env.putFault {
        OrderPutFailed(steps, cfg, req, env, id, name, key);
      } else {
        OrderUploaded(steps, cfg, req, env, id, name, key, rows[id].(videoURL := Some(cfg.objectURL(key))));
      }
    }
  }

  /**
   * A failed rewind answers no 200 and uploads nothing; once the rewind is
   * reached it answers 500, and the temporary file is removed right after it.
   */
  lemma VideoSeekFailure(cfg: StoreConfig, req: UploadRequest, env: VideoEnv,
                         rows: map<UUID, Video>, objects: map<ObjectRef, StoredObject>, existing: set<string>)
    requires env.random.Filled? ==> |env.random.bytes| == RandomByteCount
    requires !env.seekOk
    ensures var run := UploadVideo(cfg, req, env, rows, objects, existing);
      && run.resp.status != StatusOK
      && run.objects == objects
      && forall i :: 0 <= i < |run.steps| ==> !run.steps[i].PutObjectCall?
    ensures ReachesTempFile(req, env, rows, existing) && req.form.value.data.Some? ==>
      var run := UploadVideo(cfg, req, env, rows, objects, existing);
      var name := TempFileName(env, req.form.value.contentType);
      && run.resp.status == StatusInternalServerError
      && run.steps == Prepared(req.videoID.value, name) + [TempRemoved(name)]
  {
    VideoCallOrder(cfg, req, env, rows, objects, existing);
    if ReachesTempFile(req, env, rows, existing) {
      var mediaType := req.form.value.contentType;
      TempFileOutcome(cfg, env, rows, objects, req.videoID.value, mediaType, req.form.value.data,
                      TempFileName(env, mediaType));
    }
  }

  /**
   * A failed record update after a successful put leaves the object orphaned in the
   * store: 500, table unchanged, object stored.
   */
  lemma VideoOrphanOnUpdateFailure(cfg: StoreConfig, req: UploadRequest, env: VideoEnv,
                                   rows: map<UUID, Video>, objects: map<ObjectRef, StoredObject>,
                                   existing: set<string>)
    requires req.videoID.Some? && req.token.Some? && req.user.Some? && req.form.Some?
    requires !env.getFault && req.videoID.value in rows && rows[req.videoID.value].userID == req.user.value
    requires req.form.value.contentType != "" && env.mimeType == Some(AcceptedMimeType)
    requires env.tempNonce.Some? && TempFileName(env, req.form.value.contentType) !in existing
    requires req.form.value.data.Some? && env.seekOk
    requires env.random.Filled? && |env.random.bytes| == RandomByteCount
    requires !env.putFault && env.updateFault
    ensures var run := UploadVideo(cfg, req, env, rows, objects, existing);
      && run.resp.status == StatusInternalServerError
      && run.rows == rows
      && ObjectRef(cfg.bucket, FileName(env.random.bytes) + "." + MediaTypeToExtension(req.form.value.contentType))
         in run.objects
  {
  }

  /**
   * On a table whose rows sit under their own ids, a successful upload replaces
   * the requested row and adds none, and the table stays keyed.
   */
  lemma VideoKeepsTableKeyed(cfg: StoreConfig, req: UploadRequest, env: VideoEnv,
                             rows: map<UUID, Video>, objects: map<ObjectRef, StoredObject>, existing: set<string>)
    requires env.random.Filled? ==> |env.random.bytes| == RandomByteCount
    requires Keyed(rows)
    ensures var run := UploadVideo(cfg, req, env, rows, objects, existing);
      && Keyed(run.rows)
      && run.rows.Keys == rows.Keys
      && (run.resp.status == StatusOK ==>
            run.resp.body.VideoBody? && run.rows == rows[req.videoID.value := run.resp.body.video])
  {
    VideoSuccess(cfg, req, env, rows, objects, existing);
  }
}
