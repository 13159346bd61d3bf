/**
 * `apiConfig` and its two upload handlers, written as the step-by-step,
 * early-return procedures they are. Each handler's contract ties its response,
 * the calls it makes and the new state of its collaborators to the functions
 * `ThumbnailUpload.UploadThumbnail` and `VideoUpload.UploadVideo`, whose
 * properties are proved in those modules.
 */
module Handlers {
  import opened Outcomes
  import opened Base64
  import opened Assets
  import opened Store
  import opened Requests
  import ThumbnailUpload
  import VideoUpload

  class ApiConfig {
    const db: Database
    const s3: ObjectStore
    const fs: FileSystem
    const s3Bucket: string
    /** `cfg.getObjectURL`, which is not part of this model. */
    const objectURL: string -> string

    constructor (db: Database, s3: ObjectStore, fs: FileSystem, s3Bucket: string, objectURL: string -> string)
      ensures this.db == db && this.s3 == s3 && this.fs == fs
      ensures this.s3Bucket == s3Bucket && this.objectURL == objectURL
    {
      this.db := db;
      this.s3 := s3;
      this.fs := fs;
      this.s3Bucket := s3Bucket;
      this.objectURL := objectURL;
    }

    function StoreConfig(): VideoUpload.StoreConfig
    {
      VideoUpload.StoreConfig(s3Bucket, objectURL)
    }

    /** `handlerUploadThumbnail`. */
    method HandlerUploadThumbnail(req: UploadRequest, env: ThumbnailUpload.ThumbnailEnv)
      returns (resp: Response, ghost steps: seq<Step>)
      modifies db
      ensures var run := ThumbnailUpload.UploadThumbnail(req, env, old(db.rows));
        resp == run.resp && steps == run.steps && db.rows == run.rows
    {
      steps := [];
      if req.videoID.None? {
        return ErrorResponse(StatusBadRequest, "Invalid ID"), steps;
      }
      var videoID := req.videoID.value;
      if req.token.None? {
        return ErrorResponse(StatusUnauthorized, "Couldn't find JWT"), steps;
      }
      if req.user.None? {
        return ErrorResponse(StatusUnauthorized, "Couldn't validate JWT"), steps;
      }
      var userID := req.user.value;

      steps := steps + [FormFileCall];
      if req.form.None? {
        return ErrorResponse(StatusBadRequest, "Couldn't get file from form"), steps;
      }
      var mediaType := req.form.value.contentType;
      if mediaType == "" {
        return ErrorResponse(StatusBadRequest, "Missing Content-Type for thumbnail"), steps;
      }

      steps := steps + [ReadAllCall];
      if req.form.value.data.None? {
        return ErrorResponse(StatusInternalServerError, "Couldn't read file data"), steps;
      }
      var imgData := req.form.value.data.value;

      steps := steps + [GetVideoCall(videoID)];
      var fetched := db.GetVideo(videoID, env.getFault);
      if fetched.Err? {
        return ErrorResponse(StatusInternalServerError, "Couldn't get video metadata"), steps;
      }
      var vidMetadata := fetched.value;
      if vidMetadata.userID != userID {
        return ErrorResponse(StatusUnauthorized, NotOwnerMessage), steps;
      }

      var thumbnailDataURI := ThumbnailUpload.DataURI(mediaType, imgData);
      vidMetadata := vidMetadata.(thumbnailURL := Some(thumbnailDataURI));

      steps := steps + [UpdateVideoCall(vidMetadata)];
      var saved := db.UpdateVideo(vidMetadata, env.updateFault);
      if !saved {
        return ErrorResponse(StatusInternalServerError, "Couldn't update video metadata with thumbnail URL"), steps;
      }
      return Response(StatusOK, VideoBody(vidMetadata)), steps;
    }

    /**
     * `handlerUploadVideo`. The temporary file is removed before every return
     * once it exists, as the deferred `os.Remove` does, so the filesystem ends as it began.
     */
    method HandlerUploadVideo(req: UploadRequest, env: VideoUpload.VideoEnv)
      returns (resp: Response, ghost steps: seq<Step>)
      requires env.random.Filled? ==> |env.random.bytes| == RandomByteCount
      modifies db, s3, fs
      ensures var run := VideoUpload.UploadVideo(StoreConfig(), req, env,
                                                 old(db.rows), old(s3.objects), old(fs.files).Keys);
        && resp == run.resp && steps == run.steps
        && db.rows == run.rows && s3.objects == run.objects
      ensures fs.files == old(fs.files)
    {
      steps := [];
      if req.videoID.None? {
        return ErrorResponse(StatusBadRequest, "Invalid ID"), steps;
      }
      var videoID := req.videoID.value;
      if req.token.None? {
        return ErrorResponse(StatusUnauthorized, "Couldn't find JWT"), steps;
      }
      if req.user.None? {
        return ErrorResponse(StatusUnauthorized, "Couldn't validate JWT"), steps;
      }
      var userID := req.user.value;

      steps := steps + [GetVideoCall(videoID)];
      var fetched := db.GetVideo(videoID, env.getFault);
      if fetched.Err? {
        return ErrorResponse(StatusInternalServerError, "Couldn't get video metadata"), steps;
      }
      var vidMetadata := fetched.value;
      if vidMetadata.userID != userID {
        return ErrorResponse(StatusUnauthorized, NotOwnerMessage), steps;
      }

      steps := steps + [FormFileCall];
      if req.form.None? {
        return ErrorResponse(StatusBadRequest, "Couldn't get file from form"), steps;
      }
      var mediaType := req.form.value.contentType;
      if mediaType == "" {
        return ErrorResponse(StatusBadRequest, "Missing Content-Type"), steps;
      }
      if env.mimeType.None? {
        return ErrorResponse(StatusBadRequest, "Invalid Content-Type"), steps;
      }
      if env.mimeType.value != VideoUpload.AcceptedMimeType {
        return ErrorResponse(StatusBadRequest, "Unsupported media type. Only video/mp4 is allowed"), steps;
      }

      var file := fs.CreateTemp(env.tempDir, VideoUpload.TempPrefix, "." + MediaTypeToExtension(mediaType),
                                env.tempNonce);
      if file == null {
        return ErrorResponse(StatusInternalServerError, "Couldn't create video file on server"), steps;
      }
      resp, steps := UploadTempFile(env, videoID, vidMetadata, mediaType, req.form.value.data, file);
    }

    /**
     * The part of `handlerUploadVideo` after `os.CreateTemp`: the new, empty file
     * `file` is removed on every exit, as the deferred `os.Remove` does.
     */
    method UploadTempFile(env: VideoUpload.VideoEnv, videoID: UUID, vidMetadata: Video, mediaType: string,
                          upload: Option<seq<Byte>>, file: OpenFile)
      returns (resp: Response, ghost steps: seq<Step>)
      requires env.random.Filled? ==> |env.random.bytes| == RandomByteCount
      requires videoID in db.rows && vidMetadata == db.rows[videoID]
      requires file.name in fs.files && fs.files[file.name] == [] && file.offset == 0
      modifies db, s3, fs, file
      ensures var run := VideoUpload.UploadTempFile(StoreConfig(), env, old(db.rows), old(s3.objects),
                                                    videoID, mediaType, upload, file.name);
        && resp == run.resp && steps == run.steps
        && db.rows == run.rows && s3.objects == run.objects
      ensures fs.files == old(fs.files) - {file.name}
    {
      steps := [GetVideoCall(videoID), FormFileCall, TempCreated(file.name)];

      steps := steps + [CopyCall(file.name)];
      var copied := fs.Copy(file, upload);
      if !copied {
        fs.Remove(file.name);
        return ErrorResponse(StatusInternalServerError, "Couldn't save video file on server"),
          steps + [TempRemoved(file.name)];
      }

      steps := steps + [SeekCall(file.name)];
      var rewound := fs.SeekStart(file, env.seekOk);
      if !rewound {
        fs.Remove(file.name);
        return ErrorResponse(StatusInternalServerError, "Couldn't reset file pointer for video upload"),
          steps + [TempRemoved(file.name)];
      }

      var key := GetAssetPath(mediaType, env.random);
      if key.Err? {
        fs.Remove(file.name);
        return ErrorResponse(StatusInternalServerError, "Couldn't generate S3 object key"),
          steps + [TempRemoved(file.name)];
      }

      resp, steps := StoreVideo(env, videoID, vidMetadata, mediaType, upload.value, key.value, file);
    }

    /**
     * The part of `handlerUploadVideo` after the key is made: the rewound file,
     * holding `data`, is put to the object store and the row updated; the file
     * is removed on both exits.
     */
    method StoreVideo(env: VideoUpload.VideoEnv, videoID: UUID, vidMetadata: Video, mediaType: string,
                      ghost data: seq<Byte>, key: string, file: OpenFile)
      returns (resp: Response, ghost steps: seq<Step>)
      requires videoID in db.rows && vidMetadata == db.rows[videoID]
      requires file.name in fs.files && fs.files[file.name] == data && file.offset == 0
      modifies db, s3, fs
      ensures var run := VideoUpload.StoreVideo(StoreConfig(), env, old(db.rows), old(s3.objects),
                                                videoID, mediaType, data, key, file.name);
        && resp == run.resp && steps == run.steps
        && db.rows == run.rows && s3.objects == run.objects
      ensures fs.files == old(fs.files) - {file.name}
    {
      steps := [GetVideoCall(videoID), FormFileCall, TempCreated(file.name), CopyCall(file.name),
                SeekCall(file.name)];
      var body := fs.ReadRest(file);
      var obj := ObjectRef(s3Bucket, key);
      steps := steps + [PutObjectCall(obj, mediaType, body)];
      var put := s3.PutObject(obj, mediaType, body, env.putFault);
      if !put {
        fs.Remove(file.name);
        return ErrorResponse(StatusInternalServerError, "Couldn't upload video to S3"),
          steps + [TempRemoved(file.name)];
      }

      var s3URL := objectURL(key);
      var updated := vidMetadata.(videoURL := Some(s3URL));

      steps := steps + [UpdateVideoCall(updated)];
      var saved := db.UpdateVideo(updated, env.updateFault);
      fs.Remove(file.name);
      steps := steps + [TempRemoved(file.name)];
      if !saved {
        return ErrorResponse(StatusInternalServerError, "Couldn't update video metadata with thumbnail URL"), steps;
      }
      return Response(StatusOK, VideoBody(updated)), steps;
    }
  }
}
