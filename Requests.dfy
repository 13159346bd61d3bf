/**
 * What the two upload handlers receive and answer: the request as the outcomes
 * of the calls that read it, the HTTP response, and the trace of calls a
 * handler makes on its collaborators.
 */
module Requests {
  import opened Outcomes
  import opened Base64
  import opened Store

  const StatusOK := 200
  const StatusBadRequest := 400
  const StatusUnauthorized := 401
  const StatusInternalServerError := 500

  /** `respondWithError`'s message, or the video record `respondWithJSON` writes. */
  datatype Body = ErrorBody(message: string) | VideoBody(video: Video)

  datatype Response = Response(status: int, body: Body)

  function ErrorResponse(status: int, message: string): Response
  {
    Response(status, ErrorBody(message))
  }

  /**
   * The uploaded form file: its part's Content-Type header (empty when absent)
   * and its bytes, or None when reading them fails.
   */
  datatype FormFile = FormFile(contentType: string, data: Option<seq<Byte>>)

  /**
   * A request, as the outcomes of the calls that read it: `uuid.Parse` of the
   * path value, `auth.GetBearerToken`, `auth.ValidateJWT` of that token, and
   * `r.FormFile`.
   */
  datatype UploadRequest = UploadRequest(
    videoID: Option<UUID>,
    token: Option<string>,
    user: Option<UserID>,
    form: Option<FormFile>)

  /** One call of a handler on its collaborators, in the order made. */
  datatype Step =
    | GetVideoCall(id: UUID)
    | FormFileCall
    | ReadAllCall
    | TempCreated(name: string)
    | CopyCall(name: string)
    | SeekCall(name: string)
    | PutObjectCall(obj: ObjectRef, contentType: string, body: seq<Byte>)
    | UpdateVideoCall(video: Video)
    | TempRemoved(name: string)

  /** The message both handlers give when the requester does not own the video. */
  const NotOwnerMessage := "You don't have permission to upload a thumbnail for this video"
}
