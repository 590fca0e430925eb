/** What both upload handlers share: the outcome of reading the uploaded
    file part, the random bytes drawn for a file name, the collaborator
    calls with an effect outside the request, and the HTTP response. */
module Effects {

  import opened Wrappers
  import opened Base64Url
  import opened Records

  /** The 32 bytes a successful `rand.Read` fills the name buffer with. */
  type Bytes32 = b: seq<byte> | |b| == 32 witness seq(32, _ => 0)

  /** A file part of the multipart form that was found. `mediaType` is the
      outcome of parsing its `Content-Type` header: the bare media type
      without parameters, or `None` when the header does not parse. */
  datatype Part = Part(mediaType: Option<string>)

  /** A call whose effect outlives the request, in the order it is made. */
  datatype Call =
    | DbGet(id: Uuid)
    | S3Put(bucket: string, key: string, contentType: string)
    | WriteAsset(path: string)
    | DbUpdate(video: Video)

  /** The reply: an error status with its message, a JSON body with a
      status, or nothing at all when the handler panics and the server
      drops the connection. */
  datatype Response =
    | Error(status: int, message: string)
    | Json(status: int, body: Video)
    | Dropped

  const StatusOk := 200
  const StatusBadRequest := 400
  const StatusUnauthorized := 401
  const StatusNotFound := 404
  const StatusUnsupportedMediaType := 415
  const StatusInternalServerError := 500

  /** The outcome of a run of consecutive checks of a handler: the step
      whose check failed, or the value the run produced. */
  datatype Stage<S, T> = Stop(step: S) | Go(value: T)

  /** True when some call in `calls` is a record update. */
  predicate Updates(calls: seq<Call>) {
    exists k :: 0 <= k < |calls| && calls[k].DbUpdate?
  }

  /** True when some call in `calls` is an object upload. */
  predicate Uploads(calls: seq<Call>) {
    exists k :: 0 <= k < |calls| && calls[k].S3Put?
  }
}
