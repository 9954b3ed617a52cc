/** Values shared by the upload engine, the queue and the resume store. */
module UploadTypes {
  import opened Wrappers
  import MatchKey

  type Bytes = seq<bv8>
  type Millis = real

  /** A browser file: its name, contents and modification time. */
  datatype File = File(name: string, content: Bytes, modified: MatchKey.LastModified)

  /** Per-upload options, as far as they steer the engine. */
  datatype StartOptions = StartOptions(existingUrl: Option<string>, specificHeaders: bool)

  /** One `start` call. `ticket` identifies the call; only specifications look at it. */
  datatype Job = Job(file: File, options: StartOptions, ticket: nat)

  datatype Command = Start(job: Job) | Pause | Resume | Abort

  datatype TusConfig = TusConfig(
    endpoint: string,
    bearerToken: bool,
    chunkSize: nat,
    maxRetries: nat,
    retryDelayMs: nat,
    creationWithUploadThreshold: nat)
  {
    predicate UseCreationWithUpload(fileSize: nat) {
      0 < fileSize <= creationWithUploadThreshold
    }
  }

  /** What OPTIONS tells about a server, as far as the client uses it. */
  datatype Capabilities = Capabilities(creationWithUpload: bool, maxSize: Option<nat>)

  /** What a request can fail with. */
  datatype NetError = UnexpectedResponse(status: nat) | TransportFailure(retryable: bool) | OtherFailure

  datatype TusError =
    | Transport
    | Server(status: nat)
    | FileTooLarge(fileSize: nat, maxSize: nat)
    | BlobRead
    | InvalidRequest

  function ToTusError(e: NetError): TusError {
    match e
    case UnexpectedResponse(status) => Server(status)
    case _ => Transport
  }

  predicate IsRetryable(e: NetError) {
    match e
    case UnexpectedResponse(status) => status >= 500 || status == 408 || status == 409 || status == 429
    case TransportFailure(retryable) => retryable
    case OtherFailure => false
  }

  datatype UploadStatus = Idle | Uploading | Paused | Complete | Error

  /** The reactive snapshot that observers of one upload see. */
  datatype UploadState = UploadState(
    status: UploadStatus,
    bytesUploaded: nat,
    bytesTotal: Option<nat>,
    uploadUrl: Option<string>,
    error: Option<TusError>)
}
