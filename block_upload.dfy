/**
 * The block-upload protocol: start an upload (stage the sanitised
 * descriptor), upload block files, complete the upload (publish the
 * descriptor). There is no session table: the state of an upload is which
 * of the two descriptor objects exist.
 */
module BlockUpload {
  import opened Wrappers
  import opened BlockMeta
  import opened FilePaths
  import opened ObjectStore

  const STATUS_OK := 200
  const STATUS_BAD_REQUEST := 400
  const STATUS_CONFLICT := 409
  const STATUS_INTERNAL_SERVER_ERROR := 500
  const STATUS_BAD_GATEWAY := 502

  /** The HTTP answer: a status code and the error text (empty on success). */
  datatype Response = Response(status: int, message: string)

  /** Why a request ended the way it did. */
  datatype Reason =
    | Done
    | MissingBlockID
    | InvalidBlockID
    | InvalidTenantID
    | MissingPath
    | MetaJsonNotAllowed
    | InvalidPath(path: string)
    | EmptyFile
    | NotStarted(block: string)
    | AlreadyExists
    | MalformedBody
    | UnsupportedLabels(names: set<string>)
    | InternalError
    | UploadFailed

  function StatusOf(r: Reason): int
  {
    match r
    case Done => STATUS_OK
    case AlreadyExists => STATUS_CONFLICT
    case InternalError => STATUS_INTERNAL_SERVER_ERROR
    case UploadFailed => STATUS_BAD_GATEWAY
    case _ => STATUS_BAD_REQUEST
  }

  /** fmt's %q for a string without characters that need escaping. */
  function Quote(s: string): string
  {
    "\"" + s + "\""
  }

  /** The error text of every reason except a label rejection, whose text lists the labels. */
  function MessageOf(r: Reason): string
    requires !r.UnsupportedLabels?
  {
    match r
    case Done => ""
    case MissingBlockID => "missing block ID"
    case InvalidBlockID => "invalid block ID"
    case InvalidTenantID => "invalid tenant ID"
    case MissingPath => "missing or invalid file path"
    case MetaJsonNotAllowed => "meta.json is not allowed"
    case InvalidPath(p) => "invalid path: " + Quote(p)
    case EmptyFile => "file cannot be empty"
    case NotStarted(b) => "upload of block " + b + " not started yet"
    case AlreadyExists => "block already exists in object storage"
    case MalformedBody => "malformed request body"
    case InternalError => "internal server error"
    case UploadFailed => "failed uploading block file to bucket"
  }

  /** The answer for every reason except a label rejection (http.Error, or a bare 200 for Done). */
  function Reply(r: Reason): Response
    requires !r.UnsupportedLabels?
  {
    Response(StatusOf(r), MessageOf(r))
  }

  /** `resp` is the answer the protocol gives for `r`. */
  ghost predicate Describes(resp: Response, r: Reason)
  {
    && resp.status == StatusOf(r)
    && (if r.UnsupportedLabels? then ListsUnsupported(resp.message, r.names) else resp.message == MessageOf(r))
  }

  /** The query string: every parameter with its values in order. */
  type Query = map<string, seq<string>>

  /** url.Values.Get: the first value of the parameter, or "" when it has none. */
  function QueryGet(q: Query, key: string): string
  {
    if key in q && |q[key]| > 0 then q[key][0] else ""
  }

  /** Whether a start/complete request asks for completion. */
  predicate IsCompletion(q: Query)
  {
    QueryGet(q, "uploadComplete") == "true"
  }

  // The two descriptor objects of a block of a tenant.
  function MetaKey(tenantID: string, block: string): Key
  {
    Key(tenantID, Join(block, META_FILENAME))
  }

  function TempMetaKey(tenantID: string, block: string): Key
  {
    Key(tenantID, Join(block, TEMP_META_FILENAME))
  }

  /** The state of an upload, read off the store. */
  datatype SessionState = NotStartedState | InProgress | Complete

  function StateOf(s: Store, tenantID: string, block: string): SessionState
  {
    if MetaKey(tenantID, block) in s then Complete
    else if TempMetaKey(tenantID, block) in s then InProgress
    else NotStartedState
  }

  /** The effect of one request: why it ended and the store it left. */
  datatype Outcome = Outcome(reason: Reason, store: Store)

  /** Specification of starting an upload of block `blockID` for `tenantID`. */
  function CreateSpec(s: Store, tenantID: string, blockID: Ulid, body: Option<Meta>, f: Faults): Outcome
  {
    if f.existsFails then Outcome(InternalError, s)
    else if MetaKey(tenantID, blockID.text) in s then Outcome(AlreadyExists, s)
    else if body.None? then Outcome(MalformedBody, s)
    else
      match Sanitize(body.value, tenantID, blockID)
      case Failure(names) => Outcome(UnsupportedLabels(names), s)
      case Success(m) =>
        if f.uploadFails then Outcome(InternalError, s)
        else Outcome(Done, s[TempMetaKey(tenantID, blockID.text) := Descriptor(m)])
  }

  /**
   * The validation of a file-upload request, in the order the handler
   * makes its checks: `Done` when the request may go on to the store.
   * Validation passes exactly when the block segment is present and parses,
   * the tenant is known, the path matches the file pattern and the body is
   * present with a nonzero length.
   */
  function CheckFileRequest(blockVar: string, parsed: Option<Ulid>, pth: string, tenant: Option<string>,
                            body: Option<seq<byte>>, contentLength: int): (r: Reason)
    ensures r == Done <==>
              blockVar != "" && parsed.Some? && tenant.Some? && MatchesFilePattern(pth)
              && body.Some? && contentLength != 0
    ensures r != Done ==> StatusOf(r) == STATUS_BAD_REQUEST
  {
    MetaBasenameNeverMatches(pth);
    if blockVar == "" then MissingBlockID
    else if parsed.None? then InvalidBlockID
    else if pth == "" then MissingPath
    else if tenant.None? then InvalidTenantID
    else if Base(pth) == META_FILENAME then MetaJsonNotAllowed
    else if !MatchesFilePattern(pth) then InvalidPath(pth)
    else if body.None? || contentLength == 0 then EmptyFile
    else Done
  }

  /**
   * Specification of uploading one block file. `blockVar` is the block
   * path segment as the request gave it and `parsed` its ULID parse;
   * objects are addressed with `blockVar` itself.
   */
  function UploadFileSpec(s: Store, blockVar: string, parsed: Option<Ulid>, q: Query, tenant: Option<string>,
                          body: Option<seq<byte>>, contentLength: int, f: Faults): Outcome
  {
    var pth := QueryGet(q, "path");
    var check := CheckFileRequest(blockVar, parsed, pth, tenant, body, contentLength);
    if check != Done then Outcome(check, s)
    else WriteFileSpec(s, tenant.value, blockVar, pth, body.value, f)
  }

  /**
   * Specification of the store steps of a file upload whose request passed
   * validation: the upload must have been started, then the file is written.
   */
  function WriteFileSpec(s: Store, tenantID: string, blockVar: string, pth: string, bytes: seq<byte>, f: Faults): Outcome
  {
    var temp := Key(tenantID, Join(blockVar, TEMP_META_FILENAME));
    if f.existsFails then Outcome(InternalError, s)
    else if temp !in s then Outcome(NotStarted(blockVar), s)
    else if f.getFails || DecodeMeta(s[temp]).None? then Outcome(InternalError, s)
    else if f.uploadFails then Outcome(UploadFailed, s)
    else Outcome(Done, s[Key(tenantID, Join(blockVar, pth)) := Blob(bytes)])
  }

  /** Specification of completing the upload of block `blockID` for `tenantID`. */
  function CompleteSpec(s: Store, tenantID: string, blockID: Ulid, f: Faults): Outcome
  {
    var temp := TempMetaKey(tenantID, blockID.text);
    if f.getFails || temp !in s || DecodeMeta(s[temp]).None? then Outcome(InternalError, s)
    else if f.uploadFails then Outcome(InternalError, s)
    else
      var published := s[MetaKey(tenantID, blockID.text) := Descriptor(DecodeMeta(s[temp]).value)];
      if f.deleteFails then Outcome(InternalError, published)
      else Outcome(Done, published - {temp})
  }

  /** Specification of the start/complete endpoint. */
  function HandleSpec(s: Store, blockVar: string, parsed: Option<Ulid>, tenant: Option<string>, q: Query,
                      body: Option<Meta>, f: Faults): Outcome
  {
    if blockVar == "" then Outcome(MissingBlockID, s)
    else if parsed.None? then Outcome(InvalidBlockID, s)
    else if tenant.None? then Outcome(InvalidTenantID, s)
    else if IsCompletion(q) then CompleteSpec(s, tenant.value, parsed.value, f)
    else CreateSpec(s, tenant.value, parsed.value, body, f)
  }

  /** The compactor's upload endpoints over its object-storage client. */
  class Compactor {
    const bucketClient: Bucket

    constructor (bucket: Bucket)
      ensures bucketClient == bucket
    {
      bucketClient := bucket;
    }

    /**
     * Starts or completes an upload. `parsed` is the ULID parse of the
     * block path segment, `tenant` the tenant taken from the request,
     * `body` the decoded request body (`None` when it is not a descriptor).
     */
    method HandleBlockUpload(blockVar: string, parsed: Option<Ulid>, tenant: Option<string>, q: Query,
                             body: Option<Meta>, faults: Faults) returns (resp: Response)
      modifies bucketClient
      ensures var o := HandleSpec(old(bucketClient.objects), blockVar, parsed, tenant, q, body, faults);
              Describes(resp, o.reason) && bucketClient.objects == o.store
    {
      if blockVar == "" {
        return Reply(MissingBlockID);
      }
      if parsed.None? {
        return Reply(InvalidBlockID);
      }
      if tenant.None? {
        return Reply(InvalidTenantID);
      }
      if QueryGet(q, "uploadComplete") == "true" {
        resp := CompleteBlockUpload(tenant.value, parsed.value, faults);
      } else {
        resp := CreateBlockUpload(tenant.value, parsed.value, body, faults);
      }
    }

    method CreateBlockUpload(tenantID: string, blockID: Ulid, body: Option<Meta>, faults: Faults)
      returns (resp: Response)
      modifies bucketClient
      ensures var o := CreateSpec(old(bucketClient.objects), tenantID, blockID, body, faults);
              Describes(resp, o.reason) && bucketClient.objects == o.store
    {
      var found := bucketClient.Exists(MetaKey(tenantID, blockID.text), faults.existsFails);
      if found.Failure? {
        return Reply(InternalError);
      }
      if found.value {
        return Reply(AlreadyExists);
      }
      if body.None? {
        return Reply(MalformedBody);
      }
      var sanitized := SanitizeMeta(tenantID, blockID, body.value);
      if sanitized.Failure? {
        return Response(STATUS_BAD_REQUEST, sanitized.error.message);
      }
      var ok := UploadMeta(sanitized.value, blockID, tenantID, TEMP_META_FILENAME, faults.uploadFails);
      if !ok {
        return Reply(InternalError);
      }
      return Reply(Done);
    }

    /** Uploads one block file; the destination path is the `path` query parameter. */
    method UploadBlockFile(blockVar: string, parsed: Option<Ulid>, q: Query, tenant: Option<string>,
                           body: Option<seq<byte>>, contentLength: int, faults: Faults) returns (resp: Response)
      modifies bucketClient
      ensures var o := UploadFileSpec(old(bucketClient.objects), blockVar, parsed, q, tenant, body, contentLength, faults);
              Describes(resp, o.reason) && bucketClient.objects == o.store
    {
      if blockVar == "" {
        return Reply(MissingBlockID);
      }
      if parsed.None? {
        return Reply(InvalidBlockID);
      }
      var pth := QueryGet(q, "path");
      if pth == "" {
        return Reply(MissingPath);
      }
      if tenant.None? {
        return Reply(InvalidTenantID);
      }
      if Base(pth) == META_FILENAME {
        return Reply(MetaJsonNotAllowed);
      }
      if !MatchesFilePattern(pth) {
        return Reply(InvalidPath(pth));
      }
      if body.None? || contentLength == 0 {
        return Reply(EmptyFile);
      }

      var metaPath := Key(tenant.value, Join(blockVar, TEMP_META_FILENAME));
      var found := bucketClient.Exists(metaPath, faults.existsFails);
      if found.Failure? {
        return Reply(InternalError);
      }
      if !found.value {
        return Reply(NotStarted(blockVar));
      }
      var staged := bucketClient.Get(metaPath, faults.getFails);
      if staged.Failure? {
        return Reply(InternalError);
      }
      if DecodeMeta(staged.value).None? {
        return Reply(InternalError);
      }

      var dst := Key(tenant.value, Join(blockVar, pth));
      var ok := bucketClient.Upload(dst, Blob(body.value), faults.uploadFails);
      if !ok {
        return Reply(UploadFailed);
      }
      return Reply(Done);
    }

    method CompleteBlockUpload(tenantID: string, blockID: Ulid, faults: Faults) returns (resp: Response)
      modifies bucketClient
      ensures var o := CompleteSpec(old(bucketClient.objects), tenantID, blockID, faults);
              Describes(resp, o.reason) && bucketClient.objects == o.store
    {
      var temp := TempMetaKey(tenantID, blockID.text);
      var staged := bucketClient.Get(temp, faults.getFails);
      if staged.Failure? {
        return Reply(InternalError);
      }
      var decoded := DecodeMeta(staged.value);
      if decoded.None? {
        return Reply(InternalError);
      }

      // Publishing meta.json is what makes the block complete.
      var ok := UploadMeta(decoded.value, blockID, tenantID, META_FILENAME, faults.uploadFails);
      if !ok {
        return Reply(InternalError);
      }

      ok := bucketClient.Delete(temp, faults.deleteFails);
      if !ok {
        return Reply(InternalError);
      }
      return Reply(Done);
    }

    /** Encodes `meta` and stores it as `<blockID>/<name>` of the tenant. */
    method UploadMeta(meta: Meta, blockID: Ulid, tenantID: string, name: string, fail: bool) returns (ok: bool)
      modifies bucketClient
      ensures ok == !fail
      ensures bucketClient.objects ==
                if ok then old(bucketClient.objects)[Key(tenantID, Join(blockID.text, name)) := Descriptor(meta)]
                else old(bucketClient.objects)
    {
      var dst := Key(tenantID, Join(blockID.text, name));
      ok := bucketClient.Upload(dst, Descriptor(meta), fail);
    }
  }
}
