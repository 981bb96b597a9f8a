# Block upload to the Mimir compactor, modelled in Dafny

The compactor accepts whole TSDB blocks from clients. An upload happens in
three steps:

1. A start request sends the block descriptor (`meta.json`). The compactor
   checks that the block is not already complete and sanitises the
   descriptor's external labels. It then stages the descriptor as
   `<block>/meta.json.temp`.
2. One request per block file (`index`, `chunks/NNNNNN`) stores that file
   under the block's directory. This is only allowed while a staged
   descriptor exists.
3. A complete request copies the staged descriptor to `<block>/meta.json`,
   which makes the block complete, and then deletes the staged copy.

The compactor keeps no session table. The state of an upload is read off
the tenant's object store: a staged descriptor means "in progress", a
published one means "complete".

The project has these files:

- `object_store.dfy` (module `ObjectStore`): the tenant-scoped object
  store. It is a map from (tenant, name) to an object, which is either raw
  bytes or an encoded descriptor. `Bucket` is a class holding that map:
  its `Exists` and `Get` methods read it, and its `Upload` and `Delete`
  methods update it in place. Each method takes a flag that makes it fail
  like an I/O error.
- `block_meta.dfy` (module `BlockMeta`): the descriptor and the sanitiser.
  `SanitizeMeta` is the imperative loop over the label map. It is proved
  against the pure specification `Sanitize`.
- `file_paths.dfy` (module `FilePaths`): `path.Base`, `path.Join` and the
  destination rule `^(index|chunks/\d{6})$`, stated character by character.
- `block_upload.dfy` (module `BlockUpload`): the handlers. They are methods
  of `Compactor`, which holds the bucket client, and they answer with a
  status code and message. Each one is proved against a pure
  specification function of the old store (`HandleSpec`, `CreateSpec`,
  `UploadFileSpec`, `CompleteSpec`). That function gives the reason the
  request ended and the new store.
- `upload_properties.dfy` (module `UploadProperties`): the protocol's
  properties. They cover dispatch, conflicts, label rejection, the path
  rule, the need for a started upload, what completion publishes, tenant
  isolation, and a whole upload from start to a refused restart.

## Model

| member | source | states |
|---|---|---|
| BlockMeta.SanitizeMeta | pkg/compactor/block_upload.go:263-297 | The label loop, which visits names in any order, succeeds exactly when `Sanitize` does and returns its descriptor. On failure its message is the prefix followed by the comma-joined refused names, each listed exactly once, in some order. |
| BlockMeta.SanitizeStampsSession | pkg/compactor/block_upload.go:265-270 | A sanitised descriptor carries the session block ID, the session tenant as the tenant label and the source `upload`, whatever the body said. Its version, time range and file list are the body's. |
| BlockMeta.SanitizedLabelNames | pkg/compactor/block_upload.go:272-281 | The sanitised label names are the input names among {tenant, compactor shard}, plus the tenant label. The ingester and deprecated shard labels are gone. Every other kept label keeps its input value. |
| BlockMeta.SanitizeRejectsExactly | pkg/compactor/block_upload.go:282-291 | The sanitiser refuses a descriptor if and only if some input label is outside the kept and stripped groups. The refused set is exactly those names. The stamped tenant label never causes a refusal. |
| BlockMeta.SanitizeExample | pkg/compactor/block_upload.go:273-291 | Labels {tenant, compactor shard, ingester, `foo`} are refused with exactly {`foo`}. |
| BlockMeta.SplitJoinComma | pkg/compactor/block_upload.go:290 | Splitting the rejection list at commas gives back the listed names, when no name contains a comma. |
| FilePaths.Base | pkg/compactor/block_upload.go:144 | `path.Base` is never empty. For a nonempty path it is `/` or a name without `/`. |
| FilePaths.FilePatternIsIndexOrChunk | pkg/compactor/block_upload.go:149-150 | A path is accepted if and only if it is `index` or `chunks/` followed by some chunk number below 10^6, zero-padded to six digits. |
| FilePaths.ChunkPathInjective | pkg/compactor/block_upload.go:149 | Distinct chunk numbers give distinct accepted paths. |
| FilePaths.PadDigitsValue | pkg/compactor/block_upload.go:149 | Reading six digits as a number and writing it back zero-padded gives the same digits. |
| FilePaths.DigitsValuePad | pkg/compactor/block_upload.go:149 | Writing a number below 10^width zero-padded and reading it back gives the number. |
| FilePaths.BaseOfAcceptedPath | pkg/compactor/block_upload.go:144-153 | The basename of an accepted path is `index` or its six digits, never `meta.json`. |
| FilePaths.MetaBasenameNeverMatches | pkg/compactor/block_upload.go:144-153 | A path whose basename is `meta.json` is never accepted by the pattern. The basename test only picks the error message. |
| FilePaths.AcceptedPathIsNotDescriptor | pkg/compactor/block_upload.go:149-153 | An accepted path is neither descriptor name and does not end in `/`, `n` or `p`. |
| FilePaths.BaseOfName | pkg/compactor/block_upload.go:144 | A name without `/` is its own basename, alone or under any directory. So `meta.json` is caught at any depth. |
| FilePaths.PathRuleExamples | pkg/compactor/block_upload.go:149-150 | `index`, `chunks/000001` and `chunks/999999` are accepted. `chunks/1`, `chunks/0000001`, `meta.json`, `../index`, the empty path and `chunks/00000a` are refused. |
| BlockUpload.CheckFileRequest | pkg/compactor/block_upload.go:117-158 | The request checks pass if and only if the block segment is nonempty, the ULID and tenant are valid, the path matches the pattern, a body is present and the declared content length is nonzero. Every refusal is a 400. |
| BlockUpload.Compactor.HandleBlockUpload | pkg/compactor/block_upload.go:38-64 | The answer describes `HandleSpec`'s reason and the bucket holds `HandleSpec`'s store: identity checks in order, then complete or create. |
| BlockUpload.Compactor.CreateBlockUpload | pkg/compactor/block_upload.go:66-112 | The answer and new store are `CreateSpec`'s: 500 on an exists error, 409 for a complete block, 400 for a bad body or refused labels (with the listing message), 500 on a failed write, otherwise 200 with the sanitised descriptor staged. |
| BlockUpload.Compactor.UploadBlockFile | pkg/compactor/block_upload.go:117-211 | The answer and new store are `UploadFileSpec`'s. The request checks come first, in the source's order. Then 500 or "not started" 400 for the staged-descriptor lookup, 502 on a failed write, otherwise 200 with the file stored. |
| BlockUpload.Compactor.CompleteBlockUpload | pkg/compactor/block_upload.go:213-253 | The answer and new store are `CompleteSpec`'s: 500 on read, decode or publish failure with nothing changed; 500 on a failed delete with `meta.json` published; otherwise 200 with the staged copy removed. |
| BlockUpload.Compactor.UploadMeta | pkg/compactor/block_upload.go:299-313 | Succeeds exactly when the store write does. The descriptor is then stored as `<block>/<name>` and nothing else changes. |
| UploadProperties.DispatchOnUploadComplete | pkg/compactor/block_upload.go:59-63 | Completion is chosen if and only if the first `uploadComplete` value is exactly `true`. Otherwise the request starts an upload. |
| UploadProperties.HandleRejectsBadIdentity | pkg/compactor/block_upload.go:39-54 | A missing or unparsable block ID or a missing tenant gives 400 and leaves the store unchanged. |
| UploadProperties.CreateOnCompletedBlock | pkg/compactor/block_upload.go:72-83 | Starting an upload of a complete block gives 409, whatever the body holds, and writes nothing. |
| UploadProperties.CreateOutcome | pkg/compactor/block_upload.go:66-112 | A start succeeds if and only if the block is not complete, the body decodes, the sanitiser accepts it and the store works. It then stages the sanitised descriptor, replacing any staged one, and the upload is in progress. Every failure leaves the store unchanged. No other tenant is touched. |
| UploadProperties.CreateRejectsUnsupportedLabels | pkg/compactor/block_upload.go:92-98 | A descriptor with an unknown label gives 400 naming exactly the unknown labels, and nothing is written. |
| UploadProperties.UploadFileAcceptsOnlyPattern | pkg/compactor/block_upload.go:129-153 | A file upload succeeds only for an accepted path. Any other path, including the empty one, gives 400 with the store unchanged. A `meta.json` basename gets its own message. |
| UploadProperties.UploadFileRequiresStartedUpload | pkg/compactor/block_upload.go:155-205 | A successful file upload had a staged descriptor, a body and a nonzero declared content length, and its only change is the file at `<block>/<path>`. Without a staged descriptor it gives 400 "not started". Every failure leaves the store unchanged. |
| UploadProperties.UploadFileKeepsDescriptors | pkg/compactor/block_upload.go:193-205 | A file upload never changes a descriptor object of any block of any tenant, so it never changes any upload's state. |
| UploadProperties.FileKeyIsNotDescriptor | pkg/compactor/block_upload.go:149-153 | The key an accepted file is written under is never a descriptor key. |
| UploadProperties.CompletePublishesStagedDescriptor | pkg/compactor/block_upload.go:219-248 | Completion publishes as `meta.json` the very descriptor that was staged, without sanitising it again, and the block is complete. A failed delete gives 500 but leaves the block complete. Nothing else changes. |
| UploadProperties.CompleteWithoutStagedDescriptor | pkg/compactor/block_upload.go:219-241 | Completing without a staged descriptor gives 500 and changes nothing. Any completion that leaves the block incomplete changed nothing. |
| UploadProperties.CompleteIsNotRepeatable | pkg/compactor/block_upload.go:219-248 | After a successful completion, a second one gives 500. |
| UploadProperties.NonCanonicalSegmentNeverStarted | pkg/compactor/block_upload.go:72-173 | When the block segment is not the parsed identifier's canonical text, a start succeeds and stages the descriptor under the canonical text. A file upload with that same segment then gets 400 "not started" and changes nothing. |
| UploadProperties.JoinInjective | pkg/compactor/block_upload.go:162 | Objects of the same name under two different block directories have different keys. |
| UploadProperties.HandleStaysInTenant | pkg/compactor/block_upload.go:70 | A start or complete request changes no object of another tenant. |
| UploadProperties.UploadFileStaysInTenant | pkg/compactor/block_upload.go:160 | A file upload changes no object of another tenant. |
| UploadProperties.CreateThenCompletePublishesSanitized | pkg/compactor/block_upload.go:92-112 | Start then complete publishes the sanitised descriptor, carrying the session block ID and tenant and the `upload` source. |
| UploadProperties.RecreateReplacesStagedDescriptor | pkg/compactor/block_upload.go:105-109 | Starting again before completion replaces the staged descriptor, so completion publishes the second one. |
| UploadProperties.UploadFileDuringUpload | pkg/compactor/block_upload.go:160-210 | While an upload is in progress, a valid file upload succeeds and stores the file. The staged descriptor and the in-progress state are unchanged. |
| UploadProperties.StartAndSendFiles | pkg/compactor/block_upload.go:66-211 | With the block segment equal to the identifier's canonical text: start, then upload `index` and `chunks/000001`: all three succeed, the upload is in progress, and both files are stored. |
| UploadProperties.CompleteThenRestart | pkg/compactor/block_upload.go:59-83 | Completing an in-progress upload succeeds and keeps any given non-descriptor object. A later start is a 409 and the block stays complete. |
| UploadProperties.EndToEndScenario | pkg/compactor/block_upload.go:38-253 | With the block segment equal to the identifier's canonical text, a whole upload (start, two files, complete, start again) ends with a complete block holding both files, and the restart is refused with 409. |

## Left out

- HTTP plumbing is not modelled: routing variables, the query-string
  parser, `http.Error` and the response writer. A handler gets the block
  path segment and the query as a map, and returns a status and message.
- JSON is not modelled. A decoded request body is an input (`None` means
  malformed). A stored descriptor decodes to itself, and raw bytes never
  decode as a descriptor. `json.Encoder` failing on a descriptor is not
  modelled.
- `ulid.Parse` and `tenant.ExtractTenantIDFromHTTPRequest` are not part of
  this model. Their results are inputs (`None` means the parse failed).
- `Ulid` holds the identifier's canonical text. Start and complete address
  objects by that text (block_upload.go:72, 219, 301). File upload, as in
  the source, addresses them by the raw path segment (block_upload.go:162,
  193). Which segments parse to which identifier is an input, not modelled.
  A segment that parses but is not the canonical text (for example a
  lower-case one) can start an upload, but its file uploads are then
  refused as not started. `NonCanonicalSegmentNeverStarted` proves this.
  The scenario lemmas use the canonical text as the segment.
- The object-store client (`objstore.Bucket` and the per-tenant wrapper) is
  not part of this model. `ObjectStore.Bucket` stands in for it: a map
  keyed by tenant and name, where an I/O error is a per-operation fault
  flag. Deleting an absent object succeeds. The real per-tenant client puts
  `<tenant>/` in front of each name. That keeps tenants apart only when no
  tenant ID contains `/`. The model assumes this, and the tenant-isolation
  lemmas rest on it.
- `path.Join(block, name)` is concatenation with `/`. This assumes the
  block segment has no `/` and no dot elements, so cleaning changes
  nothing.
- `Quote` models `%q` for strings with no characters that need escaping.
- The order of names in the rejection message follows Go's map iteration
  order. It is stated as "some enumeration of the refused set".
- `BlockMeta.SanitizeMeta` returns the sanitised descriptor instead of
  mutating the caller's copy.
- The branch that turns a non-bad-request sanitiser error into a 500 is
  not modelled (block_upload.go:100-102). The sanitiser only returns bad
  requests, so that branch is unreachable.
- Logging, the streaming body reader and its `ObjectSize` are not
  modelled. The file body is a byte sequence plus its declared content
  length.
- Concurrent requests on the same block and context cancellation are not
  modelled.
- The cross-check of an uploaded file against the descriptor's file list
  is not modelled. The source leaves it as a TODO
  (block_upload.go:191).
- The values of the four external label names come from Mimir's
  `pkg/storage/tsdb`, which is not part of this model.
- Completing an upload with no staged descriptor gives 500
  (internal server error), as the code does, not a "not started" client
  error.
