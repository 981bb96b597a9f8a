/**
 * Properties of the block-upload protocol, stated over the specification
 * functions the handlers are proved against.
 */
module UploadProperties {
  import opened Wrappers
  import opened BlockMeta
  import opened FilePaths
  import opened ObjectStore
  import opened BlockUpload

  /** The two descriptor objects of a block never share a key. */
  lemma DescriptorKeysDiffer(t: string, t': string, b: string, b': string)
    ensures MetaKey(t, b) != TempMetaKey(t', b')
  {
    var name, name' := MetaKey(t, b).name, TempMetaKey(t', b').name;
    assert name[|name| - 1] == 'n' && name'[|name'| - 1] == 'p';
  }

  /**
   * Only the first `uploadComplete` value, and only when it is exactly
   * `true`, selects completion; any other value, or none, starts an upload.
   */
  lemma DispatchOnUploadComplete(s: Store, blockVar: string, u: Ulid, t: string, q: Query, body: Option<Meta>, f: Faults)
    requires blockVar != ""
    ensures IsCompletion(q) <==> "uploadComplete" in q && |q["uploadComplete"]| > 0 && q["uploadComplete"][0] == "true"
    ensures HandleSpec(s, blockVar, Some(u), Some(t), q, body, f) ==
              if IsCompletion(q) then CompleteSpec(s, t, u, f) else CreateSpec(s, t, u, body, f)
  {
  }

  /** A missing or unparsable block identifier, or a missing tenant, is a client error and changes nothing. */
  lemma HandleRejectsBadIdentity(s: Store, blockVar: string, parsed: Option<Ulid>, tenant: Option<string>, q: Query,
                                 body: Option<Meta>, f: Faults)
    requires blockVar == "" || parsed.None? || tenant.None?
    ensures var o := HandleSpec(s, blockVar, parsed, tenant, q, body, f);
      StatusOf(o.reason) == STATUS_BAD_REQUEST && o.store == s
  {
  }

  /**
   * Starting an upload of a completed block is a conflict, whatever the
   * body holds, and writes nothing.
   */
  lemma CreateOnCompletedBlock(s: Store, t: string, u: Ulid, body: Option<Meta>, f: Faults)
    requires StateOf(s, t, u.text) == Complete && !f.existsFails
    ensures CreateSpec(s, t, u, body, f) == Outcome(AlreadyExists, s)
    ensures StatusOf(AlreadyExists) == STATUS_CONFLICT
  {
  }

  /**
   * Starting an upload succeeds exactly when the block is not complete, the
   * body is a descriptor the sanitiser accepts and the store works; it then
   * stages the sanitised descriptor, replacing any staged one, and the
   * upload is in progress. Every failure leaves the store as it was.
   */
  lemma CreateOutcome(s: Store, t: string, u: Ulid, body: Option<Meta>, f: Faults)
    ensures var o := CreateSpec(s, t, u, body, f);
      && (o.reason == Done <==>
            !f.existsFails && StateOf(s, t, u.text) != Complete && body.Some?
            && Sanitize(body.value, t, u).Success? && !f.uploadFails)
      && (o.reason != Done ==> o.store == s)
      && (o.reason == Done ==>
            o.store == s[TempMetaKey(t, u.text) := Descriptor(Sanitize(body.value, t, u).value)]
            && StateOf(o.store, t, u.text) == InProgress)
      && SameOutsideTenant(s, o.store, t)
  {
    var o := CreateSpec(s, t, u, body, f);
    if o.reason == Done {
      DescriptorKeysDiffer(t, t, u.text, u.text);
    }
  }

  /**
   * A descriptor with a label outside the kept and stripped groups makes the
   * start request a client error that names exactly those labels, and
   * nothing is written.
   */
  lemma CreateRejectsUnsupportedLabels(s: Store, t: string, u: Ulid, m: Meta, f: Faults)
    requires !f.existsFails && StateOf(s, t, u.text) != Complete
    requires exists name :: name in LabelsOrEmpty(m) && PolicyOf(name) == Reject
    ensures var unknown := set name | name in LabelsOrEmpty(m) && PolicyOf(name) == Reject;
      CreateSpec(s, t, u, Some(m), f) == Outcome(UnsupportedLabels(unknown), s)
    ensures StatusOf(CreateSpec(s, t, u, Some(m), f).reason) == STATUS_BAD_REQUEST
  {
    SanitizeRejectsExactly(m, t, u);
    var name :| name in LabelsOrEmpty(m) && PolicyOf(name) == Reject;
    var unknown := set name | name in LabelsOrEmpty(m) && PolicyOf(name) == Reject;
    assert name in unknown;
    assert Sanitize(m, t, u) == Failure(unknown);
  }

  /**
   * A file upload is accepted only for `index` or `chunks/` and six
   * digits; any other destination, the empty one included, is a client
   * error that changes nothing, and a `meta.json` basename has its own
   * message.
   */
  lemma UploadFileAcceptsOnlyPattern(s: Store, blockVar: string, parsed: Option<Ulid>, q: Query, tenant: Option<string>,
                                     body: Option<seq<byte>>, contentLength: int, f: Faults)
    ensures var o := UploadFileSpec(s, blockVar, parsed, q, tenant, body, contentLength, f);
      var pth := QueryGet(q, "path");
      && (o.reason == Done ==> MatchesFilePattern(pth))
      && (!MatchesFilePattern(pth) ==> o.store == s && StatusOf(o.reason) == STATUS_BAD_REQUEST)
      && (blockVar != "" && parsed.Some? && pth != "" && tenant.Some? && Base(pth) == META_FILENAME ==>
            o.reason == MetaJsonNotAllowed)
  {
    var pth := QueryGet(q, "path");
    if MatchesFilePattern(pth) {
      BaseOfAcceptedPath(pth);
    }
  }

  /**
   * A file upload with an accepted path and a nonempty body is turned away
   * as not started when the block has no staged descriptor; when it
   * succeeds, the block had one and the only change to the store is the
   * file, written under the block's directory.
   */
  lemma UploadFileRequiresStartedUpload(s: Store, blockVar: string, parsed: Option<Ulid>, q: Query, tenant: Option<string>,
                                        body: Option<seq<byte>>, contentLength: int, f: Faults)
    ensures var o := UploadFileSpec(s, blockVar, parsed, q, tenant, body, contentLength, f);
      var pth := QueryGet(q, "path");
      && (o.reason == Done ==>
            && tenant.Some? && body.Some? && contentLength != 0
            && TempMetaKey(tenant.value, blockVar) in s
            && o.store == s[Key(tenant.value, Join(blockVar, pth)) := Blob(body.value)])
      && (o.reason != Done ==> o.store == s)
      && (blockVar != "" && parsed.Some? && tenant.Some? && MatchesFilePattern(pth) && body.Some? && contentLength != 0
          && !f.existsFails && TempMetaKey(tenant.value, blockVar) !in s ==>
            o == Outcome(NotStarted(blockVar), s) && StatusOf(o.reason) == STATUS_BAD_REQUEST)
  {
    var o := UploadFileSpec(s, blockVar, parsed, q, tenant, body, contentLength, f);
    var pth := QueryGet(q, "path");
    var check := CheckFileRequest(blockVar, parsed, pth, tenant, body, contentLength);
    if check == Done {
      assert o == WriteFileSpec(s, tenant.value, blockVar, pth, body.value, f);
    } else {
      assert o == Outcome(check, s);
    }
  }

  /**
   * A file upload never touches a descriptor object, of any block of any
   * tenant, so it never changes the state of any upload.
   */
  lemma UploadFileKeepsDescriptors(s: Store, blockVar: string, parsed: Option<Ulid>, q: Query, tenant: Option<string>,
                                   body: Option<seq<byte>>, contentLength: int, f: Faults, t: string, b: string)
    ensures var o := UploadFileSpec(s, blockVar, parsed, q, tenant, body, contentLength, f);
      && Lookup(o.store, MetaKey(t, b)) == Lookup(s, MetaKey(t, b))
      && Lookup(o.store, TempMetaKey(t, b)) == Lookup(s, TempMetaKey(t, b))
      && StateOf(o.store, t, b) == StateOf(s, t, b)
  {
    UploadFileRequiresStartedUpload(s, blockVar, parsed, q, tenant, body, contentLength, f);
    var o := UploadFileSpec(s, blockVar, parsed, q, tenant, body, contentLength, f);
    if o.reason == Done {
      var pth := QueryGet(q, "path");
      assert CheckFileRequest(blockVar, parsed, pth, tenant, body, contentLength) == Done;
      FileKeyIsNotDescriptor(tenant.value, blockVar, pth, t, b);
    }
  }

  /** The key a file with an accepted path is written under is neither descriptor key of any block. */
  lemma FileKeyIsNotDescriptor(tenantID: string, blockVar: string, pth: string, t: string, b: string)
    requires MatchesFilePattern(pth)
    ensures Key(tenantID, Join(blockVar, pth)) != MetaKey(t, b)
    ensures Key(tenantID, Join(blockVar, pth)) != TempMetaKey(t, b)
  {
    AcceptedPathIsNotDescriptor(pth);
    var written := Key(tenantID, Join(blockVar, pth));
    assert written.name[|written.name| - 1] == pth[|pth| - 1];
    assert MetaKey(t, b).name[|MetaKey(t, b).name| - 1] == 'n';
    assert TempMetaKey(t, b).name[|TempMetaKey(t, b).name| - 1] == 'p';
  }

  /**
   * Completing an upload publishes, as `meta.json`, the very descriptor that
   * was staged, without sanitising it again, and then removes the staged
   * copy. If the removal fails the answer is a server error, but the block
   * is complete all the same. Nothing else changes.
   */
  lemma CompletePublishesStagedDescriptor(s: Store, t: string, u: Ulid, f: Faults)
    requires TempMetaKey(t, u.text) in s && s[TempMetaKey(t, u.text)].Descriptor?
    requires !f.getFails && !f.uploadFails
    ensures var o := CompleteSpec(s, t, u, f);
      && MetaKey(t, u.text) in o.store && o.store[MetaKey(t, u.text)] == s[TempMetaKey(t, u.text)]
      && StateOf(o.store, t, u.text) == Complete
      && (f.deleteFails ==> o.reason == InternalError && TempMetaKey(t, u.text) in o.store)
      && (!f.deleteFails ==> o.reason == Done && TempMetaKey(t, u.text) !in o.store)
      && (forall k :: k != MetaKey(t, u.text) && k != TempMetaKey(t, u.text) ==> Lookup(o.store, k) == Lookup(s, k))
  {
    DescriptorKeysDiffer(t, t, u.text, u.text);
  }

  /**
   * Completing a block that has no staged descriptor is a server error and
   * changes nothing; so is every failure before the publish.
   */
  lemma CompleteWithoutStagedDescriptor(s: Store, t: string, u: Ulid, f: Faults)
    ensures var o := CompleteSpec(s, t, u, f);
      && (TempMetaKey(t, u.text) !in s ==> o == Outcome(InternalError, s))
      && (o.reason == Done || MetaKey(t, u.text) in o.store || o.store == s)
      && (StateOf(o.store, t, u.text) != Complete ==> o.store == s && o.reason == InternalError)
  {
  }

  /** No start or complete request changes an object of a tenant other than its own. */
  lemma HandleStaysInTenant(s: Store, blockVar: string, parsed: Option<Ulid>, t: string, q: Query,
                            meta: Option<Meta>, f: Faults)
    ensures SameOutsideTenant(s, HandleSpec(s, blockVar, parsed, Some(t), q, meta, f).store, t)
  {
    if blockVar != "" && parsed.Some? && !IsCompletion(q) {
      CreateOutcome(s, t, parsed.value, meta, f);
    }
  }

  /** No file upload changes an object of a tenant other than its own. */
  lemma UploadFileStaysInTenant(s: Store, blockVar: string, parsed: Option<Ulid>, t: string, q: Query,
                                bytes: Option<seq<byte>>, contentLength: int, f: Faults)
    ensures SameOutsideTenant(s, UploadFileSpec(s, blockVar, parsed, q, Some(t), bytes, contentLength, f).store, t)
  {
    UploadFileRequiresStartedUpload(s, blockVar, parsed, q, Some(t), bytes, contentLength, f);
  }

  /**
   * Starting and then completing an upload publishes a descriptor that
   * carries the session's block identifier and tenant and the upload
   * source, whatever the body supplied for them.
   */
  lemma CreateThenCompletePublishesSanitized(s: Store, t: string, u: Ulid, m: Meta)
    requires StateOf(s, t, u.text) != Complete
    requires Sanitize(m, t, u).Success?
    ensures var c := CreateSpec(s, t, u, Some(m), NO_FAULTS);
      var d := CompleteSpec(c.store, t, u, NO_FAULTS);
      && c.reason == Done && d.reason == Done
      && MetaKey(t, u.text) in d.store && d.store[MetaKey(t, u.text)].Descriptor?
      && var published := d.store[MetaKey(t, u.text)].meta;
         && published == Sanitize(m, t, u).value
         && published.ulid == u
         && published.labels.Some? && published.labels.value[TENANT_ID_LABEL] == t
         && published.source == UPLOAD_SOURCE
  {
    CreateOutcome(s, t, u, Some(m), NO_FAULTS);
    var c := CreateSpec(s, t, u, Some(m), NO_FAULTS);
    CompletePublishesStagedDescriptor(c.store, t, u, NO_FAULTS);
    SanitizeStampsSession(m, t, u);
  }

  /**
   * Starting an upload again before it is complete replaces the staged
   * descriptor: completion publishes what the second start sent.
   */
  lemma RecreateReplacesStagedDescriptor(s: Store, t: string, u: Ulid, m1: Meta, m2: Meta)
    requires StateOf(s, t, u.text) != Complete
    requires Sanitize(m1, t, u).Success? && Sanitize(m2, t, u).Success?
    ensures var c1 := CreateSpec(s, t, u, Some(m1), NO_FAULTS);
      var c2 := CreateSpec(c1.store, t, u, Some(m2), NO_FAULTS);
      var d := CompleteSpec(c2.store, t, u, NO_FAULTS);
      && c1.reason == Done && c2.reason == Done && d.reason == Done
      && d.store[MetaKey(t, u.text)] == Descriptor(Sanitize(m2, t, u).value)
  {
    CreateOutcome(s, t, u, Some(m1), NO_FAULTS);
    var c1 := CreateSpec(s, t, u, Some(m1), NO_FAULTS);
    CreateOutcome(c1.store, t, u, Some(m2), NO_FAULTS);
    var c2 := CreateSpec(c1.store, t, u, Some(m2), NO_FAULTS);
    CompletePublishesStagedDescriptor(c2.store, t, u, NO_FAULTS);
  }

  /**
   * Completion is not repeatable: once it has succeeded the staged
   * descriptor is gone, so a second completion is a server error.
   */
  lemma CompleteIsNotRepeatable(s: Store, t: string, u: Ulid, f: Faults)
    requires CompleteSpec(s, t, u, NO_FAULTS).reason == Done
    ensures var d := CompleteSpec(s, t, u, NO_FAULTS);
      CompleteSpec(d.store, t, u, f) == Outcome(InternalError, d.store)
  {
  }

  /**
   * While an upload is in progress, a well-formed file upload to an
   * accepted path succeeds and stores the file, and the upload stays in
   * progress with the same staged descriptor.
   */
  lemma UploadFileDuringUpload(s: Store, t: string, u: Ulid, q: Query, bytes: seq<byte>)
    requires u.text != "" && MatchesFilePattern(QueryGet(q, "path")) && |bytes| > 0
    requires StateOf(s, t, u.text) == InProgress && s[TempMetaKey(t, u.text)].Descriptor?
    ensures var o := UploadFileSpec(s, u.text, Some(u), q, Some(t), Some(bytes), |bytes|, NO_FAULTS);
      && o.reason == Done
      && o.store == s[Key(t, Join(u.text, QueryGet(q, "path"))) := Blob(bytes)]
      && StateOf(o.store, t, u.text) == InProgress
      && o.store[TempMetaKey(t, u.text)] == s[TempMetaKey(t, u.text)]
  {
    UploadFileKeepsDescriptors(s, u.text, Some(u), q, Some(t), Some(bytes), |bytes|, NO_FAULTS, t, u.text);
  }

  /**
   * A start request stages the descriptor under the parsed identifier's
   * canonical text, but a file upload looks for it under the block path
   * segment as the client wrote it. When the two differ (a segment that
   * parses to the same identifier but is not its canonical rendering) the
   * start succeeds and every file upload with that segment is then turned
   * away as not started.
   */
  lemma NonCanonicalSegmentNeverStarted(s: Store, t: string, seg: string, u: Ulid, m: Meta, q: Query, bytes: seq<byte>)
    requires seg != "" && seg != u.text
    requires StateOf(s, t, u.text) != Complete && Sanitize(m, t, u).Success?
    requires TempMetaKey(t, seg) !in s
    requires MatchesFilePattern(QueryGet(q, "path")) && |bytes| > 0
    ensures var c := HandleSpec(s, seg, Some(u), Some(t), map[], Some(m), NO_FAULTS);
      && c.reason == Done
      && StateOf(c.store, t, u.text) == InProgress
      && UploadFileSpec(c.store, seg, Some(u), q, Some(t), Some(bytes), |bytes|, NO_FAULTS) == Outcome(NotStarted(seg), c.store)
  {
    var start: Query := map[];
    assert !IsCompletion(start);
    CreateOutcome(s, t, u, Some(m), NO_FAULTS);
    var c := HandleSpec(s, seg, Some(u), Some(t), map[], Some(m), NO_FAULTS);
    assert c == CreateSpec(s, t, u, Some(m), NO_FAULTS);
    JoinInjective(seg, u.text, TEMP_META_FILENAME);
    assert TempMetaKey(t, seg) !in c.store;
    UploadFileRequiresStartedUpload(c.store, seg, Some(u), q, Some(t), Some(bytes), |bytes|, NO_FAULTS);
  }

  /** Objects of the same name under two different block directories have different keys. */
  lemma JoinInjective(a: string, b: string, name: string)
    ensures Join(a, name) == Join(b, name) ==> a == b
  {
    var ja, jb := Join(a, name), Join(b, name);
    if ja == jb {
      assert a == ja[..|a|] && b == jb[..|b|];
    }
  }

  /** Both files of the scenario land under the block, at keys distinct from each other and from the descriptors. */
  lemma ScenarioKeysDiffer(t: string, block: string)
    ensures var indexKey, chunkKey := Key(t, Join(block, "index")), Key(t, Join(block, "chunks/000001"));
      && indexKey != chunkKey
      && indexKey != TempMetaKey(t, block) && indexKey != MetaKey(t, block)
      && chunkKey != TempMetaKey(t, block) && chunkKey != MetaKey(t, block)
  {
    var indexKey, chunkKey := Key(t, Join(block, "index")), Key(t, Join(block, "chunks/000001"));
    assert indexKey.name[|indexKey.name| - 1] == 'x';
    assert chunkKey.name[|chunkKey.name| - 1] == '1';
    DescriptorKeysDiffer(t, t, block, block);
  }

  /**
   * The first half of the scenario: start the upload and send the index and
   * one chunk, with the block segment written as the canonical identifier.
   */
  lemma StartAndSendFiles(s: Store, t: string, u: Ulid, m: Meta, q1: Query, index: seq<byte>, q2: Query, chunk: seq<byte>)
    returns (c1: Outcome, f1: Outcome, f2: Outcome)
    requires u.text != ""
    requires StateOf(s, t, u.text) == NotStartedState
    requires m.labels == Some(map[])
    requires QueryGet(q1, "path") == "index" && |index| > 0
    requires QueryGet(q2, "path") == "chunks/000001" && |chunk| > 0
    ensures c1 == HandleSpec(s, u.text, Some(u), Some(t), map[], Some(m), NO_FAULTS)
    ensures f1 == UploadFileSpec(c1.store, u.text, Some(u), q1, Some(t), Some(index), |index|, NO_FAULTS)
    ensures f2 == UploadFileSpec(f1.store, u.text, Some(u), q2, Some(t), Some(chunk), |chunk|, NO_FAULTS)
    ensures c1.reason == Done && f1.reason == Done && f2.reason == Done
    ensures StateOf(f2.store, t, u.text) == InProgress && f2.store[TempMetaKey(t, u.text)].Descriptor?
    ensures Lookup(f2.store, Key(t, Join(u.text, "index"))) == Some(Blob(index))
    ensures Lookup(f2.store, Key(t, Join(u.text, "chunks/000001"))) == Some(Blob(chunk))
  {
    var start: Query := map[];
    assert !IsCompletion(start);
    assert Sanitize(m, t, u).Success? by {
      SanitizeRejectsExactly(m, t, u);
    }
    CreateOutcome(s, t, u, Some(m), NO_FAULTS);
    c1 := HandleSpec(s, u.text, Some(u), Some(t), start, Some(m), NO_FAULTS);
    assert c1 == CreateSpec(s, t, u, Some(m), NO_FAULTS);

    PathRuleExamples();
    UploadFileDuringUpload(c1.store, t, u, q1, index);
    f1 := UploadFileSpec(c1.store, u.text, Some(u), q1, Some(t), Some(index), |index|, NO_FAULTS);
    UploadFileDuringUpload(f1.store, t, u, q2, chunk);
    f2 := UploadFileSpec(f1.store, u.text, Some(u), q2, Some(t), Some(chunk), |chunk|, NO_FAULTS);
    ScenarioKeysDiffer(t, u.text);
  }

  /** The second half of the scenario: complete the upload, then try to start it again. */
  lemma CompleteThenRestart(s: Store, t: string, u: Ulid, m: Meta, k1: Key, k2: Key)
    returns (c2: Outcome, c3: Outcome)
    requires u.text != ""
    requires StateOf(s, t, u.text) == InProgress && s[TempMetaKey(t, u.text)].Descriptor?
    requires k1 != TempMetaKey(t, u.text) && k1 != MetaKey(t, u.text)
    requires k2 != TempMetaKey(t, u.text) && k2 != MetaKey(t, u.text)
    ensures c2 == HandleSpec(s, u.text, Some(u), Some(t), map["uploadComplete" := ["true"]], None, NO_FAULTS)
    ensures c3 == HandleSpec(c2.store, u.text, Some(u), Some(t), map[], Some(m), NO_FAULTS)
    ensures c2.reason == Done && c3.reason == AlreadyExists && StatusOf(c3.reason) == STATUS_CONFLICT
    ensures StateOf(c3.store, t, u.text) == Complete
    ensures Lookup(c3.store, k1) == Lookup(s, k1) && Lookup(c3.store, k2) == Lookup(s, k2)
  {
    var finish: Query := map["uploadComplete" := ["true"]];
    assert IsCompletion(finish);
    c2 := HandleSpec(s, u.text, Some(u), Some(t), finish, None, NO_FAULTS);
    assert c2 == CompleteSpec(s, t, u, NO_FAULTS);
    CompletePublishesStagedDescriptor(s, t, u, NO_FAULTS);

    var start: Query := map[];
    assert !IsCompletion(start);
    CreateOnCompletedBlock(c2.store, t, u, Some(m), NO_FAULTS);
    c3 := HandleSpec(c2.store, u.text, Some(u), Some(t), start, Some(m), NO_FAULTS);
  }

  /**
   * The whole life of an upload through the two endpoints: start with an
   * empty label set, upload the index and one chunk, complete, and start
   * again, which is refused as a conflict.
   */
  lemma EndToEndScenario(s: Store, t: string, u: Ulid, m: Meta, q1: Query, index: seq<byte>, q2: Query, chunk: seq<byte>)
    returns (c1: Outcome, f1: Outcome, f2: Outcome, c2: Outcome, c3: Outcome)
    requires u.text != ""
    requires StateOf(s, t, u.text) == NotStartedState
    requires m.labels == Some(map[])
    requires QueryGet(q1, "path") == "index" && |index| > 0
    requires QueryGet(q2, "path") == "chunks/000001" && |chunk| > 0
    ensures c1 == HandleSpec(s, u.text, Some(u), Some(t), map[], Some(m), NO_FAULTS)
    ensures f1 == UploadFileSpec(c1.store, u.text, Some(u), q1, Some(t), Some(index), |index|, NO_FAULTS)
    ensures f2 == UploadFileSpec(f1.store, u.text, Some(u), q2, Some(t), Some(chunk), |chunk|, NO_FAULTS)
    ensures c2 == HandleSpec(f2.store, u.text, Some(u), Some(t), map["uploadComplete" := ["true"]], None, NO_FAULTS)
    ensures c3 == HandleSpec(c2.store, u.text, Some(u), Some(t), map[], Some(m), NO_FAULTS)
    ensures c1.reason == Done && f1.reason == Done && f2.reason == Done && c2.reason == Done
    ensures c3.reason == AlreadyExists && StatusOf(c3.reason) == STATUS_CONFLICT
    ensures StateOf(c3.store, t, u.text) == Complete
    ensures Lookup(c3.store, Key(t, Join(u.text, "index"))) == Some(Blob(index))
    ensures Lookup(c3.store, Key(t, Join(u.text, "chunks/000001"))) == Some(Blob(chunk))
  {
    c1, f1, f2 := StartAndSendFiles(s, t, u, m, q1, index, q2, chunk);
    ScenarioKeysDiffer(t, u.text);
    var indexKey, chunkKey := Key(t, Join(u.text, "index")), Key(t, Join(u.text, "chunks/000001"));
    c2, c3 := CompleteThenRestart(f2.store, t, u, m, indexKey, chunkKey);
  }
}
