/**
 * The block descriptor (meta.json) and the sanitiser that runs over a
 * user-supplied descriptor before a block upload is allowed to start.
 */
module BlockMeta {
  import opened Wrappers

  /** A block identifier, held as its canonical 26-character rendering. */
  datatype Ulid = Ulid(text: string)

  /** External labels of a block: label name to label value. */
  type Labels = map<string, string>

  /** One entry of the descriptor's file list. */
  datatype FileEntry = FileEntry(relPath: string, sizeBytes: int)

  /**
   * The part of the block descriptor this model tracks. A `None` label map
   * stands for a descriptor whose label map is nil.
   */
  datatype Meta = Meta(
    ulid: Ulid,
    version: int,
    minTime: int,
    maxTime: int,
    labels: Option<Labels>,
    source: string,
    files: seq<FileEntry>)

  // The external label names the sanitiser knows about.
  const TENANT_ID_LABEL := "__org_id__"
  const COMPACTOR_SHARD_ID_LABEL := "__compactor_shard_id__"
  const INGESTER_ID_LABEL := "__ingester_id__"
  const DEPRECATED_SHARD_ID_LABEL := "__shard_id__"

  /** The source tag stamped on every uploaded block. */
  const UPLOAD_SOURCE := "upload"

  /** Prefix of the error message that lists rejected label names. */
  const UNSUPPORTED_LABELS_PREFIX := "unsupported external label(s): "

  /** What the sanitiser does with a label of a given name. */
  datatype LabelPolicy = Preserve | Strip | Reject

  /** The policy table: two labels are kept, two are dropped, everything else is refused. */
  function PolicyOf(name: string): LabelPolicy
  {
    if name == TENANT_ID_LABEL || name == COMPACTOR_SHARD_ID_LABEL then Preserve
    else if name == INGESTER_ID_LABEL || name == DEPRECATED_SHARD_ID_LABEL then Strip
    else Reject
  }

  /** The error the sanitiser reports: a client error with a message. */
  datatype BadRequest = BadRequest(message: string)

  /** The descriptor's labels, a nil map read as the empty map. */
  function LabelsOrEmpty(m: Meta): Labels
  {
    if m.labels.Some? then m.labels.value else map[]
  }

  /** The labels after the tenant label has been overwritten with the session tenant. */
  function StampedLabels(m: Meta, tenantID: string): Labels
  {
    LabelsOrEmpty(m)[TENANT_ID_LABEL := tenantID]
  }

  /** The names among the stamped labels that the policy refuses. */
  function RejectedLabels(m: Meta, tenantID: string): set<string>
  {
    set name | name in StampedLabels(m, tenantID) && PolicyOf(name) == Reject
  }

  /** The stamped labels that the policy keeps, with their values. */
  function KeptLabels(m: Meta, tenantID: string): Labels
  {
    var stamped := StampedLabels(m, tenantID);
    map name | name in stamped && PolicyOf(name) == Preserve :: stamped[name]
  }

  /**
   * Specification of the sanitiser: the set of refused label names when
   * there is one, otherwise the descriptor stamped with the session's block
   * identifier, tenant label and upload source, with its stripped labels gone.
   */
  function Sanitize(m: Meta, tenantID: string, blockID: Ulid): Result<Meta, set<string>>
  {
    if RejectedLabels(m, tenantID) != {} then Failure(RejectedLabels(m, tenantID))
    else Success(m.(ulid := blockID, labels := Some(KeptLabels(m, tenantID)), source := UPLOAD_SOURCE))
  }

  /** strings.Join(xs, ","). */
  function JoinComma(xs: seq<string>): string
  {
    if |xs| == 0 then ""
    else if |xs| == 1 then xs[0]
    else xs[0] + "," + JoinComma(xs[1..])
  }

  /** `xs` lists every element of `names` exactly once, in some order. */
  ghost predicate Enumerates(xs: seq<string>, names: set<string>)
  {
    && (forall i, j :: 0 <= i < j < |xs| ==> xs[i] != xs[j])
    && (forall x :: x in xs <==> x in names)
  }

  /** `message` is the rejection message listing `names` in some order. */
  ghost predicate ListsUnsupported(message: string, names: set<string>)
  {
    exists xs :: Enumerates(xs, names) && message == UNSUPPORTED_LABELS_PREFIX + JoinComma(xs)
  }

  /**
   * The sanitiser. The loop visits the label names in an order it does not
   * choose (a Go map is ranged over in an unspecified order), removes the
   * stripped labels from the map and collects the refused names.
   */
  method SanitizeMeta(tenantID: string, blockID: Ulid, meta: Meta) returns (r: Result<Meta, BadRequest>)
    ensures r.Success? <==> Sanitize(meta, tenantID, blockID).Success?
    ensures r.Success? ==> r.value == Sanitize(meta, tenantID, blockID).value
    ensures r.Failure? ==> ListsUnsupported(r.error.message, Sanitize(meta, tenantID, blockID).error)
  {
    var labels: Labels := if meta.labels.None? then map[] else meta.labels.value;
    var m := meta.(ulid := blockID);
    labels := labels[TENANT_ID_LABEL := tenantID];

    ghost var stamped := labels;
    var rejected: seq<string> := [];
    var toVisit := labels.Keys;
    while toVisit != {}
      invariant toVisit <= stamped.Keys
      invariant forall name :: name in labels <==> name in stamped && (name in toVisit || PolicyOf(name) != Strip)
      invariant forall name :: name in labels ==> labels[name] == stamped[name]
      invariant forall i, j :: 0 <= i < j < |rejected| ==> rejected[i] != rejected[j]
      invariant forall name :: name in rejected <==> name in stamped && name !in toVisit && PolicyOf(name) == Reject
      decreases toVisit
    {
      var name :| name in toVisit;
      if name == TENANT_ID_LABEL || name == COMPACTOR_SHARD_ID_LABEL {
        // kept as it is
      } else if name == INGESTER_ID_LABEL || name == DEPRECATED_SHARD_ID_LABEL {
        labels := labels - {name};
      } else {
        rejected := rejected + [name];
      }
      toVisit := toVisit - {name};
    }

    if |rejected| > 0 {
      assert rejected[0] in RejectedLabels(meta, tenantID);
      assert Enumerates(rejected, RejectedLabels(meta, tenantID));
      return Failure(BadRequest(UNSUPPORTED_LABELS_PREFIX + JoinComma(rejected)));
    }

    assert rejected == [];
    assert labels == KeptLabels(meta, tenantID);
    m := m.(labels := Some(labels), source := UPLOAD_SOURCE);
    return Success(m);
  }

  /**
   * A sanitised descriptor carries the session's block identifier, the
   * session's tenant as its tenant label and the upload source, whatever
   * the body said; its version, time range and file list are the body's.
   */
  lemma SanitizeStampsSession(m: Meta, tenantID: string, blockID: Ulid)
    requires Sanitize(m, tenantID, blockID).Success?
    ensures var out := Sanitize(m, tenantID, blockID).value;
      && out.ulid == blockID
      && out.labels.Some? && TENANT_ID_LABEL in out.labels.value && out.labels.value[TENANT_ID_LABEL] == tenantID
      && out.source == UPLOAD_SOURCE
      && out.version == m.version && out.minTime == m.minTime && out.maxTime == m.maxTime && out.files == m.files
  {
  }

  /**
   * The sanitised label names are the input's names among the tenant and
   * compactor-shard labels, plus the tenant label; every kept label other
   * than the tenant label has the value the input gave it.
   */
  lemma SanitizedLabelNames(m: Meta, tenantID: string, blockID: Ulid)
    requires Sanitize(m, tenantID, blockID).Success?
    ensures var out := Sanitize(m, tenantID, blockID).value.labels.value;
      && out.Keys == LabelsOrEmpty(m).Keys * {TENANT_ID_LABEL, COMPACTOR_SHARD_ID_LABEL} + {TENANT_ID_LABEL}
      && INGESTER_ID_LABEL !in out && DEPRECATED_SHARD_ID_LABEL !in out
      && forall name :: name in out && name != TENANT_ID_LABEL ==> name in LabelsOrEmpty(m) && out[name] == LabelsOrEmpty(m)[name]
  {
    var out := Sanitize(m, tenantID, blockID).value.labels.value;
    assert out == KeptLabels(m, tenantID);
  }

  /**
   * The sanitiser refuses a descriptor exactly when one of its label names
   * is outside the kept and stripped groups, and it reports exactly those
   * names; stamping the tenant label never causes a refusal.
   */
  lemma SanitizeRejectsExactly(m: Meta, tenantID: string, blockID: Ulid)
    ensures var unknown := set name | name in LabelsOrEmpty(m) && PolicyOf(name) == Reject;
      && (Sanitize(m, tenantID, blockID).Failure? <==> unknown != {})
      && (Sanitize(m, tenantID, blockID).Failure? ==> Sanitize(m, tenantID, blockID).error == unknown)
  {
    var unknown := set name | name in LabelsOrEmpty(m) && PolicyOf(name) == Reject;
    assert RejectedLabels(m, tenantID) == unknown;
  }

  /**
   * The documented example: the ingester label is stripped, the tenant and
   * compactor-shard labels are kept, and the whole descriptor is refused
   * because of `foo` alone.
   */
  lemma SanitizeExample(m: Meta, tenantID: string, blockID: Ulid)
    requires m.labels == Some(map[TENANT_ID_LABEL := "x", COMPACTOR_SHARD_ID_LABEL := "1",
                                  INGESTER_ID_LABEL := "i1", "foo" := "bar"])
    ensures Sanitize(m, tenantID, blockID) == Failure({"foo"})
  {
    SanitizeRejectsExactly(m, tenantID, blockID);
    var unknown := set name | name in LabelsOrEmpty(m) && PolicyOf(name) == Reject;
    assert "foo" in unknown;
    assert unknown == {"foo"};
  }

  /** strings.Split(s, ","). */
  function SplitComma(s: string): (parts: seq<string>)
    ensures |parts| > 0
    decreases |s|
  {
    if s == "" then [""]
    else if s[0] == ',' then [""] + SplitComma(s[1..])
    else var rest := SplitComma(s[1..]); [[s[0]] + rest[0]] + rest[1..]
  }

  lemma {:induction false} SplitCommaAfterName(name: string, rest: string)
    requires ',' !in name
    ensures SplitComma(name + "," + rest) == [name] + SplitComma(rest)
    decreases |name|
  {
    if name != "" {
      var joined := name + "," + rest;
      assert joined[0] == name[0] && joined[0] != ',';
      assert joined[1..] == name[1..] + "," + rest;
      SplitCommaAfterName(name[1..], rest);
      assert [joined[0]] + name[1..] == name;
    } else {
      assert (name + "," + rest)[1..] == rest;
    }
  }

  lemma {:induction false} SplitCommaOfName(name: string)
    requires ',' !in name
    ensures SplitComma(name) == [name]
    decreases |name|
  {
    if name != "" {
      SplitCommaOfName(name[1..]);
      assert name == [name[0]] + name[1..];
    }
  }

  /**
   * The rejection message lists the refused names faithfully: splitting
   * its list at the commas gives the names back, when none contains a comma.
   */
  lemma {:induction false} SplitJoinComma(xs: seq<string>)
    requires |xs| > 0
    requires forall i :: 0 <= i < |xs| ==> ',' !in xs[i]
    ensures SplitComma(JoinComma(xs)) == xs
  {
    if |xs| == 1 {
      SplitCommaOfName(xs[0]);
    } else {
      SplitJoinComma(xs[1..]);
      SplitCommaAfterName(xs[0], JoinComma(xs[1..]));
    }
  }
}
