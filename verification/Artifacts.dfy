/** The artifact store: what it writes for an attempt, and what its validation accepts. JSON,
    SHA-256 and str() are parameters. */
module Artifacts {
  import opened Domain

  /** json.dumps and json.loads with UTF-8, and the hash. */
  datatype Codec = Codec(encode: Document -> Bytes, decode: Bytes -> Option<Document>, hash: Bytes -> Digest)

  ghost predicate RoundTrips(c: Codec) {
    forall d: Document :: c.decode(c.encode(d)) == Some(d)
  }

  ghost predicate Injective(c: Codec) {
    forall a: Bytes, b: Bytes :: c.hash(a) == c.hash(b) ==> a == b
  }

  /** The codec, the payload digest, and the texts of ids and of values that are not text. */
  datatype Format = Format(codec: Codec, payloadDigest: Payload -> Digest, idText: nat -> string,
                           render: Value -> string)
  {
    function Str(v: Value): string {
      if v.Text? then v.text else render(v)
    }
  }

  // ----- the content -----

  /** The content before the runner's payload is merged in. */
  function BaseContent(f: Format, r: WriteRequest): Document {
    map["job_id" := Text(f.idText(r.job)), "run_id" := Text(f.idText(r.runId)),
        "input_digest" := Text(f.payloadDigest(r.payload)), "worker_id" := Text(f.idText(r.worker)),
        "attempt_number" := Number(r.attempt), "created_at" := Text(r.createdAt),
        "result_summary" := Text(r.result.summary)]
  }

  function Content(f: Format, r: WriteRequest): Document {
    if r.result.artifactPayload.Dict? then BaseContent(f, r) + r.result.artifactPayload.fields else BaseContent(f, r)
  }

  function EvalPath(f: Format, result: RunnerResult): Option<string> {
    if result.artifactPayload.Dict? && Get(result.artifactPayload.fields, "eval_result_path") != Null then
      Some(f.Str(Get(result.artifactPayload.fields, "eval_result_path")))
    else None
  }

  /** dict.get */
  function Get(d: Document, field: string): Value {
    if field in d then d[field] else Null
  }

  function MetadataOf(f: Format, r: WriteRequest, bytes: Bytes): Metadata {
    Metadata((r.job, r.attempt), |bytes|, f.codec.hash(bytes), f.idText(r.job), f.idText(r.runId), r.attempt,
             f.payloadDigest(r.payload), r.createdAt, EvalPath(f, r.result))
  }

  /** What the store makes of a request. */
  function Write(f: Format, r: WriteRequest): Written {
    var bytes := f.codec.encode(Content(f, r));
    Written(bytes, MetadataOf(f, r, bytes))
  }

  function Writer(f: Format): (w: WriteRequest -> Written)
    ensures forall r :: w(r) == Write(f, r)
  {
    (r: WriteRequest) => Write(f, r)
  }

  // ----- the validation -----

  /** The fields that validation compares, in order. */
  function ExpectedFields(m: Metadata): seq<(string, Value)> {
    [("job_id", Text(m.jobId)), ("run_id", Text(m.runId)), ("attempt_number", Number(m.attempt)),
     ("input_digest", Text(m.inputDigest)), ("created_at", Text(m.createdAt))]
    + if m.evalResultPath.Some? then [("eval_result_path", Text(m.evalResultPath.value))] else []
  }

  /** Python's equality with an expected text or integer: true, false and floats equal the
      integer of their value. An odd integer over a power of two is none. */
  predicate Equals(v: Value, expected: Value) {
    if expected.Number? then
      match v
      case Number(n) => n == expected.number
      case Flag(b) => expected.number == if b then 1 else 0
      case Float(h, e) => e >= 0 && (2 * h + 1) * Pow2(e) == expected.number
      case ZeroFloat(_) => expected.number == 0
      case _ => false
    else v == expected
  }

  ghost predicate FieldsMatch(d: Document, m: Metadata) {
    forall k :: 0 <= k < |ExpectedFields(m)| ==> Equals(Get(d, ExpectedFields(m)[k].0), ExpectedFields(m)[k].1)
  }

  /** Field k of the list is the first that the document does not have as expected. */
  ghost predicate FirstMismatch(d: Document, expected: seq<(string, Value)>, k: nat)
    requires k < |expected|
  {
    && !Equals(Get(d, expected[k].0), expected[k].1)
    && forall i :: 0 <= i < k ==> Equals(Get(d, expected[i].0), expected[i].1)
  }

  datatype IntegrityError = Missing | SizeMismatch | HashMismatch | NotJson | FieldMismatch(field: string)

  /** What validation accepts, by definition. */
  ghost predicate Intact(c: Codec, files: map<Path, Bytes>, m: Metadata) {
    && m.path in files && |files[m.path]| == m.size && c.hash(files[m.path]) == m.sha
    && c.decode(files[m.path]).Some? && FieldsMatch(c.decode(files[m.path]).value, m)
  }

  // ----- what a written artifact says -----

  /** The fields of the runner's payload. */
  function PayloadFields(result: RunnerResult): Document {
    if result.artifactPayload.Dict? then result.artifactPayload.fields else map[]
  }

  /** The base field has its value, unless the payload sets it. */
  predicate BaseIs(d: Document, result: RunnerResult, field: string, value: Value) {
    field !in PayloadFields(result) ==> field in d && d[field] == value
  }

  predicate IsBase(field: string) {
    field in {"job_id", "run_id", "input_digest", "worker_id", "attempt_number", "created_at", "result_summary"}
  }

  /** The artifact of an attempt: what every field says. */
  ghost predicate Tells(f: Format, d: Document, job: JobId, runId: RunId, payload: Payload, worker: ActorId,
                        attempt: nat, createdAt: string, result: RunnerResult) {
    && (forall field :: field in d <==> field in PayloadFields(result) || IsBase(field))
    && (forall field :: field in PayloadFields(result) ==> d[field] == PayloadFields(result)[field])
    && BaseIs(d, result, "job_id", Text(f.idText(job))) && BaseIs(d, result, "run_id", Text(f.idText(runId)))
    && BaseIs(d, result, "input_digest", Text(f.payloadDigest(payload)))
    && BaseIs(d, result, "worker_id", Text(f.idText(worker)))
    && BaseIs(d, result, "attempt_number", Number(attempt)) && BaseIs(d, result, "created_at", Text(createdAt))
    && BaseIs(d, result, "result_summary", Text(result.summary))
  }

  /** The metadata of an attempt's artifact with these bytes. */
  ghost predicate Describes(f: Format, m: Metadata, bytes: Bytes, job: JobId, runId: RunId, payload: Payload,
                            attempt: nat, createdAt: string, result: RunnerResult) {
    var link := Get(PayloadFields(result), "eval_result_path");
    && m.path == (job, attempt) && m.size == |bytes| && m.sha == f.codec.hash(bytes)
    && m.jobId == f.idText(job) && m.runId == f.idText(runId) && m.attempt == attempt
    && m.inputDigest == f.payloadDigest(payload) && m.createdAt == createdAt
    && (m.evalResultPath.None? <==> link == Null)
    && (link.Text? ==> m.evalResultPath == Some(link.text))
    && (link != Null && !link.Text? ==> m.evalResultPath == Some(f.render(link)))
  }

  lemma BaseFields(f: Format, r: WriteRequest)
    ensures forall field :: field in BaseContent(f, r) <==> IsBase(field)
  {
  }

  lemma ContentFields(f: Format, r: WriteRequest)
    ensures forall field :: field in Content(f, r) <==> field in PayloadFields(r.result) || IsBase(field)
  {
    BaseFields(f, r);
  }

  /** A base field keeps its value under a payload that does not set it. */
  lemma BaseSurvives(f: Format, r: WriteRequest, field: string, value: Value)
    requires field in BaseContent(f, r) && BaseContent(f, r)[field] == value
    ensures BaseIs(Content(f, r), r.result, field, value)
  {
  }

  lemma BaseTells(f: Format, r: WriteRequest)
    ensures var d := Content(f, r);
            && BaseIs(d, r.result, "job_id", Text(f.idText(r.job)))
            && BaseIs(d, r.result, "run_id", Text(f.idText(r.runId)))
            && BaseIs(d, r.result, "input_digest", Text(f.payloadDigest(r.payload)))
            && BaseIs(d, r.result, "worker_id", Text(f.idText(r.worker)))
            && BaseIs(d, r.result, "attempt_number", Number(r.attempt))
            && BaseIs(d, r.result, "created_at", Text(r.createdAt))
            && BaseIs(d, r.result, "result_summary", Text(r.result.summary))
  {
    BaseSurvives(f, r, "job_id", Text(f.idText(r.job)));
    BaseSurvives(f, r, "run_id", Text(f.idText(r.runId)));
    BaseSurvives(f, r, "input_digest", Text(f.payloadDigest(r.payload)));
    BaseSurvives(f, r, "worker_id", Text(f.idText(r.worker)));
    BaseSurvives(f, r, "attempt_number", Number(r.attempt));
    BaseSurvives(f, r, "created_at", Text(r.createdAt));
    BaseSurvives(f, r, "result_summary", Text(r.result.summary));
  }

  lemma PayloadWins(f: Format, r: WriteRequest, field: string)
    requires field in PayloadFields(r.result)
    ensures field in Content(f, r) && Content(f, r)[field] == PayloadFields(r.result)[field]
  {
  }

  lemma ContentTells(f: Format, r: WriteRequest)
    ensures Tells(f, Content(f, r), r.job, r.runId, r.payload, r.worker, r.attempt, r.createdAt, r.result)
  {
    ContentFields(f, r);
    forall field | field in PayloadFields(r.result)
      ensures field in Content(f, r) && Content(f, r)[field] == PayloadFields(r.result)[field]
    {
      PayloadWins(f, r, field);
    }
    BaseTells(f, r);
  }

  lemma MetadataDescribes(f: Format, r: WriteRequest)
    ensures var w := Write(f, r);
            Describes(f, w.meta, w.bytes, r.job, r.runId, r.payload, r.attempt, r.createdAt, r.result)
  {
  }

  /** The written bytes decode to a document that says what it should, and the metadata is
      that of these bytes. */
  lemma WrittenTells(f: Format, r: WriteRequest)
    requires RoundTrips(f.codec)
    ensures var w := Write(f, r);
            var d := f.codec.decode(w.bytes);
            && d.Some? && Tells(f, d.value, r.job, r.runId, r.payload, r.worker, r.attempt, r.createdAt, r.result)
            && Describes(f, w.meta, w.bytes, r.job, r.runId, r.payload, r.attempt, r.createdAt, r.result)
  {
    assert f.codec.decode(Write(f, r).bytes) == Some(Content(f, r));
    ContentTells(f, r);
    MetadataDescribes(f, r);
  }

  // ----- the cross-link of an evaluation result -----

  /** portable_artifact_path */
  function PortablePath(f: Format, r: WriteRequest): string {
    "artifact://" + f.idText(r.job) + "/attempt-" + f.idText(r.attempt) + ".json"
  }

  /** The three fields that the link sets in the result file of the evaluation. */
  function LinkFields(f: Format, r: WriteRequest): Document
    requires r.result.artifactPayload.Dict?
  {
    map["case_id" := Get(r.result.artifactPayload.fields, "case_id"),
        "quality_status" := Get(r.result.artifactPayload.fields, "quality_status"),
        "runtime_artifact_path" := Text(PortablePath(f, r))]
  }

  /** The bytes of the result file after the link: what was there, if it was a JSON object. */
  function Linked(f: Format, r: WriteRequest, before: Option<Bytes>): Bytes
    requires r.result.artifactPayload.Dict?
  {
    var previous :=
      if before.Some? && f.codec.decode(before.value).Some? then f.codec.decode(before.value).value else map[];
    f.codec.encode(previous + LinkFields(f, r))
  }

  /** After the link the result file has the three fields of the evaluation, and otherwise what
      it had before, if that was a JSON object. */
  lemma LinkedTells(f: Format, r: WriteRequest, before: Option<Bytes>)
    requires RoundTrips(f.codec) && r.result.artifactPayload.Dict?
    ensures var d, payload := f.codec.decode(Linked(f, r, before)), r.result.artifactPayload.fields;
            && d.Some? && Get(d.value, "case_id") == Get(payload, "case_id")
            && Get(d.value, "quality_status") == Get(payload, "quality_status")
            && Get(d.value, "runtime_artifact_path")
               == Text("artifact://" + f.idText(r.job) + "/attempt-" + f.idText(r.attempt) + ".json")
            && forall field :: field !in {"case_id", "quality_status", "runtime_artifact_path"} ==>
                 Get(d.value, field)
                 == if before.Some? && f.codec.decode(before.value).Some? then
                      Get(f.codec.decode(before.value).value, field)
                    else Null
  {
    var previous :=
      if before.Some? && f.codec.decode(before.value).Some? then f.codec.decode(before.value).value else map[];
    assert f.codec.decode(Linked(f, r, before)) == Some(previous + LinkFields(f, r));
  }

  class ArtifactStore {
    const format: Format
    var files: map<Path, Bytes>
    /** The result files of evaluations, by path. */
    var evalResults: map<string, Bytes>

    constructor (format: Format)
      ensures this.format == format && files == map[] && evalResults == map[]
    {
      this.format, files, evalResults := format, map[], map[];
    }

    /** write_stub_job_artifact; None is the TypeError for a payload that is not a dictionary. */
    method WriteStubJobArtifact(r: WriteRequest) returns (m: Option<Metadata>)
      modifies this
      ensures m.None? <==> r.result.artifactPayload.NotADict?
      ensures m.None? ==> files == old(files)
      ensures m.Some? ==> m.value == Write(format, r).meta
      ensures m.Some? ==> files == old(files)[(r.job, r.attempt) := Write(format, r).bytes]
      ensures evalResults ==
              if EvalPath(format, r.result).None? then old(evalResults)
              else
                var p := EvalPath(format, r.result).value;
                var before := if p in old(evalResults) then Some(old(evalResults)[p]) else None;
                old(evalResults)[p := Linked(format, r, before)]
    {
      if r.result.artifactPayload.NotADict? {
        return None;
      }
      var evalPath := None;
      var content := BaseContent(format, r);
      if r.result.artifactPayload.Dict? {
        var fields := r.result.artifactPayload.fields;
        if Get(fields, "eval_result_path") != Null {
          evalPath := Some(format.Str(Get(fields, "eval_result_path")));
        }
        content := content + fields;
      }
      var encoded := format.codec.encode(content);
      files := files[(r.job, r.attempt) := encoded];
      if evalPath.Some? {
        UpsertEvalResultCrossLink(evalPath.value, r);
      }
      return Some(Metadata((r.job, r.attempt), |encoded|, format.codec.hash(encoded), format.idText(r.job),
                           format.idText(r.runId), r.attempt, format.payloadDigest(r.payload), r.createdAt, evalPath));
    }

    method UpsertEvalResultCrossLink(path: string, r: WriteRequest)
      requires r.result.artifactPayload.Dict?
      modifies this`evalResults
      ensures var before := if path in old(evalResults) then Some(old(evalResults)[path]) else None;
              evalResults == old(evalResults)[path := Linked(format, r, before)]
    {
      var result: Document := map[];
      if path in evalResults {
        var parsed := format.codec.decode(evalResults[path]);
        if parsed.Some? {
          result := parsed.value;
        }
      }
      evalResults := evalResults[path := format.codec.encode(result + LinkFields(format, r))];
    }

    /** validate_artifact_integrity: the first check that fails. */
    method ValidateArtifactIntegrity(m: Metadata) returns (error: Option<IntegrityError>)
      ensures error.None? <==> Intact(format.codec, files, m)
      ensures error == Some(Missing) <==> m.path !in files
      ensures m.path in files ==>
                var bytes := files[m.path];
                var sized := |bytes| == m.size;
                var hashed := format.codec.hash(bytes) == m.sha;
                && (error == Some(SizeMismatch) <==> !sized) && (error == Some(HashMismatch) <==> sized && !hashed)
                && (error == Some(NotJson) <==> sized && hashed && format.codec.decode(bytes).None?)
                && (error.Some? && error.value.FieldMismatch? ==>
                      format.codec.decode(bytes).Some?
                      && exists k :: 0 <= k < |ExpectedFields(m)|
                                  && FirstMismatch(format.codec.decode(bytes).value, ExpectedFields(m), k)
                                  && ExpectedFields(m)[k].0 == error.value.field)
    {
      if m.path !in files {
        return Some(Missing);
      }
      var bytes := files[m.path];
      if |bytes| != m.size {
        return Some(SizeMismatch);
      }
      if format.codec.hash(bytes) != m.sha {
        return Some(HashMismatch);
      }
      var content := format.codec.decode(bytes);
      if content.None? {
        return Some(NotJson);
      }
      var expected := ExpectedFields(m);
      var k := 0;
      while k < |expected|
        invariant k <= |expected|
        invariant forall i :: 0 <= i < k ==> Equals(Get(content.value, expected[i].0), expected[i].1)
      {
        if !Equals(Get(content.value, expected[k].0), expected[k].1) {
          return Some(FieldMismatch(expected[k].0));
        }
        k := k + 1;
      }
      return None;
    }
  }

  // ----- when a written artifact validates -----

  /** The payload leaves the field alone, or sets it to an equal value. */
  predicate Keeps(fields: Document, field: string, value: Value) {
    field in fields ==> Equals(fields[field], value)
  }

  /** The payload overrides no identity field, and its eval_result_path, if any, is text. */
  ghost predicate KeepsIdentity(f: Format, r: WriteRequest) {
    r.result.artifactPayload.Dict? ==>
      var d := r.result.artifactPayload.fields;
      && Keeps(d, "job_id", Text(f.idText(r.job))) && Keeps(d, "run_id", Text(f.idText(r.runId)))
      && Keeps(d, "input_digest", Text(f.payloadDigest(r.payload))) && Keeps(d, "attempt_number", Number(r.attempt))
      && Keeps(d, "created_at", Text(r.createdAt))
      && (Get(d, "eval_result_path").Null? || Get(d, "eval_result_path").Text?)
  }

  lemma ContentGet(f: Format, r: WriteRequest, field: string)
    ensures Get(Content(f, r), field)
         == if r.result.artifactPayload.Dict? && field in r.result.artifactPayload.fields then
              r.result.artifactPayload.fields[field]
            else Get(BaseContent(f, r), field)
  {
  }

  lemma FieldsMatchUnfolds(d: Document, m: Metadata)
    ensures FieldsMatch(d, m) <==>
      && Get(d, "job_id") == Text(m.jobId) && Get(d, "run_id") == Text(m.runId)
      && Equals(Get(d, "attempt_number"), Number(m.attempt))
      && Get(d, "input_digest") == Text(m.inputDigest) && Get(d, "created_at") == Text(m.createdAt)
      && (m.evalResultPath.Some? ==> Get(d, "eval_result_path") == Text(m.evalResultPath.value))
  {
    var e := ExpectedFields(m);
    assert e[0] == ("job_id", Text(m.jobId)) && e[1] == ("run_id", Text(m.runId))
        && e[2] == ("attempt_number", Number(m.attempt));
    assert e[3] == ("input_digest", Text(m.inputDigest)) && e[4] == ("created_at", Text(m.createdAt));
    if m.evalResultPath.Some? {
      assert e[5] == ("eval_result_path", Text(m.evalResultPath.value));
    }
  }

  /** A file that holds what the store wrote validates if and only if the runner's payload
      keeps the identity fields. */
  lemma WrittenIsIntactIff(f: Format, files: map<Path, Bytes>, r: WriteRequest)
    requires RoundTrips(f.codec) && !r.result.artifactPayload.NotADict?
    requires (r.job, r.attempt) in files && files[(r.job, r.attempt)] == Write(f, r).bytes
    ensures Intact(f.codec, files, Write(f, r).meta) <==> KeepsIdentity(f, r)
  {
    var d, m := Content(f, r), Write(f, r).meta;
    assert f.codec.decode(files[m.path]) == Some(d);
    FieldsMatchUnfolds(d, m);
    ContentGet(f, r, "job_id");
    ContentGet(f, r, "run_id");
    ContentGet(f, r, "attempt_number");
    ContentGet(f, r, "input_digest");
    ContentGet(f, r, "created_at");
    ContentGet(f, r, "eval_result_path");
  }

  /** With an injective hash, a file that validates holds the very bytes that were hashed:
      whatever another file content, the metadata of a write does not validate it. */
  lemma IntactMeansUnchanged(f: Format, later: map<Path, Bytes>, r: WriteRequest)
    requires Injective(f.codec) && Intact(f.codec, later, Write(f, r).meta)
    ensures (r.job, r.attempt) in later && later[(r.job, r.attempt)] == Write(f, r).bytes
  {
  }
}
