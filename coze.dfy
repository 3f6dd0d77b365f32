/**
 * The Coze knowledge-base API as the uploaders use it: request envelopes, the
 * document store they post to, the configuration guard shared by every
 * `create_coze_doc`, and the reply rules of the dataset endpoint.
 */
module Coze {
  import opened Wrappers
  import opened Json
  import opened Web

  datatype ChunkStrategy = ChunkStrategy(chunkType: int, maxTokens: int)

  datatype SourceInfo = SourceInfo(fileBase64: string, fileType: string, documentSource: int)

  /** One document to create; a Python `None` name is sent as JSON `null`. */
  datatype DocumentBase = DocumentBase(name: Option<string>, sourceInfo: SourceInfo)

  /** The JSON body of a document-creation POST, in the two shapes the services send. */
  datatype Payload =
    | DatasetCreate(datasetId: string, documentBases: seq<DocumentBase>, chunkStrategy: ChunkStrategy, formatType: int)
    | DocCreate(kbId: string, docName: Option<string>, docType: string, content: string)

  datatype Request = Request(url: string, headers: seq<(string, string)>, payload: Payload)

  /** A reply body: JSON, or something `response.json()` cannot decode. */
  datatype Body = NotJson | Parsed(value: JsonValue)

  /** What one POST produces: a transport failure, or a reply with a status code. */
  datatype PostOutcome = ConnectionFailed | Replied(status: int, body: Body)

  /**
   * The Coze endpoint as the services see it: every POST is recorded in
   * `sent`, and the i-th one receives `replies[i]`; once the script is
   * exhausted every POST fails in transport.
   */
  class DocumentStore {
    var sent: seq<Request>
    const replies: seq<PostOutcome>

    constructor (replies: seq<PostOutcome>)
      ensures sent == [] && this.replies == replies
    {
      sent := [];
      this.replies := replies;
    }

    /** The outcome of the POST numbered `i` (counting from zero). */
    function ReplyTo(i: nat): PostOutcome {
      if i < |replies| then replies[i] else ConnectionFailed
    }

    method Post(req: Request) returns (o: PostOutcome)
      modifies this
      ensures sent == old(sent) + [req]
      ensures o == ReplyTo(old(|sent|))
    {
      o := ReplyTo(|sent|);
      sent := sent + [req];
    }
  }

  /** `all([COZE_API_KEY, kb_id])`; an unset variable reads as the empty string. */
  predicate Configured(apiKey: string, kbId: string) {
    apiKey != "" && kbId != ""
  }

  /** One `create_coze_doc(kb_id, doc_name, content)` call a sync step makes. */
  datatype Upload = Upload(kbId: string, name: Option<string>, content: string)

  /**
   * The POSTs a sequence of `create_coze_doc` calls sends, where `build` gives
   * the request of one call: calls whose configuration guard fails send nothing.
   */
  function Requests(apiKey: string, uploads: seq<Upload>, build: (string, Upload) -> Request): (r: seq<Request>)
    ensures |r| <= |uploads|
    ensures apiKey == "" ==> r == []
  {
    if uploads == [] then []
    else
      (if Configured(apiKey, uploads[0].kbId) then [build(apiKey, uploads[0])] else [])
      + Requests(apiKey, uploads[1..], build)
  }

  /** The calls of two consecutive steps send the POSTs of the first, then those of the second. */
  lemma {:induction false} RequestsAppend(apiKey: string, a: seq<Upload>, b: seq<Upload>, build: (string, Upload) -> Request)
    ensures Requests(apiKey, a + b, build) == Requests(apiKey, a, build) + Requests(apiKey, b, build)
  {
    if a != [] {
      assert (a + b)[0] == a[0];
      assert (a + b)[1..] == a[1..] + b;
      RequestsAppend(apiKey, a[1..], b, build);
    } else {
      assert a + b == b;
    }
  }

  /** A single `create_coze_doc` call sends one POST when configured, none otherwise. */
  lemma RequestsSingle(apiKey: string, u: Upload, build: (string, Upload) -> Request)
    ensures Requests(apiKey, [u], build) == if Configured(apiKey, u.kbId) then [build(apiKey, u)] else []
  {
    assert [u][1..] == [];
  }

  lemma AppendAssoc<T>(a: seq<T>, b: seq<T>, c: seq<T>)
    ensures a + (b + c) == (a + b) + c
  {
  }

  /** Two steps that send the POSTs of `a` and then those of `b` have sent those of `a + b`. */
  lemma SentAppend(start: seq<Request>, mid: seq<Request>, end: seq<Request>,
                   apiKey: string, a: seq<Upload>, b: seq<Upload>, build: (string, Upload) -> Request)
    requires mid == start + Requests(apiKey, a, build)
    requires end == mid + Requests(apiKey, b, build)
    ensures end == start + Requests(apiKey, a + b, build)
  {
    RequestsAppend(apiKey, a, b, build);
    assert start + Requests(apiKey, a, build) + Requests(apiKey, b, build)
        == start + (Requests(apiKey, a, build) + Requests(apiKey, b, build));
  }

  /** The calls up to and including the i-th send those up to the i-th, then those of the i-th. */
  lemma RequestsPrefixStep(apiKey: string, uploads: seq<Upload>, i: nat, build: (string, Upload) -> Request)
    requires i < |uploads|
    ensures Requests(apiKey, uploads[..i + 1], build) == Requests(apiKey, uploads[..i], build) + Requests(apiKey, [uploads[i]], build)
  {
    assert uploads[..i + 1] == uploads[..i] + [uploads[i]];
    RequestsAppend(apiKey, uploads[..i], [uploads[i]], build);
  }

  /**
   * A loop that has sent the POSTs of the first i calls and then makes call
   * i has sent the POSTs of the first i+1 calls.
   */
  lemma SentStep(start: seq<Request>, before: seq<Request>, after: seq<Request>,
                 apiKey: string, uploads: seq<Upload>, i: nat, build: (string, Upload) -> Request)
    requires i < |uploads|
    requires before == start + Requests(apiKey, uploads[..i], build)
    requires after == before + if Configured(apiKey, uploads[i].kbId) then [build(apiKey, uploads[i])] else []
    ensures after == start + Requests(apiKey, uploads[..i + 1], build)
  {
    RequestsPrefixStep(apiKey, uploads, i, build);
    assert [uploads[i]][1..] == [];
    var added := if Configured(apiKey, uploads[i].kbId) then [build(apiKey, uploads[i])] else [];
    assert Requests(apiKey, [uploads[i]], build) == added;
    assert start + Requests(apiKey, uploads[..i], build) + added == start + (Requests(apiKey, uploads[..i], build) + added);
  }

  /**
   * Calls that all target one knowledge base send exactly one POST each, in
   * order, when the key and that base are configured, and none otherwise.
   */
  lemma {:induction false} RequestsToOneBase(apiKey: string, kbId: string, uploads: seq<Upload>, build: (string, Upload) -> Request)
    requires forall k :: 0 <= k < |uploads| ==> uploads[k].kbId == kbId
    ensures Configured(apiKey, kbId) ==> |Requests(apiKey, uploads, build)| == |uploads|
    ensures Configured(apiKey, kbId) ==>
      forall k :: 0 <= k < |uploads| ==> Requests(apiKey, uploads, build)[k] == build(apiKey, uploads[k])
    ensures !Configured(apiKey, kbId) ==> Requests(apiKey, uploads, build) == []
  {
    if uploads != [] {
      RequestsToOneBase(apiKey, kbId, uploads[1..], build);
      var rest := Requests(apiKey, uploads[1..], build);
      if Configured(apiKey, kbId) {
        var r := [build(apiKey, uploads[0])] + rest;
        assert Requests(apiKey, uploads, build) == r;
        forall k | 0 <= k < |uploads| ensures r[k] == build(apiKey, uploads[k]) {
          if k > 0 {
            assert r[k] == rest[k - 1] && uploads[1..][k - 1] == uploads[k];
          }
        }
      }
    }
  }

  /** The calls made for the first `i` of `keys`, in order, where `each` gives the calls for one key. */
  function UploadsUpTo(each: string -> seq<Upload>, keys: seq<string>, i: nat): seq<Upload>
    requires i <= |keys|
  {
    if i == 0 then [] else UploadsUpTo(each, keys, i - 1) + each(keys[i - 1])
  }

  /** When each of the first `i` keys gives one call, the calls are those, one per key, in order. */
  lemma {:induction false} UploadsUpToOneEach(each: string -> seq<Upload>, keys: seq<string>, i: nat)
    requires i <= |keys|
    requires forall k :: 0 <= k < i ==> |each(keys[k])| == 1
    ensures var us := UploadsUpTo(each, keys, i);
      |us| == i && forall k :: 0 <= k < i ==> us[k] == each(keys[k])[0]
  {
    if i > 0 {
      UploadsUpToOneEach(each, keys, i - 1);
      var before := UploadsUpTo(each, keys, i - 1);
      var us := before + each(keys[i - 1]);
      assert forall k :: 0 <= k < i - 1 ==> us[k] == before[k];
    }
  }

  /** When every call any key gives has the property `p`, so do the calls for the first `i` keys together. */
  lemma {:induction false} UploadsUpToAll(each: string -> seq<Upload>, keys: seq<string>, i: nat, p: Upload -> bool)
    requires i <= |keys|
    requires forall key, j :: 0 <= j < |each(key)| ==> p(each(key)[j])
    ensures forall k :: 0 <= k < |UploadsUpTo(each, keys, i)| ==> p(UploadsUpTo(each, keys, i)[k])
  {
    if i > 0 {
      UploadsUpToAll(each, keys, i - 1, p);
      var before := UploadsUpTo(each, keys, i - 1);
      var us := before + each(keys[i - 1]);
      forall k | 0 <= k < |us| ensures p(us[k]) {
        if k >= |before| { assert us[k] == each(keys[i - 1])[k - |before|]; }
      }
    }
  }

  /** The dataset endpoint of coze_uploader.py and coze_file_uploader.py. */
  const DatasetUrl: string := "https://api.coze.cn/open_api/knowledge/document/create"

  function DatasetHeaders(apiKey: string): seq<(string, string)> {
    [("Authorization", "Bearer " + apiKey), ("Content-Type", "application/json"), ("Agw-Js-Conv", "str")]
  }

  /**
   * The dataset request for one document: `dataset_id` is the knowledge base,
   * a single document base carries the name and the base 64 text of the file,
   * and the chunking and format fields are fixed.
   */
  function DatasetRequest(apiKey: string, kbId: string, name: Option<string>, fileBase64: string, fileType: string): (r: Request)
    ensures r.url == DatasetUrl && r.payload.DatasetCreate? && r.payload.datasetId == kbId
    ensures |r.payload.documentBases| == 1
    ensures r.payload.documentBases[0] == DocumentBase(name, SourceInfo(fileBase64, fileType, 0))
    ensures r.payload.chunkStrategy == ChunkStrategy(0, 800) && r.payload.formatType == 0
  {
    Request(DatasetUrl, DatasetHeaders(apiKey),
      DatasetCreate(kbId, [DocumentBase(name, SourceInfo(fileBase64, fileType, 0))], ChunkStrategy(0, 800), 0))
  }

  /**
   * `data.get("document_infos", [{}])[0].get("document_id")` does not raise:
   * the key is absent, or holds a non-empty array whose first item is an object.
   */
  predicate DocumentInfosReadable(fields: map<string, JsonValue>) {
    "document_infos" !in fields
    || (fields["document_infos"].JArray? && |fields["document_infos"].items| > 0
        && fields["document_infos"].items[0].JObject?)
  }

  /**
   * The value `create_coze_doc` (coze_uploader.py) and `upload_file_to_coze`
   * return for a POST outcome. Every exception is caught there, so the
   * response data comes back exactly when the status is not an error, the
   * body is a JSON object, its code equals zero and its document list can be
   * read; anything else gives `None`.
   */
  function DatasetReply(o: PostOutcome): (r: Option<JsonValue>)
    ensures r.Some? ==> o.Replied? && !IsHttpError(o.status) && o.body == Parsed(r.value)
    ensures r.Some? ==> r.value.JObject? && CodeIsZero(r.value.fields) && DocumentInfosReadable(r.value.fields)
    ensures r.None? ==> o.ConnectionFailed? || IsHttpError(o.status) || o.body.NotJson? || !o.body.value.JObject?
                        || !CodeIsZero(o.body.value.fields) || !DocumentInfosReadable(o.body.value.fields)
  {
    match o
    case ConnectionFailed => None
    case Replied(status, body) =>
      if IsHttpError(status) then None
      else match body
        case NotJson => None
        case Parsed(v) =>
          if v.JObject? && CodeIsZero(v.fields) && DocumentInfosReadable(v.fields) then Some(v) else None
  }
}
