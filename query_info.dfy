/**
 * The record kept for one intercepted Elasticsearch call (`ElasticQueryInfo`)
 * and the record the transport wrapper builds from a finished call.
 */
module QueryInfo {
  import opened Wrappers
  import opened Text

  /** A `hexdigest()` string. */
  type Digest = string

  /** The Python values that reach the record as body or response: `None`, a `str` or `bytes`. */
  datatype Payload = PyNone | PyStr(s: string) | PyBytes(b: seq<byte>)

  /** Python truthiness of a payload: `None`, `""` and `b""` are false. */
  predicate Falsy(p: Payload)
    ensures Falsy(p) <==> p.PyNone? || (p.PyStr? && |p.s| == 0) || (p.PyBytes? && |p.b| == 0)
  {
    p.PyNone? || p == PyStr([]) || p == PyBytes([])
  }

  /**
   * The library code the record builder calls but this model does not define.
   * `reformat(p)` is `json.dumps(json.loads(p), sort_keys=True, indent=2, ...)`
   * with single quotes escaped, or None when `json.loads` raises; `md5(k)` is
   * `hashlib.md5(k).hexdigest()`. Both are deterministic.
   */
  datatype Foreign = Foreign(reformat: Payload -> Option<string>, md5: seq<byte> -> Digest)

  datatype QueryRecord = QueryRecord(
    requestMethod: string,
    fullUrl: string,
    path: string,
    body: string,
    statusCode: int,
    response: Payload,
    duration: real,   // milliseconds
    hash: Digest)

  /**
   * `_pretty_json`: the reformatted text when the payload parses, the payload itself when it
   * does not. `json.loads(None)` always raises TypeError, so `None` comes back unchanged.
   */
  function PrettyJson(p: Payload, f: Foreign): (r: Payload)
    ensures r.PyStr? || r == p
    ensures p.PyNone? ==> r == PyNone
    ensures !p.PyNone? && f.reformat(p).Some? ==> r == PyStr(f.reformat(p).value)
    ensures !p.PyNone? && f.reformat(p).None? ==> r == p
  {
    if p.PyNone? then p
    else
      match f.reformat(p)
      case Some(t) => PyStr(t)
      case None => p
  }

  /** The body stored in the record: `""` for a falsy body, otherwise the pretty form, bytes decoded leniently. */
  function NormaliseBody(p: Payload, f: Foreign): (s: string)
    ensures Falsy(p) ==> s == ""
    ensures !Falsy(p) && f.reformat(p).Some? ==> s == f.reformat(p).value
    ensures !Falsy(p) && f.reformat(p).None? && p.PyStr? ==> s == p.s
    ensures !Falsy(p) && f.reformat(p).None? && p.PyBytes? ==> s == AsciiDecodeIgnore(p.b)
  {
    if Falsy(p) then ""
    else
      match PrettyJson(p, f)
      case PyStr(t) => t
      case PyBytes(b) => AsciiDecodeIgnore(b)
      case PyNone => ""  // not reached: a truthy payload is not None and PrettyJson returns a str or its input
  }

  /** The bytes the fingerprint is computed over: URL then body, each ASCII-encoded with errors ignored. */
  function HashKey(fullUrl: string, body: string): (k: seq<byte>)
    ensures IsAscii(fullUrl) && IsAscii(body) ==> |k| == |fullUrl| + |body|
    ensures AsciiEncodeIgnore(fullUrl) <= k
  {
    AsciiEncodeIgnore(fullUrl) + AsciiEncodeIgnore(body)
  }

  /** `ElasticQueryInfo(method, full_url, path, body, status_code, response, duration)`. */
  function MakeQueryInfo(requestMethod: string, fullUrl: string, path: string, body: Payload,
                         statusCode: int, response: Payload, seconds: real, f: Foreign): (r: QueryRecord)
    ensures r.body == NormaliseBody(body, f)
    ensures Falsy(body) ==> r.body == ""
    ensures body.PyStr? && f.reformat(body).None? ==> r.body == body.s
    ensures r.hash == f.md5(HashKey(fullUrl, r.body))
    ensures r.requestMethod == requestMethod && r.fullUrl == fullUrl && r.path == path
    ensures r.statusCode == statusCode && r.duration == seconds * 1000.0
    ensures r.response == PrettyJson(response, f)
    ensures r.response.PyStr? || r.response == response
  {
    var b := NormaliseBody(body, f);
    QueryRecord(requestMethod, fullUrl, path, b, statusCode, PrettyJson(response, f),
                seconds * 1000.0, f.md5(HashKey(fullUrl, b)))
  }

  /**
   * The record the transport wrapper collects once the wrapped call has returned.
   * `dumpedBody` and `dumpedResponse` are the `json.dumps` of the request body and the
   * response body. When `json.dumps` returns, its output is never the empty string (None
   * dumps to "null") and always parses again, so on this path `_pretty_json` always
   * reformats. When it raises TypeError instead, no record is built at all.
   */
  function RecordFromResponse(requestMethod: string, target: string, dumpedBody: string,
                              scheme: string, host: string, status: int, dumpedResponse: string,
                              seconds: real, f: Foreign): (r: QueryRecord)
    ensures r.path == target && EndsWith(r.fullUrl, target)
    ensures r.fullUrl == scheme + "://" + host + target
    ensures dumpedBody != "" && f.reformat(PyStr(dumpedBody)).Some? ==>
              r.body == f.reformat(PyStr(dumpedBody)).value
    ensures dumpedBody != "" && f.reformat(PyStr(dumpedBody)).None? ==> r.body == dumpedBody
    ensures dumpedBody == "" ==> r.body == ""
    ensures f.reformat(PyStr(dumpedResponse)).Some? ==> r.response == PyStr(f.reformat(PyStr(dumpedResponse)).value)
    ensures f.reformat(PyStr(dumpedResponse)).None? ==> r.response == PyStr(dumpedResponse)
    ensures r.hash == f.md5(HashKey(r.fullUrl, r.body))
    ensures r.requestMethod == requestMethod && r.statusCode == status && r.duration == seconds * 1000.0
  {
    MakeQueryInfo(requestMethod, scheme + "://" + host + target, target, PyStr(dumpedBody),
                  status, PyStr(dumpedResponse), seconds, f)
  }

  /**
   * On the wrapper's path a missing body has already become the text "null", so the
   * empty-body branch is not taken and the stored body is "null" as `_pretty_json` renders it.
   */
  lemma AbsentBodyReachesRecordAsNull(requestMethod: string, target: string, scheme: string,
                                      host: string, status: int, dumpedResponse: string,
                                      seconds: real, f: Foreign)
    requires f.reformat(PyStr("null")) == Some("null")
    ensures RecordFromResponse(requestMethod, target, "null", scheme, host, status,
                               dumpedResponse, seconds, f).body == "null"
  {
  }

  /**
   * Two wrapped calls to the same node and target with the same dumped body get the same
   * fingerprint, whatever their method, status, response or duration: the second is a duplicate.
   */
  lemma RepeatedTransportCallSameFingerprint(f: Foreign, scheme: string, host: string, target: string,
                                             dumpedBody: string,
                                             m1: string, s1: int, r1: string, d1: real,
                                             m2: string, s2: int, r2: string, d2: real)
    ensures RecordFromResponse(m1, target, dumpedBody, scheme, host, s1, r1, d1, f).hash
         == RecordFromResponse(m2, target, dumpedBody, scheme, host, s2, r2, d2, f).hash
  {
  }

  /**
   * A `bytes` body that is not JSON is stored decoded with the high bytes dropped, so its
   * fingerprint is taken over the URL followed by the body's bytes below 128.
   */
  lemma BytesBodyFingerprint(f: Foreign, m: string, url: string, path: string, b: seq<byte>,
                             s: int, resp: Payload, d: real)
    requires b != [] && f.reformat(PyBytes(b)).None?
    ensures MakeQueryInfo(m, url, path, PyBytes(b), s, resp, d, f).hash
         == f.md5(AsciiEncodeIgnore(url) + AsciiBytesOnly(b))
  {
    AsciiEncodeDecodeDropsHigh(b);
  }

  /**
   * The fingerprint depends on the URL and the normalised body only: two calls that differ
   * in method, path, status, response or duration but agree on those two are duplicates.
   */
  lemma FingerprintIgnoresOtherFields(f: Foreign, url: string,
                                      m1: string, p1: string, b1: Payload, s1: int, r1: Payload, d1: real,
                                      m2: string, p2: string, b2: Payload, s2: int, r2: Payload, d2: real)
    requires NormaliseBody(b1, f) == NormaliseBody(b2, f)
    ensures MakeQueryInfo(m1, url, p1, b1, s1, r1, d1, f).hash
         == MakeQueryInfo(m2, url, p2, b2, s2, r2, d2, f).hash
  {
  }

  /**
   * The fingerprint key is a plain concatenation, so text may move from the end of the URL
   * to the start of the body without changing the fingerprint: a call to `url + moved` with
   * no body and a call to `url` whose (non-JSON) body is `moved` count as duplicates.
   */
  lemma ConcatenationCollision(f: Foreign, m: string, path: string, s: int, resp: Payload, d: real,
                               url: string, moved: string)
    requires moved != "" && f.reformat(PyStr(moved)) == None
    ensures MakeQueryInfo(m, url, path, PyStr(moved), s, resp, d, f).hash
         == MakeQueryInfo(m, url + moved, path, PyNone, s, resp, d, f).hash
  {
    KeyShift(url, moved, "");
    assert moved + "" == moved;
  }

  /** Moving a piece of text from the end of the URL to the start of the body keeps the key. */
  lemma KeyShift(url: string, moved: string, body: string)
    ensures HashKey(url + moved, body) == HashKey(url, moved + body)
  {
    AsciiEncodeConcat(url, moved);
    AsciiEncodeConcat(moved, body);
  }

  /** Characters outside ASCII are dropped from the key, so URLs that differ only in them collide. */
  lemma NonAsciiCollision(f: Foreign, m: string, path: string, body: Payload, s: int, resp: Payload,
                          d: real, url: string, c: char)
    requires c as int >= 128
    ensures MakeQueryInfo(m, url + [c], path, body, s, resp, d, f).hash
         == MakeQueryInfo(m, url, path, body, s, resp, d, f).hash
  {
    AsciiEncodeConcat(url, [c]);
    assert AsciiEncodeIgnore([c]) == [];
    assert AsciiEncodeIgnore(url + [c]) == AsciiEncodeIgnore(url);
  }
}
