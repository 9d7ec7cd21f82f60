# Elasticsearch debug panel — Dafny model

This project models the core of `django-elasticsearch-debug-toolbar`. That core is
`elastic_panel/panel.py`: a per-thread collector of query records, the record built
for every Elasticsearch call, and the per-request figures the toolbar panel shows
(query count, total time, duplicate count and the "DUPE" subtitle).

Modules:

- `Text` (`text.dfy`): Python's lossy ASCII codec (`encode`/`decode` with `"ignore"`) and decimal
  rendering of counts. Each comes with its inverse and round-trip lemmas.
- `QueryInfo` (`query_info.dfy`): `ElasticQueryInfo` as a value, plus the record the transport wrapper
  builds. Falsy bodies are normalised to `""`. The fingerprint is computed over the ASCII bytes of the
  URL followed by the body, and lemmas state what it depends on and where it collides.
- `Duplicates` (`duplicates.dfy`): the duplicate count, defined by index as "the records whose
  fingerprint occurs at an earlier index". It is proved equal to the number of records minus the
  number of distinct fingerprints.
- `Collector` (`collector.dfy`): the `ThreadCollector` class over a map from thread id to list, with
  pure transition functions that its methods are tied to. A trace semantics proves thread isolation
  and the clear-collect-read request cycle.
- `Panel` (`panel.dfy`): the `ElasticDebugPanel` class: `ProcessRequest`, the `GenerateStats` loop
  (proved against `DuplicateCount`/`TotalDuration`) and `NavSubtitle`.

Foreign code is passed in as function-valued parameters:

- the JSON re-serialisation inside `_pretty_json` (the `reformat` field of `QueryInfo.Foreign`);
- `hashlib.md5(...).hexdigest()` (the `md5` field of `QueryInfo.Foreign`);
- the `{:.2f}` float formatting of `nav_subtitle` (the separate `fixed2` argument of `NavSubtitle`).

The `json.dumps` calls of the transport wrapper are inputs: their output strings are parameters.
The calling thread is an explicit `ThreadId` parameter.

Four behaviours of the code a reader may not expect:

- `collect` can fail. `ThreadCollector()` gives only the constructing thread a list (line 15), and
  `collect` has no default (line 18). On any other thread, `collect` raises `AttributeError` until
  `clear_collection` has run there. `Collect` returns `AttributeError` in that case and leaves the
  state unchanged.
- Distinct `(full_url, body)` pairs need not have distinct fingerprints. The key is a plain
  concatenation with non-ASCII characters dropped (`ConcatenationCollision`, `NonAsciiCollision`).
- A missing body is not stored as `""` when the record comes from the transport wrapper. The wrapper
  passes `json.dumps(body)`, which is `"null"` (`AbsentBodyReachesRecordAsNull`). For the same reason
  the "does not parse" fallback of `_pretty_json` is dead on this path: `json.dumps` output always
  parses again, so once `json.dumps` has returned, the stored body and response are the reformatted dumps.
- The wrapper can turn a successful call into a failure. `json.dumps` (lines 64, 66) raises
  `TypeError` on values it cannot serialise (`bytes`, `datetime`, `Decimal`, `set`). It runs after
  the wrapped call has returned, so the caller gets `TypeError` instead of the response and no
  record is collected. The model takes the dumped strings as inputs and does not capture this.

## Model

| member | source | states |
|---|---|---|
| `Text.AsciiEncodeIgnore` | elastic_panel/panel.py:99-101 | the encoded key holds only ASCII bytes, is no longer than the text, and is exactly as long iff the text is ASCII |
| `Text.AsciiDecodeIgnore` | elastic_panel/panel.py:91-92 | a bytes body decoded with errors ignored is ASCII text no longer than the bytes |
| `Text.AsciiEncodeConcat` | elastic_panel/panel.py:99-101 | encoding the URL and the body one after the other is encoding their concatenation |
| `Text.AsciiDecodeEncode` | elastic_panel/panel.py:99-101 | on ASCII text, decoding the encoded bytes gives the text back |
| `Text.AsciiEncodeDecode` | elastic_panel/panel.py:91-92 | on ASCII bytes, encoding the decoded text gives the bytes back |
| `Text.AsciiBytesOnly` | elastic_panel/panel.py:92 | keeps only bytes below 128, which are ASCII, and never grows |
| `Text.AsciiEncodeDecodeDropsHigh` | elastic_panel/panel.py:92-100 | for any bytes, decoding with errors ignored and re-encoding keeps exactly the bytes below 128, in order |
| `Text.DecimalString` | elastic_panel/panel.py:123-125 | a count renders as a non-empty digit string with no leading zero |
| `Text.DecimalRoundTrip` | elastic_panel/panel.py:123-125 | parsing the rendered count gives the count back |
| `QueryInfo.Falsy` | elastic_panel/panel.py:87 | the definition of `not body`: falsy exactly when `None`, an empty str or empty bytes |
| `QueryInfo.PrettyJson` | elastic_panel/panel.py:76-82 | the result is a str or the input; `None` comes back unchanged (`json.loads` raises TypeError); otherwise the reformatted text when the payload parses and the payload unchanged when it does not |
| `QueryInfo.NormaliseBody` | elastic_panel/panel.py:87-92 | a falsy body becomes `""`; otherwise the stored body is the reformatted text, or the raw str, or the bytes decoded as ASCII with errors ignored |
| `QueryInfo.HashKey` | elastic_panel/panel.py:99-101 | the key starts with the encoded URL, and for ASCII inputs its length is the sum of the two lengths |
| `QueryInfo.MakeQueryInfo` | elastic_panel/panel.py:85-101 | the stored body is the normalised body (`""` when falsy, the raw str when it does not parse); the stored response is `_pretty_json` of the response, a str or the response itself; the fingerprint is md5 of the key of URL and stored body; method, URL, path and status are copied; duration is seconds times 1000 |
| `QueryInfo.RecordFromResponse` | elastic_panel/panel.py:59-69 | the full URL is scheme, `://`, host, then target; the path is the target; a non-empty dumped body is stored reformatted (raw if it did not parse), an empty one as `""`; the response is the reformatted dump; the fingerprint is md5 of URL and stored body; method, status and duration are carried over |
| `QueryInfo.RepeatedTransportCallSameFingerprint` | elastic_panel/panel.py:59-69 | two wrapped calls to the same node and target with the same dumped body get the same fingerprint, whatever their method, status, response or duration |
| `QueryInfo.AbsentBodyReachesRecordAsNull` | elastic_panel/panel.py:64 | a `None` body, dumped to `"null"`, is stored as `"null"` rather than `""` |
| `QueryInfo.BytesBodyFingerprint` | elastic_panel/panel.py:90-101 | a non-JSON `bytes` body is fingerprinted over the URL followed by its bytes below 128 |
| `QueryInfo.FingerprintIgnoresOtherFields` | elastic_panel/panel.py:99-101 | equal URL and equal normalised body give equal fingerprints, whatever the method, path, status, response or duration |
| `QueryInfo.KeyShift` | elastic_panel/panel.py:99-101 | text moved from the end of the URL to the front of the body leaves the key unchanged |
| `QueryInfo.ConcatenationCollision` | elastic_panel/panel.py:99-101 | a call to `url + moved` with no body and a call to `url` with the non-JSON body `moved` get the same fingerprint |
| `QueryInfo.NonAsciiCollision` | elastic_panel/panel.py:99-101 | URLs that differ only by a non-ASCII character get the same fingerprint |
| `Duplicates.DuplicateCount` | elastic_panel/panel.py:145-152 | the reference count: the number of indices whose hash occurs at an earlier index, never more than the number of records |
| `Duplicates.HashSetSnoc` | elastic_panel/panel.py:152 | adding a record's hash to the seen set gives the hashes of the longer prefix |
| `Duplicates.DuplicateIndicesSnoc` | elastic_panel/panel.py:150-152 | a new record is a duplicate exactly when its hash is in the seen set; earlier indices keep their status |
| `Duplicates.DuplicateCountSnoc` | elastic_panel/panel.py:148-152 | one loop step raises the count by one exactly when the hash was already seen |
| `Duplicates.DuplicatesPlusDistinct` | elastic_panel/panel.py:147-152 | duplicates plus distinct fingerprints equals the number of records |
| `Duplicates.DuplicateCountBounds` | elastic_panel/panel.py:145-155 | the count equals queries minus distinct hashes, lies in `0..nb_queries`, and is below `nb_queries` when there is a query, since the first occurrence is never counted |
| `Duplicates.NoDuplicatesIffDistinct` | elastic_panel/panel.py:147-152 | the count is 0 exactly when all fingerprints differ |
| `Duplicates.DuplicateCountOrderInsensitive` | elastic_panel/panel.py:147-152 | reordering the records leaves the count unchanged, though it changes which indices are counted |
| `Duplicates.RepeatedCall` | elastic_panel/panel.py:147-152 | the same call made n times gives n - 1 duplicates |
| `Collector.Initial` | elastic_panel/panel.py:13-15 | after construction only the constructing thread has a list, and it is empty |
| `Collector.Lookup` | elastic_panel/panel.py:20-21 | the definition of `get_collection`: the thread's list when it has one and `[]` otherwise |
| `Collector.Appended` | elastic_panel/panel.py:17-18 | collect succeeds iff the thread has a list; on success the item is appended at the end and other threads are unchanged |
| `Collector.Cleared` | elastic_panel/panel.py:23-24 | after clearing, the thread has an empty list; other threads are unchanged |
| `Collector.ThreadCollector.constructor` | elastic_panel/panel.py:13-15 | the state is `Initial(owner)` |
| `Collector.ThreadCollector.Collect` | elastic_panel/panel.py:17-18 | the result is `AttributeError` iff the thread was never initialised, and then the state is unchanged; otherwise the state is `Appended` |
| `Collector.ThreadCollector.GetCollection` | elastic_panel/panel.py:20-21 | returns the thread's list, or `[]` for an uninitialised thread, and modifies nothing |
| `Collector.ThreadCollector.ClearCollection` | elastic_panel/panel.py:23-24 | the new state is `Cleared(old state, t)` |
| `Collector.ClearThenGetIsEmpty` | elastic_panel/panel.py:20-24 | reading right after clearing gives `[]` |
| `Collector.ClearIdempotent` | elastic_panel/panel.py:23-24 | clearing twice is clearing once |
| `Collector.CollectNeedsInitialisation` | elastic_panel/panel.py:15-24 | a freshly built collector refuses collect on any other thread (reading there gives `[]`), and accepts it after that thread has cleared |
| `Collector.Step` | elastic_panel/panel.py:17-24 | a collect or clear by one thread changes nothing any other thread can see |
| `Collector.OwnCallsSeeOwnView` | elastic_panel/panel.py:14 | a thread's own calls depend only on its own earlier state |
| `Collector.ThreadIsolation` | elastic_panel/panel.py:14 | after any interleaving of calls, a thread sees what its own calls alone would give |
| `Collector.CollectAllAppends` | elastic_panel/panel.py:17-18 | collecting a sequence of items on an initialised thread appends them in order |
| `Collector.RequestCycle` | elastic_panel/panel.py:138-143 | after a clear, a thread whose calls collect `items`, interleaved with other threads' calls, reads back exactly `items` |
| `Panel.TotalDuration` | elastic_panel/panel.py:144-149 | the reference total time: with non-negative durations it is non-negative and at least every single record's duration |
| `Panel.ElasticDebugPanel.constructor` | elastic_panel/panel.py:113-115 | counters start at zero |
| `Panel.ElasticDebugPanel.ProcessRequest` | elastic_panel/panel.py:138-140 | the thread's buffer is cleared, which initialises it |
| `Panel.ElasticDebugPanel.GenerateStats` | elastic_panel/panel.py:142-158 | `nb_queries` is the pre-call buffer's length; `nb_duplicates` is its `DuplicateCount`; `total_time` is its summed duration; `record_stats` gets exactly those records in order; the thread's buffer is then empty |
| `Panel.ElasticDebugPanel.DefaultSubtitle` | elastic_panel/panel.py:123 | `default_str` starts with `"{n} queries "` and ends with `"ms"` |
| `Panel.ElasticDebugPanel.NavSubtitle` | elastic_panel/panel.py:121-126 | starts with `"{n} queries "`; ends with `" DUPE"` iff duplicates > 0, and is then exactly the default string followed by `" {d} DUPE"`; otherwise it is just the default string |
| `Panel.DupeCountReadBack` | elastic_panel/panel.py:124-125 | with duplicates, the digits between the default string and `" DUPE"` parse back to the duplicate count |
| `Panel.SubtitlesDistinguishDupeCounts` | elastic_panel/panel.py:123-126 | with the same query count and time, different duplicate counts give different subtitles |
| `Panel.DupeSuffixIffRepeatedFingerprint` | elastic_panel/panel.py:121-126 | the subtitle shows the DUPE suffix exactly when two of the request's records share a fingerprint |

## Left out

- Installing the wrapper on `Transport.perform_request` (lines 28, 32-73) is not modelled. It is a call into an unseen library. The wrapper collects a record only after the wrapped call returns, so a call that raises adds nothing. `RecordFromResponse` models only the record it builds.
- QueryInfo.RecordFromResponse: does not model `json.dumps` raising `TypeError` at lines 64 and 66 (the dumped strings are inputs). On that path no record is collected, and the caller gets `TypeError` although the wrapped call succeeded.
- `_pretty_json` (lines 76-82) is not modelled beyond its shape. JSON parsing and serialisation are the `Foreign.reformat` parameter. Payloads other than `None`, `str` and `bytes` are not modelled.
- MD5 (line 99) is the `Foreign.md5` parameter. The digest algorithm is not modelled.
- QueryInfo.MakeQueryInfo: the duration is exact `seconds * 1000`, with no `round(..., 2)` (floating point).
- Panel.ElasticDebugPanel.GenerateStats: `total_time` is an exact real sum, not a floating-point one.
- Panel.ElasticDebugPanel.NavSubtitle: the `{:.2f}` formatting of `total_time` is a parameter.
- Stack traces are not modelled: `get_stack`, `tidy_stacktrace` and the in-place `render_stacktrace` of each record (lines 102, 153).
- Records are values, not shared objects. The aliasing between `records` and the collector's old list is not modelled. That list survives `clear_collection` because `clear_collection` rebinds the attribute rather than emptying the list.
- The Django panel machinery is not modelled: `nav_title`, `title`, `scripts`, templates, `super().process_request` and the internals of `record_stats`. `record_stats` is modelled as storing its `"records"` entry.
- Real thread-local storage and concurrency are not modelled. Threads are explicit ids in a map, and calls run one at a time.
