/**
 * `ElasticDebugPanel`: clears the collector when a request starts, and when the
 * response is ready turns the thread's records into the figures the toolbar shows.
 */
module Panel {
  import opened Text
  import opened QueryInfo
  import opened Duplicates
  import opened Collector

  /** Sum of the records' durations, in milliseconds (exact, no floating-point rounding). */
  ghost function TotalDuration(s: seq<QueryRecord>): (total: real)
    ensures (forall i :: 0 <= i < |s| ==> s[i].duration >= 0.0) ==> total >= 0.0
    ensures (forall i :: 0 <= i < |s| ==> s[i].duration >= 0.0) ==>
              forall i :: 0 <= i < |s| ==> s[i].duration <= total
  {
    if s == [] then 0.0
    else
      var init := s[..|s| - 1];
      assert forall i :: 0 <= i < |init| ==> init[i] == s[i];
      TotalDuration(init) + s[|s| - 1].duration
  }

  class ElasticDebugPanel {
    /** The module-level collector the transport wrapper fills. */
    const collector: ThreadCollector<QueryRecord>
    var totalTime: real
    var nbDuplicates: nat
    var nbQueries: nat
    /** The `"records"` entry most recently handed to `record_stats`. */
    var recordedRecords: seq<QueryRecord>

    constructor (collector: ThreadCollector<QueryRecord>)
      ensures this.collector == collector
      ensures totalTime == 0.0 && nbDuplicates == 0 && nbQueries == 0 && recordedRecords == []
    {
      this.collector := collector;
      totalTime, nbDuplicates, nbQueries := 0.0, 0, 0;
      recordedRecords := [];
    }

    /** Start of a request on thread `t`: its buffer is reset, which also initialises it. */
    method ProcessRequest(t: ThreadId)
      modifies collector
      ensures collector.buffers == Cleared(old(collector.buffers), t)
      ensures Initialised(collector.buffers, t)
    {
      collector.ClearCollection(t);
    }

    /** End of a request on thread `t`: one pass over its records, then the buffer is cleared. */
    method GenerateStats(t: ThreadId)
      modifies this, collector
      ensures nbQueries == |old(Lookup(collector.buffers, t))|
      ensures nbDuplicates == DuplicateCount(old(Lookup(collector.buffers, t)))
      ensures totalTime == TotalDuration(old(Lookup(collector.buffers, t)))
      ensures recordedRecords == old(Lookup(collector.buffers, t))
      ensures collector.buffers == Cleared(old(collector.buffers), t)
    {
      var records := collector.GetCollection(t);
      totalTime := 0.0;
      nbDuplicates := 0;
      var hashs: set<Digest> := {};
      for i := 0 to |records|
        invariant collector.buffers == old(collector.buffers)
        invariant hashs == HashSet(records[..i])
        invariant nbDuplicates == DuplicateCount(records[..i])
        invariant totalTime == TotalDuration(records[..i])
      {
        var record := records[i];
        assert records[..i + 1] == records[..i] + [record];
        assert records[..i + 1][..i] == records[..i];
        DuplicateCountSnoc(records[..i], record);
        totalTime := totalTime + record.duration;
        if record.hash in hashs {
          nbDuplicates := nbDuplicates + 1;
        }
        hashs := hashs + {record.hash};
      }
      assert records[..|records|] == records;
      nbQueries := |records|;
      collector.ClearCollection(t);
      recordedRecords := records;
    }

    /** `default_str`, the subtitle without the duplicate suffix. */
    function DefaultSubtitle(fixed2: real -> string): (s: string)
      reads this
      ensures DecimalString(nbQueries) + " queries " <= s && EndsWith(s, "ms")
    {
      var s := DecimalString(nbQueries) + " queries " + fixed2(totalTime) + "ms";
      assert s[|s| - 2..] == "ms";
      s
    }

    /** `"{} queries {:.2f}ms"` with `fixed2` rendering `{:.2f}`, then `" {n} DUPE"` only when there are duplicates. */
    function NavSubtitle(fixed2: real -> string): (s: string)
      reads this
      ensures DecimalString(nbQueries) + " queries " <= s
      ensures EndsWith(s, " DUPE") <==> nbDuplicates > 0
      ensures nbDuplicates > 0 ==> EndsWith(s, " " + DecimalString(nbDuplicates) + " DUPE")
      ensures nbDuplicates > 0 ==> s == DefaultSubtitle(fixed2) + " " + DecimalString(nbDuplicates) + " DUPE"
      ensures nbDuplicates == 0 ==> s == DefaultSubtitle(fixed2)
    {
      var prefix := DefaultSubtitle(fixed2);
      var suffix := " " + DecimalString(nbDuplicates) + " DUPE";
      var s := if nbDuplicates > 0 then prefix + suffix else prefix;
      assert s[|s| - 1] == (if nbDuplicates > 0 then 'E' else 's');
      assert nbDuplicates > 0 ==> s[|s| - |suffix|..] == suffix;
      s
    }
  }

  /** The panel advertises duplicates exactly when two of the request's records share a fingerprint. */
  lemma DupeSuffixIffRepeatedFingerprint(p: ElasticDebugPanel, records: seq<QueryRecord>, fixed2: real -> string)
    requires p.nbDuplicates == DuplicateCount(records)
    ensures EndsWith(p.NavSubtitle(fixed2), " DUPE") <==> !DistinctHashes(records)
  {
    NoDuplicatesIffDistinct(records);
  }

  /** The duplicate count can be read back from the subtitle: the digits between the default string and " DUPE". */
  lemma DupeCountReadBack(p: ElasticDebugPanel, fixed2: real -> string)
    requires p.nbDuplicates > 0
    ensures var s, d := p.NavSubtitle(fixed2), |p.DefaultSubtitle(fixed2)|;
            d + 1 <= |s| - 5 && IsDigits(s[d + 1..|s| - 5]) && ParseDecimal(s[d + 1..|s| - 5]) == p.nbDuplicates
  {
    var s, prefix, digits := p.NavSubtitle(fixed2), p.DefaultSubtitle(fixed2), DecimalString(p.nbDuplicates);
    assert s == prefix + " " + digits + " DUPE";
    assert s[|prefix| + 1..|s| - 5] == digits;
    DecimalRoundTrip(p.nbDuplicates);
  }

  /** Two panels showing the same counters except the duplicate count show different subtitles. */
  lemma SubtitlesDistinguishDupeCounts(p: ElasticDebugPanel, q: ElasticDebugPanel, fixed2: real -> string)
    requires p.nbQueries == q.nbQueries && p.totalTime == q.totalTime
    requires p.nbDuplicates != q.nbDuplicates
    ensures p.NavSubtitle(fixed2) != q.NavSubtitle(fixed2)
  {
    if p.nbDuplicates > 0 && q.nbDuplicates > 0 {
      DupeCountReadBack(p, fixed2);
      DupeCountReadBack(q, fixed2);
    }
  }
}
