/**
 * The duplicate count the panel shows: the number of records whose fingerprint
 * already occurred earlier in the same request's sequence of records.
 */
module Duplicates {
  import opened QueryInfo

  /** The fingerprints occurring in `s`. */
  ghost function HashSet(s: seq<QueryRecord>): set<Digest> {
    set i | 0 <= i < |s| :: s[i].hash
  }

  /** Record `i` repeats the fingerprint of some earlier record; a first occurrence never does. */
  ghost predicate IsDuplicateAt(s: seq<QueryRecord>, i: int)
    requires 0 <= i < |s|
  {
    exists j :: 0 <= j < i && s[j].hash == s[i].hash
  }

  ghost function DuplicateIndices(s: seq<QueryRecord>): set<nat> {
    set i: nat | i < |s| && IsDuplicateAt(s, i)
  }

  ghost function DuplicateCount(s: seq<QueryRecord>): (n: nat)
    ensures n <= |s|
  {
    BoundedSetSize(DuplicateIndices(s), |s|);
    |DuplicateIndices(s)|
  }

  /** A set of naturals below `n` has at most `n` elements. */
  lemma {:induction false} BoundedSetSize(x: set<nat>, n: nat)
    requires forall i :: i in x ==> i < n
    ensures |x| <= n
  {
    if n > 0 {
      BoundedSetSize(x - {n - 1}, n - 1);
    } else {
      assert x == {};
    }
  }

  ghost predicate DistinctHashes(s: seq<QueryRecord>) {
    forall i, j :: 0 <= i < j < |s| ==> s[i].hash != s[j].hash
  }

  lemma HashSetSnoc(s: seq<QueryRecord>, x: QueryRecord)
    ensures HashSet(s + [x]) == HashSet(s) + {x.hash}
  {
    var t := s + [x];
    forall h | h in HashSet(t) ensures h in HashSet(s) + {x.hash} {
      var i :| 0 <= i < |t| && t[i].hash == h;
      if i < |s| { assert t[i] == s[i]; }
    }
    forall h | h in HashSet(s) + {x.hash} ensures h in HashSet(t) {
      if h == x.hash {
        assert t[|s|] == x;
      } else {
        var i :| 0 <= i < |s| && s[i].hash == h;
        assert t[i] == s[i];
      }
    }
  }

  /** Appending a record adds its index to the duplicates exactly when its fingerprint was seen. */
  lemma DuplicateIndicesSnoc(s: seq<QueryRecord>, x: QueryRecord)
    ensures DuplicateIndices(s + [x]) == DuplicateIndices(s) + (if x.hash in HashSet(s) then {|s|} else {})
    ensures |s| !in DuplicateIndices(s)
  {
    var t := s + [x];
    forall i: nat | i < |s| ensures IsDuplicateAt(t, i) <==> IsDuplicateAt(s, i) {
      if IsDuplicateAt(t, i) {
        var j :| 0 <= j < i && t[j].hash == t[i].hash;
        assert s[j] == t[j];
      }
      if IsDuplicateAt(s, i) {
        var j :| 0 <= j < i && s[j].hash == s[i].hash;
        assert s[j] == t[j];
      }
    }
    assert IsDuplicateAt(t, |s|) <==> x.hash in HashSet(s) by {
      if IsDuplicateAt(t, |s|) {
        var j :| 0 <= j < |s| && t[j].hash == t[|s|].hash;
        assert t[j] == s[j];
      }
      if x.hash in HashSet(s) {
        var j :| 0 <= j < |s| && s[j].hash == x.hash;
        assert t[j] == s[j];
      }
    }
  }

  /** The step the panel's loop takes: one more record, one more duplicate iff its fingerprint was seen. */
  lemma DuplicateCountSnoc(s: seq<QueryRecord>, x: QueryRecord)
    ensures DuplicateCount(s + [x]) == DuplicateCount(s) + (if x.hash in HashSet(s) then 1 else 0)
    ensures HashSet(s + [x]) == HashSet(s) + {x.hash}
  {
    DuplicateIndicesSnoc(s, x);
    HashSetSnoc(s, x);
  }

  /** Every record is either a first occurrence of its fingerprint or a duplicate. */
  lemma {:induction false} DuplicatesPlusDistinct(s: seq<QueryRecord>)
    ensures DuplicateCount(s) + |HashSet(s)| == |s|
  {
    if s == [] {
      assert DuplicateIndices(s) == {};
      assert HashSet(s) == {};
    } else {
      var init, x := s[..|s| - 1], s[|s| - 1];
      assert init + [x] == s;
      DuplicatesPlusDistinct(init);
      DuplicateCountSnoc(init, x);
    }
  }

  /** The count is the number of queries less the number of distinct fingerprints, hence within bounds. */
  lemma DuplicateCountBounds(s: seq<QueryRecord>)
    ensures DuplicateCount(s) == |s| - |HashSet(s)|
    ensures 0 <= DuplicateCount(s) <= |s|
    ensures |s| > 0 ==> DuplicateCount(s) < |s|
  {
    DuplicatesPlusDistinct(s);
    if |s| > 0 {
      assert s[0].hash in HashSet(s);
    }
  }

  /** No duplicate is reported exactly when all fingerprints differ. */
  lemma NoDuplicatesIffDistinct(s: seq<QueryRecord>)
    ensures DuplicateCount(s) == 0 <==> DistinctHashes(s)
  {
    if DistinctHashes(s) {
      assert DuplicateIndices(s) == {};
    } else {
      var i, j :| 0 <= i < j < |s| && s[i].hash == s[j].hash;
      assert IsDuplicateAt(s, j);
      assert j in DuplicateIndices(s);
    }
  }

  /**
   * Which records are counted depends on their order, but how many does not:
   * reordering the records of a request leaves the count unchanged.
   */
  lemma DuplicateCountOrderInsensitive(s: seq<QueryRecord>, t: seq<QueryRecord>)
    requires multiset(s) == multiset(t)
    ensures DuplicateCount(s) == DuplicateCount(t)
  {
    assert |s| == |multiset(s)| == |multiset(t)| == |t|;
    forall h | h in HashSet(s) ensures h in HashSet(t) {
      var i :| 0 <= i < |s| && s[i].hash == h;
      assert s[i] in multiset(t);
      var j :| 0 <= j < |t| && t[j] == s[i];
    }
    forall h | h in HashSet(t) ensures h in HashSet(s) {
      var j :| 0 <= j < |t| && t[j].hash == h;
      assert t[j] in multiset(s);
      var i :| 0 <= i < |s| && s[i] == t[j];
    }
    assert HashSet(s) == HashSet(t);
    DuplicatesPlusDistinct(s);
    DuplicatesPlusDistinct(t);
  }

  /** The same call made `n` times is reported as `n - 1` duplicates. */
  lemma RepeatedCall(x: QueryRecord, n: nat)
    requires n >= 1
    ensures DuplicateCount(seq(n, _ => x)) == n - 1
  {
    var s := seq(n, _ => x);
    assert HashSet(s) == {x.hash} by {
      assert s[0].hash == x.hash;
    }
    DuplicatesPlusDistinct(s);
  }
}
