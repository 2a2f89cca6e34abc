/** The artifact soak proof checker: every publish and read sample is claimed once, in order. */
module SoakArtifactProof {
  import opened Ordering

  datatype Phase = Warmup | Measure

  datatype Metric = Publish | Read | OtherMetric

  datatype Sample = Sample(index: int, metric: Metric, phase: Phase)

  datatype SizeClass = Small | NearLimit

  datatype Entry = Entry(
    ordinal: int, phase: Phase, sizeClass: SizeClass, sizeBytes: nat, recordCount: nat, readRecordCount: nat,
    pageCount: nat, publishIndex: int, readIndices: seq<int>)

  datatype Cleanup = Cleanup(
    beforeBytes: nat, afterBytes: nat, expired: nat, tombstones: nat, manifests: nat, protected: nat)

  datatype Proof = Proof(runId: string, entries: seq<Entry>, cleanup: Cleanup)

  datatype Claim = Claim(runId: string, artifactCount: nat, warmupCount: nat, beforeBytes: nat, afterBytes: nat)

  // -- The record validators --------------------------------------------------------------

  /** `complete_read`, with the artifact size limit given. */
  predicate EntryOk(maxBytes: nat, e: Entry) {
    && e.sizeBytes > 0 && e.recordCount > 0 && e.publishIndex > 0 && e.readIndices != []
    && e.readRecordCount == e.recordCount && e.pageCount == |e.readIndices|
    && (e.sizeClass.NearLimit? ==> maxBytes * 8 / 10 <= e.sizeBytes < maxBytes)
    && (e.sizeClass.Small? ==> e.sizeBytes < maxBytes * 8 / 10)
  }

  function WarmupCount(es: seq<Entry>): nat {
    if es == [] then 0 else WarmupCount(es[..|es| - 1]) + (if es[|es| - 1].phase.Warmup? then 1 else 0)
  }

  function TotalBytes(es: seq<Entry>): nat {
    if es == [] then 0 else TotalBytes(es[..|es| - 1]) + es[|es| - 1].sizeBytes
  }

  function TotalPages(es: seq<Entry>): nat {
    if es == [] then 0 else TotalPages(es[..|es| - 1]) + es[|es| - 1].pageCount
  }

  /** `complete_cleanup`. */
  predicate ProofOk(maxBytes: nat, p: Proof) {
    var n := |p.entries|;
    && n > 0 && (forall i :: 0 <= i < n ==> EntryOk(maxBytes, p.entries[i]))
    && (forall i :: 0 <= i < n ==> p.entries[i].ordinal == i + 1)
    && (forall i :: 0 <= i < n ==> p.entries[i].phase == (if i < WarmupCount(p.entries) then Warmup else Measure))
    && p.cleanup == Cleanup(TotalBytes(p.entries), 0, n, n, n, 0)
  }

  // -- What acceptance means --------------------------------------------------------------

  function Claimed(e: Entry): seq<int> { [e.publishIndex] + e.readIndices }

  /** All claimed sample indices in entry order. */
  function Flat(es: seq<Entry>): seq<int> {
    if es == [] then [] else Flat(es[..|es| - 1]) + Claimed(es[|es| - 1])
  }

  predicate Increasing(s: seq<int>) { forall i, j :: 0 <= i < j < |s| ==> s[i] < s[j] }

  /** The sample that the index dictionary holds: the last with this index. */
  function ByIndex(samples: seq<Sample>, i: int): set<Sample> {
    if samples == [] then {}
    else if samples[|samples| - 1].index == i then {samples[|samples| - 1]} else ByIndex(samples[..|samples| - 1], i)
  }

  predicate Backed(samples: seq<Sample>, i: int, m: Metric, ph: Phase) {
    exists s :: s in ByIndex(samples, i) && s.metric == m && s.phase == ph
  }

  predicate EntryBacked(samples: seq<Sample>, e: Entry) {
    && Backed(samples, e.publishIndex, Publish, e.phase)
    && (forall k :: 0 <= k < |e.readIndices| ==> Backed(samples, e.readIndices[k], Read, e.phase))
  }

  function Expected(samples: seq<Sample>): set<int> {
    set s | s in samples && (s.metric.Publish? || s.metric.Read?) :: s.index
  }

  /** The claimed indices run upwards through exactly the publish and read samples, each with its metric and phase. */
  predicate Accounted(p: Proof, c: Claim, samples: seq<Sample>) {
    && p.runId == c.runId && |p.entries| == c.artifactCount && WarmupCount(p.entries) == c.warmupCount
    && c.beforeBytes == 0 && c.afterBytes == p.cleanup.beforeBytes
    && Increasing([0] + Flat(p.entries))
    && (forall i :: 0 <= i < |p.entries| ==> EntryBacked(samples, p.entries[i]))
    && Elements(Flat(p.entries)) == Expected(samples)
  }

  /** The per-entry test of the checker. */
  predicate Fits(used: set<int>, last: int, e: Entry) {
    var indices := Claimed(e);
    && |Elements(indices)| == |indices| && used !! Elements(indices)
    && last < e.publishIndex && Increasing(indices)
  }

  /** `verify_artifact_proof`: the running set of used indices and the last index. */
  method Verify(p: Proof, c: Claim, samples: seq<Sample>) returns (ok: bool)
    ensures ok <==> Accounted(p, c, samples)
  {
    hide EntryBacked, Expected, Fits, Increasing, WarmupCount;
    NothingClaimed();
    if p.runId != c.runId || |p.entries| != c.artifactCount || WarmupCount(p.entries) != c.warmupCount
       || c.beforeBytes != 0 || c.afterBytes != p.cleanup.beforeBytes {
      return false;
    }
    var used: set<int>, last := {}, 0;
    for n := 0 to |p.entries|
      invariant Increasing([0] + Flat(p.entries[..n]))
      invariant used == Elements(Flat(p.entries[..n]))
      invariant last == ([0] + Flat(p.entries[..n]))[|Flat(p.entries[..n])|]
      invariant forall i :: 0 <= i < n ==> EntryBacked(samples, p.entries[i])
    {
      var e := p.entries[n];
      assert p.entries[..n + 1][..n] == p.entries[..n];
      FitsExactly(Flat(p.entries[..n]), used, last, e);
      if !Fits(used, last, e) || !EntryBacked(samples, e) {
        if Accounted(p, c, samples) { FlatPrefix(p.entries, n + 1); assert false; }
        return false;
      }
      used := used + Elements(Claimed(e));
      last := Claimed(e)[|e.readIndices|];
    }
    assert p.entries[..|p.entries|] == p.entries;
    return used == Expected(samples);
  }

  lemma NothingClaimed()
    ensures Increasing([0] + Flat([])) && Elements(Flat([])) == {}
  {
  }

  /** The per-entry test extends the increasing run, and nothing less does. */
  lemma FitsExactly(flat: seq<int>, used: set<int>, last: int, e: Entry)
    requires Increasing([0] + flat) && used == Elements(flat) && last == ([0] + flat)[|flat|]
    ensures Fits(used, last, e) <==> Increasing([0] + (flat + Claimed(e)))
    ensures Elements(flat + Claimed(e)) == used + Elements(Claimed(e))
  {
    var run, more := [0] + flat, Claimed(e);
    assert [0] + (flat + more) == run + more;
    assert last == run[|run| - 1] && e.publishIndex == more[0];
    IncreasingJoin(run, more);
    if Increasing(run + more) {
      IncreasingSize(more);
      forall x | x in used ensures x !in Elements(more) {
        var i :| 0 <= i < |flat| && flat[i] == x;
        assert run[i + 1] == x;
        forall j | 0 <= j < |more| ensures more[j] != x { assert (run + more)[i + 1] < (run + more)[|run| + j]; }
      }
    }
  }

  /** A run followed by a run is increasing when both are and the first ends below the second. */
  lemma IncreasingJoin(run: seq<int>, more: seq<int>)
    requires run != [] && more != []
    ensures Increasing(run + more) <==> Increasing(run) && Increasing(more) && run[|run| - 1] < more[0]
  {
    var all := run + more;
    assert forall i :: 0 <= i < |run| ==> all[i] == run[i];
    assert forall j :: 0 <= j < |more| ==> all[|run| + j] == more[j];
    if Increasing(run) && Increasing(more) && run[|run| - 1] < more[0] {
      forall i, j | 0 <= i < j < |all| ensures all[i] < all[j] {
        if i < |run| <= j {
          assert run[i] <= run[|run| - 1] && more[0] <= more[j - |run|];
        }
      }
    }
  }

  lemma IncreasingSize(s: seq<int>)
    requires Increasing(s)
    ensures |Elements(s)| == |s|
  {
    assert Distinct(s);
    DistinctSize(s);
  }

  /** The claims of the first entries come first. */
  lemma {:induction false} FlatPrefix(es: seq<Entry>, n: nat)
    requires n <= |es|
    ensures Flat(es[..n]) <= Flat(es)
    ensures Increasing([0] + Flat(es)) ==> Increasing([0] + Flat(es[..n]))
    decreases |es| - n
  {
    if n == |es| {
      assert es[..n] == es;
    } else {
      FlatPrefix(es, n + 1);
      assert es[..n + 1][..n] == es[..n];
      var a, b := [0] + Flat(es[..n]), [0] + Flat(es[..n + 1]);
      assert forall i :: 0 <= i < |a| ==> a[i] == b[i];
    }
  }

  // -- Coverage and counts ----------------------------------------------------------------

  /** The claims are the one increasing enumeration of the publish and read samples. */
  lemma ClaimsEnumerate(p: Proof, c: Claim, samples: seq<Sample>, listing: seq<int>)
    requires Accounted(p, c, samples) && Increasing(listing) && Elements(listing) == Expected(samples)
    ensures Flat(p.entries) == listing
  {
    hide EntryBacked, Expected, Flat;
    var flat := Flat(p.entries);
    forall i, j | 0 <= i < j < |flat| ensures flat[i] < flat[j] { assert ([0] + flat)[i + 1] < ([0] + flat)[j + 1]; }
    assert TotalOrder(IntLeq);
    forall x ensures x in flat <==> x in listing { assert x in Elements(flat) <==> x in Elements(listing); }
    SortedUnique(IntLeq, flat, listing);
  }

  ghost function PublishSet(es: seq<Entry>): set<int> {
    if es == [] then {} else PublishSet(es[..|es| - 1]) + {es[|es| - 1].publishIndex}
  }

  ghost function ReadSet(es: seq<Entry>): set<int> {
    if es == [] then {} else ReadSet(es[..|es| - 1]) + Elements(es[|es| - 1].readIndices)
  }

  /** No index is claimed twice, so sets and sums of sizes agree. */
  lemma {:induction false} ClaimSizes(es: seq<Entry>)
    requires Increasing([0] + Flat(es)) && forall i :: 0 <= i < |es| ==> es[i].pageCount == |es[i].readIndices|
    ensures PublishSet(es) + ReadSet(es) == Elements(Flat(es)) && PublishSet(es) !! ReadSet(es)
    ensures |PublishSet(es)| == |es| && |ReadSet(es)| == TotalPages(es)
  {
    if es != [] {
      var n := |es| - 1;
      var e, flat := es[n], Flat(es[..n]);
      FlatPrefix(es, n);
      ClaimSizes(es[..n]);
      FitsExactly(flat, Elements(flat), ([0] + flat)[|flat|], e);
      assert Fits(Elements(flat), ([0] + flat)[|flat|], e);
      ClaimParts(e);
      PartsJoin(PublishSet(es[..n]), ReadSet(es[..n]), Elements(flat), e.publishIndex, Elements(e.readIndices));
      hide Increasing, Elements, Claimed, Fits;
    }
  }

  lemma PartsJoin(published: set<int>, read: set<int>, all: set<int>, x: int, s: set<int>)
    requires published + read == all && published !! read && all !! {x} + s && x !in s
    ensures (published + {x}) + (read + s) == all + ({x} + s) && (published + {x}) !! (read + s)
    ensures |published + {x}| == |published| + 1 && |read + s| == |read| + |s|
  {
  }

  lemma ClaimParts(e: Entry)
    requires Increasing(Claimed(e))
    ensures Elements(Claimed(e)) == {e.publishIndex} + Elements(e.readIndices)
    ensures |Elements(e.readIndices)| == |e.readIndices| && e.publishIndex !in Elements(e.readIndices)
  {
    var more := Claimed(e);
    forall i, j | 0 <= i < j < |e.readIndices| ensures e.readIndices[i] < e.readIndices[j] {
      assert more[i + 1] < more[j + 1];
    }
    IncreasingSize(e.readIndices);
    forall i | 0 <= i < |e.readIndices| ensures e.publishIndex != e.readIndices[i] { assert more[0] < more[i + 1]; }
  }

  predicate DistinctIndices(samples: seq<Sample>) {
    forall i, j :: 0 <= i < j < |samples| ==> samples[i].index != samples[j].index
  }

  function Count(samples: seq<Sample>, m: Metric): nat {
    if samples == [] then 0
    else Count(samples[..|samples| - 1], m) + (if samples[|samples| - 1].metric == m then 1 else 0)
  }

  /** The indices of the samples of one metric. */
  ghost function IndexSet(samples: seq<Sample>, m: Metric): set<int> {
    if samples == [] then {}
    else
      IndexSet(samples[..|samples| - 1], m)
      + (if samples[|samples| - 1].metric == m then {samples[|samples| - 1].index} else {})
  }

  ghost predicate IsIndexOf(samples: seq<Sample>, m: Metric, x: int) {
    exists i :: 0 <= i < |samples| && samples[i].metric == m && samples[i].index == x
  }

  lemma {:induction false} IndexSetMembers(samples: seq<Sample>, m: Metric, x: int)
    ensures x in IndexSet(samples, m) <==> IsIndexOf(samples, m, x)
  {
    if samples != [] {
      var n := |samples| - 1;
      IndexSetMembers(samples[..n], m, x);
      assert forall i :: 0 <= i < n ==> samples[..n][i] == samples[i];
      assert IsIndexOf(samples, m, x) <==>
               IsIndexOf(samples[..n], m, x) || (samples[n].metric == m && samples[n].index == x);
    }
  }

  lemma {:induction false} CountIsSize(samples: seq<Sample>, m: Metric)
    requires DistinctIndices(samples)
    ensures |IndexSet(samples, m)| == Count(samples, m)
  {
    if samples != [] {
      var n := |samples| - 1;
      CountIsSize(samples[..n], m);
      IndexSetMembers(samples[..n], m, samples[n].index);
    }
  }

  lemma {:induction false} ByIndexIsSample(samples: seq<Sample>, i: int, s: Sample)
    ensures s in ByIndex(samples, i) ==> s in samples && s.index == i
    ensures DistinctIndices(samples) && s in samples && s.index == i ==> ByIndex(samples, i) == {s}
  {
    if samples != [] {
      var n := |samples| - 1;
      ByIndexIsSample(samples[..n], i, s);
      assert samples == samples[..n] + [samples[n]];
      if DistinctIndices(samples) && s in samples && s.index == i && samples[n].index == i {
        assert s == samples[n];
      }
    }
  }

  lemma {:induction false} SetsBacked(es: seq<Entry>, samples: seq<Sample>, x: int)
    requires forall i :: 0 <= i < |es| ==> EntryBacked(samples, es[i])
    ensures x in PublishSet(es) ==> exists s :: s in ByIndex(samples, x) && s.metric.Publish?
    ensures x in ReadSet(es) ==> exists s :: s in ByIndex(samples, x) && s.metric.Read?
  {
    if es != [] {
      SetsBacked(es[..|es| - 1], samples, x);
      var e := es[|es| - 1];
      assert EntryBacked(samples, e);
      if x in Elements(e.readIndices) {
        var k :| 0 <= k < |e.readIndices| && e.readIndices[k] == x;
        assert Backed(samples, e.readIndices[k], Read, e.phase);
      }
    }
  }

  /** With distinct sample indices, an accepted proof has one publish sample per entry and one read sample per page. */
  lemma AcceptedCounts(maxBytes: nat, p: Proof, c: Claim, samples: seq<Sample>)
    requires ProofOk(maxBytes, p) && Accounted(p, c, samples) && DistinctIndices(samples)
    ensures Count(samples, Publish) == |p.entries|
    ensures Count(samples, Read) == TotalPages(p.entries)
  {
    PagesCounted(maxBytes, p);
    hide Flat, PublishSet, ReadSet, ByIndex, Count, EntryBacked, EntryOk, ProofOk, TotalPages, IndexSet, Expected,
         Elements, Increasing, WarmupCount;
    ClaimSizes(p.entries);
    CountIsSize(samples, Publish);
    CountIsSize(samples, Read);
    assert IndexSet(samples, Publish) == PublishSet(p.entries) by {
      forall x ensures x in IndexSet(samples, Publish) <==> x in PublishSet(p.entries) { SideOf(p, samples, x); }
    }
    assert IndexSet(samples, Read) == ReadSet(p.entries) by {
      forall x ensures x in IndexSet(samples, Read) <==> x in ReadSet(p.entries) { SideOf(p, samples, x); }
    }
  }

  lemma PagesCounted(maxBytes: nat, p: Proof)
    requires ProofOk(maxBytes, p)
    ensures forall i :: 0 <= i < |p.entries| ==> p.entries[i].pageCount == |p.entries[i].readIndices|
  {
    assert forall i :: 0 <= i < |p.entries| ==> EntryOk(maxBytes, p.entries[i]);
  }

  lemma SideOf(p: Proof, samples: seq<Sample>, x: int)
    requires DistinctIndices(samples) && forall i :: 0 <= i < |p.entries| ==> EntryBacked(samples, p.entries[i])
    requires Elements(Flat(p.entries)) == Expected(samples) == PublishSet(p.entries) + ReadSet(p.entries)
    ensures x in IndexSet(samples, Publish) <==> x in PublishSet(p.entries)
    ensures x in IndexSet(samples, Read) <==> x in ReadSet(p.entries)
  {
    hide Flat, PublishSet, ReadSet, ByIndex, EntryBacked, IndexSet, Elements;
    IndexSetMembers(samples, Publish, x);
    IndexSetMembers(samples, Read, x);
    SetsBacked(p.entries, samples, x);
    forall s: Sample
      ensures s in ByIndex(samples, x) ==> s in samples && s.index == x
      ensures s in samples && s.index == x ==> ByIndex(samples, x) == {s}
    {
      ByIndexIsSample(samples, x, s);
    }
    assert x in IndexSet(samples, Publish) + IndexSet(samples, Read) <==> x in Expected(samples);
  }

  /** The samples contain one with this index, metric and phase. */
  ghost predicate Recorded(samples: seq<Sample>, i: int, m: Metric, ph: Phase) { Sample(i, m, ph) in samples }

  lemma {:induction false} ByIndexMeans(samples: seq<Sample>, i: int)
    ensures forall s :: s in ByIndex(samples, i) ==> s in samples && s.index == i
  {
    if samples != [] { ByIndexMeans(samples[..|samples| - 1], i); }
  }

  /** Under an accepted proof every entry's publish index is that of a publish sample and every read index that of a
      read sample, in the entry's own phase; the first `warmupCount` entries are the warm-up. */
  lemma ClaimsAreSamples(maxBytes: nat, p: Proof, c: Claim, samples: seq<Sample>, i: nat, k: nat)
    requires ProofOk(maxBytes, p) && Accounted(p, c, samples) && i < |p.entries|
    ensures Recorded(samples, p.entries[i].publishIndex, Publish, if i < c.warmupCount then Warmup else Measure)
    ensures k < p.entries[i].pageCount ==>
              && k < |p.entries[i].readIndices|
              && Recorded(samples, p.entries[i].readIndices[k], Read, if i < c.warmupCount then Warmup else Measure)
  {
    var e := p.entries[i];
    hide Flat, Increasing, ByIndex, Elements, Expected, TotalBytes, WarmupCount;
    assert EntryBacked(samples, e) && EntryOk(maxBytes, e);
    ByIndexMeans(samples, e.publishIndex);
    if k < |e.readIndices| {
      ByIndexMeans(samples, e.readIndices[k]);
      assert Backed(samples, e.readIndices[k], Read, e.phase);
    }
  }
}
