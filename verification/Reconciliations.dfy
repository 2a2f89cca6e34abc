/** Appended usage reconciliations: each turns one unknown request into a known cost. */
module Reconciliations {
  import opened Options
  import opened LedgerData
  import Pricing

  /** Request `i` is the only one carrying this id. */
  predicate UniqueAt(reqs: seq<Request>, id: Id, i: int) {
    && 0 <= i < |reqs| && reqs[i].id == id
    && forall j :: 0 <= j < |reqs| && reqs[j].id == id ==> j == i
  }

  /** The record prices the complete usage of this unknown request and fits its hold. */
  predicate Matches(h: Hash, q: Request, r: Reconciliation) {
    && q.status.Unknown?
    && q.meta.requestedModel == Some(Pricing.MAX_MODEL) && q.meta.priceBasis == Some(Pricing.MAX_PRICE_BASIS)
    && q.meta.maxAttempts == Some(1)
    && q.meta.maxOutputTokens.Some? && r.outputTokens <= q.meta.maxOutputTokens.value
    && r.inputTokens <= Pricing.MAX_INPUT_TOKENS
    && r.requestSha == h.request(q)
    && Priced(r) && r.cost <= q.reservedCost
    && q.completedAt.Some? && q.completedAt.value <= r.recordedAt
  }

  predicate Priced(r: Reconciliation) {
    match Pricing.TierFor(Pricing.MAX_TIERS, r.inputTokens)
    case None => false
    case Some(t) => r.inputRate == t.inputRate && r.outputRate == t.outputRate
                    && r.cost == Pricing.Charge(t, r.inputTokens, r.outputTokens)
  }

  predicate RecordOk(h: Hash, periodId: Id, reqs: seq<Request>, r: Reconciliation) {
    r.periodId == periodId && exists i :: 0 <= i < |reqs| && UniqueAt(reqs, r.requestId, i) && Matches(h, reqs[i], r)
  }

  /** Record `k` is linked to its predecessor and repeats no earlier record or request. */
  predicate Chained(recs: seq<Reconciliation>, k: int)
    requires 0 <= k < |recs|
  {
    && recs[k].previousId == (if k == 0 then None else Some(recs[k - 1].reconciliationId))
    && forall j :: 0 <= j < k ==> recs[j].reconciliationId != recs[k].reconciliationId
                                  && recs[j].requestId != recs[k].requestId
  }

  predicate RecordsOk(h: Hash, periodId: Id, reqs: seq<Request>, recs: seq<Reconciliation>) {
    && |recs| <= MAX_RECONCILIATIONS
    && (forall k :: 0 <= k < |recs| ==> Chained(recs, k))
    && (forall k :: 0 <= k < |recs| ==> RecordOk(h, periodId, reqs, recs[k]))
  }

  /** Reconciled cost by request id. */
  function Costs(recs: seq<Reconciliation>): map<Id, nat> {
    if recs == [] then map[] else Costs(recs[..|recs| - 1])[recs[|recs| - 1].requestId := recs[|recs| - 1].cost]
  }

  lemma {:induction false} CostsKeys(recs: seq<Reconciliation>)
    ensures forall id :: id in Costs(recs) <==> exists k :: 0 <= k < |recs| && recs[k].requestId == id
  {
    if recs != [] {
      var n := |recs| - 1;
      CostsKeys(recs[..n]);
      forall id ensures id in Costs(recs) <==> exists k :: 0 <= k < |recs| && recs[k].requestId == id {
        if k :| 0 <= k < |recs| && recs[k].requestId == id {
          assert k < n ==> recs[..n][k].requestId == id;
        }
        if id in Costs(recs[..n]) {
          var k :| 0 <= k < |recs[..n]| && recs[..n][k].requestId == id;
          assert recs[k].requestId == id;
        }
        assert recs[n].requestId == id ==> 0 <= n < |recs|;
      }
    }
  }

  /** The loop of `usage_reconciliations`, with its two seen sets and its running predecessor. */
  method Validate(h: Hash, periodId: Id, reqs: seq<Request>, recs: seq<Reconciliation>) returns (ok: bool)
    ensures ok <==> RecordsOk(h, periodId, reqs, recs)
  {
    hide RecordOk;
    if |recs| > MAX_RECONCILIATIONS { return false; }
    var seenRecords, seenRequests := {}, {};
    var previous: Option<Id> := None;
    for k := 0 to |recs|
      invariant forall j :: 0 <= j < k ==> Chained(recs, j)
      invariant forall j :: 0 <= j < k ==> RecordOk(h, periodId, reqs, recs[j])
      invariant seenRecords == set j | 0 <= j < k :: recs[j].reconciliationId
      invariant seenRequests == set j | 0 <= j < k :: recs[j].requestId
      invariant previous == if k == 0 then None else Some(recs[k - 1].reconciliationId)
    {
      if recs[k].reconciliationId in seenRecords || recs[k].requestId in seenRequests
         || recs[k].previousId != previous || !RecordOk(h, periodId, reqs, recs[k]) {
        assert !(Chained(recs, k) && RecordOk(h, periodId, reqs, recs[k]));
        return false;
      }
      seenRecords := seenRecords + {recs[k].reconciliationId};
      seenRequests := seenRequests + {recs[k].requestId};
      previous := Some(recs[k].reconciliationId);
    }
    return true;
  }

  /** Reconciled ids belong to unknown requests whose hold covers the cost. */
  lemma {:induction false} CostsFit(h: Hash, periodId: Id, reqs: seq<Request>, recs: seq<Reconciliation>, i: nat)
    requires RecordsOk(h, periodId, reqs, recs) && i < |reqs| && reqs[i].id in Costs(recs)
    ensures reqs[i].status.Unknown? && Costs(recs)[reqs[i].id] <= reqs[i].reservedCost
  {
    var n := |recs| - 1;
    if recs[n].requestId == reqs[i].id {
      assert RecordOk(h, periodId, reqs, recs[n]);
      var j :| 0 <= j < |reqs| && UniqueAt(reqs, recs[n].requestId, j) && Matches(h, reqs[j], recs[n]);
      assert i == j;
    } else {
      RecordsPrefix(h, periodId, reqs, recs, n);
      CostsFit(h, periodId, reqs, recs[..n], i);
    }
  }

  lemma RecordsPrefix(h: Hash, periodId: Id, reqs: seq<Request>, recs: seq<Reconciliation>, n: nat)
    requires RecordsOk(h, periodId, reqs, recs) && n <= |recs|
    ensures RecordsOk(h, periodId, reqs, recs[..n])
  {
    forall k | 0 <= k < n ensures Chained(recs[..n], k) && RecordOk(h, periodId, reqs, recs[..n][k]) {
      assert Chained(recs, k) && RecordOk(h, periodId, reqs, recs[k]);
    }
  }

  /** New requests with new ids and settled reservations disturb no record. */
  lemma RecordsKept(h: Hash, periodId: Id, a: seq<Request>, b: seq<Request>, recs: seq<Reconciliation>)
    requires RecordsOk(h, periodId, a, recs) && Evolves(a, b) && DistinctIds(b)
    ensures RecordsOk(h, periodId, b, recs)
  {
    forall k | 0 <= k < |recs| ensures RecordOk(h, periodId, b, recs[k]) {
      assert RecordOk(h, periodId, a, recs[k]);
      var i :| 0 <= i < |a| && UniqueAt(a, recs[k].requestId, i) && Matches(h, a[i], recs[k]);
      assert KeptOrSettled(a[i], b[i]);
      assert UniqueAt(b, recs[k].requestId, i);
    }
  }
}
