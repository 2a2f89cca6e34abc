/** The whole layered validity that every open and every save of the ledger re-checks. */
module Validity {
  import opened LedgerData
  import Rec = Reconciliations
  import Plans
  import Bindings
  import Continuations

  /** The hold and the cost a request of each status must show. */
  predicate EntryOk(rc: map<Id, nat>, r: Request) {
    if Resolved(r) then r.reservedCost == 0 && r.costEstimate.Some?
    else (r.status.Unknown? && r.id in rc) || r.reservedCost > 0
  }

  predicate EntriesOk(rc: map<Id, nat>, reqs: seq<Request>) {
    DistinctIds(reqs) && forall i :: 0 <= i < |reqs| ==> EntryOk(rc, reqs[i])
  }

  /** The stored totals are the refolded ones and stay within the allocation. */
  predicate TotalsOk(rc: map<Id, nat>, p: Period) {
    && p.knownCost == Total(Known, rc, p.requests, 0, |p.requests|)
    && p.reservedCost == Total(Held, rc, p.requests, 0, |p.requests|)
    && p.knownCost + p.reservedCost <= p.allocation
  }

  predicate MoneyOk(h: Hash, schema: Schema, p: Period) {
    var c := ContextOf(p);
    && |p.requests| <= MAX_REQUESTS
    && Rec.RecordsOk(h, c.periodId, p.requests, c.recs)
    && (if schema.V6? then c.recs != [] else p.reconciliations.None?)
    && EntriesOk(Rec.Costs(c.recs), p.requests)
    && TotalsOk(Rec.Costs(c.recs), p)
  }

  predicate PlanLayerOk(h: Hash, p: Period) {
    match p.plan
    case Some(plan) => Plans.PlanOk(h, ContextOf(p), p.requests, plan)
    case None => forall i :: 0 <= i < |p.requests| ==>
        p.requests[i].reverificationId.None? && p.requests[i].taskId.None?
  }

  predicate BindingLayerOk(h: Hash, schema: Schema, p: Period) {
    if schema.V2? || schema.V3? then
      && p.binding.Some? && p.plan.Some?
      && (if schema.V3? then
            Bindings.ChainOk(h, ContextOf(p), p.requests, p.plan.value, p.binding.value, ListOf(p.candidates))
          else
            p.candidates.None? && Bindings.RebindingOk(h, ContextOf(p), p.requests, p.plan.value, p.binding.value))
    else
      && p.binding.None? && (forall i :: 0 <= i < |p.requests| ==> p.requests[i].bindingId.None?)
      && (schema.V1? ==> p.candidates.None?)
  }

  predicate ContinuationLayerOk(h: Hash, schema: Schema, p: Period) {
    if schema.V4? || schema.V5? || schema.V6? then
      && p.plan.Some? && p.continuation.Some?
      && (if schema.V5? then ListOf(p.successors) != [] else p.successors.None?)
      && Continuations.ContinuationOk(h, ContextOf(p), p.requests, p.plan.value, p.continuation.value,
                                      ListOf(p.successors))
    else
      && p.continuation.None? && p.successors.None?
      && (forall i :: 0 <= i < |p.requests| ==> p.requests[i].continuationId.None?)
  }

  predicate PeriodOk(h: Hash, schema: Schema, p: Period) {
    && MoneyOk(h, schema, p) && PlanLayerOk(h, p)
    && BindingLayerOk(h, schema, p) && ContinuationLayerOk(h, schema, p)
  }

  predicate HeaderOk(l: Ledger) { l.provider == "aliyun-bailian" && l.currency == "CNY" }

  /** Period `k` is the only active one and has this id. */
  predicate ActiveAt(l: Ledger, pid: Id, k: int) {
    && 0 <= k < |l.periods| && l.periods[k].active && l.periods[k].periodId == pid
    && forall j :: 0 <= j < |l.periods| && l.periods[j].active ==> j == k
  }

  /** `_validate`. */
  predicate LedgerOk(h: Hash, l: Ledger, pid: Id) {
    HeaderOk(l) && exists k :: 0 <= k < |l.periods| && ActiveAt(l, pid, k) && PeriodOk(h, l.schema, l.periods[k])
  }

  /** The period an owner works on: the first with its id, active or not. */
  function OwnIndex(periods: seq<Period>, pid: Id): (k: nat)
    ensures k <= |periods|
    ensures k < |periods| ==> periods[k].periodId == pid
    ensures forall j :: 0 <= j < k ==> periods[j].periodId != pid
  {
    if periods == [] || periods[0].periodId == pid then 0 else 1 + OwnIndex(periods[1..], pid)
  }

  /** No earlier period shares the id of the active one, so an owner works on what `_validate` checks. */
  predicate Unambiguous(l: Ledger, pid: Id) {
    exists k :: 0 <= k < |l.periods| && ActiveAt(l, pid, k) && forall j :: 0 <= j < k ==> l.periods[j].periodId != pid
  }

  predicate HasOwn(l: Ledger, pid: Id) { OwnIndex(l.periods, pid) < |l.periods| }

  function OwnPeriod(l: Ledger, pid: Id): Period
    requires HasOwn(l, pid)
  {
    l.periods[OwnIndex(l.periods, pid)]
  }

  function WithOwn(l: Ledger, pid: Id, p: Period): Ledger
    requires HasOwn(l, pid)
  {
    l.(periods := l.periods[OwnIndex(l.periods, pid) := p])
  }

  /** For an accepted ledger the owner's period is the checked one exactly when no earlier period repeats its id. */
  lemma OwnIsActive(h: Hash, l: Ledger, pid: Id)
    requires LedgerOk(h, l, pid)
    ensures HasOwn(l, pid)
    ensures ActiveAt(l, pid, OwnIndex(l.periods, pid)) <==> Unambiguous(l, pid)
    ensures Unambiguous(l, pid) ==> PeriodOk(h, l.schema, OwnPeriod(l, pid))
  {
    hide PeriodOk;
    var k :| 0 <= k < |l.periods| && ActiveAt(l, pid, k) && PeriodOk(h, l.schema, l.periods[k]);
    var o := OwnIndex(l.periods, pid);
    if ActiveAt(l, pid, o) { assert o == k; }
    if Unambiguous(l, pid) {
      var u :| 0 <= u < |l.periods| && ActiveAt(l, pid, u) && forall j :: 0 <= j < u ==> l.periods[j].periodId != pid;
      assert u == o == k;
    }
  }

  /** Replacing the owner's period by one with the same id and flag. */
  lemma OwnReplaced(h: Hash, l: Ledger, pid: Id, p: Period, schema: Schema)
    requires HasOwn(l, pid) && p.periodId == pid && p.active == OwnPeriod(l, pid).active
    ensures var m := WithOwn(l, pid, p).(schema := schema);
            && OwnIndex(m.periods, pid) == OwnIndex(l.periods, pid) && HasOwn(m, pid) && OwnPeriod(m, pid) == p
            && (Unambiguous(l, pid) <==> Unambiguous(m, pid))
            && (HeaderOk(l) && Unambiguous(l, pid) ==> (LedgerOk(h, m, pid) <==> PeriodOk(h, schema, p)))
  {
    hide PeriodOk;
    var o := OwnIndex(l.periods, pid);
    var m := WithOwn(l, pid, p).(schema := schema);
    assert m.periods[o].periodId == pid && forall j :: 0 <= j < o ==> m.periods[j].periodId != pid;
    forall k ensures ActiveAt(l, pid, k) <==> ActiveAt(m, pid, k) {
      assert forall j :: 0 <= j < |l.periods| ==>
               l.periods[j].active == m.periods[j].active && l.periods[j].periodId == m.periods[j].periodId;
    }
    assert forall j :: 0 <= j < |l.periods| ==> l.periods[j].periodId == m.periods[j].periodId;
    if Unambiguous(l, pid) {
      var u :| 0 <= u < |l.periods| && ActiveAt(l, pid, u) && forall j :: 0 <= j < u ==> l.periods[j].periodId != pid;
      assert ActiveAt(m, pid, u) && u == o;
      assert forall k :: ActiveAt(m, pid, k) ==> k == o;
    }
    if Unambiguous(m, pid) {
      var u :| 0 <= u < |m.periods| && ActiveAt(m, pid, u) && forall j :: 0 <= j < u ==> m.periods[j].periodId != pid;
      assert ActiveAt(l, pid, u);
    }
  }

  /** What a valid period's requests look like: at most ten thousand with different ids; a closed one shows a cost and
      holds nothing, any other holds money unless it is reconciled; and no request carries the label of an authority
      that is not registered. */
  lemma PeriodMeans(h: Hash, schema: Schema, p: Period, i: nat, j: nat)
    requires PeriodOk(h, schema, p) && i < |p.requests|
    ensures |p.requests| <= 10000 && (j < |p.requests| && j != i ==> p.requests[i].id != p.requests[j].id)
    ensures p.requests[i].status in {Completed, NotSent} ==>
              p.requests[i].reservedCost == 0 && p.requests[i].costEstimate.Some?
    ensures p.requests[i].status == Reserved ==> p.requests[i].reservedCost > 0
    ensures p.requests[i].status == Unknown ==>
              || p.requests[i].reservedCost > 0
              || exists k ::
                   0 <= k < |ListOf(p.reconciliations)| && ListOf(p.reconciliations)[k].requestId == p.requests[i].id
    ensures p.plan.None? ==> p.requests[i].reverificationId.None? && p.requests[i].taskId.None?
    ensures p.binding.None? ==> p.requests[i].bindingId.None?
    ensures p.continuation.None? ==> p.requests[i].continuationId.None?
    ensures p.knownCost + p.reservedCost <= p.allocation
  {
    hide Rec.RecordsOk, Rec.Costs, Plans.PlanOk, Bindings.ChainOk, Bindings.RebindingOk, Continuations.ContinuationOk;
    Rec.CostsKeys(ListOf(p.reconciliations));
    assert EntryOk(Rec.Costs(ContextOf(p).recs), p.requests[i]);
  }

  /** A valid ledger is that of the one provider and currency, and its one active period is the one asked for. */
  lemma LedgerMeans(h: Hash, l: Ledger, pid: Id, k: nat)
    requires LedgerOk(h, l, pid) && k < |l.periods| && l.periods[k].active
    ensures l.provider == "aliyun-bailian" && l.currency == "CNY" && l.periods[k].periodId == pid
    ensures PeriodOk(h, l.schema, l.periods[k]) && forall j :: 0 <= j < |l.periods| && l.periods[j].active ==> j == k
  {
    hide PeriodOk;
    var u :| 0 <= u < |l.periods| && ActiveAt(l, pid, u) && PeriodOk(h, l.schema, l.periods[u]);
    assert u == k;
  }

  // -- The checker as the source runs it --------------------------------------------------

  /** The accumulating loop of `_validate`: `known`, `reserved` and the seen identities. */
  method FoldEntries(costs: map<Id, nat>, reqs: seq<Request>) returns (ok: bool, known: nat, reserved: nat)
    ensures ok <==> EntriesOk(costs, reqs)
    ensures ok ==> known == Total(Known, costs, reqs, 0, |reqs|) && reserved == Total(Held, costs, reqs, 0, |reqs|)
  {
    ok, known, reserved := false, 0, 0;
    var identities := {};
    for i := 0 to |reqs|
      invariant forall x :: x in identities <==> exists j :: 0 <= j < i && reqs[j].id == x
      invariant forall j, k :: 0 <= j < k < i ==> reqs[j].id != reqs[k].id
      invariant forall j :: 0 <= j < i ==> EntryOk(costs, reqs[j])
      invariant known == Total(Known, costs, reqs, 0, i)
      invariant reserved == Total(Held, costs, reqs, 0, i)
    {
      var r := reqs[i];
      if r.id in identities { return; }
      identities := identities + {r.id};
      if Resolved(r) {
        if r.reservedCost != 0 || r.costEstimate.None? { return; }
        known := known + r.costEstimate.value;
      } else if r.status.Unknown? && r.id in costs {
        known := known + costs[r.id];
      } else if r.reservedCost <= 0 {
        return;
      }
      if r.status.Reserved? || (r.status.Unknown? && r.id !in costs) {
        reserved := reserved + r.reservedCost;
      }
    }
    ok := true;
  }

  method ValidateMoney(h: Hash, schema: Schema, p: Period) returns (ok: bool)
    ensures ok <==> MoneyOk(h, schema, p)
  {
    var c := ContextOf(p);
    if |p.requests| > MAX_REQUESTS { return false; }
    var recsOk := Rec.Validate(h, c.periodId, p.requests, c.recs);
    if !recsOk { return false; }
    if schema.V6? { if c.recs == [] { return false; } } else if p.reconciliations.Some? { return false; }
    hide Rec.RecordsOk, EntriesOk;
    var entries, known, reserved := FoldEntries(Rec.Costs(c.recs), p.requests);
    return entries && known == p.knownCost && reserved == p.reservedCost && known + reserved <= p.allocation;
  }

  method ValidatePeriod(h: Hash, schema: Schema, p: Period) returns (ok: bool)
    ensures ok <==> PeriodOk(h, schema, p)
  {
    hide MoneyOk, Plans.PlanOk, Bindings.RebindingOk, Bindings.ChainOk, Continuations.LineOk, Continuations.WindowOk;
    var money := ValidateMoney(h, schema, p);
    if !money { return false; }
    var c := ContextOf(p);
    if p.plan.Some? {
      var charged := Plans.Validate(h, c, p.requests, p.plan.value);
      if charged.None? { return false; }
    } else if !PlanLayerOk(h, p) {
      return false;
    }
    if schema.V3? && p.binding.Some? && p.plan.Some? {
      var chained := Bindings.ValidateChain(h, c, p.requests, p.plan.value, p.binding.value, ListOf(p.candidates));
      if !chained { return false; }
    } else if !BindingLayerOk(h, schema, p) {
      return false;
    }
    if schema.V5? && p.plan.Some? && p.continuation.Some? && ListOf(p.successors) != [] {
      ok := Continuations.ValidateLine(h, c, p.requests, p.plan.value, p.continuation.value, ListOf(p.successors));
    } else {
      ok := ContinuationLayerOk(h, schema, p);
    }
  }

  /** `_validate` on the whole ledger: one active period, the right one, and all its layers. */
  method ValidateLedger(h: Hash, l: Ledger, pid: Id) returns (ok: bool)
    ensures ok <==> LedgerOk(h, l, pid)
  {
    hide PeriodOk;
    if !HeaderOk(l) { return false; }
    for k := 0 to |l.periods|
      invariant forall j :: 0 <= j < k ==> !l.periods[j].active
    {
      if l.periods[k].active {
        if !ActiveAt(l, pid, k) {
          assert forall j :: ActiveAt(l, pid, j) ==> j == k;
          return false;
        }
        ok := ValidatePeriod(h, l.schema, l.periods[k]);
        assert forall j :: ActiveAt(l, pid, j) ==> j == k;
        return;
      }
    }
    return false;
  }
}
