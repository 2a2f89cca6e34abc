/** Conservation of money: plan cap, allocation, and the effect of reconciliation, over whole runs. */
module LedgerMoney {
  import opened LedgerData
  import opened Validity
  import opened LedgerSteps
  import opened LedgerRuns
  import opened LedgerSafety
  import Rec = Reconciliations
  import Plans

  /** Known plus held over the first `n` requests. */
  ghost function Spent(p: Period, n: nat): nat
    requires n <= |p.requests|
  {
    var rc := Rec.Costs(ContextOf(p).recs);
    Total(Known, rc, p.requests, 0, n) + Total(Held, rc, p.requests, 0, n)
  }

  /** On valid entries, what a plan charges is what is known plus what is held. */
  lemma {:induction false} ChargedIsSpent(h: Hash, periodId: Id, reqs: seq<Request>, recs: seq<Reconciliation>, lo: nat,
                                          hi: nat)
    requires hi <= |reqs| && Rec.RecordsOk(h, periodId, reqs, recs) && EntriesOk(Rec.Costs(recs), reqs)
    ensures var rc := Rec.Costs(recs);
            Total(Charged, rc, reqs, lo, hi) == Total(Known, rc, reqs, lo, hi) + Total(Held, rc, reqs, lo, hi)
    decreases hi
  {
    hide Rec.RecordsOk;
    if hi > lo {
      ChargedIsSpent(h, periodId, reqs, recs, lo, hi - 1);
      assert EntryOk(Rec.Costs(recs), reqs[hi - 1]);
      if reqs[hi - 1].id in Rec.Costs(recs) { Rec.CostsFit(h, periodId, reqs, recs, hi - 1); }
    }
  }

  /** The period total splits into the frozen prefix and the charged cost of the plan. */
  lemma SpentSplits(h: Hash, schema: Schema, p: Period)
    requires PeriodOk(h, schema, p) && p.plan.Some?
    ensures p.plan.value.priorCount <= |p.requests|
    ensures p.knownCost + p.reservedCost
         == Spent(p, p.plan.value.priorCount) + Plans.ChargedTo(ContextOf(p), p.requests, p.plan.value)
  {
    hide BindingLayerOk, ContinuationLayerOk, Rec.RecordsOk, EntriesOk;
    var c, n := ContextOf(p), |p.requests|;
    var rc, k := Rec.Costs(c.recs), p.plan.value.priorCount;
    assert Plans.PlanOk(h, c, p.requests, p.plan.value);
    ChargedIsSpent(h, c.periodId, p.requests, c.recs, k, n);
    TotalSplits(Known, rc, p.requests, 0, k, n);
    TotalSplits(Held, rc, p.requests, 0, k, n);
  }

  /** The plan maximum was reserved out of what the prefix left of the allocation. */
  ghost predicate PlanFits(p: Period) {
    p.plan.Some? ==> p.plan.value.priorCount <= |p.requests|
                     && Spent(p, p.plan.value.priorCount) + p.plan.value.maximumCost <= p.allocation
  }

  /** Under a plan that fits, passing the plan check already implies the allocation check. */
  lemma PlanImpliesAllocation(h: Hash, schema: Schema, p: Period, units: int)
    requires PeriodOk(h, schema, p) && p.plan.Some? && PlanFits(p)
    requires Plans.ChargedTo(ContextOf(p), p.requests, p.plan.value) + units <= p.plan.value.maximumCost
    ensures p.knownCost + p.reservedCost + units <= p.allocation
  {
    SpentSplits(h, schema, p);
  }

  // -- Reconciliation ---------------------------------------------------------------------

  /** One more record changes the weights of its own request only. */
  lemma ReconcileWeights(h: Hash, periodId: Id, reqs: seq<Request>, recs: seq<Reconciliation>, r: Reconciliation,
                         i: nat)
    requires i < |reqs| && Rec.RecordsOk(h, periodId, reqs, recs) && Rec.RecordsOk(h, periodId, reqs, recs + [r])
    ensures var rc, rd := Rec.Costs(recs), Rec.Costs(recs + [r]);
            && rd == rc[r.requestId := r.cost]
            && (reqs[i].id != r.requestId ==> forall m :: Weight(m, rc, reqs[i]) == Weight(m, rd, reqs[i]))
            && (reqs[i].id == r.requestId ==>
                  && Weight(Known, rc, reqs[i]) == 0 && Weight(Known, rd, reqs[i]) == r.cost
                  && Weight(Held, rc, reqs[i]) == reqs[i].reservedCost && Weight(Held, rd, reqs[i]) == 0
                  && r.cost <= reqs[i].reservedCost)
  {
    var all := recs + [r];
    assert all[..|recs|] == recs && all[|recs|] == r;
    assert Rec.Chained(all, |recs|);
    Rec.CostsKeys(recs);
    if reqs[i].id == r.requestId {
      Rec.CostsFit(h, periodId, reqs, all, i);
      assert forall k :: 0 <= k < |recs| ==> all[k].requestId == recs[k].requestId;
    }
  }

  /** Reconciling request `k` moves its hold to its cost in any range that contains it, and nothing else. */
  lemma {:induction false} ReconcileTotals(h: Hash, periodId: Id, reqs: seq<Request>, recs: seq<Reconciliation>,
                                           r: Reconciliation, k: nat, n: nat)
    requires n <= |reqs| && k < |reqs| && reqs[k].id == r.requestId && DistinctIds(reqs)
    requires Rec.RecordsOk(h, periodId, reqs, recs) && Rec.RecordsOk(h, periodId, reqs, recs + [r])
    ensures var rc, rd := Rec.Costs(recs), Rec.Costs(recs + [r]);
            && Total(Known, rd, reqs, 0, n) == Total(Known, rc, reqs, 0, n) + (if k < n then r.cost else 0)
            && Total(Held, rd, reqs, 0, n) == Total(Held, rc, reqs, 0, n) - (if k < n then reqs[k].reservedCost else 0)
            && r.cost <= reqs[k].reservedCost
    decreases n
  {
    ReconcileWeights(h, periodId, reqs, recs, r, k);
    hide Rec.RecordsOk, Rec.Costs;
    if n > 0 {
      ReconcileTotals(h, periodId, reqs, recs, r, k, n - 1);
      ReconcileWeights(h, periodId, reqs, recs, r, n - 1);
      assert n - 1 != k ==> reqs[n - 1].id != reqs[k].id;
    }
  }

  /** The incremental totals of `reconcile_usage` are the refolded ones, and their sum never grows. */
  lemma ReconcileMoney(h: Hash, schema: Schema, p: Period, r: Reconciliation)
    requires MoneyOk(h, schema, p)
    requires Rec.RecordsOk(h, p.periodId, p.requests, ListOf(p.reconciliations) + [r])
    ensures FindRequest(p.requests, r.requestId) < |p.requests|
    ensures var q := AfterReconcile(p, FindRequest(p.requests, r.requestId), r);
            MoneyOk(h, V6, q) && q.knownCost + q.reservedCost <= p.knownCost + p.reservedCost
  {
    hide Rec.RecordsOk, Rec.RecordOk, Rec.Costs, EntriesOk;
    var recs := ListOf(p.reconciliations);
    var all := recs + [r];
    RecordNamesRequest(h, p.periodId, p.requests, recs, r);
    var k := FindRequest(p.requests, r.requestId);
    var q := AfterReconcile(p, k, r);
    assert ContextOf(q) == Context(p.periodId, p.allocation, ContextOf(p).suiteBound, all);
    assert DistinctIds(p.requests) by { EntriesDistinct(Rec.Costs(recs), p.requests); }
    ReconcileTotals(h, p.periodId, p.requests, recs, r, k, |p.requests|);
    ReconcileEntries(h, p.periodId, p.requests, recs, r);
  }

  lemma EntriesDistinct(rc: map<Id, nat>, reqs: seq<Request>)
    requires EntriesOk(rc, reqs)
    ensures DistinctIds(reqs)
  {
  }

  lemma RecordNamesRequest(h: Hash, periodId: Id, reqs: seq<Request>, recs: seq<Reconciliation>, r: Reconciliation)
    requires Rec.RecordsOk(h, periodId, reqs, recs + [r])
    ensures FindRequest(reqs, r.requestId) < |reqs| && reqs[FindRequest(reqs, r.requestId)].id == r.requestId
  {
    var all := recs + [r];
    assert all[|recs|] == r && Rec.RecordOk(h, periodId, reqs, all[|recs|]);
  }

  lemma ReconcileEntries(h: Hash, periodId: Id, reqs: seq<Request>, recs: seq<Reconciliation>, r: Reconciliation)
    requires Rec.RecordsOk(h, periodId, reqs, recs) && Rec.RecordsOk(h, periodId, reqs, recs + [r])
    requires EntriesOk(Rec.Costs(recs), reqs)
    ensures EntriesOk(Rec.Costs(recs + [r]), reqs)
  {
    forall i | 0 <= i < |reqs| ensures EntryOk(Rec.Costs(recs + [r]), reqs[i]) {
      assert EntryOk(Rec.Costs(recs), reqs[i]);
      ReconcileWeights(h, periodId, reqs, recs, r, i);
    }
  }

  // -- The plan cap over runs -------------------------------------------------------------

  /** A frozen prefix costs the same after requests moved. */
  lemma SpentFrozen(p: Period, q: Period, n: nat)
    requires n <= |p.requests| && Evolves(p.requests, q.requests) && NoneReserved(p.requests[..n])
    requires q.reconciliations == p.reconciliations
    ensures Spent(q, n) == Spent(p, n)
  {
    PrefixKept(p.requests, q.requests, n);
    forall i | 0 <= i < n ensures p.requests[i] == q.requests[i] {
      assert p.requests[i] == p.requests[..n][i] && q.requests[i] == q.requests[..n][i];
    }
    var rc := Rec.Costs(ContextOf(p).recs);
    TotalAgrees(Known, rc, p.requests, q.requests, 0, n);
    TotalAgrees(Held, rc, p.requests, q.requests, 0, n);
  }

  lemma RequestsKeepFit(h: Hash, schema: Schema, p: Period, q: Period)
    requires PeriodOk(h, schema, p) && PlanFits(p) && Fixed(q) == Fixed(p) && Evolves(p.requests, q.requests)
    ensures PlanFits(q)
  {
    hide MoneyOk, BindingLayerOk, ContinuationLayerOk;
    FixedAgrees(p, q);
    if p.plan.Some? {
      Plans.PrefixUnreserved(h, ContextOf(p), p.requests, p.plan.value);
      SpentFrozen(p, q, p.plan.value.priorCount);
    }
  }

  lemma AuthorizeFits(h: Hash, pid: Id, d: Ledger, e: Ledger, p: Period, q: Period)
    requires PeriodOk(h, d.schema, p) && Authorized(h, pid, d, e, p, q)
    ensures PlanFits(q)
  {
    hide PlanLayerOk, BindingLayerOk, ContinuationLayerOk;
    assert ContextOf(q).recs == ContextOf(p).recs;
  }

  lemma ReconcileKeepsFit(h: Hash, schema: Schema, p: Period, q: Period, k: nat, r: Reconciliation)
    requires PeriodOk(h, schema, p) && PeriodOk(h, V6, q) && PlanFits(p)
    requires k < |p.requests| && p.requests[k].id == r.requestId && q == AfterReconcile(p, k, r)
    ensures PlanFits(q)
  {
    hide PlanLayerOk, BindingLayerOk, ContinuationLayerOk;
    if p.plan.Some? {
      ReconcileTotals(h, p.periodId, p.requests, ListOf(p.reconciliations), r, k, p.plan.value.priorCount);
    }
  }

  lemma MoveKeepsFit(h: Hash, pid: Id, d: Ledger, e: Ledger, p: Period, q: Period)
    requires PeriodOk(h, d.schema, p) && PeriodOk(h, e.schema, q) && PlanFits(p)
    requires || RequestsMoved(pid, d, e, p, q) || Authorized(h, pid, d, e, p, q) || Rebound(pid, d, e, p, q)
             || Appended(pid, d, e, p, q) || Continued(pid, d, e, p, q) || Reconciled(pid, d, e, p, q)
    ensures PlanFits(q)
  {
    hide PeriodOk, Evolves, Moved, Rec.Costs;
    if RequestsMoved(pid, d, e, p, q) { RequestsKeepFit(h, d.schema, p, q); }
    else if Authorized(h, pid, d, e, p, q) { AuthorizeFits(h, pid, d, e, p, q); }
    else if Reconciled(pid, d, e, p, q) {
      var r := ListOf(q.reconciliations)[|ListOf(p.reconciliations)|];
      ReconcileKeepsFit(h, d.schema, p, q, FindRequest(p.requests, r.requestId), r);
    } else {
      assert q.requests == p.requests && q.reconciliations == p.reconciliations && q.plan == p.plan
             && q.allocation == p.allocation;
    }
  }

  lemma StepKeepsFit(h: Hash, pid: Id, d: Ledger, e: Ledger)
    requires Good(h, pid, d) && Good(h, pid, e) && DiskStep(h, pid, d, e) && PlanFits(OwnPeriod(d, pid))
    ensures PlanFits(OwnPeriod(e, pid))
  {
    GoodPeriod(h, pid, d);
    GoodPeriod(h, pid, e);
    hide PeriodOk, LedgerOk, Unambiguous, PlanFits;
    if d != e { MoveKeepsFit(h, pid, d, e, OwnPeriod(d, pid), OwnPeriod(e, pid)); }
  }

  /** Once a plan is registered through `authorize_reverification`, on every run its charged cost stays within its
      maximum and its maximum stays within what the frozen prefix leaves of the allocation. */
  lemma {:induction false} RunKeepsPlanCap(h: Hash, pid: Id, s: System, actions: seq<Action>)
    requires SystemOk(h, pid, s) && PlanFits(OwnPeriod(s.disk, pid))
    ensures HasOwn(Run(h, s, actions).disk, pid)
    ensures var p := OwnPeriod(Run(h, s, actions).disk, pid);
            && PlanFits(p) && p.knownCost + p.reservedCost <= p.allocation
            && (p.plan.Some? ==> Plans.ChargedTo(ContextOf(p), p.requests, p.plan.value) <= p.plan.value.maximumCost)
    decreases |actions|
  {
    hide Next, DiskStep, Good, OwnerOk, PlanFits;
    if actions == [] {
      CapNow(h, pid, s.disk);
    } else {
      var t := Next(h, s, actions[0]);
      NextKeeps(h, pid, s, actions[0]);
      StepKeepsFit(h, pid, s.disk, t.disk);
      RunKeepsPlanCap(h, pid, t, actions[1..]);
    }
  }

  lemma CapNow(h: Hash, pid: Id, d: Ledger)
    requires Good(h, pid, d)
    ensures HasOwn(d, pid)
    ensures var p := OwnPeriod(d, pid);
            && p.knownCost + p.reservedCost <= p.allocation
            && (p.plan.Some? ==> Plans.ChargedTo(ContextOf(p), p.requests, p.plan.value) <= p.plan.value.maximumCost)
  {
    hide BindingLayerOk, ContinuationLayerOk;
    GoodPeriod(h, pid, d);
  }

  /** Over every interleaving, with faults at any save, the stored totals on file are the refolded ones, their sum stays
      within the allocation, and the allocation itself never changes. */
  lemma RunConserves(h: Hash, pid: Id, s: System, actions: seq<Action>)
    requires SystemOk(h, pid, s)
    ensures HasOwn(Run(h, s, actions).disk, pid)
    ensures var p := OwnPeriod(Run(h, s, actions).disk, pid);
            && p.knownCost == Total(Known, Rec.Costs(ListOf(p.reconciliations)), p.requests, 0, |p.requests|)
            && p.reservedCost == Total(Held, Rec.Costs(ListOf(p.reconciliations)), p.requests, 0, |p.requests|)
            && p.knownCost + p.reservedCost <= p.allocation == OwnPeriod(s.disk, pid).allocation
  {
    RunKeeps(h, pid, s, actions);
    RunRemembers(h, pid, s, actions);
    GoodPeriod(h, pid, Run(h, s, actions).disk);
    hide Run, LedgerOk, Unambiguous, PlanLayerOk, BindingLayerOk, ContinuationLayerOk, Evolves;
  }
}
