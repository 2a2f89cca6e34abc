/** When an appended usage reconciliation is persisted: exact conditions. */
module ReconcileAccepted {
  import opened Options
  import opened LedgerData
  import opened Validity
  import opened LedgerSteps
  import opened LedgerRuns
  import opened LedgerSafety
  import opened LedgerMoney
  import Rec = Reconciliations
  import Plans
  import Continuations
  import RequestsKeepValidity

  /** A caller can check all of this against the file: the record prices an unknown request, follows the last record,
      and the period stands on a continuation without successors. */
  ghost predicate MayReconcile(h: Hash, d: Ledger, p: Period, r: Reconciliation) {
    var recs := ListOf(p.reconciliations);
    && r.ledgerBefore == h.body(d) && |recs| < MAX_RECONCILIATIONS
    && r.previousId == (if recs == [] then None else Some(recs[|recs| - 1].reconciliationId))
    && (forall k :: 0 <= k < |recs| ==>
          recs[k].reconciliationId != r.reconciliationId && recs[k].requestId != r.requestId)
    && Rec.RecordOk(h, p.periodId, p.requests, r)
    && p.continuation.Some? && ListOf(p.successors) == []
  }

  lemma RecordsExtend(h: Hash, periodId: Id, reqs: seq<Request>, recs: seq<Reconciliation>, r: Reconciliation)
    requires Rec.RecordsOk(h, periodId, reqs, recs)
    ensures Rec.RecordsOk(h, periodId, reqs, recs + [r]) <==>
            && |recs| < MAX_RECONCILIATIONS && Rec.RecordOk(h, periodId, reqs, r)
            && r.previousId == (if recs == [] then None else Some(recs[|recs| - 1].reconciliationId))
            && (forall k :: 0 <= k < |recs| ==>
                  recs[k].reconciliationId != r.reconciliationId && recs[k].requestId != r.requestId)
  {
    hide Rec.RecordOk;
    var all := recs + [r];
    assert all[|recs|] == r;
    assert forall k :: 0 <= k < |recs| ==> all[k] == recs[k];
    assert forall k :: 0 <= k < |recs| ==> (Rec.Chained(all, k) <==> Rec.Chained(recs, k));
    if Rec.RecordsOk(h, periodId, reqs, all) {
      assert Rec.Chained(all, |recs|) && Rec.RecordOk(h, periodId, reqs, all[|recs|]);
    }
  }

  /** One more record never raises a charged cost. */
  lemma {:induction false} ReconcileCharged(h: Hash, periodId: Id, reqs: seq<Request>, recs: seq<Reconciliation>,
                                            r: Reconciliation, lo: nat, hi: nat)
    requires hi <= |reqs| && Rec.RecordsOk(h, periodId, reqs, recs) && Rec.RecordsOk(h, periodId, reqs, recs + [r])
    requires EntriesOk(Rec.Costs(recs), reqs)
    ensures Total(Charged, Rec.Costs(recs + [r]), reqs, lo, hi) <= Total(Charged, Rec.Costs(recs), reqs, lo, hi)
    decreases hi
  {
    hide Rec.RecordsOk, Rec.Costs;
    if hi > lo {
      ReconcileCharged(h, periodId, reqs, recs, r, lo, hi - 1);
      ReconcileWeights(h, periodId, reqs, recs, r, hi - 1);
      assert EntryOk(Rec.Costs(recs), reqs[hi - 1]);
    }
  }

  lemma ReconcilePlan(h: Hash, c: Context, reqs: seq<Request>, plan: Plan, r: Reconciliation)
    requires Plans.PlanOk(h, c, reqs, plan) && Rec.RecordsOk(h, c.periodId, reqs, c.recs + [r])
    requires EntriesOk(Rec.Costs(c.recs), reqs)
    ensures Plans.PlanOk(h, c.(recs := c.recs + [r]), reqs, plan)
  {
    ReconcileCharged(h, c.periodId, reqs, c.recs, r, plan.priorCount, |reqs|);
    hide Rec.RecordsOk, Plans.CarriedOk, Plans.WellFormed, EntriesOk, Rec.Costs;
  }

  lemma ReconcileWindow(h: Hash, c: Context, reqs: seq<Request>, plan: Plan, w: Continuation, r: Reconciliation)
    requires Continuations.WindowOk(h, c, reqs, plan, w) && Rec.RecordsOk(h, c.periodId, reqs, c.recs + [r])
    requires EntriesOk(Rec.Costs(c.recs), reqs)
    ensures Continuations.WindowOk(h, c.(recs := c.recs + [r]), reqs, plan, w)
  {
    ReconcilePlan(h, c, reqs, plan, r);
    hide Plans.PlanOk, Plans.CarriedOk, EntriesOk, Rec.RecordsOk;
    assert (c.recs + [r])[..|c.recs|] == c.recs;
  }

  lemma ReconcileKeepsPeriod(h: Hash, schema: Schema, p: Period, r: Reconciliation)
    requires PeriodOk(h, schema, p) && p.continuation.Some? && ListOf(p.successors) == []
    requires Rec.RecordsOk(h, p.periodId, p.requests, ListOf(p.reconciliations) + [r])
    ensures FindRequest(p.requests, r.requestId) < |p.requests|
    ensures PeriodOk(h, V6, AfterReconcile(p, FindRequest(p.requests, r.requestId), r))
  {
    SchemaHolds(h, schema, p);
    RequestsKeepValidity.ContinuationIsTask(h, schema, p);
    RequestsKeepValidity.TaskHasNoBinding(h, p);
    ReconcileMoney(h, schema, p, r);
    var c, q := ContextOf(p), AfterReconcile(p, FindRequest(p.requests, r.requestId), r);
    ReconcileWindow(h, c, p.requests, p.plan.value, p.continuation.value, r);
    ReconcilePlan(h, c, p.requests, p.plan.value, r);
    assert ContextOf(q) == c.(recs := c.recs + [r]);
    hide Plans.PlanOk, Continuations.WindowOk, Rec.RecordsOk, EntriesOk, TotalsOk;
  }

  /** Without a fault a new reconciliation is persisted exactly when the file admits it. */
  lemma ReconcileAccepted(h: Hash, pid: Id, d: Ledger, r: Reconciliation)
    requires Good(h, pid, d) && r.periodId == pid && r !in ListOf(OwnPeriod(d, pid).reconciliations)
    ensures ReconcileUsage(h, d, r, NoFault).1 <==> MayReconcile(h, d, OwnPeriod(d, pid), r)
  {
    hide PeriodOk, LedgerOk, SaveAccepts, Rec.RecordsOk, Rec.RecordOk, Unambiguous, ReconcileUsage;
    var p := OwnPeriod(d, pid);
    var recs, k := ListOf(p.reconciliations), FindRequest(p.requests, r.requestId);
    GoodRecords(h, pid, d);
    RecordsExtend(h, pid, p.requests, recs, r);
    ReconcileUnfolds(h, pid, d, r);
    if MayReconcile(h, d, p, r) {
      ReconcileKeepsPeriod(h, d.schema, p, r);
      ReconcileSaves(h, pid, d, p, k, r);
    } else if ReconcileUsage(h, d, r, NoFault).1 {
      ReconcileRefuses(h, pid, d, p, k, r);
      assert false;
    }
  }

  lemma GoodRecords(h: Hash, pid: Id, d: Ledger)
    requires Good(h, pid, d)
    ensures var p := OwnPeriod(d, pid);
            && p.periodId == pid && PeriodOk(h, d.schema, p)
               && Rec.RecordsOk(h, pid, p.requests, ListOf(p.reconciliations))
            && (p.continuation.Some? ==> p.binding.None?)
  {
    GoodPeriod(h, pid, d);
    SchemaHolds(h, d.schema, OwnPeriod(d, pid));
  }

  /** The owner that `reconcile_usage` saves. */
  ghost function Reconciler(pid: Id, d: Ledger, p: Period, k: nat, r: Reconciliation): Owner
    requires HasOwn(d, pid) && k < |p.requests|
  {
    Owner(pid, NOBODY, Role.Reconcile, WithOwn(d, pid, AfterReconcile(p, k, r)).(schema := V6), d, p.allocation)
  }

  lemma ReconcileUnfolds(h: Hash, pid: Id, d: Ledger, r: Reconciliation)
    requires Good(h, pid, d) && r.periodId == pid && r !in ListOf(OwnPeriod(d, pid).reconciliations)
    ensures var p := OwnPeriod(d, pid); var recs, k := ListOf(p.reconciliations), FindRequest(p.requests, r.requestId);
            ReconcileUsage(h, d, r, NoFault).1 <==>
            && (forall j :: 0 <= j < |recs| ==>
                  recs[j].reconciliationId != r.reconciliationId && recs[j].requestId != r.requestId)
            && r.ledgerBefore == h.body(d)
            && r.previousId == (if recs == [] then None else Some(recs[|recs| - 1].reconciliationId))
            && k < |p.requests| && SaveAccepts(h, Reconciler(pid, d, p, k, r), d)
  {
    hide LedgerOk, SaveAccepts, Unambiguous;
  }

  lemma ReconcileSaves(h: Hash, pid: Id, d: Ledger, p: Period, k: nat, r: Reconciliation)
    requires Good(h, pid, d) && p == OwnPeriod(d, pid) && k == FindRequest(p.requests, r.requestId) < |p.requests|
    requires r.ledgerBefore == h.body(d) && PeriodOk(h, V6, AfterReconcile(p, k, r)) && p.binding.None?
    ensures SaveAccepts(h, Reconciler(pid, d, p, k, r), d)
  {
    hide PeriodOk;
    var q := AfterReconcile(p, k, r);
    OwnReplaced(h, d, pid, q, V6);
    var m := WithOwn(d, pid, q).(schema := V6);
    assert m.periods[OwnIndex(m.periods, pid) := p] == d.periods;
    var recs := ListOf(p.reconciliations);
    assert (recs + [r])[..|recs|] == recs;
  }

  lemma ReconcileRefuses(h: Hash, pid: Id, d: Ledger, p: Period, k: nat, r: Reconciliation)
    requires Good(h, pid, d) && p == OwnPeriod(d, pid) && k == FindRequest(p.requests, r.requestId) < |p.requests|
    requires SaveAccepts(h, Reconciler(pid, d, p, k, r), d)
    ensures Rec.RecordsOk(h, pid, p.requests, ListOf(p.reconciliations) + [r])
    ensures p.continuation.Some? && ListOf(p.successors) == []
  {
    hide ReconcileSaveOk, BindingSaveOk;
    var q := AfterReconcile(p, k, r);
    OwnReplaced(h, d, pid, q, V6);
    SchemaHolds(h, V6, q);
  }
}
