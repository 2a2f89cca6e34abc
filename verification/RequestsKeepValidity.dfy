/** A guarded `reserve` or `settle` always yields data that every layer and the save check accept. */
module RequestsKeepValidity {
  import opened Options
  import opened LedgerData
  import opened Validity
  import opened LedgerSteps
  import Rec = Reconciliations
  import Plans
  import Bindings
  import Continuations

  predicate FreshId(reqs: seq<Request>, id: Id) { forall i :: 0 <= i < |reqs| ==> reqs[i].id != id }

  /** Only ids of existing requests are reconciled. */
  lemma FreshIsUnreconciled(h: Hash, periodId: Id, reqs: seq<Request>, recs: seq<Reconciliation>, id: Id)
    requires Rec.RecordsOk(h, periodId, reqs, recs) && FreshId(reqs, id)
    ensures id !in Rec.Costs(recs)
  {
    Rec.CostsKeys(recs);
    assert forall k :: 0 <= k < |recs| ==> Rec.RecordOk(h, periodId, reqs, recs[k]);
  }

  // -- Reserve ----------------------------------------------------------------------------

  /** What `reserve` knows once its guards have passed and its id is new. */
  ghost predicate CanReserve(h: Hash, schema: Schema, p: Period, who: Identity, units: int, id: Id) {
    && PeriodOk(h, schema, p) && Available(h, who, p)
    && (p.plan.Some? ==> Plans.ChargedTo(ContextOf(p), p.requests, p.plan.value) + units <= p.plan.value.maximumCost)
    && 0 < units && p.knownCost + p.reservedCost + units <= p.allocation
    && FreshId(p.requests, id) && |p.requests| < MAX_REQUESTS
  }

  lemma ReserveMoney(h: Hash, schema: Schema, p: Period, r: Request)
    requires MoneyOk(h, schema, p) && FreshId(p.requests, r.id) && |p.requests| < MAX_REQUESTS
    requires r.status.Reserved? && r.reservedCost > 0
    requires p.knownCost + p.reservedCost + r.reservedCost <= p.allocation
    ensures MoneyOk(h, schema, AfterReserve(p, r))
  {
    var q, c := AfterReserve(p, r), ContextOf(p);
    var rc := Rec.Costs(c.recs);
    assert forall i :: 0 <= i < |p.requests| ==> q.requests[i] == p.requests[i];
    assert Evolves(p.requests, q.requests) && DistinctIds(q.requests);
    Rec.RecordsKept(h, c.periodId, p.requests, q.requests, c.recs);
    TotalAppends(Known, rc, p.requests, r, 0);
    TotalAppends(Held, rc, p.requests, r, 0);
  }

  lemma ReservePlan(h: Hash, schema: Schema, p: Period, who: Identity, units: nat, meta: Metadata, id: Id, now: int)
    requires CanReserve(h, schema, p, who, units, id)
    ensures PlanLayerOk(h, AfterReserve(p, NewRequest(who, p, units, meta, id, now)))
  {
    hide ContinuationLayerOk, BindingLayerOk, Available;
    var r := NewRequest(who, p, units, meta, id, now);
    var q, c := AfterReserve(p, r), ContextOf(p);
    assert ContextOf(q) == c;
    if p.plan.Some? {
      ReserveUnderPlan(h, c, p.requests, p.plan.value, r);
    }
  }

  /** A fresh scoped reservation within the cap keeps the plan valid. */
  lemma ReserveUnderPlan(h: Hash, c: Context, reqs: seq<Request>, plan: Plan, r: Request)
    requires Plans.PlanOk(h, c, reqs, plan) && EntriesOk(Rec.Costs(c.recs), reqs) && FreshId(reqs, r.id)
    requires r.status.Reserved? && Plans.Scoped(plan, r)
    requires Plans.ChargedTo(c, reqs, plan) + r.reservedCost <= plan.maximumCost
    ensures Plans.PlanOk(h, c, reqs + [r], plan)
  {
    var all := reqs + [r];
    FreshIsUnreconciled(h, c.periodId, reqs, c.recs, r.id);
    TotalAppends(Charged, Rec.Costs(c.recs), reqs, r, plan.priorCount);
    assert Plans.ChargedTo(c, all, plan) <= plan.maximumCost;
    hide Plans.PlanOk, Plans.ChargedTo, Plans.Scoped, Rec.Costs;
    assert forall i :: 0 <= i < |reqs| ==> all[i] == reqs[i];
    assert Evolves(reqs, all) && DistinctIds(all);
    assert forall i :: 0 <= i < |all| ==> Plans.CostPresent(all[i]) by {
      assert forall i :: 0 <= i < |reqs| ==> EntryOk(Rec.Costs(c.recs), reqs[i]);
    }
    Plans.PlanKept(h, c, reqs, all, plan);
  }

  /** A task plan and the suite bindings exclude each other. */
  lemma TaskHasNoBinding(h: Hash, p: Period)
    requires p.plan.Some? && Plans.TaskScoped(p.plan.value.kind) && PlanLayerOk(h, p)
    ensures p.binding.None? && p.candidates.None? && ActiveBinding(p).None?
  {
  }

  /** The continuation layer only stands on a task plan. */
  lemma ContinuationIsTask(h: Hash, schema: Schema, p: Period)
    requires ContinuationLayerOk(h, schema, p) && (schema.V4? || schema.V5? || schema.V6?)
    ensures Plans.TaskScoped(p.plan.value.kind)
    ensures Continuations.WindowOk(h, ContextOf(p), p.requests, p.plan.value, ActiveContinuation(p).value)
  {
  }

  lemma ReserveBinding(h: Hash, schema: Schema, p: Period, who: Identity, units: nat, meta: Metadata, id: Id, now: int)
    requires CanReserve(h, schema, p, who, units, id)
    ensures BindingLayerOk(h, schema, AfterReserve(p, NewRequest(who, p, units, meta, id, now)))
  {
    hide MoneyOk, Available, Bindings.RebindingOk, Plans.PlanOk, Plans.ChargedTo;
    var r := NewRequest(who, p, units, meta, id, now);
    var q, c := AfterReserve(p, r), ContextOf(p);
    assert ContextOf(q) == c && Evolves(p.requests, q.requests);
    if schema.V2? {
      Bindings.RebindingKept(h, c, p.requests, q.requests, p.plan.value, p.binding.value);
    } else if schema.V3? {
      Bindings.ChainKept(h, c, p.requests, q.requests, p.plan.value, p.binding.value, ListOf(p.candidates));
    } else if !schema.V1? {
      ContinuationIsTask(h, schema, p);
      TaskHasNoBinding(h, p);
    }
  }

  /** With the active record admitted, every earlier request of its window is settled. */
  lemma WindowIsSettled(h: Hash, schema: Schema, p: Period, who: Identity, i: nat)
    requires PeriodOk(h, schema, p) && Available(h, who, p) && (schema.V4? || schema.V5? || schema.V6?)
    requires ActiveContinuation(p).value.priorCount <= i < |p.requests|
    ensures Continuations.Settled(ContextOf(p), p.requests[i])
  {
    hide BindingLayerOk, PlanLayerOk, ContinuationAdmits, PlanAdmits, NamesPlan;
    ContinuationIsTask(h, schema, p);
    if p.requests[i].status.Unknown? && p.requests[i].id !in Rec.Costs(ContextOf(p).recs) {
      CarriedIsEarlier(h, p, p.requests[i].id);
      assert false;
    }
  }

  /** A carried id belongs to a request of the frozen prefix. */
  lemma CarriedIsEarlier(h: Hash, p: Period, id: Id)
    requires p.plan.Some? && ActiveContinuation(p).Some?
    requires Continuations.WindowOk(h, ContextOf(p), p.requests, p.plan.value, ActiveContinuation(p).value)
    requires Plans.CarriedIn(ActiveContinuation(p).value.carried, id)
    ensures exists j :: 0 <= j < ActiveContinuation(p).value.priorCount <= |p.requests| && p.requests[j].id == id
  {
    hide Plans.PlanOk;
    var cont := ActiveContinuation(p).value;
    var k :| 0 <= k < |cont.carried| && cont.carried[k].id == id;
    assert Plans.UnknownIn(p.requests[..cont.priorCount], cont.carried[k].id);
    var j :| 0 <= j < cont.priorCount && p.requests[..cont.priorCount][j].id == id;
    assert p.requests[j].id == id;
  }

  lemma ReserveContinuation(h: Hash, schema: Schema, p: Period, who: Identity, units: nat, meta: Metadata, id: Id,
                            now: int)
    requires CanReserve(h, schema, p, who, units, id)
    ensures ContinuationLayerOk(h, schema, AfterReserve(p, NewRequest(who, p, units, meta, id, now)))
  {
    hide MoneyOk, BindingLayerOk, PlanAdmits, NamesPlan, Plans.PlanOk, Continuations.Settled, Continuations.LineOk;
    var r := NewRequest(who, p, units, meta, id, now);
    var q, c := AfterReserve(p, r), ContextOf(p);
    assert ContextOf(q) == c && Evolves(p.requests, q.requests);
    if schema.V4? || schema.V5? || schema.V6? {
      var cont := ActiveContinuation(p).value;
      ContinuationIsTask(h, schema, p);
      ReservePlan(h, schema, p, who, units, meta, id, now);
      forall i | cont.priorCount <= i < |q.requests| - 1 ensures Continuations.Settled(c, q.requests[i]) {
        WindowIsSettled(h, schema, p, who, i);
      }
      hide CanReserve;
      Continuations.WindowKept(h, c, p.requests, q.requests, p.plan.value, cont);
      if schema.V5? {
        Continuations.LineKept(h, c, p.requests, q.requests, p.plan.value, p.continuation.value, ListOf(p.successors));
      }
    }
  }

  /** `reserve` keeps every layer. */
  lemma ReserveKeepsPeriod(h: Hash, schema: Schema, p: Period, who: Identity, units: nat, meta: Metadata, id: Id,
                           now: int)
    requires CanReserve(h, schema, p, who, units, id)
    ensures PeriodOk(h, schema, AfterReserve(p, NewRequest(who, p, units, meta, id, now)))
  {
    ReservePlan(h, schema, p, who, units, meta, id, now);
    ReserveBinding(h, schema, p, who, units, meta, id, now);
    ReserveContinuation(h, schema, p, who, units, meta, id, now);
    hide PlanLayerOk, BindingLayerOk, ContinuationLayerOk;
    ReserveMoney(h, schema, p, NewRequest(who, p, units, meta, id, now));
  }

  // -- Settle -----------------------------------------------------------------------------

  ghost predicate CanSettle(h: Hash, schema: Schema, p: Period, k: nat, cost: Option<int>, sent: bool) {
    && PeriodOk(h, schema, p) && k < |p.requests| && p.requests[k].status.Reserved?
    && SettleArgs(p.requests[k].reservedCost, cost, sent)
  }

  /** The settled list: one reservation resolved, everything else as it was. */
  lemma SettleEvolves(p: Period, k: nat, cost: Option<int>, sent: bool, now: int)
    requires k < |p.requests| && p.requests[k].status.Reserved? && SettleArgs(p.requests[k].reservedCost, cost, sent)
    ensures Evolves(p.requests, AfterSettle(p, k, cost, sent, now).requests)
    ensures SettleShape(p.requests[k], SettledRequest(p.requests[k], cost, sent, now))
    ensures DistinctIds(p.requests) ==> DistinctIds(AfterSettle(p, k, cost, sent, now).requests)
  {
  }

  lemma ReservedIsUnreconciled(h: Hash, periodId: Id, reqs: seq<Request>, recs: seq<Reconciliation>, k: nat)
    requires Rec.RecordsOk(h, periodId, reqs, recs) && k < |reqs| && reqs[k].status.Reserved?
    ensures reqs[k].id !in Rec.Costs(recs)
  {
    if reqs[k].id in Rec.Costs(recs) { Rec.CostsFit(h, periodId, reqs, recs, k); assert false; }
  }

  /** Settling moves the held amount to the known one and never adds to their sum. */
  lemma SettleMoney(h: Hash, schema: Schema, p: Period, k: nat, cost: Option<int>, sent: bool, now: int)
    requires CanSettle(h, schema, p, k, cost, sent)
    ensures MoneyOk(h, schema, AfterSettle(p, k, cost, sent, now))
    ensures var q := AfterSettle(p, k, cost, sent, now); q.knownCost + q.reservedCost <= p.knownCost + p.reservedCost
  {
    hide PlanLayerOk, BindingLayerOk, ContinuationLayerOk;
    var q, c := AfterSettle(p, k, cost, sent, now), ContextOf(p);
    var rc, r := Rec.Costs(c.recs), SettledRequest(p.requests[k], cost, sent, now);
    SettleEvolves(p, k, cost, sent, now);
    assert EntryOk(rc, p.requests[k]);
    ReservedIsUnreconciled(h, c.periodId, p.requests, c.recs, k);
    Rec.RecordsKept(h, c.periodId, p.requests, q.requests, c.recs);
    TotalUpdates(Known, rc, p.requests, k, r, 0);
    TotalUpdates(Held, rc, p.requests, k, r, 0);
  }

  lemma SettlePlan(h: Hash, schema: Schema, p: Period, k: nat, cost: Option<int>, sent: bool, now: int)
    requires CanSettle(h, schema, p, k, cost, sent)
    ensures PlanLayerOk(h, AfterSettle(p, k, cost, sent, now))
  {
    hide ContinuationLayerOk, BindingLayerOk;
    var q, c := AfterSettle(p, k, cost, sent, now), ContextOf(p);
    assert ContextOf(q) == c;
    if p.plan.Some? {
      var plan := p.plan.value;
      SettleEvolves(p, k, cost, sent, now);
      SettleMoney(h, schema, p, k, cost, sent, now);
      SettleCharged(h, p, plan, k, cost, sent, now);
      hide Plans.PlanOk, Plans.ChargedTo;
      assert forall i :: 0 <= i < |q.requests| ==> Plans.CostPresent(q.requests[i]) by {
        assert forall i :: 0 <= i < |q.requests| ==> EntryOk(Rec.Costs(c.recs), q.requests[i]);
      }
      Plans.PlanKept(h, c, p.requests, q.requests, plan);
    }
  }

  /** No reservation lies in the plan's prefix, and settling one never raises the charged cost. */
  lemma SettleCharged(h: Hash, p: Period, plan: Plan, k: nat, cost: Option<int>, sent: bool, now: int)
    requires Plans.PlanOk(h, ContextOf(p), p.requests, plan)
    requires k < |p.requests| && p.requests[k].status.Reserved? && SettleArgs(p.requests[k].reservedCost, cost, sent)
    ensures Plans.ChargedTo(ContextOf(p), AfterSettle(p, k, cost, sent, now).requests, plan)
         <= Plans.ChargedTo(ContextOf(p), p.requests, plan) <= plan.maximumCost
  {
    var c := ContextOf(p);
    assert k < plan.priorCount ==> Plans.Unscoped(p.requests[k]);
    ReservedIsUnreconciled(h, c.periodId, p.requests, c.recs, k);
    TotalUpdates(Charged, Rec.Costs(c.recs), p.requests, k, SettledRequest(p.requests[k], cost, sent, now),
                 plan.priorCount);
  }

  lemma SettleBinding(h: Hash, schema: Schema, p: Period, k: nat, cost: Option<int>, sent: bool, now: int)
    requires CanSettle(h, schema, p, k, cost, sent)
    ensures BindingLayerOk(h, schema, AfterSettle(p, k, cost, sent, now))
  {
    hide MoneyOk, PlanLayerOk, ContinuationLayerOk, Bindings.RebindingOk;
    var q, c := AfterSettle(p, k, cost, sent, now), ContextOf(p);
    SettleEvolves(p, k, cost, sent, now);
    assert ContextOf(q) == c;
    if schema.V2? {
      Bindings.RebindingKept(h, c, p.requests, q.requests, p.plan.value, p.binding.value);
    } else if schema.V3? {
      Bindings.ChainKept(h, c, p.requests, q.requests, p.plan.value, p.binding.value, ListOf(p.candidates));
    }
  }

  lemma SettleContinuation(h: Hash, schema: Schema, p: Period, k: nat, cost: Option<int>, sent: bool, now: int)
    requires CanSettle(h, schema, p, k, cost, sent)
    ensures ContinuationLayerOk(h, schema, AfterSettle(p, k, cost, sent, now))
  {
    hide BindingLayerOk, Plans.PlanOk, Continuations.LineOk;
    var q, c := AfterSettle(p, k, cost, sent, now), ContextOf(p);
    SettleEvolves(p, k, cost, sent, now);
    assert ContextOf(q) == c;
    if schema.V4? || schema.V5? || schema.V6? {
      var cont := ActiveContinuation(p).value;
      ContinuationIsTask(h, schema, p);
      SettlePlan(h, schema, p, k, cost, sent, now);
      forall i | cont.priorCount <= i < |q.requests| - 1 ensures Continuations.Settled(c, q.requests[i]) {
        assert Continuations.Settled(c, p.requests[i]);
        if i == k {
          Rec.CostsFit(h, c.periodId, p.requests, c.recs, k);
          assert false;
        }
      }
      hide PeriodOk;
      Continuations.WindowKept(h, c, p.requests, q.requests, p.plan.value, cont);
      if schema.V5? {
        Continuations.LineKept(h, c, p.requests, q.requests, p.plan.value, p.continuation.value, ListOf(p.successors));
      }
    }
  }

  /** `settle` keeps every layer. */
  lemma SettleKeepsPeriod(h: Hash, schema: Schema, p: Period, k: nat, cost: Option<int>, sent: bool, now: int)
    requires CanSettle(h, schema, p, k, cost, sent)
    ensures PeriodOk(h, schema, AfterSettle(p, k, cost, sent, now))
  {
    SettleMoney(h, schema, p, k, cost, sent, now);
    SettlePlan(h, schema, p, k, cost, sent, now);
    SettleBinding(h, schema, p, k, cost, sent, now);
    SettleContinuation(h, schema, p, k, cost, sent, now);
    hide MoneyOk, PlanLayerOk, BindingLayerOk, ContinuationLayerOk;
  }
}
