/** Who may open the ledger for requests, exactly; and the period that an unresolved request of unknown cost stops. */
module Availability {
  import opened Options
  import opened LedgerData
  import opened Validity
  import opened LedgerSteps
  import opened LedgerRuns
  import opened LedgerSafety
  import opened Reservations
  import RequestsAccepted
  import Rec = Reconciliations
  import Plans
  import Bindings
  import Continuations

  /** An appended record prices this request. */
  ghost predicate IsReconciled(p: Period, i: nat)
    requires i < |p.requests|
  {
    exists k :: 0 <= k < |ListOf(p.reconciliations)| && ListOf(p.reconciliations)[k].requestId == p.requests[i].id
  }

  ghost predicate CarriedBy(carried: seq<Carried>, r: Request) {
    exists k :: 0 <= k < |carried| && carried[k].id == r.id
  }

  /** The requests of unknown cost that do not stop the period: the reconciled ones and, under a plan, those carried by
      the continuation in force or else by the plan, and a rolling plan's own later ones. */
  ghost predicate MayStand(p: Period, i: nat)
    requires i < |p.requests|
  {
    || IsReconciled(p, i)
    || (p.plan.Some? && ActiveContinuation(p).Some? && CarriedBy(ActiveContinuation(p).value.carried, p.requests[i]))
    || (&& p.plan.Some? && ActiveContinuation(p).None?
        && (|| CarriedBy(p.plan.value.carried, p.requests[i])
            || (p.plan.value.kind in {RollingV1, RollingV2} && p.plan.value.priorCount <= i)))
  }

  /** The one identity that may request: none without a plan, else the plan's with the suite or the task in force. */
  ghost function Authority(p: Period): Identity {
    match p.plan
    case None => Identity(None, None, None, None)
    case Some(plan) =>
      if plan.kind in {TaskSingle, TaskBudget, TaskBudgetV2} then
        var active := ActiveContinuation(p);
        Identity(Some(plan.reverificationId), None, Some(BETA_TASK),
                 if active.Some? then Some(active.value.continuationId) else None)
      else
        var active := ActiveBinding(p);
        Identity(Some(plan.reverificationId), if active.Some? then Some(active.value.suiteId)
                 else plan.suiteId, None, None)
  }

  /** The continuation in force, if there is one, still admits a request: one in all, or four under a successor. */
  ghost predicate WindowOpen(p: Period) {
    var active := ActiveContinuation(p);
    active.Some? ==>
      && var used := |p.requests| - active.value.priorCount;
         (active.value.kind.Single? ==> used < 1) && (active.value.kind.Successor? ==> used < 4)
  }

  lemma ReconciledCosts(p: Period, i: nat)
    requires i < |p.requests|
    ensures p.requests[i].id in Rec.Costs(ListOf(p.reconciliations)) <==> IsReconciled(p, i)
  {
    Rec.CostsKeys(ListOf(p.reconciliations));
  }

  /** Which labels the requests after the plan's prefix carry. */
  lemma LaterAreScoped(h: Hash, schema: Schema, p: Period, i: nat)
    requires PeriodOk(h, schema, p) && p.plan.Some? && p.plan.value.priorCount <= i < |p.requests|
    ensures p.requests[i].reverificationId == Some(p.plan.value.reverificationId)
  {
    assert Plans.Scoped(p.plan.value, p.requests[i]);
  }

  /** For an owner that names the plan, or without a plan, an unknown request is allowed exactly when it may stand. */
  lemma AllowedMeans(h: Hash, schema: Schema, p: Period, who: Identity, i: nat)
    requires PeriodOk(h, schema, p) && i < |p.requests| && (p.plan.Some? ==> NamesPlan(who, p))
    ensures Allowed(who, p, i) || p.requests[i].id in Rec.Costs(ContextOf(p).recs) <==> MayStand(p, i)
  {
    ReconciledCosts(p, i);
    if p.plan.Some? && p.plan.value.priorCount <= i { LaterAreScoped(h, schema, p, i); }
    hide PeriodOk, Rec.Costs, NamesPlan;
  }

  /** The authority checks of a valid period pass exactly for its one authority while its window is open. */
  lemma AuthorityMeans(h: Hash, schema: Schema, p: Period, who: Identity)
    requires PeriodOk(h, schema, p)
    ensures ContinuationAdmits(h, who, p) && (NamesPlan(who, p) ==> PlanAdmits(h, who, p))
            && (p.plan.Some? ==> NamesPlan(who, p))
            <==> who == Authority(p) && WindowOpen(p)
  {
    SchemaHolds(h, schema, p);
    ActiveFits(h, schema, p);
    assert p.plan.Some? ==> Plans.PlanOk(h, ContextOf(p), p.requests, p.plan.value);
    hide PeriodOk, Plans.PlanOk, Continuations.ContinuationOk;
  }

  lemma ActiveFits(h: Hash, schema: Schema, p: Period)
    requires PeriodOk(h, schema, p)
    ensures p.continuation.Some? ==>
              && p.plan.Some? && ActiveContinuation(p).Some?
              && Continuations.ContinuationOk(h, ContextOf(p), p.requests, p.plan.value, p.continuation.value,
                                              ListOf(p.successors))
              && ActiveContinuation(p).value.reverificationId == p.plan.value.reverificationId
              && ActiveContinuation(p).value.taskId == BETA_TASK
    ensures p.continuation.None? ==> ActiveContinuation(p).None?
  {
    SchemaHolds(h, schema, p);
    hide Plans.PlanOk, Plans.CarriedOk, MoneyOk, PlanLayerOk, BindingLayerOk;
  }

  /** The period stands open to this owner, in terms a caller can read off the file. */
  ghost predicate OpenTo(p: Period, who: Identity) {
    && who == Authority(p) && WindowOpen(p)
    && (forall i :: 0 <= i < |p.requests| ==>
          !p.requests[i].status.Reserved? && (p.requests[i].status.Unknown? ==> MayStand(p, i)))
  }

  /** A valid period is available exactly to whom it stands open. */
  lemma AvailableExactly(h: Hash, schema: Schema, p: Period, who: Identity)
    requires PeriodOk(h, schema, p)
    ensures Available(h, who, p) <==> OpenTo(p, who)
  {
    AuthorityMeans(h, schema, p, who);
    if p.plan.Some? && !NamesPlan(who, p) && Available(h, who, p) {
      ReserverNamesAuthority(h, schema, p, who);
      assert false;
    }
    if p.plan.Some? ==> NamesPlan(who, p) {
      forall i | 0 <= i < |p.requests|
        ensures Allowed(who, p, i) || p.requests[i].id in Rec.Costs(ContextOf(p).recs) <==> MayStand(p, i)
      {
        AllowedMeans(h, schema, p, who, i);
      }
    }
    hide PeriodOk, NamesPlan, MayStand, Allowed, ContinuationAdmits, PlanAdmits, Authority, WindowOpen, Rec.Costs;
  }

  /** A request owner opens the file exactly when it is valid and stands open to it. */
  lemma OpensExactly(h: Hash, pid: Id, d: Ledger, who: Identity)
    requires Good(h, pid, d)
    ensures Enter(h, pid, who, Role.Requests, d).Some? <==> OpenTo(OwnPeriod(d, pid), who)
  {
    GoodPeriod(h, pid, d);
    AvailableExactly(h, d.schema, OwnPeriod(d, pid), who);
    hide PeriodOk, LedgerOk, Unambiguous, Available, Authority, WindowOpen, MayStand;
  }

  /** Without a fault an owner in step with the file reserves exactly when the period stands open to it, the metadata
      uses the listed keys, the amount is positive and fits the plan's remainder and the allocation, the id is new and
      the request cap leaves room. */
  lemma ReservesExactly(h: Hash, o: Owner, disk: Ledger, units: int, meta: Metadata, id: Id, now: int)
    requires RequestsAccepted.InStep(h, o, disk)
    ensures var p := OwnPeriod(disk, o.pid);
            Reserve(h, o, disk, units, meta, id, now, NoFault).2 <==>
            && OpenTo(p, o.identity) && meta.other.Keys <= {"purpose", "region", "thread_id", "turn_id", "step"}
            && 0 < units && p.knownCost + p.reservedCost + units <= p.allocation
            && (p.plan.Some? ==>
                  Plans.ChargedTo(ContextOf(p), p.requests, p.plan.value) + units <= p.plan.value.maximumCost)
            && (forall i :: 0 <= i < |p.requests| ==> p.requests[i].id != id) && |p.requests| < 10000
  {
    var p := OwnPeriod(disk, o.pid);
    OwnIsActive(h, disk, o.pid);
    AvailableExactly(h, disk.schema, p, o.identity);
    assert p.plan.Some? ==> Plans.PlanOk(h, ContextOf(p), p.requests, p.plan.value);
    hide PeriodOk, LedgerOk, Validity.Unambiguous, Available, Authority, WindowOpen, MayStand, Plans.PlanOk,
         Plans.ChargedTo, Reserve;
    RequestsAccepted.ReserveAccepted(h, o, disk, units, meta, id, now);
  }

  // -- A stopped period -------------------------------------------------------------------

  /** No owner lives, no plan is registered, and a request of unknown cost stands. */
  ghost predicate Stopped(pid: Id, s: System) {
    && s.owner.None? && HasOwn(s.disk, pid) && OwnPeriod(s.disk, pid).plan.None?
    && exists i :: 0 <= i < |OwnPeriod(s.disk, pid).requests| && OwnPeriod(s.disk, pid).requests[i].status.Unknown?
  }

  /** Without a plan a request of unknown cost admits nobody. */
  lemma UnknownAdmitsNobody(h: Hash, schema: Schema, p: Period, who: Identity, i: nat)
    requires PeriodOk(h, schema, p) && p.plan.None? && i < |p.requests| && p.requests[i].status.Unknown?
    ensures !Available(h, who, p)
  {
    SchemaHolds(h, schema, p);
    AvailableExactly(h, schema, p, who);
    hide PeriodOk, Available, Authority, WindowOpen;
  }

  /** Without a plan every registration but that of a plan leaves the file alone. */
  lemma PlanComesFirst(h: Hash, pid: Id, s: System, a: Action)
    requires SystemOk(h, pid, s) && s.owner.None? && OwnPeriod(s.disk, pid).plan.None? && !a.DoAuthorize?
    ensures Next(h, s, a).disk == s.disk
  {
    NextKeeps(h, pid, s, a);
    var d, e := s.disk, Next(h, s, a).disk;
    var p, q := OwnPeriod(d, pid), OwnPeriod(e, pid);
    GoodPeriod(h, pid, d);
    GoodPeriod(h, pid, e);
    SchemaHolds(h, d.schema, p);
    SchemaHolds(h, e.schema, q);
    if d != e {
      PlanStays(h, pid, s, a);
      hide PeriodOk, LedgerOk, Unambiguous, Next, Moved, NoneReserved;
      assert false;
    }
  }

  lemma PlanStays(h: Hash, pid: Id, s: System, a: Action)
    requires SystemOk(h, pid, s) && s.owner.None? && OwnPeriod(s.disk, pid).plan.None? && !a.DoAuthorize?
    requires HasOwn(Next(h, s, a).disk, pid)
    ensures OwnPeriod(Next(h, s, a).disk, pid).plan.None?
  {
    var d := s.disk;
    hide PeriodOk, LedgerOk, Unambiguous, Available, SaveAccepts, Bindings.ChainOk, Bindings.RebindingOk;
    if a.DoReconcile? && Enter(h, a.reconciliation.periodId, NOBODY, Role.Reconcile, d).Some? {
      var r := a.reconciliation;
      SameActive(h, d, pid, r.periodId);
      var p := OwnPeriod(d, pid);
      var k := FindRequest(p.requests, r.requestId);
      if k < |p.requests| { OwnAfter(d, pid, AfterReconcile(p, k, r)); OwnAgain(d, pid, AfterReconcile(p, k, r), V6); }
    } else if a.DoRebind? && Enter(h, a.binding.periodId, NOBODY, Role.Register, d).Some? {
      SameActive(h, d, pid, a.binding.periodId);
    } else if a.DoAppend? && Enter(h, a.binding.periodId, NOBODY, Role.Append, d).Some? {
      SameActive(h, d, pid, a.binding.periodId);
    } else if a.DoContinue? && Enter(h, a.record.periodId, NOBODY, Role.Continue, d).Some? {
      SameActive(h, d, pid, a.record.periodId);
    }
  }

  lemma OwnAgain(l: Ledger, pid: Id, q: Period, schema: Schema)
    requires HasOwn(l, pid) && q.periodId == pid
    ensures var m := WithOwn(l, pid, q).(schema := schema); HasOwn(m, pid) && OwnPeriod(m, pid) == q
  {
    OwnAfter(l, pid, q);
  }

  /** From a stopped period no run changes anything unless it registers a plan: no owner opens, no request is added. */
  lemma {:induction false} StoppedStays(h: Hash, pid: Id, s: System, actions: seq<Action>)
    requires SystemOk(h, pid, s) && Stopped(pid, s) && forall i :: 0 <= i < |actions| ==> !actions[i].DoAuthorize?
    ensures Run(h, s, actions) == s
    decreases |actions|
  {
    hide Next, SystemOk, Stopped;
    if actions != [] {
      StoppedStep(h, pid, s, actions[0]);
      StoppedStays(h, pid, s, actions[1..]);
    }
  }

  lemma StoppedStep(h: Hash, pid: Id, s: System, a: Action)
    requires SystemOk(h, pid, s) && Stopped(pid, s) && !a.DoAuthorize?
    ensures Next(h, s, a) == s
  {
    PlanComesFirst(h, pid, s, a);
    if a.Open? && Enter(h, a.pid, a.who, Role.Requests, s.disk).Some? {
      SameActive(h, s.disk, pid, a.pid);
      GoodPeriod(h, pid, s.disk);
      var p := OwnPeriod(s.disk, pid);
      var i :| 0 <= i < |p.requests| && p.requests[i].status.Unknown?;
      UnknownAdmitsNobody(h, s.disk.schema, p, a.who, i);
      assert false;
    }
    hide Good, Available, LedgerOk, Authorize, Rebind, AppendCandidate, AuthorizeContinuation, ReconcileUsage;
  }
}
