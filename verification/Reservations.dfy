/** The single reservation: who may make it, where it stands, and what a dead or failed owner leaves behind. */
module Reservations {
  import opened Options
  import opened LedgerData
  import opened Validity
  import opened LedgerSteps
  import opened LedgerRuns
  import opened LedgerSafety
  import Rec = Reconciliations
  import Plans

  // -- At most one, and last --------------------------------------------------------------

  /** Only the last request may be reserved. */
  ghost predicate OnlyLastReserved(reqs: seq<Request>) {
    forall i :: 0 <= i < |reqs| - 1 ==> !reqs[i].status.Reserved?
  }

  ghost predicate SingleReservation(pid: Id, s: System) {
    && HasOwn(s.disk, pid) && OnlyLastReserved(OwnPeriod(s.disk, pid).requests)
    && (s.owner.Some? ==>
          HasOwn(s.owner.value.data, pid) && OnlyLastReserved(OwnPeriod(s.owner.value.data, pid).requests))
  }

  lemma RegistrationKeepsRequests(h: Hash, pid: Id, d: Ledger, e: Ledger)
    requires HasOwn(d, pid) && HasOwn(e, pid) && RegistrationStep(h, pid, d, e)
    ensures OwnPeriod(e, pid).requests == OwnPeriod(d, pid).requests
  {
    hide Moved, NoneReserved;
  }

  /** A save leaves the file alone or writes the owner's data. */
  lemma SaveWrites(h: Hash, o: Owner, disk: Ledger, f: Fault)
    ensures var r := Save(h, o, disk, f);
            && r.0.data == o.data && r.0.pid == o.pid && (r.1 == disk || (r.1 == o.data && disk == o.body))
            && (r.2 ==> r.1 == o.data && r.0.body == o.data) && (!r.2 ==> r.0 == o)
  {
    hide LedgerOk, ContinuationSaveOk, BindingSaveOk, ReconcileSaveOk;
  }

  /** Replacing the owner's period shows in the replaced ledger. */
  lemma OwnAfter(l: Ledger, pid: Id, q: Period)
    requires HasOwn(l, pid) && q.periodId == pid
    ensures HasOwn(WithOwn(l, pid, q), pid) && OwnPeriod(WithOwn(l, pid, q), pid) == q
  {
    var o, m := OwnIndex(l.periods, pid), WithOwn(l, pid, q);
    assert m.periods[o].periodId == pid && forall j :: 0 <= j < o ==> m.periods[j].periodId != pid;
  }

  lemma ReserveSingle(h: Hash, pid: Id, o: Owner, disk: Ledger, units: int, meta: Metadata, id: Id, now: int, f: Fault)
    requires o.pid == pid && SingleReservation(pid, System(disk, Some(o)))
    ensures var r := Reserve(h, o, disk, units, meta, id, now, f); SingleReservation(pid, System(r.1, Some(r.0)))
  {
    hide Save, ContinuationAdmits, PlanAdmits, Allowed, NamesPlan;
    if ReserveGuard(h, o, units, meta) {
      var p := OwnPeriod(o.data, pid);
      OwnAfter(o.data, pid, AfterReserve(p, NewRequest(o.identity, p, units, meta, id, now)));
      SaveWrites(h, ReserveData(o, units, meta, id, now), disk, f);
    }
  }

  lemma SettleSingle(h: Hash, pid: Id, o: Owner, disk: Ledger, id: Id, cost: Option<int>, sent: bool, now: int,
                     f: Fault)
    requires o.pid == pid && SingleReservation(pid, System(disk, Some(o)))
    ensures var r := Settle(h, o, disk, id, cost, sent, now, f); SingleReservation(pid, System(r.1, Some(r.0)))
  {
    hide Save;
    if SettleGuard(o, id, cost, sent) {
      var p := OwnPeriod(o.data, pid);
      OwnAfter(o.data, pid, AfterSettle(p, FindRequest(p.requests, id), cost, sent, now));
      SaveWrites(h, SettleData(o, id, cost, sent, now), disk, f);
    }
  }

  lemma NextSingle(h: Hash, pid: Id, s: System, a: Action)
    requires SystemOk(h, pid, s) && SingleReservation(pid, s)
    ensures SingleReservation(pid, Next(h, s, a))
  {
    hide Good, Reserve, Settle, Enter, Authorize, Rebind, AppendCandidate, AuthorizeContinuation, ReconcileUsage,
         Available;
    match s.owner
    case Some(o) =>
      match a {
        case DoReserve(units, meta, id, now, f) => ReserveSingle(h, pid, o, s.disk, units, meta, id, now, f);
        case DoSettle(id, cost, sent, now, f) => SettleSingle(h, pid, o, s.disk, id, cost, sent, now, f);
        case _ =>
      }
    case None =>
      RegistrationIsQuiet(h, pid, s, a);
  }

  lemma RegistrationIsQuiet(h: Hash, pid: Id, s: System, a: Action)
    requires SystemOk(h, pid, s) && s.owner.None?
    ensures HasOwn(Next(h, s, a).disk, pid)
    ensures OwnPeriod(Next(h, s, a).disk, pid).requests == OwnPeriod(s.disk, pid).requests
    ensures Next(h, s, a).owner.Some? ==>
              a.Open? && Next(h, s, a).disk == s.disk && Next(h, s, a).owner.value.data == s.disk
              && Available(h, a.who, OwnPeriod(s.disk, pid))
  {
    NextKeeps(h, pid, s, a);
    RegistrationKeepsRequests(h, pid, s.disk, Next(h, s, a).disk);
    hide RegistrationStep, Authorize, Rebind, AppendCandidate, AuthorizeContinuation, ReconcileUsage, LedgerOk,
         Available;
  }

  /** From a file with no reservation before its last request, every reachable file has at most one, and it is last. */
  lemma {:induction false} RunSingle(h: Hash, pid: Id, s: System, actions: seq<Action>)
    requires SystemOk(h, pid, s) && SingleReservation(pid, s)
    ensures SingleReservation(pid, Run(h, s, actions))
    decreases |actions|
  {
    hide Next, SystemOk, SingleReservation;
    if actions != [] {
      NextKeeps(h, pid, s, actions[0]);
      NextSingle(h, pid, s, actions[0]);
      RunSingle(h, pid, Next(h, s, actions[0]), actions[1..]);
    }
  }

  // -- A dead owner -----------------------------------------------------------------------

  /** The owner is gone and its reservation is still on file. */
  ghost predicate Orphaned(pid: Id, s: System) {
    && s.owner.None? && HasOwn(s.disk, pid)
    && exists i :: 0 <= i < |OwnPeriod(s.disk, pid).requests| && OwnPeriod(s.disk, pid).requests[i].status.Reserved?
  }

  /** No later run of opens, registrations and reconciliations removes the reservation or adds a request. */
  lemma {:induction false} OrphanStays(h: Hash, pid: Id, s: System, actions: seq<Action>)
    requires SystemOk(h, pid, s) && Orphaned(pid, s)
    ensures Orphaned(pid, Run(h, s, actions))
    ensures OwnPeriod(Run(h, s, actions).disk, pid).requests == OwnPeriod(s.disk, pid).requests
    decreases |actions|
  {
    hide Next, SystemOk;
    if actions != [] {
      NextKeeps(h, pid, s, actions[0]);
      RegistrationIsQuiet(h, pid, s, actions[0]);
      OrphanStays(h, pid, Next(h, s, actions[0]), actions[1..]);
    }
  }

  // -- A failed owner ---------------------------------------------------------------------

  /** The owner's memory holds a reservation with this id, and no other. */
  ghost predicate Holding(o: Owner, id: Id) {
    && HasOwn(o.data, o.pid)
    && var reqs := OwnPeriod(o.data, o.pid).requests;
       reqs != [] && OnlyLastReserved(reqs) && reqs[|reqs| - 1].status.Reserved? && reqs[|reqs| - 1].id == id
  }

  /** A `reserve` that passed its guards but raised leaves its reservation in memory. */
  lemma FailedReserveHolds(h: Hash, o: Owner, disk: Ledger, units: int, meta: Metadata, id: Id, now: int, f: Fault)
    requires ReserveGuard(h, o, units, meta)
    ensures Holding(Reserve(h, o, disk, units, meta, id, now, f).0, id)
  {
    hide Save, ContinuationAdmits, PlanAdmits, Allowed, NamesPlan;
    var p := OwnPeriod(o.data, o.pid);
    var q := AfterReserve(p, NewRequest(o.identity, p, units, meta, id, now));
    OwnAfter(o.data, o.pid, q);
    SaveWrites(h, ReserveData(o, units, meta, id, now), disk, f);
  }

  /** The run neither closes the owner nor settles this request. */
  ghost predicate LeavesAlone(actions: seq<Action>, id: Id) {
    forall i :: 0 <= i < |actions| ==> !actions[i].Close? && !(actions[i].DoSettle? && actions[i].requestId == id)
  }

  /** While it holds a reservation the owner can do nothing but settle it: no run changes memory or file. */
  lemma {:induction false} HoldingBlocks(h: Hash, s: System, id: Id, actions: seq<Action>)
    requires s.owner.Some? && Holding(s.owner.value, id) && LeavesAlone(actions, id)
    ensures Run(h, s, actions) == s
    decreases |actions|
  {
    if actions != [] {
      HoldingIsStuck(h, s, id, actions[0]);
      hide Next;
      HoldingBlocks(h, s, id, actions[1..]);
    }
  }

  lemma HoldingIsStuck(h: Hash, s: System, id: Id, a: Action)
    requires s.owner.Some? && Holding(s.owner.value, id)
    requires !a.Close? && !(a.DoSettle? && a.requestId == id)
    ensures Next(h, s, a) == s
  {
    hide Save, ContinuationAdmits, PlanAdmits, Allowed, NamesPlan;
    var o := s.owner.value;
    var reqs := OwnPeriod(o.data, o.pid).requests;
    assert !Available(h, o.identity, OwnPeriod(o.data, o.pid)) by { assert reqs[|reqs| - 1].status.Reserved?; }
    if a.DoSettle? {
      var k := FindRequest(reqs, a.requestId);
      assert k < |reqs| - 1 ==> !reqs[k].status.Reserved?;
    }
  }

  /** An owner that no longer agrees with the file never writes it again. */
  lemma {:induction false} DivergedIsMute(h: Hash, s: System, actions: seq<Action>)
    requires s.owner.Some? && s.owner.value.body != s.disk
    requires forall i :: 0 <= i < |actions| ==> !actions[i].Close?
    ensures Run(h, s, actions).disk == s.disk
    ensures Run(h, s, actions).owner.Some? && Run(h, s, actions).owner.value.body == s.owner.value.body
    decreases |actions|
  {
    if actions != [] {
      DivergedStep(h, s, actions[0]);
      hide Next;
      DivergedIsMute(h, Next(h, s, actions[0]), actions[1..]);
    }
  }

  lemma DivergedStep(h: Hash, s: System, a: Action)
    requires s.owner.Some? && s.owner.value.body != s.disk && !a.Close?
    ensures Next(h, s, a).disk == s.disk
    ensures Next(h, s, a).owner.Some? && Next(h, s, a).owner.value.body == s.owner.value.body
  {
    hide LedgerOk, ContinuationSaveOk, BindingSaveOk, ReconcileSaveOk, ReserveGuard, SettleGuard;
  }

  /** The owner's reserve or settle passes every check of the save and replaces the file, but then raises. */
  ghost predicate RaisesLate(h: Hash, s: System, a: Action) {
    && s.owner.Some?
    && match a
       case DoReserve(units, meta, id, now, f) =>
         f.AfterReplace? && Reserve(h, s.owner.value, s.disk, units, meta, id, now, NoFault).2
       case DoSettle(id, cost, sent, now, f) =>
         f.AfterReplace? && Settle(h, s.owner.value, s.disk, id, cost, sent, now, NoFault).2
       case _ => false
  }

  /** Such an owner no longer agrees with the file. */
  lemma RaisedDiverges(h: Hash, pid: Id, s: System, a: Action)
    requires SystemOk(h, pid, s) && RaisesLate(h, s, a)
    ensures Next(h, s, a).owner.Some? && Next(h, s, a).owner.value.body != Next(h, s, a).disk
  {
    hide SaveAccepts, ReserveGuard, Good;
    var o := s.owner.value;
    var b, p := OwnPeriod(o.body, pid), OwnPeriod(o.data, pid);
    if a.DoReserve? {
      OwnAfter(o.data, pid, AfterReserve(p, NewRequest(o.identity, p, a.units, a.meta, a.newId, a.now)));
    } else {
      var k := FindRequest(p.requests, a.requestId);
      OwnAfter(o.data, pid, AfterSettle(p, k, a.cost, a.sent, a.now));
      assert k < |b.requests| ==> KeptOrSettled(b.requests[k], p.requests[k]);
    }
  }

  /** After a save that raised behind the replace the owner never writes the file again. */
  lemma RaisedIsMute(h: Hash, pid: Id, s: System, a: Action, actions: seq<Action>)
    requires SystemOk(h, pid, s) && RaisesLate(h, s, a)
    requires forall i :: 0 <= i < |actions| ==> !actions[i].Close?
    ensures Run(h, Next(h, s, a), actions).disk == Next(h, s, a).disk
  {
    RaisedDiverges(h, pid, s, a);
    hide Next, SystemOk, RaisesLate;
    DivergedIsMute(h, Next(h, s, a), actions);
  }

  // -- Who may reserve --------------------------------------------------------------------

  /** An owner opened for a registration never reserves. */
  lemma RegistrarsDoNotReserve(h: Hash, o: Owner, disk: Ledger, units: int, meta: Metadata, id: Id, now: int, f: Fault)
    requires o.role != Requests
    ensures Reserve(h, o, disk, units, meta, id, now, f) == (o, disk, false)
  {
  }

  /** A suite plan always carries an unknown request that nothing has reconciled. */
  lemma SuitePlanCarries(h: Hash, schema: Schema, p: Period) returns (i: nat)
    requires PeriodOk(h, schema, p) && p.plan.Some? && !Plans.TaskScoped(p.plan.value.kind)
    ensures i < |p.requests| && p.requests[i].status.Unknown? && p.requests[i].id !in Rec.Costs(ContextOf(p).recs)
  {
    SchemaHolds(h, schema, p);
    hide BindingLayerOk, ContinuationLayerOk;
    var plan := p.plan.value;
    var prefix := p.requests[..plan.priorCount];
    assert Plans.PlanOk(h, ContextOf(p), p.requests, plan);
    assert Plans.UnknownIn(prefix, plan.carried[0].id);
    i :| 0 <= i < |prefix| && prefix[i].status.Unknown? && prefix[i].id == plan.carried[0].id;
  }

  /** Under a registered plan every reservation comes from an owner naming the plan and the authority in force: the
      active suite of a suite plan, or the task and the active continuation of a task plan. */
  lemma ReserverNamesAuthority(h: Hash, schema: Schema, p: Period, who: Identity)
    requires PeriodOk(h, schema, p) && p.plan.Some? && Available(h, who, p)
    ensures who.reverificationId == Some(p.plan.value.reverificationId)
    ensures if Plans.TaskScoped(p.plan.value.kind) then
              && who.taskId == Some(BETA_TASK) && who.suiteId.None?
              && var active := ActiveContinuation(p);
                 who.continuationId == (if active.Some? then Some(active.value.continuationId) else None)
            else
              && who.taskId.None? && who.continuationId.None?
              && who.suiteId == (if ActiveBinding(p).Some? then Some(ActiveBinding(p).value.suiteId)
                                 else p.plan.value.suiteId)
  {
    SchemaHolds(h, schema, p);
    if !Plans.TaskScoped(p.plan.value.kind) {
      var i := SuitePlanCarries(h, schema, p);
      assert Allowed(who, p, i);
    }
    hide PeriodOk;
  }

  /** An owner with no identity never reserves under a plan. */
  lemma NobodyIsRefused(h: Hash, schema: Schema, p: Period)
    requires PeriodOk(h, schema, p) && p.plan.Some?
    ensures !Available(h, NOBODY, p)
  {
    if Available(h, NOBODY, p) {
      ReserverNamesAuthority(h, schema, p, NOBODY);
      assert false;
    }
  }
}
