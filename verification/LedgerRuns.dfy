/** Every interleaving of opens, requests, crashes and registrations, with faults at any save. */
module LedgerRuns {
  import opened Options
  import opened LedgerData
  import opened Validity
  import opened LedgerSteps
  import Plans
  import Bindings
  import Continuations

  /** The file, and the one owner that holds the lock. */
  datatype System = System(disk: Ledger, owner: Option<Owner>)

  datatype Action =
    | Open(pid: Id, who: Identity)
    | DoReserve(units: int, meta: Metadata, newId: Id, now: int, f: Fault)
    | DoSettle(requestId: Id, cost: Option<int>, sent: bool, now: int, f: Fault)
    | Close
    | DoAuthorize(plan: Plan, f: Fault)
    | DoRebind(binding: Binding, f: Fault)
    | DoAppend(binding: Binding, f: Fault)
    | DoContinue(record: Continuation, f: Fault)
    | DoReconcile(reconciliation: Reconciliation, f: Fault)

  /** The lock lets at most one owner live; a registration is an owner that opens, saves once and closes. `Close` is
      also the death of the owner. */
  function Next(h: Hash, s: System, a: Action): System {
    match s.owner
    case Some(o) => (
      match a
      case DoReserve(units, meta, id, now, f) =>
        var r := Reserve(h, o, s.disk, units, meta, id, now, f);
        System(r.1, Some(r.0))
      case DoSettle(id, cost, sent, now, f) =>
        var r := Settle(h, o, s.disk, id, cost, sent, now, f);
        System(r.1, Some(r.0))
      case Close => System(s.disk, None)
      case _ => s)
    case None => (
      match a
      case Open(pid, who) => System(s.disk, Enter(h, pid, who, Role.Requests, s.disk))
      case DoAuthorize(plan, f) => System(Authorize(h, s.disk, plan, f).0, None)
      case DoRebind(b, f) => System(Rebind(h, s.disk, b, f).0, None)
      case DoAppend(b, f) => System(AppendCandidate(h, s.disk, b, f).0, None)
      case DoContinue(r, f) => System(AuthorizeContinuation(h, s.disk, r, f).0, None)
      case DoReconcile(r, f) => System(ReconcileUsage(h, s.disk, r, f).0, None)
      case _ => s)
  }

  function Run(h: Hash, s: System, actions: seq<Action>): System
    decreases |actions|
  {
    hide *;
    if actions == [] then s else Run(h, Next(h, s, actions[0]), actions[1..])
  }

  // -- What one action can do to the file -------------------------------------------------

  /** The owner's period moved from `p` to `q` and nothing else changed but the schema. */
  ghost predicate Moved(pid: Id, d: Ledger, e: Ledger, q: Period) {
    HasOwn(d, pid) && e == WithOwn(d, pid, q).(schema := e.schema)
  }

  ghost predicate RequestsMoved(pid: Id, d: Ledger, e: Ledger, p: Period, q: Period) {
    Moved(pid, d, e, q) && e.schema == d.schema && Fixed(q) == Fixed(p) && Evolves(p.requests, q.requests)
  }

  ghost predicate Authorized(h: Hash, pid: Id, d: Ledger, e: Ledger, p: Period, q: Period) {
    && Moved(pid, d, e, q) && e.schema == d.schema && p.plan.None? && q.plan.Some? && q == p.(plan := q.plan)
    && q.plan.value.priorCount == |p.requests| && NoneReserved(p.requests)
    && p.knownCost + p.reservedCost + q.plan.value.maximumCost <= p.allocation
  }

  ghost predicate Rebound(pid: Id, d: Ledger, e: Ledger, p: Period, q: Period) {
    && Moved(pid, d, e, q) && e.schema == V2 && p.binding.None? && q.binding.Some? && q == p.(binding := q.binding)
    && NoneReserved(p.requests)
  }

  ghost predicate Appended(pid: Id, d: Ledger, e: Ledger, p: Period, q: Period) {
    && Moved(pid, d, e, q) && e.schema == V3 && p.binding.Some? && q == p.(candidates := q.candidates)
    && Extended(ListOf(p.candidates), ListOf(q.candidates)) && NoneReserved(p.requests)
  }

  ghost predicate Continued(pid: Id, d: Ledger, e: Ledger, p: Period, q: Period) {
    && Moved(pid, d, e, q) && NoneReserved(p.requests)
    && (|| (e.schema == V4 && p.continuation.None? && q.continuation.Some? && q == p.(continuation := q.continuation))
        || (e.schema == V5 && p.continuation.Some? && q == p.(successors := q.successors)
            && Extended(ListOf(p.successors), ListOf(q.successors))))
  }

  ghost predicate Reconciled(pid: Id, d: Ledger, e: Ledger, p: Period, q: Period) {
    && Moved(pid, d, e, q) && e.schema == V6
    && Extended(ListOf(p.reconciliations), ListOf(q.reconciliations))
    && var r := ListOf(q.reconciliations)[|ListOf(p.reconciliations)|];
       var k := FindRequest(p.requests, r.requestId);
       k < |p.requests| && q == AfterReconcile(p, k, r)
  }

  /** The ways a registration may change the file. */
  ghost predicate RegistrationStep(h: Hash, pid: Id, d: Ledger, e: Ledger) {
    d == e || (
      && HasOwn(d, pid) && HasOwn(e, pid)
      && var p, q := OwnPeriod(d, pid), OwnPeriod(e, pid);
         || Authorized(h, pid, d, e, p, q) || Rebound(pid, d, e, p, q)
         || Appended(pid, d, e, p, q) || Continued(pid, d, e, p, q) || Reconciled(pid, d, e, p, q))
  }

  /** The ways one action may change the file. */
  ghost predicate DiskStep(h: Hash, pid: Id, d: Ledger, e: Ledger) {
    || RegistrationStep(h, pid, d, e)
    || (HasOwn(d, pid) && HasOwn(e, pid) && RequestsMoved(pid, d, e, OwnPeriod(d, pid), OwnPeriod(e, pid)))
  }

  /** The file is valid and its owner works on the checked period. */
  ghost predicate Good(h: Hash, pid: Id, d: Ledger) { LedgerOk(h, d, pid) && Unambiguous(d, pid) && HasOwn(d, pid) }

  /** The owner's data grew out of its body by request steps alone. */
  ghost predicate OwnerOk(pid: Id, o: Owner) {
    && o.pid == pid && o.role.Requests? && HasOwn(o.body, pid) && HasOwn(o.data, pid)
    && RequestsMoved(pid, o.body, o.data, OwnPeriod(o.body, pid), OwnPeriod(o.data, pid))
  }

  ghost predicate SystemOk(h: Hash, pid: Id, s: System) {
    Good(h, pid, s.disk) && (s.owner.Some? ==> OwnerOk(pid, s.owner.value))
  }

  // -- One action -------------------------------------------------------------------------

  lemma SameActive(h: Hash, l: Ledger, pid: Id, other: Id)
    requires LedgerOk(h, l, pid) && LedgerOk(h, l, other)
    ensures pid == other
  {
    hide PeriodOk;
    var k :| 0 <= k < |l.periods| && ActiveAt(l, pid, k);
    var j :| 0 <= j < |l.periods| && ActiveAt(l, other, j);
    assert j == k;
  }

  /** Replacing the owner's period leaves the rest, and replacing it again forgets the first time. */
  lemma MovedTwice(pid: Id, a: Ledger, b: Ledger, q: Period, r: Period)
    requires Moved(pid, a, b, q) && q.periodId == pid && r.periodId == pid
    ensures HasOwn(b, pid) && OwnPeriod(b, pid) == q && OwnIndex(b.periods, pid) == OwnIndex(a.periods, pid)
    ensures Moved(pid, a, WithOwn(b, pid, r), r) && WithOwn(b, pid, r).schema == b.schema
  {
    var o := OwnIndex(a.periods, pid);
    assert b.periods == a.periods[o := q];
    assert forall j :: 0 <= j < o ==> b.periods[j].periodId != pid;
    assert b.periods[o].periodId == pid;
    assert a.periods[o := q][o := r] == a.periods[o := r];
  }

  lemma MovedKeepsGood(h: Hash, pid: Id, d: Ledger, e: Ledger, q: Period)
    requires Good(h, pid, d) && Moved(pid, d, e, q) && q.periodId == pid && q.active == OwnPeriod(d, pid).active
    requires LedgerOk(h, e, pid)
    ensures Good(h, pid, e) && OwnPeriod(e, pid) == q && PeriodOk(h, e.schema, q)
  {
    hide PeriodOk;
    OwnReplaced(h, d, pid, q, e.schema);
    assert e == WithOwn(d, pid, q).(schema := e.schema);
  }

  /** An owner's request step keeps its data a request step away from its body. */
  lemma OwnerStep(pid: Id, o: Owner, q: Period)
    requires OwnerOk(pid, o) && Fixed(q) == Fixed(OwnPeriod(o.data, pid))
             && Evolves(OwnPeriod(o.data, pid).requests, q.requests)
    ensures OwnerOk(pid, o.(data := WithOwn(o.data, pid, q))) && OwnPeriod(WithOwn(o.data, pid, q), pid) == q
  {
    var b, p := OwnPeriod(o.body, pid), OwnPeriod(o.data, pid);
    assert Fixed(q).periodId == Fixed(p).periodId == Fixed(b).periodId;
    MovedTwice(pid, o.body, o.data, p, q);
    EvolvesTrans(b.requests, p.requests, q.requests);
    var m := WithOwn(o.data, pid, q);
    MovedTwice(pid, o.data, m, q, q);
  }

  lemma SaveStep(h: Hash, pid: Id, o: Owner, disk: Ledger, f: Fault)
    requires Good(h, pid, disk) && OwnerOk(pid, o)
    ensures var r := Save(h, o, disk, f);
            SystemOk(h, pid, System(r.1, Some(r.0))) && DiskStep(h, pid, disk, r.1)
  {
    hide PeriodOk, LedgerOk, Evolves;
    if SaveAccepts(h, o, disk) {
      var b, p := OwnPeriod(o.body, pid), OwnPeriod(o.data, pid);
      assert Fixed(p).active == Fixed(b).active && Fixed(p).periodId == Fixed(b).periodId;
      MovedKeepsGood(h, pid, disk, o.data, p);
      EvolvesSame(p.requests);
      assert o.data.periods[OwnIndex(o.data.periods, pid) := p] == o.data.periods;
    }
  }

  lemma EvolvesSame(a: seq<Request>)
    ensures Evolves(a, a)
  {
  }

  // -- Registrations ----------------------------------------------------------------------

  /** A registration leaves the file alone or moves it as its new period says. */
  lemma RegisterStep(h: Hash, pid: Id, o: Owner, disk: Ledger, q: Period, schema: Schema, f: Fault)
    requires Good(h, pid, disk) && o.pid == pid && o.data == disk
    requires q.periodId == pid && q.active == OwnPeriod(disk, pid).active
    ensures var e := RegisterPeriod(h, o, disk, q, schema, f).0;
            e == disk || (Good(h, pid, e) && Moved(pid, disk, e, q) && OwnPeriod(e, pid) == q && e.schema == schema)
  {
    hide PeriodOk, LedgerOk;
    var m := WithOwn(disk, pid, q).(schema := schema);
    if SaveAccepts(h, o.(data := m), disk) {
      MovedKeepsGood(h, pid, disk, m, q);
    }
  }

  lemma WholePrefix(reqs: seq<Request>)
    ensures reqs[..|reqs|] == reqs
  {
  }

  lemma AuthorizeStep(h: Hash, pid: Id, d: Ledger, plan: Plan, f: Fault)
    requires Good(h, pid, d)
    ensures Good(h, pid, Authorize(h, d, plan, f).0) && RegistrationStep(h, pid, d, Authorize(h, d, plan, f).0)
  {
    hide PeriodOk, LedgerOk;
    var entered := Enter(h, plan.periodId, NOBODY, Role.Register, d);
    if entered.Some? {
      var o, p := entered.value, OwnPeriod(d, plan.periodId);
      SameActive(h, d, pid, plan.periodId);
      if Plans.PlanOk(h, ContextOf(p), p.requests, plan) && |p.requests| == plan.priorCount {
        Plans.PrefixUnreserved(h, ContextOf(p), p.requests, plan);
        WholePrefix(p.requests);
      }
      RegisterStep(h, pid, o, d, p.(plan := Some(plan)), d.schema, f);
    }
  }

  lemma RebindStep(h: Hash, pid: Id, d: Ledger, b: Binding, f: Fault)
    requires Good(h, pid, d)
    ensures Good(h, pid, Rebind(h, d, b, f).0) && RegistrationStep(h, pid, d, Rebind(h, d, b, f).0)
  {
    hide PeriodOk, LedgerOk, Plans.PlanOk;
    var entered := Enter(h, b.periodId, NOBODY, Role.Register, d);
    if entered.Some? {
      var o, p := entered.value, OwnPeriod(d, b.periodId);
      SameActive(h, d, pid, b.periodId);
      WholePrefix(p.requests);
      RegisterStep(h, pid, o, d, p.(binding := Some(b)), V2, f);
    }
  }

  lemma AppendStep(h: Hash, pid: Id, d: Ledger, b: Binding, f: Fault)
    requires Good(h, pid, d)
    ensures Good(h, pid, AppendCandidate(h, d, b, f).0) && RegistrationStep(h, pid, d, AppendCandidate(h, d, b, f).0)
  {
    hide PeriodOk, LedgerOk, Plans.PlanOk, Bindings.RebindingOk, Bindings.SegmentOk;
    var entered := Enter(h, b.periodId, NOBODY, Role.Append, d);
    if entered.Some? {
      var o, p := entered.value, OwnPeriod(d, b.periodId);
      SameActive(h, d, pid, b.periodId);
      var cs := ListOf(p.candidates);
      if p.plan.Some? && p.binding.Some? && |p.requests| == b.priorCount
         && Bindings.ChainOk(h, ContextOf(p), p.requests, p.plan.value, p.binding.value, cs + [b]) {
        var all := Bindings.All(p.binding.value, cs + [b]);
        assert Bindings.CandidateOk(h, ContextOf(p), p.requests, p.plan.value, all, |cs| + 1);
        assert all[|cs| + 1] == b;
        WholePrefix(p.requests);
      }
      RegisterStep(h, pid, o, d, p.(candidates := Some(cs + [b])), V3, f);
    }
  }

  lemma ContinueStep(h: Hash, pid: Id, d: Ledger, r: Continuation, f: Fault)
    requires Good(h, pid, d)
    ensures Good(h, pid, AuthorizeContinuation(h, d, r, f).0)
            && RegistrationStep(h, pid, d, AuthorizeContinuation(h, d, r, f).0)
  {
    hide PeriodOk, LedgerOk, Plans.PlanOk;
    var entered := Enter(h, r.periodId, NOBODY, Role.Continue, d);
    if entered.Some? {
      var o, p := entered.value, OwnPeriod(d, r.periodId);
      SameActive(h, d, pid, r.periodId);
      var q := if r.kind.Successor? then p.(successors := Some(ListOf(p.successors) + [r]))
               else p.(continuation := Some(r));
      WholePrefix(p.requests);
      if p.plan.Some? && q.continuation.Some? && |p.requests| == r.priorCount
         && Continuations.ContinuationOk(h, ContextOf(q), q.requests, p.plan.value, q.continuation.value,
                                         ListOf(q.successors)) {
        assert r.kind.Successor? ==> ListOf(q.successors)[|ListOf(q.successors)| - 1] == r;
      }
      RegisterStep(h, pid, o, d, q, if r.kind.Successor? then V5 else V4, f);
    }
  }

  lemma ReconcileStep(h: Hash, pid: Id, d: Ledger, r: Reconciliation, f: Fault)
    requires Good(h, pid, d)
    ensures Good(h, pid, ReconcileUsage(h, d, r, f).0) && RegistrationStep(h, pid, d, ReconcileUsage(h, d, r, f).0)
  {
    hide PeriodOk, LedgerOk;
    var entered := Enter(h, r.periodId, NOBODY, Role.Reconcile, d);
    if entered.Some? {
      var o, p := entered.value, OwnPeriod(d, r.periodId);
      SameActive(h, d, pid, r.periodId);
      var k := FindRequest(p.requests, r.requestId);
      if k < |p.requests| {
        RegisterStep(h, pid, o, d, AfterReconcile(p, k, r), V6, f);
      }
    }
  }

  lemma ReserveStep(h: Hash, pid: Id, o: Owner, d: Ledger, units: int, meta: Metadata, id: Id, now: int, f: Fault)
    requires Good(h, pid, d) && OwnerOk(pid, o)
    ensures var r := Reserve(h, o, d, units, meta, id, now, f);
            SystemOk(h, pid, System(r.1, Some(r.0))) && DiskStep(h, pid, d, r.1)
  {
    hide PeriodOk, LedgerOk, Available, Save;
    if ReserveGuard(h, o, units, meta) {
      var p := OwnPeriod(o.data, pid);
      OwnerStep(pid, o, AfterReserve(p, NewRequest(o.identity, p, units, meta, id, now)));
      SaveStep(h, pid, ReserveData(o, units, meta, id, now), d, f);
    }
  }

  lemma SettleStep(h: Hash, pid: Id, o: Owner, d: Ledger, id: Id, cost: Option<int>, sent: bool, now: int, f: Fault)
    requires Good(h, pid, d) && OwnerOk(pid, o)
    ensures var r := Settle(h, o, d, id, cost, sent, now, f);
            SystemOk(h, pid, System(r.1, Some(r.0))) && DiskStep(h, pid, d, r.1)
  {
    hide PeriodOk, LedgerOk, Save;
    if SettleGuard(o, id, cost, sent) {
      var p := OwnPeriod(o.data, pid);
      OwnerStep(pid, o, AfterSettle(p, FindRequest(p.requests, id), cost, sent, now));
      SaveStep(h, pid, SettleData(o, id, cost, sent, now), d, f);
    }
  }

  lemma OwnedKeeps(h: Hash, pid: Id, s: System, a: Action)
    requires SystemOk(h, pid, s) && s.owner.Some?
    ensures SystemOk(h, pid, Next(h, s, a)) && DiskStep(h, pid, s.disk, Next(h, s, a).disk)
  {
    var d, o := s.disk, s.owner.value;
    assert RegistrationStep(h, pid, d, d);
    hide RegistrationStep, RequestsMoved, Good, OwnerOk, Reserve, Settle;
    match a {
      case DoReserve(units, meta, id, now, f) => ReserveStep(h, pid, o, d, units, meta, id, now, f);
      case DoSettle(id, cost, sent, now, f) => SettleStep(h, pid, o, d, id, cost, sent, now, f);
      case _ =>
    }
  }

  lemma UnownedKeeps(h: Hash, pid: Id, s: System, a: Action)
    requires SystemOk(h, pid, s) && s.owner.None?
    ensures SystemOk(h, pid, Next(h, s, a)) && RegistrationStep(h, pid, s.disk, Next(h, s, a).disk)
  {
    var d := s.disk;
    assert RegistrationStep(h, pid, d, d);
    hide RegistrationStep, Good, OwnerOk, Enter, Authorize, Rebind, AppendCandidate, AuthorizeContinuation,
         ReconcileUsage;
    match a {
      case Open(p, who) => OpenStep(h, pid, d, p, who);
      case DoAuthorize(plan, f) => AuthorizeStep(h, pid, d, plan, f);
      case DoRebind(b, f) => RebindStep(h, pid, d, b, f);
      case DoAppend(b, f) => AppendStep(h, pid, d, b, f);
      case DoContinue(r, f) => ContinueStep(h, pid, d, r, f);
      case DoReconcile(r, f) => ReconcileStep(h, pid, d, r, f);
      case _ =>
    }
  }

  /** Every action keeps the system sound and changes the file in one of the listed ways. */
  lemma NextKeeps(h: Hash, pid: Id, s: System, a: Action)
    requires SystemOk(h, pid, s)
    ensures SystemOk(h, pid, Next(h, s, a)) && DiskStep(h, pid, s.disk, Next(h, s, a).disk)
    ensures s.owner.None? ==> RegistrationStep(h, pid, s.disk, Next(h, s, a).disk)
  {
    hide Next, SystemOk, RegistrationStep, RequestsMoved;
    if s.owner.Some? { OwnedKeeps(h, pid, s, a); } else { UnownedKeeps(h, pid, s, a); }
  }

  lemma OpenStep(h: Hash, pid: Id, d: Ledger, other: Id, who: Identity)
    requires Good(h, pid, d)
    ensures var entered := Enter(h, other, who, Role.Requests, d); entered.Some? ==> OwnerOk(pid, entered.value)
  {
    hide PeriodOk, LedgerOk;
    if Enter(h, other, who, Role.Requests, d).Some? {
      SameActive(h, d, pid, other);
      EvolvesSame(OwnPeriod(d, pid).requests);
      assert d.periods[OwnIndex(d.periods, pid) := OwnPeriod(d, pid)] == d.periods;
    }
  }

  /** Every run keeps the file valid. */
  lemma {:induction false} RunKeeps(h: Hash, pid: Id, s: System, actions: seq<Action>)
    requires SystemOk(h, pid, s)
    ensures SystemOk(h, pid, Run(h, s, actions))
    decreases |actions|
  {
    hide Next, SystemOk;
    if actions != [] {
      NextKeeps(h, pid, s, actions[0]);
      RunKeeps(h, pid, Next(h, s, actions[0]), actions[1..]);
    }
  }
}
