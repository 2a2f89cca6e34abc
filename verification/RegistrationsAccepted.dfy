/** When a plan, a rebinding, a candidate or a continuation is persisted: exact conditions a caller can check. */
module RegistrationsAccepted {
  import opened Options
  import opened LedgerData
  import opened Validity
  import opened LedgerSteps
  import opened LedgerRuns
  import opened LedgerSafety
  import Rec = Reconciliations
  import Plans
  import Bindings
  import Continuations

  /** The owner that a registration saves. */
  ghost function Registrar(pid: Id, role: Role, d: Ledger, q: Period, schema: Schema): Owner
    requires HasOwn(d, pid)
  {
    Owner(pid, NOBODY, role, WithOwn(d, pid, q).(schema := schema), d, OwnPeriod(d, pid).allocation)
  }

  lemma RegistrarAccepts(h: Hash, pid: Id, role: Role, d: Ledger, q: Period, schema: Schema)
    requires Good(h, pid, d) && !role.Reconcile?
    requires var p := OwnPeriod(d, pid);
             q.periodId == p.periodId && q.active == p.active && q.allocation == p.allocation
    ensures var o := Registrar(pid, role, d, q, schema); var p := OwnPeriod(d, pid);
            && HasOwn(o.data, pid) && OwnPeriod(o.data, pid) == q && RestKept(o)
            && (SaveAccepts(h, o, d) <==>
                PeriodOk(h, schema, q) && ContinuationSaveOk(h, o) && (p.plan.Some? ==> q.plan == p.plan)
                && BindingSaveOk(h, o))
  {
    hide PeriodOk, ContinuationSaveOk, BindingSaveOk;
    OwnReplaced(h, d, pid, q, schema);
    var o, p := Registrar(pid, role, d, q, schema), OwnPeriod(d, pid);
    assert o.data.periods[OwnIndex(o.data.periods, pid) := p] == d.periods;
  }

  /** A suite plan does not care whether its period is bound. */
  lemma SuitePlanIgnoresBinding(h: Hash, c: Context, reqs: seq<Request>, plan: Plan, bound: bool)
    requires !Plans.TaskScoped(plan.kind)
    ensures Plans.PlanOk(h, c, reqs, plan) <==> Plans.PlanOk(h, c.(suiteBound := bound), reqs, plan)
  {
    hide Rec.RecordsOk, Plans.CarriedOk, Plans.WellFormed;
  }

  lemma BindingIgnoresBound(h: Hash, c: Context, reqs: seq<Request>, plan: Plan, b: Binding, bound: bool)
    ensures Bindings.BaseOk(h, c, reqs, plan, b) <==> Bindings.BaseOk(h, c.(suiteBound := bound), reqs, plan, b)
  {
    hide Plans.PlanOk, Bindings.UnknownSettled;
    if !Plans.TaskScoped(plan.kind) && b.priorCount <= |reqs| {
      SuitePlanIgnoresBinding(h, c, reqs[..b.priorCount], plan, bound);
    }
  }

  // -- Plans ------------------------------------------------------------------------------

  ghost predicate MayAuthorize(h: Hash, d: Ledger, p: Period, plan: Plan) {
    && p.plan.None? && plan.ledgerBefore == h.body(d) && plan.priorCount == |p.requests|
    && Plans.PlanOk(h, ContextOf(p), p.requests, plan)
    && p.knownCost + p.reservedCost + plan.maximumCost <= p.allocation
  }

  lemma AuthorizeKeepsPeriod(h: Hash, schema: Schema, p: Period, plan: Plan)
    requires PeriodOk(h, schema, p) && p.plan.None? && Plans.PlanOk(h, ContextOf(p), p.requests, plan)
    ensures PeriodOk(h, schema, p.(plan := Some(plan)))
  {
    SchemaHolds(h, schema, p);
    var q := p.(plan := Some(plan));
    assert ContextOf(q) == ContextOf(p) && schema.V1?;
    hide Plans.PlanOk, Rec.RecordsOk, EntriesOk, TotalsOk;
  }

  /** Without a fault a plan is registered exactly when it fits the file. */
  lemma AuthorizeAccepted(h: Hash, pid: Id, d: Ledger, plan: Plan)
    requires Good(h, pid, d) && plan.periodId == pid && OwnPeriod(d, pid).plan.None?
    ensures Authorize(h, d, plan, NoFault).1 <==> MayAuthorize(h, d, OwnPeriod(d, pid), plan)
  {
    var p := OwnPeriod(d, pid);
    var q := p.(plan := Some(plan));
    GoodPeriod(h, pid, d);
    SchemaHolds(h, d.schema, p);
    hide PeriodOk, LedgerOk, Unambiguous, Plans.PlanOk, SaveAccepts;
    RegistrarAccepts(h, pid, Role.Register, d, q, d.schema);
    if Plans.PlanOk(h, ContextOf(p), p.requests, plan) {
      AuthorizeKeepsPeriod(h, d.schema, p, plan);
      PlanIsWellFormed(h, ContextOf(p), p.requests, plan);
    }
    assert Enter(h, pid, NOBODY, Role.Register, d) == Some(Owner(pid, NOBODY, Role.Register, d, d, p.allocation));
    assert Registrar(pid, Role.Register, d, q, d.schema).data == WithOwn(d, pid, q).(schema := d.schema);
  }

  lemma PlanIsWellFormed(h: Hash, c: Context, reqs: seq<Request>, plan: Plan)
    requires Plans.PlanOk(h, c, reqs, plan)
    ensures Plans.WellFormed(plan)
  {
  }

  // -- Rebinding --------------------------------------------------------------------------

  ghost predicate MayRebind(h: Hash, d: Ledger, p: Period, b: Binding) {
    && p.plan.Some? && b.ledgerBefore == h.body(d) && b.priorCount == |p.requests|
    && Bindings.RebindingOk(h, ContextOf(p), p.requests, p.plan.value, b)
  }

  lemma RebindKeepsPeriod(h: Hash, schema: Schema, p: Period, b: Binding)
    requires PeriodOk(h, schema, p) && p.binding.None? && p.plan.Some?
    requires Bindings.RebindingOk(h, ContextOf(p), p.requests, p.plan.value, b)
    ensures PeriodOk(h, V2, p.(binding := Some(b)))
  {
    SchemaHolds(h, schema, p);
    var q, c := p.(binding := Some(b)), ContextOf(p);
    assert ContextOf(q) == c.(suiteBound := true) && schema.V1?;
    SuitePlanIgnoresBinding(h, c, p.requests, p.plan.value, true);
    BindingIgnoresBound(h, c, p.requests, p.plan.value, b, true);
    hide Plans.PlanOk, Bindings.BaseOk, Rec.RecordsOk, EntriesOk, TotalsOk;
  }

  /** Without a fault a rebinding is registered exactly when it fits the file. */
  lemma RebindAccepted(h: Hash, pid: Id, d: Ledger, b: Binding)
    requires Good(h, pid, d) && b.periodId == pid && OwnPeriod(d, pid).binding.None?
    ensures Rebind(h, d, b, NoFault).1 <==> MayRebind(h, d, OwnPeriod(d, pid), b)
  {
    var p := OwnPeriod(d, pid);
    var q := p.(binding := Some(b));
    GoodPeriod(h, pid, d);
    SchemaHolds(h, d.schema, p);
    RebindingIsSuite(h, ContextOf(p), p.requests, p.plan, b);
    hide PeriodOk, LedgerOk, Unambiguous, Bindings.RebindingOk, SaveAccepts;
    RegistrarAccepts(h, pid, Role.Register, d, q, V2);
    if p.plan.Some? && Bindings.RebindingOk(h, ContextOf(p), p.requests, p.plan.value, b) {
      RebindKeepsPeriod(h, d.schema, p, b);
    }
    assert Enter(h, pid, NOBODY, Role.Register, d) == Some(Owner(pid, NOBODY, Role.Register, d, d, p.allocation));
  }

  lemma RebindingIsSuite(h: Hash, c: Context, reqs: seq<Request>, plan: Option<Plan>, b: Binding)
    ensures plan.Some? && Bindings.RebindingOk(h, c, reqs, plan.value, b) ==> !Plans.TaskScoped(plan.value.kind)
  {
  }

  // -- Candidates -------------------------------------------------------------------------

  ghost predicate MayAppend(h: Hash, d: Ledger, p: Period, b: Binding) {
    && p.plan.Some? && p.binding.Some? && b.ledgerBefore == h.body(d) && b.priorCount == |p.requests|
    && Bindings.ChainOk(h, ContextOf(p), p.requests, p.plan.value, p.binding.value, ListOf(p.candidates) + [b])
  }

  lemma AppendKeepsPeriod(h: Hash, schema: Schema, p: Period, b: Binding)
    requires PeriodOk(h, schema, p) && p.binding.Some? && p.plan.Some?
    requires Bindings.ChainOk(h, ContextOf(p), p.requests, p.plan.value, p.binding.value, ListOf(p.candidates) + [b])
    ensures PeriodOk(h, V3, p.(candidates := Some(ListOf(p.candidates) + [b])))
  {
    SchemaHolds(h, schema, p);
    var q := p.(candidates := Some(ListOf(p.candidates) + [b]));
    assert ContextOf(q) == ContextOf(p);
    hide Plans.PlanOk, Bindings.ChainOk, Rec.RecordsOk, EntriesOk, TotalsOk;
  }

  lemma ChainIsSuite(h: Hash, c: Context, reqs: seq<Request>, plan: Plan, original: Binding, cs: seq<Binding>,
                     b: Binding)
    requires Bindings.ChainOk(h, c, reqs, plan, original, cs + [b])
    ensures !Plans.TaskScoped(plan.kind) && |cs| < MAX_CANDIDATES
    ensures forall k :: 0 <= k < |cs| ==> cs[k].bindingId != b.bindingId
  {
    var all := Bindings.All(original, cs + [b]);
    assert Bindings.CandidateOk(h, c, reqs, plan, all, |cs| + 1);
    assert all[|cs| + 1] == b && forall k :: 0 <= k < |cs| ==> all[k + 1] == cs[k];
  }

  lemma AppendUnfolds(h: Hash, pid: Id, d: Ledger, b: Binding)
    requires Good(h, pid, d) && b.periodId == pid
    requires forall k :: 0 <= k < |ListOf(OwnPeriod(d, pid).candidates)| ==>
               ListOf(OwnPeriod(d, pid).candidates)[k].bindingId != b.bindingId
    ensures var p := OwnPeriod(d, pid); var cs := ListOf(p.candidates);
            AppendCandidate(h, d, b, NoFault).1 <==>
            && MayAppend(h, d, p, b) && !Plans.TaskScoped(p.plan.value.kind) && |cs| < MAX_CANDIDATES
            && SaveAccepts(h, Registrar(pid, Role.Append, d, p.(candidates := Some(cs + [b])), V3), d)
  {
    hide LedgerOk, Unambiguous, Bindings.ChainOk, SaveAccepts;
  }

  /** Without a fault a new candidate is appended exactly when the longer chain is valid on the file. */
  lemma AppendAccepted(h: Hash, pid: Id, d: Ledger, b: Binding)
    requires Good(h, pid, d) && b.periodId == pid
    requires forall k :: 0 <= k < |ListOf(OwnPeriod(d, pid).candidates)| ==>
               ListOf(OwnPeriod(d, pid).candidates)[k].bindingId != b.bindingId
    ensures AppendCandidate(h, d, b, NoFault).1 <==> MayAppend(h, d, OwnPeriod(d, pid), b)
  {
    hide PeriodOk, LedgerOk, Unambiguous, Bindings.ChainOk, SaveAccepts, AppendCandidate, ContinuationSaveOk;
    var p := OwnPeriod(d, pid);
    AppendUnfolds(h, pid, d, b);
    if MayAppend(h, d, p, b) {
      ChainIsSuite(h, ContextOf(p), p.requests, p.plan.value, p.binding.value, ListOf(p.candidates), b);
      AppendSaves(h, pid, d, b);
    }
  }

  lemma AppendSaves(h: Hash, pid: Id, d: Ledger, b: Binding)
    requires Good(h, pid, d) && MayAppend(h, d, OwnPeriod(d, pid), b)
    ensures var p := OwnPeriod(d, pid);
            SaveAccepts(h, Registrar(pid, Role.Append, d, p.(candidates := Some(ListOf(p.candidates) + [b])), V3), d)
  {
    var p := OwnPeriod(d, pid);
    var cs := ListOf(p.candidates);
    GoodPeriod(h, pid, d);
    SchemaHolds(h, d.schema, p);
    hide PeriodOk, LedgerOk, Unambiguous, Bindings.ChainOk, SaveAccepts, RestKept;
    AppendKeepsPeriod(h, d.schema, p, b);
    RegistrarAccepts(h, pid, Role.Append, d, p.(candidates := Some(cs + [b])), V3);
    assert (cs + [b])[..|cs|] == cs && cs + [b] != cs;
  }

  // -- Continuations ----------------------------------------------------------------------

  ghost function Continuing(p: Period, r: Continuation): Period {
    if r.kind.Successor? then p.(successors := Some(ListOf(p.successors) + [r])) else p.(continuation := Some(r))
  }

  /** The record follows the active one and is valid on the file. */
  ghost predicate Fits(h: Hash, d: Ledger, p: Period, r: Continuation) {
    var q := Continuing(p, r);
    && p.plan.Some? && r.ledgerBefore == h.body(d) && r.priorCount == |p.requests|
    && (if r.kind.Successor? then
          ActiveContinuation(p).Some? && r.previousId == Some(ActiveContinuation(p).value.continuationId)
        else ActiveContinuation(p).None?)
    && q.continuation.Some?
    && Continuations.ContinuationOk(h, ContextOf(q), q.requests, p.plan.value, q.continuation.value,
                                    ListOf(q.successors))
  }

  ghost predicate MayContinue(h: Hash, d: Ledger, p: Period, r: Continuation) {
    Fits(h, d, p, r) && ListOf(p.reconciliations) == []
  }

  lemma ContinueKeepsPeriod(h: Hash, schema: Schema, p: Period, r: Continuation)
    requires PeriodOk(h, schema, p) && p.plan.Some? && Continuing(p, r).continuation.Some?
    requires r.kind.Successor? || ActiveContinuation(p).None?
    requires var q := Continuing(p, r);
             Continuations.ContinuationOk(h, ContextOf(q), q.requests, p.plan.value, q.continuation.value,
                                          ListOf(q.successors))
    ensures PeriodOk(h, if r.kind.Successor? then V5 else V4, Continuing(p, r)) <==> ListOf(p.reconciliations) == []
  {
    SchemaHolds(h, schema, p);
    var q := Continuing(p, r);
    assert ContextOf(q) == ContextOf(p);
    ContinuationTask(h, ContextOf(q), q.requests, p.plan.value, q.continuation.value, ListOf(q.successors));
    if !schema.V1? && !schema.V2? && !schema.V3? { assert p.reconciliations.None? <==> !schema.V6?; }
    hide Plans.PlanOk, Continuations.ContinuationOk, Rec.RecordsOk, EntriesOk, TotalsOk, Bindings.ChainOk,
         Bindings.RebindingOk;
  }

  lemma ContinuationTask(h: Hash, c: Context, reqs: seq<Request>, plan: Plan, original: Continuation,
                         successors: seq<Continuation>)
    requires Continuations.ContinuationOk(h, c, reqs, plan, original, successors)
    ensures Plans.TaskScoped(plan.kind)
  {
  }

  lemma ContinueUnfolds(h: Hash, pid: Id, d: Ledger, r: Continuation)
    requires Good(h, pid, d) && r.periodId == pid && ActiveContinuation(OwnPeriod(d, pid)) != Some(r)
    ensures var p := OwnPeriod(d, pid); var q := Continuing(p, r);
            AuthorizeContinuation(h, d, r, NoFault).1 <==>
            && Fits(h, d, p, r)
            && SaveAccepts(h, Registrar(pid, Role.Continue, d, q, if r.kind.Successor? then V5 else V4), d)
  {
    hide LedgerOk, Unambiguous, Continuations.ContinuationOk, SaveAccepts;
  }

  lemma ContinueSaves(h: Hash, pid: Id, d: Ledger, r: Continuation)
    requires Good(h, pid, d) && Fits(h, d, OwnPeriod(d, pid), r)
    ensures var p := OwnPeriod(d, pid);
            SaveAccepts(h, Registrar(pid, Role.Continue, d, Continuing(p, r), if r.kind.Successor? then V5 else V4), d)
            <==> ListOf(p.reconciliations) == []
  {
    var p := OwnPeriod(d, pid);
    var q, schema := Continuing(p, r), if r.kind.Successor? then V5 else V4;
    GoodPeriod(h, pid, d);
    SchemaHolds(h, d.schema, p);
    hide PeriodOk, LedgerOk, Unambiguous, Continuations.ContinuationOk, SaveAccepts, RestKept;
    ContinueKeepsPeriod(h, d.schema, p, r);
    RegistrarAccepts(h, pid, Role.Continue, d, q, schema);
    var line := ListOf(p.successors);
    assert (line + [r])[..|line|] == line && line + [r] != line;
  }

  /** Without a fault a new continuation or successor is registered exactly when it fits a file without
      reconciliations. */
  lemma ContinueAccepted(h: Hash, pid: Id, d: Ledger, r: Continuation)
    requires Good(h, pid, d) && r.periodId == pid && ActiveContinuation(OwnPeriod(d, pid)) != Some(r)
    ensures AuthorizeContinuation(h, d, r, NoFault).1 <==> MayContinue(h, d, OwnPeriod(d, pid), r)
  {
    hide LedgerOk, Unambiguous, Continuations.ContinuationOk, SaveAccepts, AuthorizeContinuation;
    ContinueUnfolds(h, pid, d, r);
    if Fits(h, d, OwnPeriod(d, pid), r) { ContinueSaves(h, pid, d, r); }
  }
}
