/** Safety over whole runs: history, schema evolution, the plan cap, the single reservation and fail-closed owners. */
module LedgerSafety {
  import opened Options
  import opened LedgerData
  import opened Validity
  import opened LedgerSteps
  import opened LedgerRuns
  import Plans
  import Bindings
  import Continuations
  import RequestsKeepValidity

  lemma GoodPeriod(h: Hash, pid: Id, d: Ledger)
    requires Good(h, pid, d)
    ensures PeriodOk(h, d.schema, OwnPeriod(d, pid))
  {
    OwnIsActive(h, d, pid);
  }

  // -- Schema evolution and history -------------------------------------------------------

  /** The accepted schema upgrades. */
  ghost predicate SchemaEdge(a: Schema, b: Schema) {
    (a.V1? && (b.V2? || b.V4?)) || (a.V2? && b.V3?) || (a.V4? && (b.V5? || b.V6?))
  }

  /** No downgrade, and no crossing between the suite line V1-V2-V3 and the task line V1-V4-V5/V6. */
  ghost predicate SchemaReaches(a: Schema, b: Schema) {
    a == b || SchemaEdge(a, b) || (a.V1? && (b.V3? || b.V5? || b.V6?))
  }

  /** `b` keeps what `a` registered. */
  ghost predicate Kept<T(!new)>(a: Option<T>, b: Option<T>) { a.Some? ==> b == a }

  ghost predicate Grown<T(!new)>(a: Option<seq<T>>, b: Option<seq<T>>) { ListOf(a) <= ListOf(b) }

  /** What every later file remembers of an earlier one. */
  ghost predicate Remembers(p: Period, q: Period) {
    && q.periodId == p.periodId && q.allocation == p.allocation && Evolves(p.requests, q.requests)
    && Kept(p.plan, q.plan) && Kept(p.binding, q.binding) && Kept(p.continuation, q.continuation)
    && Grown(p.candidates, q.candidates) && Grown(p.successors, q.successors)
       && Grown(p.reconciliations, q.reconciliations)
  }

  ghost predicate History(pid: Id, d: Ledger, e: Ledger) {
    && HasOwn(d, pid) && HasOwn(e, pid) && SchemaReaches(d.schema, e.schema)
    && Remembers(OwnPeriod(d, pid), OwnPeriod(e, pid))
    && Moved(pid, d, e, OwnPeriod(e, pid))
  }

  /** Which records a period holds under each schema. */
  ghost predicate Holds(schema: Schema, p: Period) {
    && (p.binding.Some? <==> schema.V2? || schema.V3?)
    && (p.continuation.Some? <==> schema.V4? || schema.V5? || schema.V6?)
    && (ListOf(p.candidates) != [] <==> schema.V3?)
    && (ListOf(p.successors) != [] <==> schema.V5?)
    && (ListOf(p.reconciliations) != [] <==> schema.V6?)
    && (!schema.V1? ==> p.plan.Some? && (Plans.TaskScoped(p.plan.value.kind) <==> p.continuation.Some?))
  }

  /** The schema of a valid period says which records it holds. */
  lemma SchemaHolds(h: Hash, schema: Schema, p: Period)
    requires PeriodOk(h, schema, p)
    ensures Holds(schema, p)
  {
    hide Plans.PlanOk, Bindings.ChainOk, Continuations.LineOk;
    if schema.V2? || schema.V3? {
      SuiteOnly(h, schema, p);
    } else if !schema.V1? {
      RequestsKeepValidity.ContinuationIsTask(h, schema, p);
      RequestsKeepValidity.TaskHasNoBinding(h, p);
    }
  }

  lemma SuiteOnly(h: Hash, schema: Schema, p: Period)
    requires BindingLayerOk(h, schema, p) && (schema.V2? || schema.V3?)
    ensures !Plans.TaskScoped(p.plan.value.kind)
    ensures schema.V3? ==> ListOf(p.candidates) != []
  {
  }

  /** Suite bindings never coexist with continuations, nor continuation chains with reconciliations. */
  lemma LayersExclude(h: Hash, pid: Id, d: Ledger)
    requires Good(h, pid, d)
    ensures var p := OwnPeriod(d, pid);
            && !(p.binding.Some? && p.continuation.Some?)
            && !(ListOf(p.successors) != [] && ListOf(p.reconciliations) != [])
  {
    GoodPeriod(h, pid, d);
    SchemaHolds(h, d.schema, OwnPeriod(d, pid));
  }

  /** Periods that differ in requests and sums alone agree on every record. */
  lemma FixedAgrees(p: Period, q: Period)
    requires Fixed(q) == Fixed(p)
    ensures q.plan == p.plan && q.binding == p.binding && q.candidates == p.candidates
            && q.continuation == p.continuation
    ensures q.successors == p.successors && q.reconciliations == p.reconciliations
    ensures q.allocation == p.allocation && q.periodId == p.periodId && q.active == p.active
  {
    assert Fixed(q).plan == Fixed(p).plan && Fixed(q).binding == Fixed(p).binding
           && Fixed(q).candidates == Fixed(p).candidates
           && Fixed(q).continuation == Fixed(p).continuation && Fixed(q).successors == Fixed(p).successors
           && Fixed(q).reconciliations == Fixed(p).reconciliations && Fixed(q).active == Fixed(p).active
           && Fixed(q).allocation == Fixed(p).allocation && Fixed(q).periodId == Fixed(p).periodId;
  }

  /** Each way of changing the file remembers the past and follows a schema edge. */
  lemma MoveRemembers(h: Hash, pid: Id, d: Ledger, e: Ledger, p: Period, q: Period)
    requires Holds(d.schema, p) && Holds(e.schema, q) && Evolves(p.requests, p.requests)
    requires || RequestsMoved(pid, d, e, p, q) || Authorized(h, pid, d, e, p, q) || Rebound(pid, d, e, p, q)
             || Appended(pid, d, e, p, q) || Continued(pid, d, e, p, q) || Reconciled(pid, d, e, p, q)
    ensures Remembers(p, q) && (d.schema == e.schema || SchemaEdge(d.schema, e.schema))
  {
    hide Evolves, Moved, NoneReserved;
    if RequestsMoved(pid, d, e, p, q) { FixedAgrees(p, q); }
  }

  lemma StepRemembers(h: Hash, pid: Id, d: Ledger, e: Ledger)
    requires Good(h, pid, d) && Good(h, pid, e) && DiskStep(h, pid, d, e)
    ensures History(pid, d, e) && (d.schema == e.schema || SchemaEdge(d.schema, e.schema))
  {
    var p, q := OwnPeriod(d, pid), OwnPeriod(e, pid);
    GoodPeriod(h, pid, d);
    GoodPeriod(h, pid, e);
    SchemaHolds(h, d.schema, p);
    SchemaHolds(h, e.schema, q);
    hide PeriodOk, LedgerOk, Evolves, Holds, Unambiguous;
    EvolvesSame(p.requests);
    if d == e {
      assert d.periods[OwnIndex(d.periods, pid) := p] == d.periods;
    } else {
      MoveRemembers(h, pid, d, e, p, q);
      hide Remembers;
    }
  }

  lemma HistoryTrans(pid: Id, a: Ledger, b: Ledger, c: Ledger)
    requires History(pid, a, b) && History(pid, b, c)
    ensures History(pid, a, c)
  {
    var p, q, r := OwnPeriod(a, pid), OwnPeriod(b, pid), OwnPeriod(c, pid);
    EvolvesTrans(p.requests, q.requests, r.requests);
    hide Evolves;
    MovedTwice(pid, a, b, q, r);
    assert c == WithOwn(b, pid, r).(schema := c.schema);
  }

  /** Over every run: no registered authority is replaced, no settled request changes, every list only grows, and the
      schema moves along its two lines. */
  lemma {:induction false} RunRemembers(h: Hash, pid: Id, s: System, actions: seq<Action>)
    requires SystemOk(h, pid, s)
    ensures History(pid, s.disk, Run(h, s, actions).disk)
    decreases |actions|
  {
    hide Next, History, DiskStep, Good, OwnerOk;
    if actions == [] {
      StepRemembers(h, pid, s.disk, s.disk) by { DiskStepRefl(h, pid, s.disk); }
    } else {
      var t := Next(h, s, actions[0]);
      NextKeeps(h, pid, s, actions[0]);
      StepRemembers(h, pid, s.disk, t.disk);
      RunRemembers(h, pid, t, actions[1..]);
      HistoryTrans(pid, s.disk, t.disk, Run(h, t, actions[1..]).disk);
    }
  }

  lemma DiskStepRefl(h: Hash, pid: Id, d: Ledger)
    ensures DiskStep(h, pid, d, d)
  {
  }

  // -- Replaced suites --------------------------------------------------------------------

  /** Between any two files of a run, a suite already replaced in the first neither gains nor loses a request. */
  lemma ReplacedSuiteIsClosed(h: Hash, pid: Id, d: Ledger, e: Ledger, k: nat, i: nat)
    requires Good(h, pid, d) && Good(h, pid, e) && History(pid, d, e) && d.schema.V3?
    requires k < |ListOf(OwnPeriod(d, pid).candidates)| && OwnPeriod(d, pid).binding.Some?
             && i < |OwnPeriod(e, pid).requests|
    ensures var p, q := OwnPeriod(d, pid), OwnPeriod(e, pid);
            var b := Bindings.All(p.binding.value, ListOf(p.candidates))[k];
            q.requests[i].bindingId == Some(b.bindingId) <==>
                i < |p.requests| && p.requests[i].bindingId == Some(b.bindingId)
  {
    var p, q := OwnPeriod(d, pid), OwnPeriod(e, pid);
    GoodChain(h, pid, d);
    GoodChain(h, pid, e);
    hide LedgerOk, PeriodOk, Unambiguous, Evolves, Bindings.ChainOk;
    var cs, ds := ListOf(p.candidates), ListOf(q.candidates);
    var before, after := Bindings.All(p.binding.value, cs), Bindings.All(q.binding.value, ds);
    assert before[k] == after[k] && before[k + 1] == after[k + 1];
    Bindings.CountsAscend(h, ContextOf(p), p.requests, p.plan.value, p.binding.value, cs, k, k + 1);
    Bindings.ChainPartition(h, ContextOf(q), q.requests, q.plan.value, q.binding.value, ds, k, i);
    if i < |p.requests| {
      Bindings.ChainPartition(h, ContextOf(p), p.requests, p.plan.value, p.binding.value, cs, k, i);
    }
  }

  /** Between any two files of a run, the suite of the plan itself keeps exactly the requests it had when it was
      replaced: the unlabelled ones before the rebinding. */
  lemma PlanSuiteIsClosed(h: Hash, pid: Id, d: Ledger, e: Ledger, i: nat)
    requires Good(h, pid, d) && Good(h, pid, e) && History(pid, d, e)
    requires OwnPeriod(d, pid).binding.Some? && i < |OwnPeriod(e, pid).requests|
    ensures var p, q := OwnPeriod(d, pid), OwnPeriod(e, pid);
            && p.binding.value.priorCount <= |p.requests|
            && (q.requests[i].bindingId.None? <==> i < p.binding.value.priorCount)
            && (i < p.binding.value.priorCount ==> q.requests[i] == p.requests[i])
  {
    var p, q := OwnPeriod(d, pid), OwnPeriod(e, pid);
    var b := p.binding.value;
    UnlabelledBefore(h, pid, e, i);
    BoundPrefix(h, pid, d);
    hide LedgerOk, PeriodOk, Unambiguous, Evolves;
    assert q.binding == p.binding;
    PrefixKept(p.requests, q.requests, b.priorCount);
    if i < b.priorCount {
      assert p.requests[i] == p.requests[..b.priorCount][i] && q.requests[i] == q.requests[..b.priorCount][i];
    }
  }

  lemma GoodRebinding(h: Hash, pid: Id, d: Ledger)
    requires Good(h, pid, d) && OwnPeriod(d, pid).binding.Some?
    ensures var p := OwnPeriod(d, pid);
            && p.plan.Some? && (d.schema.V2? || d.schema.V3?)
            && (d.schema.V2? ==> Bindings.RebindingOk(h, ContextOf(p), p.requests, p.plan.value, p.binding.value))
  {
    GoodPeriod(h, pid, d);
    SchemaHolds(h, d.schema, OwnPeriod(d, pid));
    hide Bindings.ChainOk, Bindings.RebindingOk, MoneyOk, PlanLayerOk, ContinuationLayerOk;
  }

  lemma UnlabelledBefore(h: Hash, pid: Id, d: Ledger, i: nat)
    requires Good(h, pid, d) && OwnPeriod(d, pid).binding.Some? && i < |OwnPeriod(d, pid).requests|
    ensures var p := OwnPeriod(d, pid); p.requests[i].bindingId.None? <==> i < p.binding.value.priorCount
  {
    var p := OwnPeriod(d, pid);
    GoodRebinding(h, pid, d);
    if d.schema.V3? {
      GoodChain(h, pid, d);
      hide Good, Bindings.ChainOk;
      Bindings.ChainPartition(h, ContextOf(p), p.requests, p.plan.value, p.binding.value, ListOf(p.candidates), 0, i);
    }
    hide Good, Bindings.BaseOk, Bindings.ChainOk;
  }

  /** Nothing before the rebinding is reserved. */
  lemma BoundPrefix(h: Hash, pid: Id, d: Ledger)
    requires Good(h, pid, d) && OwnPeriod(d, pid).binding.Some?
    ensures var p := OwnPeriod(d, pid); var n := p.binding.value.priorCount;
            n <= |p.requests| && NoneReserved(p.requests[..n])
  {
    var p := OwnPeriod(d, pid);
    var b := p.binding.value;
    GoodRebinding(h, pid, d);
    hide Plans.PlanOk, Bindings.UnknownSettled, Bindings.Accounts;
    if d.schema.V3? {
      GoodChain(h, pid, d);
      hide Good;
      Bindings.CountsAscend(h, ContextOf(p), p.requests, p.plan.value, b, ListOf(p.candidates), 0, 1);
      var prefix := Take(p.requests, ListOf(p.candidates)[0].priorCount);
      assert Bindings.BaseOk(h, ContextOf(p), prefix, p.plan.value, b);
      assert prefix[..b.priorCount] == p.requests[..b.priorCount];
    }
    hide Good;
  }

  lemma GoodChain(h: Hash, pid: Id, d: Ledger)
    requires Good(h, pid, d) && d.schema.V3?
    ensures var p := OwnPeriod(d, pid);
            && p.plan.Some? && p.binding.Some?
            && Bindings.ChainOk(h, ContextOf(p), p.requests, p.plan.value, p.binding.value, ListOf(p.candidates))
  {
    GoodPeriod(h, pid, d);
    hide Bindings.ChainOk, MoneyOk, PlanLayerOk, ContinuationLayerOk;
  }

  // -- What a save lets through, whatever the owner's memory holds ------------------------

  /** A reservation turned into its outcome: of unknown cost with its hold, or closed at no more than its hold, and at
      no cost if it was not sent. */
  ghost predicate Settles(a: Request, b: Request) {
    && a.status == Reserved && SameLabels(a, b) && b.completedAt.Some?
    && match b.status
       case Reserved => false
       case Unknown => b.reservedCost == a.reservedCost && b.costEstimate == a.costEstimate
       case Completed => b.reservedCost == 0 && b.costEstimate.Some? && b.costEstimate.value <= a.reservedCost
       case NotSent => b.reservedCost == 0 && b.costEstimate == Some(0)
  }

  /** One request step: every request stays or settles, and at most one open reservation is appended. */
  ghost predicate StepsRequests(a: seq<Request>, b: seq<Request>) {
    && |a| <= |b| <= |a| + 1
    && (forall i :: 0 <= i < |a| ==> b[i] == a[i] || Settles(a[i], b[i]))
    && (|b| > |a| ==> b[|a|].status == Reserved && b[|a|].costEstimate == None && b[|a|].completedAt == None)
  }

  lemma RestIsKept(o: Owner)
    requires HasOwn(o.data, o.pid) && HasOwn(o.body, o.pid) && RestKept(o)
    ensures o.data == WithOwn(o.body, o.pid, OwnPeriod(o.data, o.pid)).(schema := o.data.schema)
  {
    var k, j := OwnIndex(o.data.periods, o.pid), OwnIndex(o.body.periods, o.pid);
    var p, q := OwnPeriod(o.body, o.pid), OwnPeriod(o.data, o.pid);
    assert o.data.periods[k := p] == o.body.periods;
    assert forall i :: 0 <= i < k ==> o.body.periods[i] == o.data.periods[i];
    assert o.body.periods[k].periodId == o.pid && j == k;
    assert o.body.periods[k := q] == o.data.periods;
  }

  /** An accepted save, even of arbitrary memory, never replaces or drops a registered authority, adds at most one
      record to a list and only through the registration meant for it, and on a period with a continuation changes
      requests by one step and nothing outside the period. */
  lemma SaveGuards(h: Hash, o: Owner, disk: Ledger)
    requires SaveAccepts(h, o, disk)
    ensures HasOwn(disk, o.pid) && HasOwn(o.data, o.pid) && disk == o.body
    ensures var p, q := OwnPeriod(disk, o.pid), OwnPeriod(o.data, o.pid);
            && Kept(p.plan, q.plan) && Kept(p.binding, q.binding) && Kept(p.continuation, q.continuation)
            && q.allocation == o.allocation
            && (o.role.Reconcile? ==> ReconcilesOnly(h, o, disk, p, q))
            && (p.binding.None? && q.binding.Some? ==>
                  q.requests == p.requests && q.binding.value.ledgerBefore == h.body(disk))
            && (p.binding.Some? ==> AppendsOnly(h, o, disk, p, q))
            && (!o.role.Reconcile? && p.continuation.None? && q.continuation.Some? ==> ContinuesOnly(h, o, disk, p, q))
            && (!o.role.Reconcile? && p.continuation.Some? ==> SucceedsOnly(h, o, disk, p, q))
  {
    hide LedgerOk;
    var p, q := OwnPeriod(disk, o.pid), OwnPeriod(o.data, o.pid);
    if RestKept(o) { RestIsKept(o); }
    if o.role.Reconcile? { ReconcileGuards(h, o, disk, p, q); }
    if p.binding.Some? { AppendGuards(h, o, disk, p, q); }
    if !o.role.Reconcile? && p.continuation.Some? { SuccessorGuards(h, o, disk, p, q); }
  }

  /** Only the period changed, apart from the schema. */
  ghost predicate OnlyPeriod(o: Owner, disk: Ledger, q: Period)
    requires HasOwn(disk, o.pid)
  {
    o.data == WithOwn(disk, o.pid, q).(schema := o.data.schema)
  }

  /** One reconciliation more, for a request of the period, with its cost added and its hold released. */
  ghost predicate ReconcilesOnly(h: Hash, o: Owner, disk: Ledger, p: Period, q: Period)
    requires HasOwn(disk, o.pid)
  {
    var recs := ListOf(p.reconciliations);
    && o.data.schema == V6 && OnlyPeriod(o, disk, q) && recs <= ListOf(q.reconciliations)
    && |ListOf(q.reconciliations)| == |recs| + 1
    && q == p.(reconciliations := q.reconciliations, knownCost := q.knownCost, reservedCost := q.reservedCost)
    && var r := ListOf(q.reconciliations)[|recs|];
       && r.ledgerBefore == h.body(disk) && q.knownCost == p.knownCost + r.cost
       && exists i :: 0 <= i < |p.requests| && p.requests[i].id == r.requestId
                      && q.reservedCost == p.reservedCost - p.requests[i].reservedCost
  }

  lemma ReconcileGuards(h: Hash, o: Owner, disk: Ledger, p: Period, q: Period)
    requires HasOwn(disk, o.pid) && HasOwn(o.data, o.pid) && disk == o.body
    requires p == OwnPeriod(disk, o.pid) && q == OwnPeriod(o.data, o.pid) && ReconcileSaveOk(h, o)
    ensures ReconcilesOnly(h, o, disk, p, q)
  {
    RestIsKept(o);
    var z := q.(knownCost := 0, reservedCost := 0, reconciliations := None);
    assert q == z.(knownCost := q.knownCost, reservedCost := q.reservedCost, reconciliations := q.reconciliations);
  }

  /** One candidate more, through its registration, and nothing else in the period; or the chain and the schema stay. */
  ghost predicate AppendsOnly(h: Hash, o: Owner, disk: Ledger, p: Period, q: Period) {
    var cs, ds := ListOf(p.candidates), ListOf(q.candidates);
    if cs == ds then o.data.schema == disk.schema
    else
      && o.role.Append? && o.data.schema == V3 && cs <= ds && |ds| == |cs| + 1 && ds[|cs|].ledgerBefore == h.body(disk)
      && q == p.(candidates := q.candidates)
  }

  lemma AppendGuards(h: Hash, o: Owner, disk: Ledger, p: Period, q: Period)
    requires HasOwn(disk, o.pid) && HasOwn(o.data, o.pid) && disk == o.body && p.binding.Some?
    requires p == OwnPeriod(disk, o.pid) && q == OwnPeriod(o.data, o.pid) && BindingSaveOk(h, o)
    ensures AppendsOnly(h, o, disk, p, q)
  {
    assert q == q.(candidates := None).(candidates := q.candidates);
  }

  /** A first continuation, through its registration, over all the requests, and nothing else. */
  ghost predicate ContinuesOnly(h: Hash, o: Owner, disk: Ledger, p: Period, q: Period)
    requires HasOwn(disk, o.pid) && q.continuation.Some?
  {
    && OnlyPeriod(o, disk, q) && o.role.Continue? && q == p.(continuation := q.continuation)
    && q.continuation.value.ledgerBefore == h.body(disk) && q.continuation.value.priorCount == |p.requests|
  }

  /** One successor more, through its registration, over all the requests, and nothing else; or one request step under
      the same schema with the records untouched. */
  ghost predicate SucceedsOnly(h: Hash, o: Owner, disk: Ledger, p: Period, q: Period)
    requires HasOwn(disk, o.pid)
  {
    var ss, ts := ListOf(p.successors), ListOf(q.successors);
    && OnlyPeriod(o, disk, q)
    && if ss == ts then
         && o.data.schema == disk.schema && StepsRequests(p.requests, q.requests)
         && q == p.(requests := q.requests, knownCost := q.knownCost, reservedCost := q.reservedCost)
       else
         && o.role.Continue? && o.data.schema == V5 && ss <= ts && |ts| == |ss| + 1
         && ts[|ss|].ledgerBefore == h.body(disk) && ts[|ss|].priorCount == |p.requests|
         && q == p.(successors := q.successors)
  }

  lemma SuccessorGuards(h: Hash, o: Owner, disk: Ledger, p: Period, q: Period)
    requires HasOwn(disk, o.pid) && HasOwn(o.data, o.pid) && disk == o.body && p.continuation.Some?
    requires p == OwnPeriod(disk, o.pid) && q == OwnPeriod(o.data, o.pid) && ContinuationSaveOk(h, o)
    ensures SucceedsOnly(h, o, disk, p, q)
  {
    RestIsKept(o);
    assert q == q.(successors := None).(successors := q.successors);
    assert q == Fixed(q).(requests := q.requests, knownCost := q.knownCost, reservedCost := q.reservedCost);
    if ListOf(q.successors) == ListOf(p.successors) {
      forall i | 0 <= i < |p.requests| ensures q.requests[i] == p.requests[i] || Settles(p.requests[i], q.requests[i]) {
      }
    }
  }
}
