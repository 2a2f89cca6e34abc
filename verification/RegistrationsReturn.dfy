/** What a caller may conclude from a registration that returns normally, and what a repeated one answers. */
module RegistrationsReturn {
  import opened Options
  import opened LedgerData
  import opened Validity
  import opened LedgerSteps
  import opened Reservations
  import Plans
  import Bindings
  import Continuations

  /** The file changed in the period of the registration alone, from `p` to `q`, or not at all. */
  ghost predicate Leaves(d: Ledger, e: Ledger, pid: Id, p: Period, q: Period) {
    && HasOwn(d, pid) && HasOwn(e, pid) && OwnPeriod(d, pid) == p && OwnPeriod(e, pid) == q
    && e == WithOwn(d, pid, q).(schema := e.schema)
  }

  lemma RegisterReturns(h: Hash, pid: Id, role: Role, d: Ledger, q: Period, schema: Schema, f: Fault)
    requires HasOwn(d, pid) && q.periodId == pid
    ensures var o := Owner(pid, NOBODY, role, d, d, OwnPeriod(d, pid).allocation);
            var r := RegisterPeriod(h, o, d, q, schema, f);
            r.1 ==> r.0.schema == schema && Leaves(d, r.0, pid, OwnPeriod(d, pid), q)
  {
    hide SaveAccepts;
    OwnAfter(d, pid, q);
    assert OwnIndex(WithOwn(d, pid, q).(schema := schema).periods, pid) == OwnIndex(WithOwn(d, pid, q).periods, pid);
  }

  lemma LeavesSame(d: Ledger, pid: Id)
    requires HasOwn(d, pid)
    ensures Leaves(d, d, pid, OwnPeriod(d, pid), OwnPeriod(d, pid))
  {
    assert d.periods[OwnIndex(d.periods, pid) := OwnPeriod(d, pid)] == d.periods;
  }

  /** A plan registration that returns has its plan on file and nothing else changed; on a file with a plan it returns
      exactly when that is the plan, and changes nothing. */
  lemma AuthorizeReturns(h: Hash, d: Ledger, plan: Plan, f: Fault)
    ensures var r := Authorize(h, d, plan, f); var pid := plan.periodId;
            && (r.1 ==> && HasOwn(d, pid) && LedgerOk(h, d, pid) && r.0.schema == d.schema
                        && var p := OwnPeriod(d, pid); Leaves(d, r.0, pid, p, p.(plan := Some(plan))))
            && (LedgerOk(h, d, pid) && HasOwn(d, pid) && OwnPeriod(d, pid).plan.Some? ==>
                  r.0 == d && (r.1 <==> OwnPeriod(d, pid).plan == Some(plan)))
  {
    hide LedgerOk, Plans.PlanOk, Available, RegisterPeriod;
    var pid := plan.periodId;
    if HasOwn(d, pid) {
      var p := OwnPeriod(d, pid);
      LeavesSame(d, pid);
      RegisterReturns(h, pid, Role.Register, d, p.(plan := Some(plan)), d.schema, f);
    }
  }

  lemma RebindReturns(h: Hash, d: Ledger, b: Binding, f: Fault)
    ensures var r := Rebind(h, d, b, f); var pid := b.periodId;
            && (r.1 ==> && HasOwn(d, pid) && LedgerOk(h, d, pid) && (r.0 == d || r.0.schema == V2)
                        && var p := OwnPeriod(d, pid); Leaves(d, r.0, pid, p, p.(binding := Some(b))))
            && (LedgerOk(h, d, pid) && HasOwn(d, pid) && OwnPeriod(d, pid).binding.Some? ==>
                  r.0 == d && (r.1 <==> OwnPeriod(d, pid).binding == Some(b)))
  {
    hide LedgerOk, Bindings.RebindingOk, Available, RegisterPeriod;
    var pid := b.periodId;
    if HasOwn(d, pid) {
      var p := OwnPeriod(d, pid);
      LeavesSame(d, pid);
      RegisterReturns(h, pid, Role.Register, d, p.(binding := Some(b)), V2, f);
    }
  }

  /** A candidate registration that returns found its candidate on file or put it last; one that repeats an id returns
      exactly when the stored candidate is equal, and changes nothing. */
  lemma AppendReturns(h: Hash, d: Ledger, b: Binding, f: Fault)
    ensures var r := AppendCandidate(h, d, b, f); var pid := b.periodId;
            && (r.1 ==> && HasOwn(d, pid) && LedgerOk(h, d, pid)
                        && var p := OwnPeriod(d, pid); var cs := ListOf(p.candidates);
                           if b in cs then r.0 == d
                           else r.0.schema == V3 && Leaves(d, r.0, pid, p, p.(candidates := Some(cs + [b]))))
            && (LedgerOk(h, d, pid) && HasOwn(d, pid)
                && (exists k :: 0 <= k < |ListOf(OwnPeriod(d, pid).candidates)|
                                && ListOf(OwnPeriod(d, pid).candidates)[k].bindingId == b.bindingId) ==>
                  r.0 == d && (r.1 <==> b in ListOf(OwnPeriod(d, pid).candidates)))
  {
    hide LedgerOk, Bindings.ChainOk, Available, RegisterPeriod;
    var pid := b.periodId;
    if HasOwn(d, pid) {
      var p := OwnPeriod(d, pid);
      var cs := ListOf(p.candidates);
      if b in cs { var k :| 0 <= k < |cs| && cs[k] == b; assert cs[k].bindingId == b.bindingId; }
      RegisterReturns(h, pid, Role.Append, d, p.(candidates := Some(cs + [b])), V3, f);
    }
  }

  /** Some record of the line has this id. */
  ghost predicate InLine(p: Period, id: Id) {
    || (p.continuation.Some? && p.continuation.value.continuationId == id)
    || exists k :: 0 <= k < |ListOf(p.successors)| && ListOf(p.successors)[k].continuationId == id
  }

  /** An id cannot enter the line twice. */
  lemma NoSecondEntry(h: Hash, c: Context, reqs: seq<Request>, plan: Plan, p: Period, r: Continuation)
    requires p.continuation.Some? && InLine(p, r.continuationId)
    ensures !Continuations.ContinuationOk(h, c, reqs, plan, p.continuation.value, ListOf(p.successors) + [r])
  {
    hide Continuations.WindowOk;
    var ss := ListOf(p.successors);
    if Continuations.LineOk(h, c, reqs, plan, p.continuation.value, ss + [r]) {
      var line := Continuations.Line(p.continuation.value, ss + [r]);
      assert Continuations.Follows(h, c, reqs, plan, line, |ss| + 1);
      assert line[|ss| + 1] == r && line[0] == p.continuation.value;
      assert forall k :: 0 <= k < |ss| ==> line[k + 1] == ss[k];
      assert false;
    }
  }

  /** A continuation registration that returns has its record in force on file; one that repeats an id of the line
      returns exactly when its record is the one in force, and changes nothing. */
  lemma ContinueReturns(h: Hash, d: Ledger, r: Continuation, f: Fault)
    ensures var e := AuthorizeContinuation(h, d, r, f); var pid := r.periodId;
            && (e.1 ==> && HasOwn(d, pid) && LedgerOk(h, d, pid) && HasOwn(e.0, pid)
                        && ActiveContinuation(OwnPeriod(e.0, pid)) == Some(r)
                        && var p := OwnPeriod(d, pid);
                           || (e.0 == d && ActiveContinuation(p) == Some(r))
                           || (e.0.schema == V5
                               && Leaves(d, e.0, pid, p, p.(successors := Some(ListOf(p.successors) + [r]))))
                           || (e.0.schema == V4 && Leaves(d, e.0, pid, p, p.(continuation := Some(r)))))
            && (LedgerOk(h, d, pid) && HasOwn(d, pid) && InLine(OwnPeriod(d, pid), r.continuationId) ==>
                  e.0 == d && (e.1 <==> ActiveContinuation(OwnPeriod(d, pid)) == Some(r)))
  {
    hide LedgerOk, Available, RegisterPeriod, Continuations.ContinuationOk;
    var pid := r.periodId;
    if HasOwn(d, pid) {
      var p := OwnPeriod(d, pid);
      var q := if r.kind.Successor? then p.(successors := Some(ListOf(p.successors) + [r]))
               else p.(continuation := Some(r));
      if InLine(p, r.continuationId) && p.continuation.Some? && p.plan.Some? {
        NoSecondEntry(h, ContextOf(q), q.requests, p.plan.value, p, r);
      }
      RegisterReturns(h, pid, Role.Continue, d, q, if r.kind.Successor? then V5 else V4, f);
    }
  }

  /** A reconciliation that returns found its record on file or put it last; one that repeats an id or a request returns
      exactly when its record is stored, and changes nothing. */
  lemma ReconcileReturns(h: Hash, d: Ledger, r: Reconciliation, f: Fault)
    ensures var e := ReconcileUsage(h, d, r, f); var pid := r.periodId;
            && (e.1 ==> && HasOwn(d, pid) && LedgerOk(h, d, pid)
                        && var p := OwnPeriod(d, pid); var recs := ListOf(p.reconciliations);
                           if r in recs then e.0 == d
                           else
                             && e.0.schema == V6 && HasOwn(e.0, pid)
                             && var q := OwnPeriod(e.0, pid);
                                && Leaves(d, e.0, pid, p, q) && q.reconciliations == Some(recs + [r])
                                && q == p.(reconciliations := q.reconciliations, knownCost := q.knownCost,
                                           reservedCost := q.reservedCost)
                                && q.knownCost == p.knownCost + r.cost
                                && exists i :: 0 <= i < |p.requests| && p.requests[i].id == r.requestId
                                               && q.reservedCost == p.reservedCost - p.requests[i].reservedCost)
            && (LedgerOk(h, d, pid) && HasOwn(d, pid) && Repeats(ListOf(OwnPeriod(d, pid).reconciliations), r) ==>
                  e.0 == d && (e.1 <==> r in ListOf(OwnPeriod(d, pid).reconciliations)))
  {
    hide LedgerOk, Available, RegisterPeriod;
    var pid := r.periodId;
    if HasOwn(d, pid) {
      var p := OwnPeriod(d, pid);
      var k := FindRequest(p.requests, r.requestId);
      if k < |p.requests| {
        RegisterReturns(h, pid, Role.Reconcile, d, AfterReconcile(p, k, r), V6, f);
      }
    }
  }

  ghost predicate Repeats(recs: seq<Reconciliation>, r: Reconciliation) {
    exists k :: 0 <= k < |recs| && (recs[k].reconciliationId == r.reconciliationId || recs[k].requestId == r.requestId)
  }
}
