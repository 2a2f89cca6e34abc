/** The ledger owner as an object over a shared file; every method is proved against its step. */
module BudgetLedger {
  import opened Options
  import opened LedgerData
  import opened Validity
  import opened LedgerSteps
  import Plans
  import Bindings
  import Continuations

  /** The ledger file that all owners share. */
  class LedgerFile {
    var content: Ledger

    constructor (content: Ledger)
      ensures this.content == content
    {
      this.content := content;
    }
  }

  /** The loop of `_validate_continuation_save` over old and new requests. */
  method CheckRequestsStep(a: seq<Request>, b: seq<Request>) returns (ok: bool)
    ensures ok <==> RequestsStep(a, b)
  {
    if |b| < |a| || |b| > |a| + 1 { return false; }
    if |b| > |a| && !(b[|a|].status.Reserved? && b[|a|].costEstimate.None? && b[|a|].completedAt.None?) {
      return false;
    }
    for i := 0 to |a|
      invariant forall j :: 0 <= j < i ==> a[j] == b[j] || SettleShape(a[j], b[j])
    {
      if a[i] != b[i] && !SettleShape(a[i], b[i]) { return false; }
    }
    return true;
  }

  /** `_validate_continuation_save`. */
  method CheckContinuationSave(h: Hash, o: Owner) returns (ok: bool)
    requires HasOwn(o.data, o.pid) && HasOwn(o.body, o.pid)
    ensures ok <==> ContinuationSaveOk(h, o)
  {
    hide RequestsStep, RestKept;
    var before, after := OwnPeriod(o.body, o.pid), OwnPeriod(o.data, o.pid);
    if before.continuation.None? && after.continuation.None? { return true; }
    if !RestKept(o) { return false; }
    var oldLine, line := ListOf(before.successors), ListOf(after.successors);
    if line != oldLine {
      return o.role.Continue? && o.data.schema.V5? && Extended(oldLine, line)
             && line[|oldLine|].ledgerBefore == h.body(o.body) && line[|oldLine|].priorCount == |before.requests|
             && after.(successors := None) == before.(successors := None);
    }
    if before.continuation.None? {
      return o.role.Continue? && after.continuation.value.ledgerBefore == h.body(o.body)
             && after.continuation.value.priorCount == |before.requests| && after.(continuation := None) == before;
    }
    if after.continuation != before.continuation || o.data.schema != o.body.schema || Fixed(after) != Fixed(before) {
      return false;
    }
    ok := CheckRequestsStep(before.requests, after.requests);
  }

  class VerificationBudgetLedger {
    const h: Hash
    const file: LedgerFile
    const pid: Id
    const who: Identity
    const role: Role
    var live: bool
    var data: Ledger
    var body: Ledger
    var allocation: nat

    constructor (h: Hash, file: LedgerFile, pid: Id, who: Identity, role: Role)
      ensures this.h == h && this.file == file && this.pid == pid && this.who == who && this.role == role && !live
    {
      this.h, this.file, this.pid, this.who, this.role := h, file, pid, who, role;
      live := false;
      data := Ledger(V1, "", "", []);
      body := Ledger(V1, "", "", []);
      allocation := 0;
    }

    ghost function View(): Owner
      reads this
    {
      Owner(pid, who, role, data, body, allocation)
    }

    /** Reads the file, validates every layer and, for a request owner, demands availability. */
    method Enter() returns (ok: bool)
      modifies this
      ensures ok <==> !old(live) && LedgerSteps.Enter(h, pid, who, role, file.content).Some?
      ensures ok ==> live && View() == LedgerSteps.Enter(h, pid, who, role, file.content).value
      ensures !ok ==> live == old(live)
    {
      hide LedgerOk, Available;
      if live { return false; }
      body := file.content;
      var valid := ValidateLedger(h, body, pid);
      if !valid || !HasOwn(body, pid) { return false; }
      data := body;
      allocation := OwnPeriod(data, pid).allocation;
      if role.Requests? && !Available(h, who, OwnPeriod(data, pid)) { return false; }
      live := true;
      return true;
    }

    method Close()
      modifies this`live
      ensures !live
    {
      live := false;
    }

    method SaveChecks() returns (ok: bool)
      ensures ok <==> SaveAccepts(h, View(), file.content)
    {
      hide LedgerOk, ContinuationSaveOk, BindingSaveOk, ReconcileSaveOk;
      var dataOk := ValidateLedger(h, data, pid);
      if !dataOk || !HasOwn(data, pid) { return false; }
      var bodyOk := ValidateLedger(h, body, pid);
      if !bodyOk || !HasOwn(body, pid) { return false; }
      var before, after := OwnPeriod(body, pid), OwnPeriod(data, pid);
      var o := Owner(pid, who, role, data, body, allocation);
      if role.Reconcile? {
        if !ReconcileSaveOk(h, o) { return false; }
      } else {
        var kept := CheckContinuationSave(h, o);
        if !kept { return false; }
      }
      if before.plan.Some? && after.plan != before.plan { return false; }
      if !BindingSaveOk(h, o) { return false; }
      return file.content == body && after.allocation == allocation;
    }

    /** Checks, then replaces the file; a fault may strike before or after the replace. A closed owner stops before
        it. */
    method Save(f: Fault) returns (ok: bool)
      modifies this`body, file
      ensures (View(), file.content, ok)
              == LedgerSteps.Save(h, old(View()), old(file.content), if live then f else BeforeReplace)
    {
      hide SaveAccepts;
      if !live { return false; }
      var accepted := SaveChecks();
      if !accepted || f.BeforeReplace? { return false; }
      file.content := data;
      if f.AfterReplace? { return false; }
      body := data;
      return true;
    }

    method Reserve(units: int, meta: Metadata, id: Id, now: int, f: Fault) returns (reservation: Option<Id>)
      modifies this`data, this`body, file
      ensures !live ==> reservation.None? && View() == old(View()) && file.content == old(file.content)
      ensures live ==>
                (View(), file.content, reservation.Some?)
                == LedgerSteps.Reserve(h, old(View()), old(file.content), units, meta, id, now, f)
      ensures reservation.Some? ==> reservation == Some(id)
    {
      hide LedgerSteps.Save, Available, Plans.PlanOk, Plans.ChargedTo;
      if !live || !role.Requests? || !HasOwn(data, pid) { return None; }
      var p := OwnPeriod(data, pid);
      if !Available(h, who, p) || !(meta.other.Keys <= OTHER_METADATA) { return None; }
      if p.plan.Some? {
        var charged := Plans.Validate(h, ContextOf(p), p.requests, p.plan.value);
        if charged.None? || charged.value + units > p.plan.value.maximumCost { return None; }
      }
      if units <= 0 || p.knownCost + p.reservedCost + units > allocation { return None; }
      assert ReserveGuard(h, View(), units, meta);
      data := WithOwn(data, pid, p.(requests := p.requests + [NewRequest(who, p, units, meta, id, now)],
                                    reservedCost := p.reservedCost + units));
      assert View() == ReserveData(old(View()), units, meta, id, now);
      var saved := Save(f);
      if !saved { return None; }
      return Some(id);
    }

    /** A closed owner still changes its memory before the save stops it. */
    method Settle(id: Id, cost: Option<int>, sent: bool, now: int, f: Fault) returns (ok: bool)
      modifies this`data, this`body, file
      ensures (View(), file.content, ok)
              == LedgerSteps.Settle(h, old(View()), old(file.content), id, cost, sent, now,
                                    if live then f else BeforeReplace)
    {
      hide LedgerSteps.Save;
      if !HasOwn(data, pid) { return false; }
      var p := OwnPeriod(data, pid);
      var k := FindRequest(p.requests, id);
      if k == |p.requests| { return false; }
      var r := p.requests[k];
      var held := r.reservedCost;
      if !r.status.Reserved? || (cost.Some? && !(0 <= cost.value <= held)) || (!sent && cost.Some? && cost.value != 0) {
        return false;
      }
      var q := p;
      if sent && cost.None? {
        r := r.(status := Unknown);
      } else {
        var known := if cost.Some? then cost.value else 0;
        r := r.(status := (if sent then Completed else NotSent), reservedCost := 0, costEstimate := Some(known));
        q := q.(reservedCost := q.reservedCost - held, knownCost := q.knownCost + known);
      }
      r := r.(completedAt := Some(now));
      data := WithOwn(data, pid, q.(requests := q.requests[k := r]));
      assert View() == SettleData(old(View()), id, cost, sent, now);
      ok := Save(f);
    }

    /** The tail of every registration: put the new period and schema in place and save. */
    method Put(p: Period, schema: Schema, f: Fault) returns (ok: bool)
      requires live && HasOwn(data, pid)
      modifies this`data, this`body, file
      ensures (file.content, ok) == RegisterPeriod(h, old(View()), old(file.content), p, schema, f)
    {
      hide LedgerSteps.Save;
      data := WithOwn(data, pid, p).(schema := schema);
      ok := Save(f);
    }
  }

  method AuthorizeReverification(h: Hash, file: LedgerFile, plan: Plan, f: Fault) returns (ok: bool)
    modifies file
    ensures (file.content, ok) == Authorize(h, old(file.content), plan, f)
  {
    hide RegisterPeriod, LedgerSteps.Enter, Plans.PlanOk;
    var owner := new VerificationBudgetLedger(h, file, plan.periodId, NOBODY, Role.Register);
    var entered := owner.Enter();
    if !entered { return false; }
    EnterFacts(h, plan.periodId, NOBODY, Role.Register, file.content);
    var p := OwnPeriod(owner.data, plan.periodId);
    if p.plan.Some? { return p.plan.value == plan; }
    if !Plans.WellFormed(plan) || h.body(owner.body) != plan.ledgerBefore || |p.requests| != plan.priorCount {
      return false;
    }
    var charged := Plans.Validate(h, ContextOf(p), p.requests, plan);
    if charged.None? || p.knownCost + p.reservedCost + plan.maximumCost > owner.allocation { return false; }
    ok := owner.Put(p.(plan := Some(plan)), owner.data.schema, f);
  }

  method RebindReverification(h: Hash, file: LedgerFile, b: Binding, f: Fault) returns (ok: bool)
    modifies file
    ensures (file.content, ok) == Rebind(h, old(file.content), b, f)
  {
    hide RegisterPeriod, LedgerSteps.Enter, Bindings.RebindingOk;
    var owner := new VerificationBudgetLedger(h, file, b.periodId, NOBODY, Role.Register);
    var entered := owner.Enter();
    if !entered { return false; }
    EnterFacts(h, b.periodId, NOBODY, Role.Register, file.content);
    var p := OwnPeriod(owner.data, b.periodId);
    if p.binding.Some? { return p.binding.value == b; }
    if p.plan.None? || Plans.TaskScoped(p.plan.value.kind) || h.body(owner.body) != b.ledgerBefore
       || |p.requests| != b.priorCount || !Bindings.RebindingOk(h, ContextOf(p), p.requests, p.plan.value, b) {
      return false;
    }
    ok := owner.Put(p.(binding := Some(b)), V2, f);
  }

  method AppendReverificationBinding(h: Hash, file: LedgerFile, b: Binding, f: Fault) returns (ok: bool)
    modifies file
    ensures (file.content, ok) == AppendCandidate(h, old(file.content), b, f)
  {
    hide RegisterPeriod, LedgerSteps.Enter, Bindings.ChainOk;
    var owner := new VerificationBudgetLedger(h, file, b.periodId, NOBODY, Role.Append);
    var entered := owner.Enter();
    if !entered { return false; }
    EnterFacts(h, b.periodId, NOBODY, Role.Append, file.content);
    var p := OwnPeriod(owner.data, b.periodId);
    var cs := ListOf(p.candidates);
    if exists k :: 0 <= k < |cs| && cs[k].bindingId == b.bindingId { return b in cs; }
    if p.plan.None? || Plans.TaskScoped(p.plan.value.kind) || p.binding.None? || |cs| >= MAX_CANDIDATES
       || h.body(owner.body) != b.ledgerBefore || |p.requests| != b.priorCount {
      return false;
    }
    var chained := Bindings.ValidateChain(h, ContextOf(p), p.requests, p.plan.value, p.binding.value, cs + [b]);
    if !chained { return false; }
    ok := owner.Put(p.(candidates := Some(cs + [b])), V3, f);
  }

  method AuthorizeTaskContinuation(h: Hash, file: LedgerFile, r: Continuation, f: Fault) returns (ok: bool)
    modifies file
    ensures (file.content, ok) == AuthorizeContinuation(h, old(file.content), r, f)
  {
    hide RegisterPeriod, LedgerSteps.Enter, Continuations.ContinuationOk;
    var owner := new VerificationBudgetLedger(h, file, r.periodId, NOBODY, Role.Continue);
    var entered := owner.Enter();
    if !entered { return false; }
    EnterFacts(h, r.periodId, NOBODY, Role.Continue, file.content);
    var p := OwnPeriod(owner.data, r.periodId);
    var existing := ActiveContinuation(p);
    if existing == Some(r) { return true; }
    var successor := r.kind.Successor?;
    if (existing.Some? && !successor)
       || (successor && (existing.None? || r.previousId != Some(existing.value.continuationId))) {
      return false;
    }
    if p.plan.None? || h.body(owner.body) != r.ledgerBefore || |p.requests| != r.priorCount { return false; }
    var q := if successor then p.(successors := Some(ListOf(p.successors) + [r])) else p.(continuation := Some(r));
    if q.continuation.None?
       || !Continuations.ContinuationOk(h, ContextOf(q), q.requests, p.plan.value, q.continuation.value,
                                        ListOf(q.successors)) {
      return false;
    }
    ok := owner.Put(q, if successor then V5 else V4, f);
  }

  method ReconcileRequestUsage(h: Hash, file: LedgerFile, r: Reconciliation, f: Fault) returns (ok: bool)
    modifies file
    ensures (file.content, ok) == ReconcileUsage(h, old(file.content), r, f)
  {
    hide RegisterPeriod, LedgerSteps.Enter;
    var owner := new VerificationBudgetLedger(h, file, r.periodId, NOBODY, Role.Reconcile);
    var entered := owner.Enter();
    if !entered { return false; }
    EnterFacts(h, r.periodId, NOBODY, Role.Reconcile, file.content);
    var p := OwnPeriod(owner.data, r.periodId);
    var recs := ListOf(p.reconciliations);
    if r in recs { return true; }
    if exists j ::
         0 <= j < |recs| && (recs[j].reconciliationId == r.reconciliationId || recs[j].requestId == r.requestId) {
      return false;
    }
    if h.body(owner.body) != r.ledgerBefore
       || r.previousId != (if recs == [] then None else Some(recs[|recs| - 1].reconciliationId)) {
      return false;
    }
    var k := FindRequest(p.requests, r.requestId);
    if k == |p.requests| { return false; }
    ok := owner.Put(AfterReconcile(p, k, r), V6, f);
  }

  lemma EnterFacts(h: Hash, pid: Id, who: Identity, role: Role, disk: Ledger)
    requires LedgerSteps.Enter(h, pid, who, role, disk).Some?
    ensures HasOwn(disk, pid)
    ensures LedgerSteps.Enter(h, pid, who, role, disk).value
            == Owner(pid, who, role, disk, disk, OwnPeriod(disk, pid).allocation)
  {
  }
}
