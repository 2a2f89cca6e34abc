/** What each ledger operation does to the owner's memory and to the file. */
module LedgerSteps {
  import opened Options
  import opened LedgerData
  import opened Validity
  import Rec = Reconciliations
  import Plans
  import Bindings
  import Continuations

  /** Whom the owner claims to act for. */
  datatype Identity = Identity(
    reverificationId: Option<Id>, suiteId: Option<Id>, taskId: Option<string>, continuationId: Option<Id>)

  const NOBODY := Identity(None, None, None, None)

  /** `Requests` reserves and settles; the others open the ledger to register one record. */
  datatype Role = Requests | Register | Append | Continue | Reconcile

  /** The owner's memory: the working data, the body it last read or wrote, and the allocation seen at entry. */
  datatype Owner = Owner(pid: Id, identity: Identity, role: Role, data: Ledger, body: Ledger, allocation: nat)

  /** A save may succeed, fail before the file is replaced (the size cap included), or fail after. */
  datatype Fault = NoFault | BeforeReplace | AfterReplace

  // -- Who may reserve --------------------------------------------------------------------

  function ActiveBinding(p: Period): Option<Binding> {
    var cs := ListOf(p.candidates);
    if cs != [] then Some(cs[|cs| - 1]) else p.binding
  }

  function ActiveContinuation(p: Period): Option<Continuation> {
    var ss := ListOf(p.successors);
    if ss != [] then Some(ss[|ss| - 1]) else p.continuation
  }

  /** The owner names the active continuation, whose window still has room. */
  predicate ContinuationAdmits(h: Hash, who: Identity, p: Period) {
    var active := ActiveContinuation(p);
    || (active.None? && who.continuationId.None?)
    || (&& active.Some? && p.continuation.Some? && p.plan.Some?
        && who.continuationId == Some(active.value.continuationId)
        && who.reverificationId == Some(active.value.reverificationId)
        && who.taskId == Some(active.value.taskId) && who.suiteId.None?
        && Continuations.ContinuationOk(h, ContextOf(p), p.requests, p.plan.value, p.continuation.value,
                                        ListOf(p.successors))
        && var max := Continuations.MaximumRequests(active.value.kind);
           max.Some? ==> |p.requests| - active.value.priorCount < max.value)
  }

  /** The plan's identity is in play: the plan is task scoped, or the owner names a plan, a suite or a task. */
  predicate NamesPlan(who: Identity, p: Period) {
    || (p.plan.Some? && Plans.TaskScoped(p.plan.value.kind))
    || who.reverificationId.Some? || who.suiteId.Some? || who.taskId.Some?
  }

  predicate PlanAdmits(h: Hash, who: Identity, p: Period) {
    && p.plan.Some? && who.reverificationId == Some(p.plan.value.reverificationId)
    && (if Plans.TaskScoped(p.plan.value.kind) then
          who.taskId == Some(BETA_TASK) && who.suiteId.None? && ActiveBinding(p).None?
        else
          && who.taskId.None?
          && who.suiteId == (if ActiveBinding(p).Some? then Some(ActiveBinding(p).value.suiteId)
                             else p.plan.value.suiteId))
    && Plans.PlanOk(h, ContextOf(p), p.requests, p.plan.value)
  }

  /** The unknown requests that the authority in force lets stand unresolved. */
  predicate Allowed(who: Identity, p: Period, i: nat)
    requires i < |p.requests|
  {
    && NamesPlan(who, p) && p.plan.Some?
    && (match ActiveContinuation(p)
        case Some(cont) => Plans.CarriedIn(cont.carried, p.requests[i].id)
        case None =>
          || Plans.CarriedIn(p.plan.value.carried, p.requests[i].id)
          || (Plans.Rolling(p.plan.value.kind) && p.plan.value.priorCount <= i
              && p.requests[i].reverificationId == Some(p.plan.value.reverificationId)))
  }

  /** `require_available`. */
  predicate Available(h: Hash, who: Identity, p: Period) {
    && ContinuationAdmits(h, who, p)
    && (NamesPlan(who, p) ==> PlanAdmits(h, who, p))
    && (forall i :: 0 <= i < |p.requests| ==>
          !p.requests[i].status.Reserved?
          && (p.requests[i].status.Unknown? ==> Allowed(who, p, i) || p.requests[i].id in Rec.Costs(ContextOf(p).recs)))
  }

  // -- Saving -----------------------------------------------------------------------------

  /** Everything outside the owner's period, except the schema, is as it was. */
  predicate RestKept(o: Owner)
    requires HasOwn(o.data, o.pid) && HasOwn(o.body, o.pid)
  {
    WithOwn(o.data, o.pid, OwnPeriod(o.body, o.pid)).(schema := o.body.schema) == o.body
  }

  predicate Extended<T(==)>(before: seq<T>, after: seq<T>) { |after| == |before| + 1 && after[..|before|] == before }

  /** One reservation turned into its outcome. */
  predicate SettleShape(a: Request, b: Request) {
    && a.status.Reserved? && b.completedAt.Some?
    && (match b.status
        case Reserved => false
        case Unknown => b == a.(status := Unknown, completedAt := b.completedAt)
        case _ =>
          && b.costEstimate.Some? && b.costEstimate.value <= a.reservedCost
          && (b.status.NotSent? ==> b.costEstimate.value == 0)
          && b == a.(status := b.status, completedAt := b.completedAt, reservedCost := 0,
                     costEstimate := b.costEstimate))
  }

  predicate RequestsStep(a: seq<Request>, b: seq<Request>) {
    && |a| <= |b| <= |a| + 1
    && (|b| > |a| ==> b[|a|].status.Reserved? && b[|a|].costEstimate.None? && b[|a|].completedAt.None?)
    && (forall i :: 0 <= i < |a| ==> a[i] == b[i] || SettleShape(a[i], b[i]))
  }

  function Fixed(p: Period): Period { p.(requests := [], knownCost := 0, reservedCost := 0) }

  /** `_validate_continuation_save`. */
  predicate ContinuationSaveOk(h: Hash, o: Owner)
    requires HasOwn(o.data, o.pid) && HasOwn(o.body, o.pid)
  {
    var before, after := OwnPeriod(o.body, o.pid), OwnPeriod(o.data, o.pid);
    var oldLine, line := ListOf(before.successors), ListOf(after.successors);
    || (before.continuation.None? && after.continuation.None?)
    || (RestKept(o)
        && if line != oldLine then
             && o.role.Continue? && o.data.schema.V5? && Extended(oldLine, line)
             && line[|oldLine|].ledgerBefore == h.body(o.body) && line[|oldLine|].priorCount == |before.requests|
             && after.(successors := None) == before.(successors := None)
           else if before.continuation.None? then
             && o.role.Continue? && after.continuation.value.ledgerBefore == h.body(o.body)
             && after.continuation.value.priorCount == |before.requests|
             && after.(continuation := None) == before
           else
             && after.continuation == before.continuation && o.data.schema == o.body.schema
             && Fixed(after) == Fixed(before) && RequestsStep(before.requests, after.requests))
  }

  /** `_validate_usage_reconciliation_save`. */
  predicate ReconcileSaveOk(h: Hash, o: Owner)
    requires HasOwn(o.data, o.pid) && HasOwn(o.body, o.pid)
  {
    var before, after := OwnPeriod(o.body, o.pid), OwnPeriod(o.data, o.pid);
    var oldRecs, recs := ListOf(before.reconciliations), ListOf(after.reconciliations);
    && o.role.Reconcile? && o.data.schema.V6? && Extended(oldRecs, recs)
    && (var r := recs[|oldRecs|];
        exists i :: 0 <= i < |before.requests| && before.requests[i].id == r.requestId
          && (forall j :: 0 <= j < i ==> before.requests[j].id != r.requestId)
          && r.ledgerBefore == h.body(o.body)
          && after.knownCost == before.knownCost + r.cost
          && after.reservedCost == before.reservedCost - before.requests[i].reservedCost)
    && after.(knownCost := 0, reservedCost := 0, reconciliations := None)
       == before.(knownCost := 0, reservedCost := 0, reconciliations := None)
    && RestKept(o)
  }

  predicate BindingSaveOk(h: Hash, o: Owner)
    requires HasOwn(o.data, o.pid) && HasOwn(o.body, o.pid)
  {
    var before, after := OwnPeriod(o.body, o.pid), OwnPeriod(o.data, o.pid);
    if before.binding.Some? then
      && after.binding == before.binding
      && (if ListOf(after.candidates) != ListOf(before.candidates) then
            && o.role.Append? && o.data.schema.V3? && Extended(ListOf(before.candidates), ListOf(after.candidates))
            && ListOf(after.candidates)[|ListOf(before.candidates)|].ledgerBefore == h.body(o.body)
            && after.(candidates := None) == before.(candidates := None)
          else o.data.schema == o.body.schema)
    else
      after.binding.Some? ==> after.binding.value.ledgerBefore == h.body(o.body) && after.requests == before.requests
  }

  /** Everything `_save` checks before it replaces the file. */
  predicate SaveAccepts(h: Hash, o: Owner, disk: Ledger) {
    && LedgerOk(h, o.data, o.pid) && LedgerOk(h, o.body, o.pid)
    && HasOwn(o.data, o.pid) && HasOwn(o.body, o.pid)
    && (if o.role.Reconcile? then ReconcileSaveOk(h, o) else ContinuationSaveOk(h, o))
    && (OwnPeriod(o.body, o.pid).plan.Some? ==> OwnPeriod(o.data, o.pid).plan == OwnPeriod(o.body, o.pid).plan)
    && BindingSaveOk(h, o)
    && disk == o.body && OwnPeriod(o.data, o.pid).allocation == o.allocation
  }

  /** `_save`: the owner, the file and whether the call returned normally. */
  function Save(h: Hash, o: Owner, disk: Ledger, f: Fault): (Owner, Ledger, bool) {
    if !SaveAccepts(h, o, disk) || f.BeforeReplace? then (o, disk, false)
    else if f.AfterReplace? then (o, o.data, false)
    else (o.(body := o.data), o.data, true)
  }

  // -- Opening, reserving, settling -------------------------------------------------------

  /** `__enter__`: the file must be valid, and a request owner must be available. */
  function Enter(h: Hash, pid: Id, who: Identity, role: Role, disk: Ledger): Option<Owner> {
    if LedgerOk(h, disk, pid) && HasOwn(disk, pid) && (role.Requests? ==> Available(h, who, OwnPeriod(disk, pid))) then
      Some(Owner(pid, who, role, disk, disk, OwnPeriod(disk, pid).allocation))
    else None
  }

  const OTHER_METADATA := {"purpose", "region", "thread_id", "turn_id", "step"}

  /** The guards of `reserve`, in memory. */
  predicate ReserveGuard(h: Hash, o: Owner, units: int, meta: Metadata) {
    && o.role.Requests? && HasOwn(o.data, o.pid)
    && var p := OwnPeriod(o.data, o.pid);
       && Available(h, o.identity, p) && meta.other.Keys <= OTHER_METADATA
       && (p.plan.Some? ==>
             && Plans.PlanOk(h, ContextOf(p), p.requests, p.plan.value)
             && Plans.ChargedTo(ContextOf(p), p.requests, p.plan.value) + units <= p.plan.value.maximumCost)
       && 0 < units && p.knownCost + p.reservedCost + units <= o.allocation
  }

  function NewRequest(who: Identity, p: Period, units: nat, meta: Metadata, id: Id, now: int): Request {
    Request(
      id, Reserved, units, None, now, None,
      if p.plan.Some? then Some(p.plan.value.reverificationId) else None,
      if p.plan.Some? && Plans.TaskScoped(p.plan.value.kind) then Some(BETA_TASK) else None,
      if ActiveBinding(p).Some? then Some(ActiveBinding(p).value.suiteId) else None,
      if ActiveBinding(p).Some? then Some(ActiveBinding(p).value.bindingId) else None,
      who.continuationId, meta)
  }

  function AfterReserve(p: Period, r: Request): Period {
    p.(requests := p.requests + [r], reservedCost := p.reservedCost + r.reservedCost)
  }

  /** The owner's memory after the append in `reserve`. */
  function ReserveData(o: Owner, units: nat, meta: Metadata, id: Id, now: int): Owner
    requires HasOwn(o.data, o.pid)
  {
    var p := OwnPeriod(o.data, o.pid);
    o.(data := WithOwn(o.data, o.pid, AfterReserve(p, NewRequest(o.identity, p, units, meta, id, now))))
  }

  /** `reserve`. */
  function Reserve(h: Hash, o: Owner, disk: Ledger, units: int, meta: Metadata, id: Id, now: int,
                   f: Fault): (Owner, Ledger, bool) {
    if ReserveGuard(h, o, units, meta) then Save(h, ReserveData(o, units, meta, id, now), disk, f) else (o, disk, false)
  }

  /** The first request with this id, or the length of the list. */
  function FindRequest(reqs: seq<Request>, id: Id): (k: nat)
    ensures k <= |reqs|
    ensures k < |reqs| ==> reqs[k].id == id
    ensures forall j :: 0 <= j < k ==> reqs[j].id != id
  {
    if reqs == [] || reqs[0].id == id then 0 else 1 + FindRequest(reqs[1..], id)
  }

  /** The guard of `settle` on the request it found. */
  predicate SettleArgs(held: nat, cost: Option<int>, sent: bool) {
    && (cost.Some? ==> 0 <= cost.value <= held)
    && (!sent ==> cost.None? || cost.value == 0)
  }

  predicate SettleGuard(o: Owner, id: Id, cost: Option<int>, sent: bool) {
    && HasOwn(o.data, o.pid)
    && var reqs := OwnPeriod(o.data, o.pid).requests;
       var k := FindRequest(reqs, id);
       k < |reqs| && reqs[k].status.Reserved? && SettleArgs(reqs[k].reservedCost, cost, sent)
  }

  function SettledRequest(r: Request, cost: Option<int>, sent: bool, now: int): Request
    requires SettleArgs(r.reservedCost, cost, sent)
  {
    if sent && cost.None? then r.(status := Unknown, completedAt := Some(now))
    else r.(status := (if sent then Completed else NotSent), reservedCost := 0,
            costEstimate := Some(if cost.Some? then cost.value else 0), completedAt := Some(now))
  }

  function AfterSettle(p: Period, k: nat, cost: Option<int>, sent: bool, now: int): Period
    requires k < |p.requests| && SettleArgs(p.requests[k].reservedCost, cost, sent)
  {
    var held := p.requests[k].reservedCost;
    var q := p.(requests := p.requests[k := SettledRequest(p.requests[k], cost, sent, now)]);
    if sent && cost.None? then q
    else q.(reservedCost := p.reservedCost - held, knownCost := p.knownCost + (if cost.Some? then cost.value else 0))
  }

  function SettleData(o: Owner, id: Id, cost: Option<int>, sent: bool, now: int): Owner
    requires SettleGuard(o, id, cost, sent)
  {
    var p := OwnPeriod(o.data, o.pid);
    o.(data := WithOwn(o.data, o.pid, AfterSettle(p, FindRequest(p.requests, id), cost, sent, now)))
  }

  /** `settle`. */
  function Settle(h: Hash, o: Owner, disk: Ledger, id: Id, cost: Option<int>, sent: bool, now: int,
                  f: Fault): (Owner, Ledger, bool) {
    if SettleGuard(o, id, cost, sent) then Save(h, SettleData(o, id, cost, sent, now), disk, f) else (o, disk, false)
  }

  // -- Registrations ----------------------------------------------------------------------

  /** Opens the file for a registration, replaces the owner's period and saves. */
  function RegisterPeriod(h: Hash, o: Owner, disk: Ledger, p: Period, schema: Schema, f: Fault): (Ledger, bool)
    requires HasOwn(o.data, o.pid)
  {
    var (_, after, ok) := Save(h, o.(data := WithOwn(o.data, o.pid, p).(schema := schema)), disk, f);
    (after, ok)
  }

  /** `authorize_reverification`. */
  function Authorize(h: Hash, disk: Ledger, plan: Plan, f: Fault): (Ledger, bool) {
    match Enter(h, plan.periodId, NOBODY, Role.Register, disk)
    case None => (disk, false)
    case Some(o) =>
      var p := OwnPeriod(disk, o.pid);
      if p.plan.Some? then (disk, p.plan.value == plan)
      else if Plans.WellFormed(plan) && h.body(disk) == plan.ledgerBefore && |p.requests| == plan.priorCount
              && Plans.PlanOk(h, ContextOf(p), p.requests, plan)
              && p.knownCost + p.reservedCost + plan.maximumCost <= p.allocation then
        RegisterPeriod(h, o, disk, p.(plan := Some(plan)), disk.schema, f)
      else (disk, false)
  }

  /** `rebind_reverification`. */
  function Rebind(h: Hash, disk: Ledger, b: Binding, f: Fault): (Ledger, bool) {
    match Enter(h, b.periodId, NOBODY, Role.Register, disk)
    case None => (disk, false)
    case Some(o) =>
      var p := OwnPeriod(disk, o.pid);
      if p.binding.Some? then (disk, p.binding.value == b)
      else if p.plan.Some? && !Plans.TaskScoped(p.plan.value.kind) && h.body(disk) == b.ledgerBefore
              && |p.requests| == b.priorCount && Bindings.RebindingOk(h, ContextOf(p), p.requests, p.plan.value, b) then
        RegisterPeriod(h, o, disk, p.(binding := Some(b)), V2, f)
      else (disk, false)
  }

  /** `append_reverification_binding`. */
  function AppendCandidate(h: Hash, disk: Ledger, b: Binding, f: Fault): (Ledger, bool) {
    match Enter(h, b.periodId, NOBODY, Role.Append, disk)
    case None => (disk, false)
    case Some(o) =>
      var p := OwnPeriod(disk, o.pid);
      var cs := ListOf(p.candidates);
      if exists k :: 0 <= k < |cs| && cs[k].bindingId == b.bindingId then (disk, b in cs)
      else if p.plan.Some? && !Plans.TaskScoped(p.plan.value.kind) && p.binding.Some? && |cs| < MAX_CANDIDATES
              && h.body(disk) == b.ledgerBefore && |p.requests| == b.priorCount
              && Bindings.ChainOk(h, ContextOf(p), p.requests, p.plan.value, p.binding.value, cs + [b]) then
        RegisterPeriod(h, o, disk, p.(candidates := Some(cs + [b])), V3, f)
      else (disk, false)
  }

  /** `authorize_task_continuation`. */
  function AuthorizeContinuation(h: Hash, disk: Ledger, r: Continuation, f: Fault): (Ledger, bool) {
    match Enter(h, r.periodId, NOBODY, Role.Continue, disk)
    case None => (disk, false)
    case Some(o) =>
      var p := OwnPeriod(disk, o.pid);
      var existing := ActiveContinuation(p);
      if existing == Some(r) then (disk, true)
      else if (existing.Some? && !r.kind.Successor?)
              || (r.kind.Successor? && (existing.None? || r.previousId != Some(existing.value.continuationId)))
              || p.plan.None? || h.body(disk) != r.ledgerBefore || |p.requests| != r.priorCount then (disk, false)
      else
        var q := if r.kind.Successor? then p.(successors := Some(ListOf(p.successors) + [r]))
                 else p.(continuation := Some(r));
        if q.continuation.Some?
           && Continuations.ContinuationOk(h, ContextOf(q), q.requests, p.plan.value, q.continuation.value,
                                           ListOf(q.successors)) then
          RegisterPeriod(h, o, disk, q, if r.kind.Successor? then V5 else V4, f)
        else (disk, false)
  }

  /** `reconcile_usage`. */
  function ReconcileUsage(h: Hash, disk: Ledger, r: Reconciliation, f: Fault): (Ledger, bool) {
    match Enter(h, r.periodId, NOBODY, Role.Reconcile, disk)
    case None => (disk, false)
    case Some(o) =>
      var p := OwnPeriod(disk, o.pid);
      var recs := ListOf(p.reconciliations);
      var k := FindRequest(p.requests, r.requestId);
      if r in recs then (disk, true)
      else if (exists j ::
                 0 <= j < |recs|
                 && (recs[j].reconciliationId == r.reconciliationId || recs[j].requestId == r.requestId))
              || h.body(disk) != r.ledgerBefore
              || r.previousId != (if recs == [] then None else Some(recs[|recs| - 1].reconciliationId))
              || k == |p.requests| then (disk, false)
      else
        RegisterPeriod(h, o, disk, AfterReconcile(p, k, r), V6, f)
  }

  function AfterReconcile(p: Period, k: nat, r: Reconciliation): Period
    requires k < |p.requests|
  {
    p.(reconciliations := Some(ListOf(p.reconciliations) + [r]), knownCost := p.knownCost + r.cost,
       reservedCost := p.reservedCost - p.requests[k].reservedCost)
  }
}
