/** The bounded re-verification plan: a frozen request prefix, carried unknown requests and a cost cap. */
module Plans {
  import opened Options
  import opened LedgerData
  import Rec = Reconciliations

  /** The digest of an empty request list, fixed in the budget plan contracts. */
  const EMPTY_SHA: Sha := 0x4f53cda18c2baa0c0354bb5f9a3ecbe5ed12ab4d8e11ba873c2f11161202b945

  predicate TaskScoped(k: PlanKind) { k.TaskSingle? || k.TaskBudget? || k.TaskBudgetV2? }

  predicate BudgetKind(k: PlanKind) { k.TaskBudget? || k.TaskBudgetV2? }

  predicate Rolling(k: PlanKind) { k.RollingV1? || k.RollingV2? }

  function FixedAllocation(k: PlanKind): nat {
    match k
    case SuiteV1 => 70 * YUAN
    case SuiteV2 => 60 * YUAN
    case SuiteV3 => 50 * YUAN
    case RollingV1 => 60 * YUAN
    case RollingV2 => 80 * YUAN
    case TaskSingle => 60 * YUAN
    case TaskBudget => 60 * YUAN
    case TaskBudgetV2 => 50 * YUAN
  }

  function FixedMaximum(k: PlanKind): Option<nat> {
    match k
    case SuiteV1 => Some(40 * YUAN)
    case SuiteV2 => Some(38 * YUAN)
    case SuiteV3 => Some(40 * YUAN)
    case RollingV1 => None
    case RollingV2 => None
    case TaskSingle => Some(5 * YUAN)
    case TaskBudget => Some(10 * YUAN)
    case TaskBudgetV2 => Some(50 * YUAN)
  }

  /** The closed contract of each plan version. */
  predicate WellFormed(p: Plan) {
    && p.allocation == FixedAllocation(p.kind)
    && (FixedMaximum(p.kind).Some? ==> p.maximumCost == FixedMaximum(p.kind).value)
    && (p.suiteId.None? <==> TaskScoped(p.kind))
    && (if BudgetKind(p.kind) then p.priorCount == 0 && p.carried == [] && p.priorSha == EMPTY_SHA
        else 1 <= p.priorCount <= MAX_REQUESTS && |p.carried| == 1)
  }

  predicate Frozen(h: Hash, reqs: seq<Request>, n: nat, sha: Sha) {
    n <= |reqs| && h.requests(reqs[..n]) == sha
  }

  /** Some unknown request of `reqs` has this id. */
  predicate UnknownIn(reqs: seq<Request>, id: Id) {
    exists i :: 0 <= i < |reqs| && reqs[i].status.Unknown? && reqs[i].id == id
  }

  predicate CarriedIn(carried: seq<Carried>, id: Id) {
    exists k :: 0 <= k < |carried| && carried[k].id == id
  }

  predicate CarriesExactly(h: Hash, c: Carried, r: Request) {
    c.id == r.id ==> c.reservedCost == r.reservedCost && c.reservedCost > 0 && c.sha == h.request(r)
  }

  /** The carried references are exactly the unknown requests of the prefix, with their full holds. */
  predicate CarriedOk(h: Hash, prefix: seq<Request>, carried: seq<Carried>) {
    && (forall i :: 0 <= i < |prefix| && prefix[i].status.Unknown? ==> CarriedIn(carried, prefix[i].id))
    && (forall k :: 0 <= k < |carried| ==> UnknownIn(prefix, carried[k].id))
    && (forall i, k :: 0 <= i < |prefix| && prefix[i].status.Unknown? && 0 <= k < |carried| ==>
                       CarriesExactly(h, carried[k], prefix[i]))
  }

  predicate Unscoped(r: Request) { !r.status.Reserved? && r.reverificationId.None? && r.taskId.None? }

  /** The labels every request after the prefix carries. */
  predicate Scoped(p: Plan, r: Request) {
    && r.reverificationId == Some(p.reverificationId)
    && (if TaskScoped(p.kind) then r.taskId == Some(BETA_TASK) && r.suiteId.None? && r.bindingId.None?
        else r.taskId.None?)
  }

  predicate CostPresent(r: Request) { Resolved(r) ==> r.costEstimate.Some? }

  function ChargedTo(c: Context, reqs: seq<Request>, p: Plan): nat {
    if p.priorCount <= |reqs| then Total(Charged, Rec.Costs(c.recs), reqs, p.priorCount, |reqs|) else 0
  }

  predicate PlanOk(h: Hash, c: Context, reqs: seq<Request>, p: Plan) {
    && WellFormed(p) && Rec.RecordsOk(h, c.periodId, reqs, c.recs)
    && (TaskScoped(p.kind) ==> !c.suiteBound)
    && p.periodId == c.periodId && p.allocation == c.allocation
    && Frozen(h, reqs, p.priorCount, p.priorSha)
    && (forall i :: 0 <= i < p.priorCount ==> Unscoped(reqs[i]))
    && CarriedOk(h, reqs[..p.priorCount], p.carried)
    && (forall i :: p.priorCount <= i < |reqs| ==> Scoped(p, reqs[i]) && CostPresent(reqs[i]))
    && ChargedTo(c, reqs, p) <= p.maximumCost
  }

  /** `validate_reverification_plan`: the charged cost, or a refusal. */
  method Validate(h: Hash, c: Context, reqs: seq<Request>, p: Plan) returns (charged: Option<nat>)
    ensures charged.Some? <==> PlanOk(h, c, reqs, p)
    ensures charged.Some? ==> charged.value == ChargedTo(c, reqs, p)
  {
    var recsOk := Rec.Validate(h, c.periodId, reqs, c.recs);
    if !recsOk || !WellFormed(p) || (TaskScoped(p.kind) && c.suiteBound)
       || p.periodId != c.periodId || p.allocation != c.allocation
       || !Frozen(h, reqs, p.priorCount, p.priorSha)
       || (exists i :: 0 <= i < p.priorCount && !Unscoped(reqs[i]))
       || !CarriedOk(h, reqs[..p.priorCount], p.carried) {
      return None;
    }
    hide Rec.RecordsOk, CarriedOk, WellFormed, Frozen;
    var costs, sum: nat := Rec.Costs(c.recs), 0;
    for i := p.priorCount to |reqs|
      invariant forall j :: p.priorCount <= j < i ==> Scoped(p, reqs[j]) && CostPresent(reqs[j])
      invariant sum == Total(Charged, costs, reqs, p.priorCount, i)
    {
      if !Scoped(p, reqs[i]) || !CostPresent(reqs[i]) { return None; }
      if reqs[i].id in costs {
        sum := sum + costs[reqs[i].id];
      } else {
        sum := sum + reqs[i].reservedCost;
      }
      if Resolved(reqs[i]) {
        sum := sum + reqs[i].costEstimate.value;
      }
    }
    if sum > p.maximumCost { return None; }
    return Some(sum);
  }

  lemma PrefixUnreserved(h: Hash, c: Context, reqs: seq<Request>, p: Plan)
    requires PlanOk(h, c, reqs, p)
    ensures NoneReserved(reqs[..p.priorCount])
  {
    forall i | 0 <= i < p.priorCount ensures !reqs[..p.priorCount][i].status.Reserved? {
      assert Unscoped(reqs[i]);
    }
  }

  /** Settling reservations and appending scoped requests under the cap keeps the plan valid. */
  lemma PlanKept(h: Hash, c: Context, a: seq<Request>, b: seq<Request>, p: Plan)
    requires PlanOk(h, c, a, p) && Evolves(a, b) && DistinctIds(b)
    requires forall i :: |a| <= i < |b| ==> Scoped(p, b[i])
    requires forall i :: 0 <= i < |b| ==> CostPresent(b[i])
    requires ChargedTo(c, b, p) <= p.maximumCost
    ensures PlanOk(h, c, b, p)
  {
    hide Rec.RecordsOk, CarriedOk, WellFormed;
    Rec.RecordsKept(h, c.periodId, a, b, c.recs);
    PrefixUnreserved(h, c, a, p);
    PrefixKept(a, b, p.priorCount);
    forall i | 0 <= i < p.priorCount ensures Unscoped(b[i]) {
      assert Unscoped(a[i]) && a[i] == a[..p.priorCount][i] && b[i] == b[..p.priorCount][i];
    }
    forall i | p.priorCount <= i < |b| ensures Scoped(p, b[i]) {
      if i < |a| { assert Scoped(p, a[i]) && KeptOrSettled(a[i], b[i]); }
    }
  }

  /** The charged cost of a prefix never exceeds that of the whole list. */
  lemma ChargedGrows(c: Context, reqs: seq<Request>, n: nat, p: Plan)
    requires p.priorCount <= n <= |reqs|
    ensures ChargedTo(c, reqs[..n], p) <= ChargedTo(c, reqs, p)
  {
    var rc := Rec.Costs(c.recs);
    TotalSplits(Charged, rc, reqs, p.priorCount, n, |reqs|);
    TotalAgrees(Charged, rc, reqs, reqs[..n], p.priorCount, n);
  }
}
