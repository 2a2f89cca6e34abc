/** The persistent verification budget ledger as values: requests, authority records, periods. */
module LedgerData {
  import opened Options

  /** A UUID. */
  type Id = nat

  /** A SHA-256 digest. */
  type Sha = nat

  /** Money is counted in units of 10^-18 yuan. */
  const YUAN: nat := 1_000_000_000_000_000_000

  const MAX_REQUESTS: nat := 10000
  const MAX_CANDIDATES: nat := 32
  const MAX_CONTINUATIONS: nat := 32
  const MAX_RECONCILIATIONS: nat := 10000
  const BETA_TASK := "BETA-001"

  // -- Requests ---------------------------------------------------------------------------

  datatype Status = Completed | Reserved | Unknown | NotSent

  datatype Metadata = Metadata(
    requestedModel: Option<string>, priceBasis: Option<string>,
    maxAttempts: Option<int>, maxOutputTokens: Option<int>, other: map<string, string>)

  datatype Request = Request(
    id: Id, status: Status, reservedCost: nat, costEstimate: Option<nat>,
    startedAt: int, completedAt: Option<int>,
    reverificationId: Option<Id>, taskId: Option<string>, suiteId: Option<Id>,
    bindingId: Option<Id>, continuationId: Option<Id>, meta: Metadata)

  /** The cost is known and the hold has been released. */
  predicate Resolved(r: Request) { r.status.Completed? || r.status.NotSent? }

  predicate DistinctIds(reqs: seq<Request>) {
    forall i, j :: 0 <= i < j < |reqs| ==> reqs[i].id != reqs[j].id
  }

  predicate NoneReserved(reqs: seq<Request>) {
    forall i :: 0 <= i < |reqs| ==> !reqs[i].status.Reserved?
  }

  function Take(reqs: seq<Request>, n: nat): seq<Request> {
    if n <= |reqs| then reqs[..n] else reqs
  }

  // -- Authority records ------------------------------------------------------------------

  datatype Carried = Carried(id: Id, reservedCost: nat, sha: Sha)

  datatype PlanKind =
    | SuiteV1 | SuiteV2 | SuiteV3 | RollingV1 | RollingV2
    | TaskSingle | TaskBudget | TaskBudgetV2

  datatype Plan = Plan(
    kind: PlanKind, reverificationId: Id, suiteId: Option<Id>, periodId: Id,
    allocation: nat, maximumCost: nat, ledgerBefore: Sha,
    priorCount: nat, priorSha: Sha, carried: seq<Carried>)

  /** Both the one-time rebinding and the later candidates; only a candidate is linked. */
  datatype Binding = Binding(
    bindingId: Id, reverificationId: Id, periodId: Id, previousSuiteId: Id, suiteId: Id,
    ledgerBefore: Sha, planSha: Sha, priorCount: nat, priorSha: Sha,
    chargedCost: nat, remainingCost: nat, link: Option<Link>)

  datatype Link = Link(previousSha: Sha, sequence: nat)

  datatype ContinuationKind = Single | Successor | BudgetOnly

  datatype Continuation = Continuation(
    kind: ContinuationKind, continuationId: Id, reverificationId: Id, periodId: Id, taskId: string,
    ledgerBefore: Sha, priorCount: nat, priorSha: Sha, carried: seq<Carried>, previousId: Option<Id>)

  datatype Reconciliation = Reconciliation(
    reconciliationId: Id, previousId: Option<Id>, periodId: Id, requestId: Id,
    requestSha: Sha, ledgerBefore: Sha, inputTokens: nat, outputTokens: nat,
    inputRate: nat, outputRate: nat, cost: nat, recordedAt: int)

  // -- Periods and ledgers ----------------------------------------------------------------

  datatype Period = Period(
    periodId: Id, active: bool, allocation: nat, knownCost: int, reservedCost: int,
    requests: seq<Request>, plan: Option<Plan>,
    binding: Option<Binding>, candidates: Option<seq<Binding>>,
    continuation: Option<Continuation>, successors: Option<seq<Continuation>>,
    reconciliations: Option<seq<Reconciliation>>)

  /** `V1` plain, `V2` rebound, `V3` candidate chain, `V4` continuation, `V5` continuation chain, `V6` usage
      reconciliation. */
  datatype Schema = V1 | V2 | V3 | V4 | V5 | V6

  datatype Ledger = Ledger(schema: Schema, provider: string, currency: string, periods: seq<Period>)

  /** The digest functions. Nothing is assumed of them, not even freedom from collisions. */
  datatype Hash = Hash(
    requests: seq<Request> -> Sha, request: Request -> Sha, plan: Plan -> Sha,
    binding: Binding -> Sha, body: Ledger -> Sha)

  function ListOf<T>(o: Option<seq<T>>): seq<T> { if o.Some? then o.value else [] }

  /** The parts of a period that no request operation touches. */
  datatype Context = Context(periodId: Id, allocation: nat, suiteBound: bool, recs: seq<Reconciliation>)

  function ContextOf(p: Period): Context {
    Context(p.periodId, p.allocation, p.binding.Some? || p.candidates.Some?, ListOf(p.reconciliations))
  }

  // -- Sums over requests -----------------------------------------------------------------

  function CostOf(r: Request): nat { if r.costEstimate.Some? then r.costEstimate.value else 0 }

  /** `Known`: settled cost. `Held`: money still reserved. `Charged`: what counts against a plan. */
  datatype Measure = Known | Held | Charged

  function Weight(m: Measure, rc: map<Id, nat>, r: Request): nat {
    match m
    case Known =>
      if Resolved(r) then CostOf(r) else if r.status.Unknown? && r.id in rc then rc[r.id] else 0
    case Held =>
      if r.status.Reserved? || (r.status.Unknown? && r.id !in rc) then r.reservedCost else 0
    case Charged =>
      (if r.id in rc then rc[r.id] else r.reservedCost) + (if Resolved(r) then CostOf(r) else 0)
  }

  /** The sum of a measure over the requests from `lo` up to `hi`. */
  function Total(m: Measure, rc: map<Id, nat>, reqs: seq<Request>, lo: nat, hi: nat): nat
    requires hi <= |reqs|
    decreases hi
  {
    if hi <= lo then 0 else Total(m, rc, reqs, lo, hi - 1) + Weight(m, rc, reqs[hi - 1])
  }

  lemma {:induction false} TotalAgrees(m: Measure, rc: map<Id, nat>, a: seq<Request>, b: seq<Request>, lo: nat, hi: nat)
    requires hi <= |a| && hi <= |b|
    requires forall i :: lo <= i < hi ==> Weight(m, rc, a[i]) == Weight(m, rc, b[i])
    ensures Total(m, rc, a, lo, hi) == Total(m, rc, b, lo, hi)
    decreases hi
  {
    if hi > lo { TotalAgrees(m, rc, a, b, lo, hi - 1); }
  }

  lemma {:induction false} TotalSplits(m: Measure, rc: map<Id, nat>, reqs: seq<Request>, lo: nat, mid: nat, hi: nat)
    requires lo <= mid <= hi <= |reqs|
    ensures Total(m, rc, reqs, lo, hi) == Total(m, rc, reqs, lo, mid) + Total(m, rc, reqs, mid, hi)
    decreases hi
  {
    if hi > mid { TotalSplits(m, rc, reqs, lo, mid, hi - 1); }
  }

  /** Replacing one request moves the sum by the difference of its weights. */
  lemma TotalUpdates(m: Measure, rc: map<Id, nat>, reqs: seq<Request>, k: nat, r: Request, lo: nat)
    requires lo <= k < |reqs|
    ensures Total(m, rc, reqs[k := r], lo, |reqs|) + Weight(m, rc, reqs[k])
         == Total(m, rc, reqs, lo, |reqs|) + Weight(m, rc, r)
  {
    var b := reqs[k := r];
    TotalSplits(m, rc, reqs, lo, k, |reqs|);
    TotalSplits(m, rc, b, lo, k, |reqs|);
    TotalSplits(m, rc, reqs, k, k + 1, |reqs|);
    TotalSplits(m, rc, b, k, k + 1, |reqs|);
    TotalAgrees(m, rc, reqs, b, lo, k);
    TotalAgrees(m, rc, reqs, b, k + 1, |reqs|);
  }

  lemma TotalAppends(m: Measure, rc: map<Id, nat>, reqs: seq<Request>, r: Request, lo: nat)
    requires lo <= |reqs|
    ensures Total(m, rc, reqs + [r], lo, |reqs| + 1) == Total(m, rc, reqs, lo, |reqs|) + Weight(m, rc, r)
  {
    TotalAgrees(m, rc, reqs, reqs + [r], lo, |reqs|);
  }

  // -- How a request list may change ------------------------------------------------------

  predicate SameLabels(a: Request, b: Request) {
    && a.id == b.id && a.reverificationId == b.reverificationId && a.taskId == b.taskId
    && a.suiteId == b.suiteId && a.bindingId == b.bindingId && a.continuationId == b.continuationId
    && a.meta == b.meta && a.startedAt == b.startedAt
  }

  /** An entry stays as it is, or was reserved and keeps its labels. */
  predicate KeptOrSettled(a: Request, b: Request) { a == b || (a.status.Reserved? && SameLabels(a, b)) }

  predicate Evolves(a: seq<Request>, b: seq<Request>) {
    |a| <= |b| && forall i :: 0 <= i < |a| ==> KeptOrSettled(a[i], b[i])
  }

  lemma EvolvesTrans(a: seq<Request>, b: seq<Request>, c: seq<Request>)
    requires Evolves(a, b) && Evolves(b, c)
    ensures Evolves(a, c)
  {
    forall i | 0 <= i < |a| ensures KeptOrSettled(a[i], c[i]) {
      assert KeptOrSettled(a[i], b[i]) && KeptOrSettled(b[i], c[i]);
    }
  }

  /** A prefix without reserved entries is frozen. */
  lemma PrefixKept(a: seq<Request>, b: seq<Request>, n: nat)
    requires Evolves(a, b) && n <= |a| && NoneReserved(a[..n])
    ensures a[..n] == b[..n]
  {
    forall i | 0 <= i < n ensures a[i] == b[i] { assert !a[..n][i].status.Reserved? && KeptOrSettled(a[i], b[i]); }
  }
}
