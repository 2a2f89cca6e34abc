/** What a registered authority pins down: the requests before it, the records it names, and how its own requests
    look. */
module AuthorityMeaning {
  import opened Options
  import opened LedgerData
  import Pricing
  import Rec = Reconciliations
  import Plans
  import Bindings
  import Continuations

  /** Different values have different digests. */
  ghost predicate Injective(h: Hash) {
    && (forall a, b :: h.requests(a) == h.requests(b) ==> a == b)
       && (forall a, b :: h.request(a) == h.request(b) ==> a == b)
    && (forall a, b :: h.plan(a) == h.plan(b) ==> a == b) && (forall a, b :: h.binding(a) == h.binding(b) ==> a == b)
  }

  /** The first `n` requests of both lists exist and agree. */
  ghost predicate SamePrefix(a: seq<Request>, b: seq<Request>, n: nat) { n <= |a| && n <= |b| && a[..n] == b[..n] }

  lemma FrozenAgree(h: Hash, a: seq<Request>, b: seq<Request>, n: nat, sha: Sha)
    requires Injective(h) && Plans.Frozen(h, a, n, sha) && Plans.Frozen(h, b, n, sha)
    ensures SamePrefix(a, b, n)
  {
  }

  /** Two files on which one plan is valid have the same requests before it. */
  lemma PlanFreezes(h: Hash, c: Context, e: Context, a: seq<Request>, b: seq<Request>, p: Plan)
    requires Injective(h) && Plans.PlanOk(h, c, a, p) && Plans.PlanOk(h, e, b, p)
    ensures SamePrefix(a, b, p.priorCount)
  {
    hide Injective, Plans.Frozen, Plans.CarriedOk, Plans.WellFormed, Rec.RecordsOk;
    FrozenAgree(h, a, b, p.priorCount, p.priorSha);
  }

  /** Two files on which one binding is valid have the same requests before it, and the same plan. */
  lemma BindingFreezes(h: Hash, c: Context, e: Context, a: seq<Request>, b: seq<Request>, p: Plan, q: Plan, bd: Binding)
    requires Injective(h) && Bindings.BaseOk(h, c, a, p, bd) && Bindings.BaseOk(h, e, b, q, bd)
    ensures SamePrefix(a, b, bd.priorCount) && p == q
  {
    hide Plans.Frozen, Plans.PlanOk, Bindings.UnknownSettled, Bindings.Accounts;
    FrozenAgree(h, a, b, bd.priorCount, bd.priorSha);
  }

  /** Two files that share a candidate as successor of their `k`-th binding share that binding. */
  lemma LinkFreezes(h: Hash, p: Plan, q: Plan, all: seq<Binding>, other: seq<Binding>, k: nat)
    requires Injective(h) && 0 < k < |all| && k < |other| && all[k] == other[k]
    requires Bindings.Linked(h, p, all, k) && Bindings.Linked(h, q, other, k)
    ensures all[k - 1] == other[k - 1]
  {
  }

  lemma WindowFreezes(h: Hash, c: Context, e: Context, a: seq<Request>, b: seq<Request>, p: Plan, q: Plan,
                      r: Continuation)
    requires Injective(h) && Continuations.WindowOk(h, c, a, p, r) && Continuations.WindowOk(h, e, b, q, r)
    ensures SamePrefix(a, b, r.priorCount)
  {
    hide Injective, Plans.Frozen, Plans.PlanOk, Plans.CarriedOk, Continuations.SuffixOk;
    FrozenAgree(h, a, b, r.priorCount, r.priorSha);
  }

  /** Two files on which one reconciliation is valid hold the same request under its id. */
  lemma RecordFreezes(h: Hash, a: seq<Request>, b: seq<Request>, r: Reconciliation, i: nat, j: nat)
    requires Injective(h) && Rec.RecordOk(h, r.periodId, a, r) && Rec.RecordOk(h, r.periodId, b, r)
    requires i < |a| && j < |b| && a[i].id == r.requestId && b[j].id == r.requestId
    ensures a[i] == b[j]
  {
    var m :| 0 <= m < |a| && Rec.UniqueAt(a, r.requestId, m) && Rec.Matches(h, a[m], r);
    var n :| 0 <= n < |b| && Rec.UniqueAt(b, r.requestId, n) && Rec.Matches(h, b[n], r);
    assert i == m && j == n;
  }

  // -- Carried references -----------------------------------------------------------------

  /** The reference names this request, with its full hold and its digest. */
  ghost predicate Refers(h: Hash, c: Carried, r: Request) {
    c.id == r.id && c.reservedCost == r.reservedCost && c.reservedCost > 0 && c.sha == h.request(r)
  }

  /** The references are exactly the unknown requests among the first `n`. */
  ghost predicate ExactlyUnknown(h: Hash, reqs: seq<Request>, n: nat, carried: seq<Carried>)
    requires n <= |reqs|
  {
    && (forall i :: 0 <= i < n && reqs[i].status.Unknown? ==>
          exists k :: 0 <= k < |carried| && Refers(h, carried[k], reqs[i]))
    && (forall k :: 0 <= k < |carried| ==>
          exists i :: 0 <= i < n && reqs[i].status.Unknown? && Refers(h, carried[k], reqs[i]))
  }

  lemma CarriedMeans(h: Hash, reqs: seq<Request>, n: nat, carried: seq<Carried>)
    requires n <= |reqs| && Plans.CarriedOk(h, reqs[..n], carried)
    ensures ExactlyUnknown(h, reqs, n, carried)
  {
    var prefix := reqs[..n];
    forall i | 0 <= i < n && reqs[i].status.Unknown? ensures exists k ::
        0 <= k < |carried| && Refers(h, carried[k], reqs[i]) {
      assert prefix[i] == reqs[i] && Plans.CarriedIn(carried, prefix[i].id);
      var k :| 0 <= k < |carried| && carried[k].id == prefix[i].id;
      assert Plans.CarriesExactly(h, carried[k], prefix[i]) && Refers(h, carried[k], reqs[i]);
    }
    forall k | 0 <= k < |carried|
      ensures exists i :: 0 <= i < n && reqs[i].status.Unknown? && Refers(h, carried[k], reqs[i])
    {
      assert Plans.UnknownIn(prefix, carried[k].id);
      var i :| 0 <= i < |prefix| && prefix[i].status.Unknown? && prefix[i].id == carried[k].id;
      assert Plans.CarriesExactly(h, carried[k], prefix[i]) && Refers(h, carried[k], reqs[i]);
    }
  }

  /** Before a valid plan nothing is reserved or labelled and exactly the carried requests are unknown; after it every
      request is the plan's own, for the one task exactly under a task plan. */
  lemma PlanMeans(h: Hash, c: Context, reqs: seq<Request>, p: Plan, i: nat)
    requires Plans.PlanOk(h, c, reqs, p) && i < |reqs|
    ensures p.priorCount <= |reqs| && ExactlyUnknown(h, reqs, p.priorCount, p.carried)
    ensures i < p.priorCount ==> !reqs[i].status.Reserved? && reqs[i].reverificationId.None? && reqs[i].taskId.None?
    ensures i >= p.priorCount ==> reqs[i].reverificationId == Some(p.reverificationId)
    ensures i >= p.priorCount && p.suiteId.None? ==>
              reqs[i].taskId == Some("BETA-001") && reqs[i].suiteId.None? && reqs[i].bindingId.None?
    ensures i >= p.priorCount && p.suiteId.Some? ==> reqs[i].taskId.None?
    ensures |p.carried| == (if p.kind == TaskBudget || p.kind == TaskBudgetV2 then 0 else 1)
  {
    hide Rec.RecordsOk, Plans.CarriedOk;
    CarriedMeans(h, reqs, p.priorCount, p.carried);
    hide ExactlyUnknown;
    assert i < p.priorCount ==> Plans.Unscoped(reqs[i]);
    assert i >= p.priorCount ==> Plans.Scoped(p, reqs[i]);
  }

  function Yuan(n: nat): nat { n * 1_000_000_000_000_000_000 }

  /** Each kind of plan fixes the allocation of its period and, unless it is a rolling one, its own maximum. */
  lemma PlanAmounts(h: Hash, c: Context, reqs: seq<Request>, p: Plan)
    requires Plans.PlanOk(h, c, reqs, p)
    ensures p.allocation == c.allocation && p.periodId == c.periodId && Plans.ChargedTo(c, reqs, p) <= p.maximumCost
    ensures match p.kind
            case SuiteV1 => p.allocation == Yuan(70) && p.maximumCost == Yuan(40)
            case SuiteV2 => p.allocation == Yuan(60) && p.maximumCost == Yuan(38)
            case SuiteV3 => p.allocation == Yuan(50) && p.maximumCost == Yuan(40)
            case RollingV1 => p.allocation == Yuan(60)
            case RollingV2 => p.allocation == Yuan(80)
            case TaskSingle => p.allocation == Yuan(60) && p.maximumCost == Yuan(5)
            case TaskBudget => p.allocation == Yuan(60) && p.maximumCost == Yuan(10)
            case TaskBudgetV2 => p.allocation == Yuan(50) && p.maximumCost == Yuan(50)
  {
    hide Rec.RecordsOk, Plans.CarriedOk;
  }

  lemma SuitePlanHasSuite(h: Hash, c: Context, reqs: seq<Request>, p: Plan)
    requires Plans.PlanOk(h, c, reqs, p) && !Plans.TaskScoped(p.kind)
    ensures p.suiteId.Some?
  {
    hide Rec.RecordsOk, Plans.CarriedOk;
  }

  /** Before a valid binding nothing is reserved, the carried requests are unknown, and no other one is unless the plan
      is the second rolling one. */
  lemma BindingMeans(h: Hash, c: Context, reqs: seq<Request>, p: Plan, b: Binding, i: nat)
    requires Bindings.BaseOk(h, c, reqs, p, b) && i < b.priorCount
    ensures b.priorCount <= |reqs| && b.priorCount <= 10000 && !reqs[i].status.Reserved? && p.suiteId.Some?
    ensures b.periodId == p.periodId && b.reverificationId == p.reverificationId && b.planSha == h.plan(p)
    ensures reqs[i].status.Unknown? && p.kind != RollingV2 ==>
              exists k :: 0 <= k < |p.carried| && p.carried[k].id == reqs[i].id
    ensures forall k :: 0 <= k < |p.carried| ==>
              exists j :: 0 <= j < b.priorCount && reqs[j].status.Unknown? && reqs[j].id == p.carried[k].id
  {
    hide Rec.RecordsOk, Plans.CarriedOk, Bindings.Accounts;
    var prefix := reqs[..b.priorCount];
    assert prefix[i] == reqs[i];
    if reqs[i].status.Unknown? && p.kind != RollingV2 {
      assert Plans.CarriedIn(p.carried, prefix[i].id);
      var k :| 0 <= k < |p.carried| && p.carried[k].id == prefix[i].id;
      assert p.carried[k].id == reqs[i].id;
    }
    SuitePlanHasSuite(h, c, prefix, p);
    hide Plans.PlanOk;
    forall k | 0 <= k < |p.carried|
      ensures exists j :: 0 <= j < b.priorCount && reqs[j].status.Unknown? && reqs[j].id == p.carried[k].id
    {
      assert Plans.UnknownIn(prefix, p.carried[k].id);
      var j :| 0 <= j < |prefix| && prefix[j].status.Unknown? && prefix[j].id == p.carried[k].id;
      assert prefix[j] == reqs[j];
    }
  }

  /** A valid rebinding comes after the plan, replaces the plan's suite by another, and labels exactly what follows
      it. */
  lemma RebindingMeans(h: Hash, c: Context, reqs: seq<Request>, p: Plan, b: Binding, i: nat)
    requires Bindings.RebindingOk(h, c, reqs, p, b) && i < |reqs|
    ensures 1 <= b.priorCount && p.priorCount <= b.priorCount && b.link == None
    ensures p.suiteId == Some(b.previousSuiteId) && b.suiteId != b.previousSuiteId
    ensures i < b.priorCount ==> reqs[i].bindingId == None
    ensures i >= b.priorCount ==> reqs[i].bindingId == Some(b.bindingId) && reqs[i].suiteId == Some(b.suiteId)
  {
    hide Plans.PlanOk, Bindings.UnknownSettled, Bindings.Accounts;
    assert i >= b.priorCount ==> Bindings.Carries(b, reqs[i]);
  }

  /** Before a valid continuation nothing is reserved and exactly its carried requests are unknown; its own requests
      carry its id; it opens a single request or, as a successor, four under a single-task plan, and any number under a
      budget plan. */
  lemma WindowMeans(h: Hash, c: Context, reqs: seq<Request>, p: Plan, r: Continuation, i: nat)
    requires Continuations.WindowOk(h, c, reqs, p, r) && i < |reqs|
    ensures r.priorCount <= |reqs| && ExactlyUnknown(h, reqs, r.priorCount, r.carried) && r.carried != []
    ensures 1 <= r.priorCount <= 10000 && p.priorCount <= r.priorCount && (r.previousId.Some? <==> r.kind.Successor?)
    ensures r.taskId == "BETA-001" && r.periodId == p.periodId && r.reverificationId == p.reverificationId
    ensures forall j, k :: 0 <= j < k < |r.carried| ==> r.carried[j].id != r.carried[k].id
    ensures i < r.priorCount ==> !reqs[i].status.Reserved?
    ensures i < r.priorCount && !r.kind.Successor? ==> reqs[i].continuationId.None?
    ensures i >= r.priorCount ==> reqs[i].continuationId == Some(r.continuationId)
    ensures match r.kind
            case Single => p.kind == TaskSingle && |reqs| - r.priorCount <= 1
            case Successor => p.kind == TaskSingle && |reqs| - r.priorCount <= 4
            case BudgetOnly => p.kind == TaskBudget || p.kind == TaskBudgetV2
  {
    hide Plans.PlanOk, Plans.CarriedOk;
    CarriedMeans(h, reqs, r.priorCount, r.carried);
    hide ExactlyUnknown;
    assert i < r.priorCount ==> reqs[..r.priorCount][i] == reqs[i];
  }

  // -- Chains -----------------------------------------------------------------------------

  /** A valid chain starts with a rebinding away from the plan's suite, and its `k`-th candidate is numbered `k` and
      takes over from the suite before it. */
  lemma ChainMeans(h: Hash, c: Context, reqs: seq<Request>, p: Plan, original: Binding, cs: seq<Binding>, k: nat)
    requires Bindings.ChainOk(h, c, reqs, p, original, cs) && k < |cs|
    ensures original.link == None && p.suiteId == Some(original.previousSuiteId) && |cs| <= 32
    ensures cs[k].link == Some(Link(h.binding(if k == 0 then original else cs[k - 1]), k + 1))
    ensures cs[k].previousSuiteId == (if k == 0 then original else cs[k - 1]).suiteId
    ensures cs[k].periodId == p.periodId && cs[k].reverificationId == p.reverificationId && cs[k].planSha == h.plan(p)
  {
    hide Plans.PlanOk, Bindings.UnknownSettled, Bindings.Accounts, Bindings.SegmentOk;
    var all := Bindings.All(original, cs);
    assert Bindings.CandidateOk(h, c, reqs, p, all, k + 1);
    assert all[k + 1] == cs[k] && all[k] == (if k == 0 then original else cs[k - 1]);
  }

  /** A valid line starts with a single continuation, and each successor names the record before it. */
  lemma LineMeans(h: Hash, c: Context, reqs: seq<Request>, p: Plan, original: Continuation, ss: seq<Continuation>,
                  k: nat)
    requires Continuations.LineOk(h, c, reqs, p, original, ss) && k < |ss|
    ensures original.kind == Single && original.previousId == None && |ss| <= 32
    ensures ss[k].kind == Successor && ss[k].previousId == Some((if k == 0 then original else ss[k - 1]).continuationId)
    ensures ss[k].taskId == "BETA-001" && ss[k].periodId == p.periodId && ss[k].reverificationId == p.reverificationId
  {
    hide Plans.PlanOk, Plans.CarriedOk, Continuations.SuffixOk;
    var line := Continuations.Line(original, ss);
    assert Continuations.Follows(h, c, reqs, p, line, 1) && line[0] == original;
    assert Continuations.Follows(h, c, reqs, p, line, k + 1);
    assert line[k + 1] == ss[k] && line[k] == (if k == 0 then original else ss[k - 1]);
    if k + 1 < |ss| { assert Continuations.Follows(h, c, reqs, p, line, k + 2) && line[k + 2] == ss[k + 1]; }
  }

  /** A valid reconciliation prices, at the live price of the Max model, the one request of its id, which is of unknown
      cost, was made for that model at that price basis in one attempt, and is not older than the record. */
  lemma RecordMeans(h: Hash, reqs: seq<Request>, r: Reconciliation, i: nat)
    requires Rec.RecordOk(h, r.periodId, reqs, r) && i < |reqs| && reqs[i].id == r.requestId
    ensures reqs[i].status == Unknown && r.cost <= reqs[i].reservedCost && r.requestSha == h.request(reqs[i])
    ensures reqs[i].meta.requestedModel == Some("qwen3-max-2025-09-23") && reqs[i].meta.maxAttempts == Some(1)
    ensures reqs[i].meta.priceBasis == Some("https://help.aliyun.com/zh/model-studio/model-qwen3-max")
    ensures reqs[i].meta.maxOutputTokens.Some? && r.outputTokens <= reqs[i].meta.maxOutputTokens.value
    ensures r.inputTokens <= 258_048 && reqs[i].completedAt.Some? && reqs[i].completedAt.value <= r.recordedAt
    ensures forall j :: 0 <= j < |reqs| && reqs[j].id == r.requestId ==> j == i
    ensures Pricing.CostUnits(Pricing.MaxBounds(r.outputTokens), Pricing.Tokens(r.inputTokens, r.outputTokens))
            == Some(r.cost)
    ensures exists k :: 0 <= k && Pricing.LeastTier(Pricing.MAX_TIERS, r.inputTokens, k)
                        && r.inputRate == Pricing.MAX_TIERS[k].inputRate
                           && r.outputRate == Pricing.MAX_TIERS[k].outputRate
  {
    hide Pricing.TierFor, Pricing.Charge;
    var m :| 0 <= m < |reqs| && Rec.UniqueAt(reqs, r.requestId, m) && Rec.Matches(h, reqs[m], r);
    assert m == i;
    Pricing.TierIsLeast(Pricing.MAX_TIERS, r.inputTokens);
  }
}
