/** Suite rebinding and the candidate chain: each binding freezes a request prefix and owns the segment after it. */
module Bindings {
  import opened Options
  import opened LedgerData
  import opened Plans

  /** The unknown requests of the prefix are the carried ones; the rolling V2 plan also lets later ones stand. */
  predicate UnknownSettled(p: Plan, prefix: seq<Request>) {
    && (forall k :: 0 <= k < |p.carried| ==> UnknownIn(prefix, p.carried[k].id))
    && (p.kind.RollingV2? || forall i :: 0 <= i < |prefix| && prefix[i].status.Unknown? ==>
          CarriedIn(p.carried, prefix[i].id))
  }

  /** The request carries the id and the suite of the binding. */
  predicate Carries(b: Binding, r: Request) { r.bindingId == Some(b.bindingId) && r.suiteId == Some(b.suiteId) }

  /** The remainder of the one plan maximum, as the binding states it. */
  predicate Accounts(c: Context, prefix: seq<Request>, p: Plan, b: Binding) {
    && ChargedTo(c, prefix, p) == b.chargedCost && b.remainingCost > 0
    && b.chargedCost + b.remainingCost == p.maximumCost
  }

  /** What the rebinding and every candidate share: identity, frozen prefix, settled prefix, accounts. */
  predicate BaseOk(h: Hash, c: Context, reqs: seq<Request>, p: Plan, b: Binding) {
    && !TaskScoped(p.kind)
    && 1 <= b.priorCount <= MAX_REQUESTS
    && b.periodId == p.periodId && b.reverificationId == p.reverificationId && b.planSha == h.plan(p)
    && Frozen(h, reqs, b.priorCount, b.priorSha)
    && NoneReserved(reqs[..b.priorCount])
    && UnknownSettled(p, reqs[..b.priorCount])
    && PlanOk(h, c, reqs[..b.priorCount], p)
    && Accounts(c, reqs[..b.priorCount], p, b)
  }

  /** `validate_reverification_binding`. */
  predicate RebindingOk(h: Hash, c: Context, reqs: seq<Request>, p: Plan, b: Binding) {
    && b.link.None? && BaseOk(h, c, reqs, p, b)
    && p.suiteId == Some(b.previousSuiteId) && p.suiteId != Some(b.suiteId)
    && p.priorCount <= b.priorCount
    && (forall i :: 0 <= i < b.priorCount ==> reqs[i].bindingId.None?)
    && (forall i :: b.priorCount <= i < |reqs| ==> Carries(b, reqs[i]))
  }

  /** The rebinding followed by the candidates. */
  function All(original: Binding, cs: seq<Binding>): seq<Binding> { [original] + cs }

  /** Where the segment of binding `k` ends. */
  function End(all: seq<Binding>, k: nat, n: nat): nat { if k + 1 < |all| then all[k + 1].priorCount else n }

  /** Candidate `k` follows binding `k - 1`. */
  predicate Linked(h: Hash, p: Plan, all: seq<Binding>, k: int)
    requires 0 < k < |all|
  {
    && all[k].link == Some(Link(h.binding(all[k - 1]), k))
    && all[k].previousSuiteId == all[k - 1].suiteId
    && all[k - 1].priorCount <= all[k].priorCount
    && p.suiteId != Some(all[k].suiteId)
    && forall j :: 0 <= j < k ==> all[j].bindingId != all[k].bindingId && all[j].suiteId != all[k].suiteId
  }

  /** Every request of segment `k` carries binding `k`. */
  predicate SegmentOk(all: seq<Binding>, reqs: seq<Request>, k: int)
    requires 0 <= k < |all|
  {
    forall i :: all[k].priorCount <= i < End(all, k, |reqs|) && i < |reqs| ==> Carries(all[k], reqs[i])
  }

  predicate CandidateOk(h: Hash, c: Context, reqs: seq<Request>, p: Plan, all: seq<Binding>, k: int)
    requires 0 < k < |all|
  {
    Linked(h, p, all, k) && BaseOk(h, c, reqs, p, all[k]) && SegmentOk(all, reqs, k)
  }

  /** `validate_candidate_chain`. */
  predicate ChainOk(h: Hash, c: Context, reqs: seq<Request>, p: Plan, original: Binding, cs: seq<Binding>) {
    && 1 <= |cs| <= MAX_CANDIDATES
    && RebindingOk(h, c, Take(reqs, cs[0].priorCount), p, original)
    && forall k :: 0 < k <= |cs| ==> CandidateOk(h, c, reqs, p, All(original, cs), k)
  }

  /** The loop of `validate_candidate_chain`: running predecessor and the two seen sets. */
  method ValidateChain(h: Hash, c: Context, reqs: seq<Request>, p: Plan, original: Binding, cs: seq<Binding>)
    returns (ok: bool)
    ensures ok <==> ChainOk(h, c, reqs, p, original, cs)
  {
    hide BaseOk, RebindingOk, SegmentOk;
    if |cs| == 0 || |cs| > MAX_CANDIDATES || !RebindingOk(h, c, Take(reqs, cs[0].priorCount), p, original) {
      return false;
    }
    ghost var all := All(original, cs);
    var previous := original;
    var seenIds := {original.bindingId};
    var seenSuites := {p.suiteId, Some(original.suiteId)};
    for n := 0 to |cs|
      invariant previous == all[n]
      invariant forall x :: x in seenIds <==> exists j :: 0 <= j <= n && all[j].bindingId == x
      invariant forall x :: x in seenSuites <==> x == p.suiteId || exists j :: 0 <= j <= n && x == Some(all[j].suiteId)
      invariant forall k :: 0 < k <= n ==> CandidateOk(h, c, reqs, p, all, k)
    {
      var b := cs[n];
      assert b == all[n + 1];
      var good := b.link == Some(Link(h.binding(previous), n + 1))
                  && b.previousSuiteId == previous.suiteId && b.bindingId !in seenIds && Some(b.suiteId) !in seenSuites
                  && previous.priorCount <= b.priorCount;
      assert good <==> Linked(h, p, all, n + 1) by { LinkedBySets(h, p, all, n + 1, seenIds, seenSuites); }
      var end := if n + 1 < |cs| then cs[n + 1].priorCount else |reqs|;
      assert end == End(all, n + 1, |reqs|);
      if !good || !BaseOk(h, c, reqs, p, b) || !Labelled(b, reqs, b.priorCount, end) {
        assert !CandidateOk(h, c, reqs, p, all, n + 1) by { LabelledIsSegment(all, reqs, n + 1); }
        return false;
      }
      LabelledIsSegment(all, reqs, n + 1);
      seenIds, seenSuites, previous := seenIds + {b.bindingId}, seenSuites + {Some(b.suiteId)}, b;
    }
    return true;
  }

  predicate Labelled(b: Binding, reqs: seq<Request>, lo: nat, hi: nat) {
    forall i :: lo <= i < hi && i < |reqs| ==> Carries(b, reqs[i])
  }

  lemma LabelledIsSegment(all: seq<Binding>, reqs: seq<Request>, k: nat)
    requires k < |all|
    ensures Labelled(all[k], reqs, all[k].priorCount, End(all, k, |reqs|)) <==> SegmentOk(all, reqs, k)
  {
  }

  /** Membership in the running sets says what `Linked` says of the earlier bindings. */
  lemma LinkedBySets(h: Hash, p: Plan, all: seq<Binding>, k: nat, ids: set<Id>, suites: set<Option<Id>>)
    requires 0 < k < |all|
    requires forall x :: x in ids <==> exists j :: 0 <= j < k && all[j].bindingId == x
    requires forall x :: x in suites <==> x == p.suiteId || exists j :: 0 <= j < k && x == Some(all[j].suiteId)
    ensures Linked(h, p, all, k) <==>
            all[k].link == Some(Link(h.binding(all[k - 1]), k))
            && all[k].previousSuiteId == all[k - 1].suiteId && all[k].bindingId !in ids
            && Some(all[k].suiteId) !in suites && all[k - 1].priorCount <= all[k].priorCount
  {
  }

  // -- Kept by requests -------------------------------------------------------------------

  lemma BaseKept(h: Hash, c: Context, a: seq<Request>, b: seq<Request>, p: Plan, bd: Binding)
    requires BaseOk(h, c, a, p, bd) && Evolves(a, b)
    ensures BaseOk(h, c, b, p, bd) && a[..bd.priorCount] == b[..bd.priorCount]
  {
    hide PlanOk, UnknownSettled, Accounts;
    PrefixKept(a, b, bd.priorCount);
  }

  lemma RebindingKept(h: Hash, c: Context, a: seq<Request>, b: seq<Request>, p: Plan, bd: Binding)
    requires RebindingOk(h, c, a, p, bd) && Evolves(a, b)
    requires forall i :: |a| <= i < |b| ==> Carries(bd, b[i])
    ensures RebindingOk(h, c, b, p, bd)
  {
    BaseKept(h, c, a, b, p, bd);
    hide BaseOk;
    forall i | 0 <= i < bd.priorCount ensures b[i].bindingId.None? {
      assert a[i] == a[..bd.priorCount][i] && b[i] == b[..bd.priorCount][i];
    }
    forall i | bd.priorCount <= i < |b| ensures Carries(bd, b[i]) {
      if i < |a| { assert KeptOrSettled(a[i], b[i]) && Carries(bd, a[i]); }
    }
  }

  /** Requests carrying the last candidate keep the whole chain valid. */
  lemma ChainKept(h: Hash, c: Context, a: seq<Request>, b: seq<Request>, p: Plan, original: Binding, cs: seq<Binding>)
    requires ChainOk(h, c, a, p, original, cs) && Evolves(a, b)
    requires forall i :: |a| <= i < |b| ==> Carries(cs[|cs| - 1], b[i])
    ensures ChainOk(h, c, b, p, original, cs)
  {
    var all := All(original, cs);
    assert CandidateOk(h, c, a, p, all, 1) && all[1] == cs[0];
    BaseKept(h, c, a, b, p, cs[0]);
    hide BaseOk, RebindingOk, SegmentOk;
    forall k | 0 < k <= |cs| ensures CandidateOk(h, c, b, p, all, k) {
      assert CandidateOk(h, c, a, p, all, k);
      BaseKept(h, c, a, b, p, all[k]);
      assert k + 1 < |all| ==> CandidateOk(h, c, a, p, all, k + 1);
      if k + 1 < |all| { ChainFits(h, c, a, p, all, k + 1); }
      SegmentKept(all, a, b, k);
    }
  }

  lemma SegmentKept(all: seq<Binding>, a: seq<Request>, b: seq<Request>, k: nat)
    requires k < |all| && SegmentOk(all, a, k) && Evolves(a, b)
    requires k + 1 < |all| ==> all[k + 1].priorCount <= |a|
    requires k + 1 == |all| ==> forall i :: |a| <= i < |b| ==> Carries(all[k], b[i])
    ensures SegmentOk(all, b, k)
  {
    forall i | all[k].priorCount <= i < End(all, k, |b|) && i < |b| ensures Carries(all[k], b[i]) {
      if i < |a| { assert Carries(all[k], a[i]) && KeptOrSettled(a[i], b[i]); }
    }
  }

  lemma ChainFits(h: Hash, c: Context, reqs: seq<Request>, p: Plan, all: seq<Binding>, k: int)
    requires 0 < k < |all| && CandidateOk(h, c, reqs, p, all, k)
    ensures all[k].priorCount <= |reqs|
  {
  }

  // -- What an accepted chain means -------------------------------------------------------

  /** Prefix counts never go down along the chain. */
  lemma {:induction false} CountsAscend(h: Hash, c: Context, reqs: seq<Request>, p: Plan, original: Binding,
                                        cs: seq<Binding>, j: nat, k: nat)
    requires ChainOk(h, c, reqs, p, original, cs) && j <= k <= |cs|
    ensures All(original, cs)[j].priorCount <= All(original, cs)[k].priorCount <= |reqs|
    decreases k
  {
    hide RebindingOk, PlanOk, UnknownSettled, Accounts, SegmentOk;
    var all := All(original, cs);
    assert CandidateOk(h, c, reqs, p, all, 1);
    if k > 0 {
      assert CandidateOk(h, c, reqs, p, all, k);
      if j < k { CountsAscend(h, c, reqs, p, original, cs, j, k - 1); }
    }
  }

  /** Every request from the first binding on lies in one segment. */
  lemma {:induction false} SegmentOf(all: seq<Binding>, n: nat, i: nat, k: nat) returns (j: nat)
    requires k < |all| && all[0].priorCount <= i < End(all, k, n)
    ensures j <= k && all[j].priorCount <= i < End(all, j, n)
    decreases k
  {
    if all[k].priorCount <= i { j := k; } else { j := SegmentOf(all, n, i, k - 1); }
  }

  lemma SegmentLabels(h: Hash, c: Context, reqs: seq<Request>, p: Plan, original: Binding, cs: seq<Binding>, k: nat,
                      i: nat)
    requires ChainOk(h, c, reqs, p, original, cs) && k <= |cs|
    requires All(original, cs)[k].priorCount <= i < End(All(original, cs), k, |reqs|) && i < |reqs|
    ensures Carries(All(original, cs)[k], reqs[i])
  {
    hide BaseOk;
    var all := All(original, cs);
    CountsAscend(h, c, reqs, p, original, cs, 0, 1);
    if k == 0 {
      var prefix := Take(reqs, cs[0].priorCount);
      assert prefix[i] == reqs[i];
    } else {
      assert CandidateOk(h, c, reqs, p, all, k);
    }
  }

  lemma IdsDiffer(h: Hash, c: Context, reqs: seq<Request>, p: Plan, original: Binding, cs: seq<Binding>, j: nat, k: nat)
    requires ChainOk(h, c, reqs, p, original, cs) && j <= |cs| && k <= |cs| && j != k
    ensures All(original, cs)[j].bindingId != All(original, cs)[k].bindingId
    ensures All(original, cs)[j].suiteId != All(original, cs)[k].suiteId
    ensures Some(All(original, cs)[k].suiteId) != p.suiteId
  {
    hide BaseOk, SegmentOk;
    var all, hi := All(original, cs), if j < k then k else j;
    assert CandidateOk(h, c, reqs, p, all, hi);
    assert k > 0 ==> CandidateOk(h, c, reqs, p, all, k);
  }

  /** The segments partition the requests from the first binding on: a request carries binding `k` exactly when it lies
      in segment `k`, and then it carries its suite as well. */
  lemma ChainPartition(h: Hash, c: Context, reqs: seq<Request>, p: Plan, original: Binding, cs: seq<Binding>, k: nat,
                       i: nat)
    requires ChainOk(h, c, reqs, p, original, cs) && k <= |cs| && i < |reqs|
    ensures var all := All(original, cs);
            reqs[i].bindingId == Some(all[k].bindingId) <==> all[k].priorCount <= i < End(all, k, |reqs|)
    ensures reqs[i].bindingId == Some(All(original, cs)[k].bindingId) ==>
              reqs[i].suiteId == Some(All(original, cs)[k].suiteId)
    ensures i < original.priorCount <==> reqs[i].bindingId.None?
  {
    var all := All(original, cs);
    CountsAscend(h, c, reqs, p, original, cs, 0, k);
    CountsAscend(h, c, reqs, p, original, cs, 0, 1);
    var prefix := Take(reqs, cs[0].priorCount);
    if i < original.priorCount {
      assert prefix[i] == reqs[i] && prefix[i].bindingId.None?;
    } else {
      hide ChainOk;
      var j := SegmentOf(all, |reqs|, i, |cs|);
      SegmentLabels(h, c, reqs, p, original, cs, j, i);
      if j != k {
        IdsDiffer(h, c, reqs, p, original, cs, j, k);
        if all[k].priorCount <= i < End(all, k, |reqs|) { SegmentLabels(h, c, reqs, p, original, cs, k, i); }
      }
    }
  }

  lemma AccountsOf(h: Hash, c: Context, reqs: seq<Request>, p: Plan, original: Binding, cs: seq<Binding>, k: nat)
    requires ChainOk(h, c, reqs, p, original, cs) && k <= |cs|
    ensures var b := All(original, cs)[k];
            p.priorCount <= b.priorCount <= |reqs| && Accounts(c, reqs[..b.priorCount], p, b)
  {
    hide Accounts;
    var all := All(original, cs);
    CountsAscend(h, c, reqs, p, original, cs, 0, 1);
    CountsAscend(h, c, reqs, p, original, cs, 0, k);
    if k == 0 {
      assert Take(reqs, cs[0].priorCount)[..original.priorCount] == reqs[..original.priorCount];
    } else {
      assert CandidateOk(h, c, reqs, p, all, k);
    }
  }

  /** Switching suites never grants money: along the chain the charged cost only grows, the remainder stays positive and
      only shrinks, and both always add up to the one plan maximum. */
  lemma ChainAccounts(h: Hash, c: Context, reqs: seq<Request>, p: Plan, original: Binding, cs: seq<Binding>, j: nat,
                      k: nat)
    requires ChainOk(h, c, reqs, p, original, cs) && j <= k <= |cs|
    ensures var all := All(original, cs);
            && all[j].chargedCost <= all[k].chargedCost <= ChargedTo(c, reqs, p)
            && 0 < all[k].remainingCost <= all[j].remainingCost
            && all[j].chargedCost + all[j].remainingCost == p.maximumCost
  {
    var all := All(original, cs);
    AccountsOf(h, c, reqs, p, original, cs, j);
    AccountsOf(h, c, reqs, p, original, cs, k);
    CountsAscend(h, c, reqs, p, original, cs, j, k);
    hide ChainOk;
    var outer := reqs[..all[k].priorCount];
    ChargedGrows(c, reqs, all[k].priorCount, p);
    ChargedGrows(c, outer, all[j].priorCount, p);
    assert outer[..all[j].priorCount] == reqs[..all[j].priorCount];
  }
}
