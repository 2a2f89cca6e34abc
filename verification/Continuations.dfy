/** Task continuations: each opens a bounded window of requests after a frozen prefix, and successors chain. */
module Continuations {
  import opened Options
  import opened LedgerData
  import opened Plans
  import Rec = Reconciliations

  function MaximumRequests(k: ContinuationKind): Option<nat> {
    match k
    case Single => Some(1)
    case Successor => Some(4)
    case BudgetOnly => None
  }

  predicate WellFormedRecord(r: Continuation) {
    && r.taskId == BETA_TASK && 1 <= r.priorCount <= MAX_REQUESTS && 1 <= |r.carried| <= MAX_REQUESTS
    && (r.previousId.Some? <==> r.kind.Successor?)
  }

  predicate KindFits(p: Plan, r: Continuation) {
    if r.kind.BudgetOnly? then BudgetKind(p.kind) else p.kind.TaskSingle?
  }

  predicate DistinctCarried(carried: seq<Carried>) {
    forall i, j :: 0 <= i < j < |carried| ==> carried[i].id != carried[j].id
  }

  /** Closed for good: a known cost, or an appended reconciliation. */
  predicate Settled(c: Context, r: Request) { Resolved(r) || r.id in Rec.Costs(c.recs) }

  /** All of the window except its last request is settled, and all of it is labelled. */
  predicate SuffixOk(c: Context, reqs: seq<Request>, r: Continuation) {
    && (forall i :: r.priorCount <= i < |reqs| - 1 ==> Settled(c, reqs[i]))
    && (forall i :: r.priorCount <= i < |reqs| ==> reqs[i].continuationId == Some(r.continuationId))
  }

  /** `_validate_window`. */
  predicate WindowOk(h: Hash, c: Context, reqs: seq<Request>, p: Plan, r: Continuation) {
    && WellFormedRecord(r) && KindFits(p, r) && PlanOk(h, c, reqs, p)
    && r.periodId == p.periodId && r.reverificationId == p.reverificationId
    && p.priorCount <= r.priorCount && Frozen(h, reqs, r.priorCount, r.priorSha)
    && NoneReserved(reqs[..r.priorCount])
    && (!r.kind.Successor? ==> forall i :: 0 <= i < r.priorCount ==> reqs[i].continuationId.None?)
    && (MaximumRequests(r.kind).Some? ==> |reqs| - r.priorCount <= MaximumRequests(r.kind).value)
    && DistinctCarried(r.carried) && CarriedOk(h, reqs[..r.priorCount], r.carried)
    && SuffixOk(c, reqs, r)
  }

  function Line(original: Continuation, successors: seq<Continuation>): seq<Continuation> { [original] + successors }

  /** Successor `k` follows record `k - 1`, which was valid on everything before `k`. */
  predicate Follows(h: Hash, c: Context, reqs: seq<Request>, p: Plan, line: seq<Continuation>, k: int)
    requires 0 < k < |line|
  {
    && line[k].kind.Successor? && line[k].previousId == Some(line[k - 1].continuationId)
    && (forall j :: 0 <= j < k ==> line[j].continuationId != line[k].continuationId)
    && line[k - 1].priorCount < line[k].priorCount
    && WindowOk(h, c, Take(reqs, line[k].priorCount), p, line[k - 1])
  }

  /** `validate_task_continuation_chain`. */
  predicate LineOk(h: Hash, c: Context, reqs: seq<Request>, p: Plan, original: Continuation,
                   successors: seq<Continuation>) {
    && original.kind.Single? && 1 <= |successors| <= MAX_CONTINUATIONS
    && (forall k :: 0 < k <= |successors| ==> Follows(h, c, reqs, p, Line(original, successors), k))
    && WindowOk(h, c, reqs, p, successors[|successors| - 1])
  }

  /** `validate_task_continuation` on the active record of a period. */
  predicate ContinuationOk(h: Hash, c: Context, reqs: seq<Request>, p: Plan, original: Continuation,
                           successors: seq<Continuation>) {
    if successors == [] then !original.kind.Successor? && WindowOk(h, c, reqs, p, original)
    else LineOk(h, c, reqs, p, original, successors)
  }

  /** The loop of `validate_task_continuation_chain`: running predecessor and seen ids. */
  method ValidateLine(h: Hash, c: Context, reqs: seq<Request>, p: Plan, original: Continuation,
                      successors: seq<Continuation>)
    returns (ok: bool)
    ensures ok <==> LineOk(h, c, reqs, p, original, successors)
  {
    hide WindowOk;
    if !original.kind.Single? || |successors| == 0 || |successors| > MAX_CONTINUATIONS { return false; }
    ghost var line := Line(original, successors);
    var previous, seen := original, {original.continuationId};
    for n := 0 to |successors|
      invariant previous == line[n]
      invariant forall x :: x in seen <==> exists j :: 0 <= j <= n && line[j].continuationId == x
      invariant forall k :: 0 < k <= n ==> Follows(h, c, reqs, p, line, k)
    {
      var r := successors[n];
      assert r == line[n + 1];
      var linked := r.kind.Successor? && r.previousId == Some(previous.continuationId) && r.continuationId !in seen
                    && previous.priorCount < r.priorCount;
      if !linked || !WindowOk(h, c, Take(reqs, r.priorCount), p, previous) {
        assert !Follows(h, c, reqs, p, line, n + 1);
        return false;
      }
      seen, previous := seen + {r.continuationId}, r;
    }
    return WindowOk(h, c, reqs, p, previous);
  }

  // -- Kept by requests -------------------------------------------------------------------

  lemma WindowKept(h: Hash, c: Context, a: seq<Request>, b: seq<Request>, p: Plan, r: Continuation)
    requires WindowOk(h, c, a, p, r) && Evolves(a, b) && PlanOk(h, c, b, p)
    requires MaximumRequests(r.kind).Some? ==> |b| - r.priorCount <= MaximumRequests(r.kind).value
    requires forall i :: r.priorCount <= i < |b| - 1 ==> Settled(c, b[i])
    requires forall i :: |a| <= i < |b| ==> b[i].continuationId == Some(r.continuationId)
    ensures WindowOk(h, c, b, p, r)
  {
    hide PlanOk, CarriedOk, Settled, WellFormedRecord;
    PrefixKept(a, b, r.priorCount);
    forall i | 0 <= i < r.priorCount ensures a[i] == b[i] {
      assert a[i] == a[..r.priorCount][i] && b[i] == b[..r.priorCount][i];
    }
    forall i | r.priorCount <= i < |b| ensures b[i].continuationId == Some(r.continuationId) {
      if i < |a| { assert KeptOrSettled(a[i], b[i]); }
    }
  }

  lemma WindowUnreserved(h: Hash, c: Context, reqs: seq<Request>, p: Plan, r: Continuation)
    requires WindowOk(h, c, reqs, p, r)
    ensures r.priorCount <= |reqs| && NoneReserved(reqs[..r.priorCount])
  {
  }

  /** Everything before a record of the line is free of reservations. */
  lemma LineUnreserved(h: Hash, c: Context, reqs: seq<Request>, p: Plan, original: Continuation,
                       successors: seq<Continuation>, k: nat)
    requires LineOk(h, c, reqs, p, original, successors) && k <= |successors|
    ensures Line(original, successors)[k].priorCount <= |reqs|
    ensures NoneReserved(reqs[..Line(original, successors)[k].priorCount])
  {
    hide WindowOk;
    var line := Line(original, successors);
    if k == |successors| {
      WindowUnreserved(h, c, reqs, p, line[k]);
    } else {
      assert Follows(h, c, reqs, p, line, k + 1);
      var shorter := Take(reqs, line[k + 1].priorCount);
      WindowUnreserved(h, c, shorter, p, line[k]);
      assert shorter[..line[k].priorCount] == reqs[..line[k].priorCount];
    }
  }

  /** Requests in the last window keep the whole line valid. */
  lemma LineKept(h: Hash, c: Context, a: seq<Request>, b: seq<Request>, p: Plan, original: Continuation,
                 successors: seq<Continuation>)
    requires LineOk(h, c, a, p, original, successors) && Evolves(a, b)
    requires WindowOk(h, c, b, p, successors[|successors| - 1])
    ensures LineOk(h, c, b, p, original, successors)
  {
    hide WindowOk;
    var line := Line(original, successors);
    forall k | 0 < k <= |successors| ensures Follows(h, c, b, p, line, k) {
      assert Follows(h, c, a, p, line, k);
      LineUnreserved(h, c, a, p, original, successors, k);
      PrefixKept(a, b, line[k].priorCount);
    }
  }

  // -- What an accepted line means --------------------------------------------------------

  /** Where the block of record `k` ends. */
  function BlockEnd(line: seq<Continuation>, k: nat, n: nat): nat {
    if k + 1 < |line| then line[k + 1].priorCount else n
  }

  /** Each record labels one contiguous block: the first holds at most one request, the others at most four, closed
      blocks are not empty, and all but the last request of a block are settled. */
  lemma Block(h: Hash, c: Context, reqs: seq<Request>, p: Plan, original: Continuation, successors: seq<Continuation>,
              k: nat)
    requires LineOk(h, c, reqs, p, original, successors) && k <= |successors|
    ensures var line := Line(original, successors); var lo, hi := line[k].priorCount, BlockEnd(line, k, |reqs|);
            && lo <= hi <= |reqs| && (k < |successors| ==> lo < hi)
            && hi - lo <= (if k == 0 then 1 else 4)
            && (forall i :: lo <= i < hi ==> reqs[i].continuationId == Some(line[k].continuationId))
            && (forall i :: lo <= i < hi - 1 ==> Settled(c, reqs[i]))
    ensures k == 0 ==> forall i :: 0 <= i < original.priorCount ==> reqs[i].continuationId.None?
  {
    hide Settled, PlanOk, CarriedOk;
    var line := Line(original, successors);
    if k == |successors| {
      assert Follows(h, c, reqs, p, line, k);
      assert WindowOk(h, c, reqs, p, line[k]);
    } else {
      assert Follows(h, c, reqs, p, line, k + 1);
      assert k > 0 ==> Follows(h, c, reqs, p, line, k);
      LineUnreserved(h, c, reqs, p, original, successors, k + 1);
      var shorter := Take(reqs, line[k + 1].priorCount);
      assert WindowOk(h, c, shorter, p, line[k]);
      forall i | 0 <= i < line[k + 1].priorCount ensures shorter[i] == reqs[i] { }
    }
  }

  /** At most `1 + 4n` requests ever follow the first continuation of a line with `n` successors. */
  lemma {:induction false} LineBound(h: Hash, c: Context, reqs: seq<Request>, p: Plan, original: Continuation,
                                     successors: seq<Continuation>, k: nat)
    requires LineOk(h, c, reqs, p, original, successors) && k <= |successors|
    ensures BlockEnd(Line(original, successors), k, |reqs|) <= original.priorCount + 1 + 4 * k
    ensures k == |successors| ==> |reqs| <= original.priorCount + 1 + 4 * |successors|
  {
    hide LineOk;
    Block(h, c, reqs, p, original, successors, k);
    if k > 0 { LineBound(h, c, reqs, p, original, successors, k - 1); }
  }

  /** A label names its block: no request outside block `k` carries the id of record `k`. */
  lemma {:induction false} LabelNamesBlock(h: Hash, c: Context, reqs: seq<Request>, p: Plan, original: Continuation,
                                           successors: seq<Continuation>, k: nat, i: nat)
    requires LineOk(h, c, reqs, p, original, successors) && k <= |successors| && i < |reqs|
    ensures var line := Line(original, successors);
            reqs[i].continuationId == Some(line[k].continuationId) <==>
                line[k].priorCount <= i < BlockEnd(line, k, |reqs|)
  {
    hide LineOk;
    var line := Line(original, successors);
    Block(h, c, reqs, p, original, successors, 0);
    Block(h, c, reqs, p, original, successors, k);
    if i >= original.priorCount {
      var j := BlockOf(h, c, reqs, p, original, successors, |successors|, i);
      if j != k { RecordsDiffer(h, c, reqs, p, original, successors, j, k); }
      assert reqs[i].continuationId == Some(line[j].continuationId);
    } else {
      FirstIsLowest(h, c, reqs, p, original, successors, k);
    }
  }

  lemma {:induction false} BlockOf(h: Hash, c: Context, reqs: seq<Request>, p: Plan, original: Continuation,
                                   successors: seq<Continuation>, k: nat, i: nat) returns (j: nat)
    requires LineOk(h, c, reqs, p, original, successors) && k <= |successors|
    requires original.priorCount <= i < BlockEnd(Line(original, successors), k, |reqs|)
    ensures j <= k
            && Line(original, successors)[j].priorCount <= i < BlockEnd(Line(original, successors), j, |reqs|) <= |reqs|
    ensures reqs[i].continuationId == Some(Line(original, successors)[j].continuationId)
  {
    hide LineOk;
    Block(h, c, reqs, p, original, successors, k);
    if Line(original, successors)[k].priorCount <= i { j := k; }
    else { j := BlockOf(h, c, reqs, p, original, successors, k - 1, i); }
  }

  lemma RecordsDiffer(h: Hash, c: Context, reqs: seq<Request>, p: Plan, original: Continuation,
                      successors: seq<Continuation>, j: nat, k: nat)
    requires LineOk(h, c, reqs, p, original, successors) && j <= |successors| && k <= |successors| && j != k
    ensures Line(original, successors)[j].continuationId != Line(original, successors)[k].continuationId
  {
    hide WindowOk;
    assert Follows(h, c, reqs, p, Line(original, successors), if j < k then k else j);
  }

  lemma {:induction false} FirstIsLowest(h: Hash, c: Context, reqs: seq<Request>, p: Plan, original: Continuation,
                                         successors: seq<Continuation>, k: nat)
    requires LineOk(h, c, reqs, p, original, successors) && k <= |successors|
    ensures original.priorCount <= Line(original, successors)[k].priorCount
  {
    hide WindowOk;
    if k > 0 {
      assert Follows(h, c, reqs, p, Line(original, successors), k);
      FirstIsLowest(h, c, reqs, p, original, successors, k - 1);
    }
  }
}
