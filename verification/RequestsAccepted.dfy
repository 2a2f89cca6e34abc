/** When an owner in step with the file reserves or settles, the save goes through: exact conditions. */
module RequestsAccepted {
  import opened Options
  import opened LedgerData
  import opened Validity
  import opened LedgerSteps
  import opened RequestsKeepValidity
  import Plans

  /** The owner holds exactly what the file holds, and works on the checked period. */
  ghost predicate InStep(h: Hash, o: Owner, disk: Ledger) {
    && o.role.Requests? && o.data == disk && o.body == disk
    && LedgerOk(h, disk, o.pid) && Unambiguous(disk, o.pid) && HasOwn(disk, o.pid)
    && o.allocation == OwnPeriod(disk, o.pid).allocation
  }

  /** Replacing the request list and the sums of the owner's period by a valid step passes the save check. */
  lemma RequestSave(h: Hash, o: Owner, disk: Ledger, q: Period)
    requires InStep(h, o, disk) && q.periodId == o.pid
    requires Fixed(q) == Fixed(OwnPeriod(disk, o.pid)) && RequestsStep(OwnPeriod(disk, o.pid).requests, q.requests)
    requires PeriodOk(h, disk.schema, q)
    ensures SaveAccepts(h, o.(data := WithOwn(disk, o.pid, q)), disk)
    ensures var m := WithOwn(disk, o.pid, q); InStep(h, o.(data := m, body := m), m) && OwnPeriod(m, o.pid) == q
  {
    hide PeriodOk;
    var p := OwnPeriod(disk, o.pid);
    OwnReplaced(h, disk, o.pid, q, disk.schema);
    var m := WithOwn(disk, o.pid, q);
    assert m == m.(schema := disk.schema);
    assert Fixed(q).plan == Fixed(p).plan && Fixed(q).binding == Fixed(p).binding
           && Fixed(q).candidates == Fixed(p).candidates
           && Fixed(q).continuation == Fixed(p).continuation && Fixed(q).successors == Fixed(p).successors
           && Fixed(q).allocation == Fixed(p).allocation;
    assert m.periods[OwnIndex(m.periods, o.pid) := p] == disk.periods;
  }

  /** Too many requests, or a repeated id, and the save refuses. */
  lemma SaveRefuses(h: Hash, o: Owner, disk: Ledger, q: Period)
    requires InStep(h, o, disk) && q.periodId == o.pid && q.active == OwnPeriod(disk, o.pid).active
    requires |q.requests| > MAX_REQUESTS || !DistinctIds(q.requests)
    ensures !SaveAccepts(h, o.(data := WithOwn(disk, o.pid, q)), disk)
  {
    hide Plans.PlanOk, PlanLayerOk, BindingLayerOk, ContinuationLayerOk;
    OwnReplaced(h, disk, o.pid, q, disk.schema);
    var m := WithOwn(disk, o.pid, q);
    assert m == m.(schema := disk.schema);
    assert !PeriodOk(h, disk.schema, q);
  }

  /** Without a fault, a reservation is persisted exactly when its guards pass, its id is new and the request cap leaves
      room. */
  lemma ReserveAccepted(h: Hash, o: Owner, disk: Ledger, units: int, meta: Metadata, id: Id, now: int)
    requires InStep(h, o, disk)
    ensures Reserve(h, o, disk, units, meta, id, now, NoFault).2 <==>
            && ReserveGuard(h, o, units, meta) && FreshId(OwnPeriod(disk, o.pid).requests, id)
            && |OwnPeriod(disk, o.pid).requests| < MAX_REQUESTS
    ensures Reserve(h, o, disk, units, meta, id, now, NoFault).2 ==>
            var (o', disk', _) := Reserve(h, o, disk, units, meta, id, now, NoFault);
            InStep(h, o', disk')
            && OwnPeriod(disk', o.pid) == AfterReserve(OwnPeriod(disk, o.pid),
                                            NewRequest(o.identity, OwnPeriod(disk, o.pid), units, meta, id, now))
  {
    hide PeriodOk, SaveAccepts, Available;
    var p := OwnPeriod(disk, o.pid);
    OwnIsActive(h, disk, o.pid);
    if ReserveGuard(h, o, units, meta) {
      var q := AfterReserve(p, NewRequest(o.identity, p, units, meta, id, now));
      if |p.requests| < MAX_REQUESTS && FreshId(p.requests, id) {
        ReserveKeepsPeriod(h, disk.schema, p, o.identity, units, meta, id, now);
        assert forall i :: 0 <= i < |p.requests| ==> p.requests[i] == q.requests[i];
        RequestSave(h, o, disk, q);
      } else {
        if i :| 0 <= i < |p.requests| && p.requests[i].id == id {
          assert q.requests[i].id == q.requests[|p.requests|].id;
        }
        SaveRefuses(h, o, disk, q);
      }
    }
  }

  /** Without a fault, a settlement is persisted exactly when its guard passes. */
  lemma SettleAccepted(h: Hash, o: Owner, disk: Ledger, id: Id, cost: Option<int>, sent: bool, now: int)
    requires InStep(h, o, disk)
    ensures Settle(h, o, disk, id, cost, sent, now, NoFault).2 <==> SettleGuard(o, id, cost, sent)
    ensures SettleGuard(o, id, cost, sent) ==>
            var (o', disk', _) := Settle(h, o, disk, id, cost, sent, now, NoFault);
            var p := OwnPeriod(disk, o.pid);
            InStep(h, o', disk')
            && OwnPeriod(disk', o.pid) == AfterSettle(p, FindRequest(p.requests, id), cost, sent, now)
  {
    hide PeriodOk, SaveAccepts;
    var p := OwnPeriod(disk, o.pid);
    OwnIsActive(h, disk, o.pid);
    if SettleGuard(o, id, cost, sent) {
      var k := FindRequest(p.requests, id);
      var q := AfterSettle(p, k, cost, sent, now);
      SettleKeepsPeriod(h, disk.schema, p, k, cost, sent, now);
      SettleEvolves(p, k, cost, sent, now);
      RequestSave(h, o, disk, q);
    }
  }

  // -- What a call writes, in terms of its arguments --------------------------------------

  /** Nothing but the request list and the two totals differs. */
  ghost predicate OnlyRequests(p: Period, q: Period) {
    q == p.(requests := q.requests, knownCost := q.knownCost, reservedCost := q.reservedCost)
  }

  /** Memory moved from `p` to `q` in the owner's period alone, and a call that returned normally wrote it to the
      file. */
  ghost predicate Wrote(o: Owner, r: (Owner, Ledger, bool), p: Period, q: Period) {
    && HasOwn(o.data, o.pid) && HasOwn(r.0.data, o.pid) && OwnPeriod(o.data, o.pid) == p
       && OwnPeriod(r.0.data, o.pid) == q
    && r.0.data == WithOwn(o.data, o.pid, q) && OnlyRequests(p, q)
    && (r.2 ==> r.1 == r.0.data)
  }

  lemma SaveWrote(h: Hash, o: Owner, disk: Ledger, f: Fault, q: Period)
    requires HasOwn(o.data, o.pid) && OnlyRequests(OwnPeriod(o.data, o.pid), q)
    ensures Wrote(o, Save(h, o.(data := WithOwn(o.data, o.pid, q)), disk, f), OwnPeriod(o.data, o.pid), q)
  {
    hide SaveAccepts;
    OwnReplaced(h, o.data, o.pid, q, o.data.schema);
    assert WithOwn(o.data, o.pid, q) == WithOwn(o.data, o.pid, q).(schema := o.data.schema);
  }

  /** A guarded settlement of request `k`: a known cost is recorded and added, the hold of a closed request is released,
      a request of unknown cost keeps its hold, and nothing else changes. */
  lemma SettleOutcome(h: Hash, o: Owner, disk: Ledger, id: Id, cost: Option<int>, sent: bool, now: int, f: Fault)
    returns (p: Period, q: Period, k: nat)
    requires SettleGuard(o, id, cost, sent)
    ensures Wrote(o, Settle(h, o, disk, id, cost, sent, now, f), p, q)
    ensures k < |p.requests| == |q.requests|
            && (forall i :: 0 <= i < |p.requests| && i != k ==> q.requests[i] == p.requests[i])
    ensures var a, b := p.requests[k], q.requests[k];
            && a.id == id && a.status.Reserved? && SameLabels(a, b) && b.completedAt == Some(now)
            && (forall i :: 0 <= i < k ==> p.requests[i].id != id)
            && (sent && cost.Some? ==>
                  && b.status == Completed && b.costEstimate == Some(cost.value) && b.reservedCost == 0
                  && q.knownCost == p.knownCost + cost.value && q.reservedCost == p.reservedCost - a.reservedCost)
            && (!sent ==>
                  && b.status == NotSent && b.costEstimate == Some(0) && b.reservedCost == 0
                  && q.knownCost == p.knownCost && q.reservedCost == p.reservedCost - a.reservedCost)
            && (sent && cost.None? ==>
                  && b.status == Unknown && b.costEstimate == a.costEstimate && b.reservedCost == a.reservedCost
                  && q.knownCost == p.knownCost && q.reservedCost == p.reservedCost)
  {
    hide Save;
    p := OwnPeriod(o.data, o.pid);
    k := FindRequest(p.requests, id);
    q := AfterSettle(p, k, cost, sent, now);
    SaveWrote(h, o, disk, f, q);
  }

  /** A guarded reservation appends one request that holds the whole amount and names the authorities in force. */
  lemma ReserveOutcome(h: Hash, o: Owner, disk: Ledger, units: int, meta: Metadata, id: Id, now: int, f: Fault)
    returns (p: Period, q: Period, r: Request)
    requires ReserveGuard(h, o, units, meta)
    ensures Wrote(o, Reserve(h, o, disk, units, meta, id, now, f), p, q)
    ensures q.requests == p.requests + [r] && q.knownCost == p.knownCost && q.reservedCost == p.reservedCost + units
    ensures r.id == id && r.status == Reserved && r.reservedCost == units && r.costEstimate == None
    ensures r.startedAt == now && r.completedAt == None && r.meta == meta
            && r.continuationId == o.identity.continuationId
    ensures r.reverificationId.Some? <==> p.plan.Some?
    ensures p.plan.Some? ==> r.reverificationId == Some(p.plan.value.reverificationId)
    ensures r.taskId == Some(BETA_TASK) <==> p.plan.Some? && Plans.TaskScoped(p.plan.value.kind)
    ensures r.taskId.None? || r.taskId == Some(BETA_TASK)
    ensures p.binding.None? && ListOf(p.candidates) == [] ==> r.suiteId == None && r.bindingId == None
    ensures p.binding.Some? && ListOf(p.candidates) == [] ==>
              r.suiteId == Some(p.binding.value.suiteId) && r.bindingId == Some(p.binding.value.bindingId)
    ensures ListOf(p.candidates) != [] ==>
              && var last := ListOf(p.candidates)[|ListOf(p.candidates)| - 1];
                 r.suiteId == Some(last.suiteId) && r.bindingId == Some(last.bindingId)
  {
    hide Save, Available;
    p := OwnPeriod(o.data, o.pid);
    r := NewRequest(o.identity, p, units, meta, id, now);
    q := AfterReserve(p, r);
    SaveWrote(h, o, disk, f, q);
  }
}
