/** Every accepted schema upgrade happens on a run from a new, empty ledger file, whatever the digests are. */
module LedgerUpgrades {
  import opened Options
  import opened LedgerData
  import opened Validity
  import opened LedgerSteps
  import opened LedgerRuns
  import opened LedgerSafety
  import Rec = Reconciliations
  import Plans
  import Bindings
  import Continuations
  import Pricing
  import Requests = RequestsAccepted
  import Registrations = RegistrationsAccepted
  import Usage = ReconcileAccepted

  const PID: Id := 1

  function File(schema: Schema, p: Period): Ledger { Ledger(schema, "aliyun-bailian", "CNY", [p]) }

  const EMPTY := Period(PID, true, 60 * YUAN, 0, 0, [], None, None, None, None, None, None)

  /** Some run from the empty file ends in this state. */
  ghost predicate Reached(h: Hash, s: System) { exists actions :: Run(h, System(File(V1, EMPTY), None), actions) == s }

  /** Some run, with every owner gone at its end, leaves this file. */
  ghost predicate Reachable(h: Hash, d: Ledger) { Reached(h, System(d, None)) }

  lemma FileOwns(schema: Schema, p: Period)
    requires p.periodId == PID
    ensures HasOwn(File(schema, p), PID) && OwnPeriod(File(schema, p), PID) == p
    ensures forall q, s :: WithOwn(File(schema, p), PID, q).(schema := s) == File(s, q)
  {
    assert OwnIndex([p], PID) == 0;
  }

  lemma EmptyGood(h: Hash)
    ensures Good(h, PID, File(V1, EMPTY))
  {
    var d := File(V1, EMPTY);
    FileOwns(V1, EMPTY);
    assert ContextOf(EMPTY).recs == [] && PeriodOk(h, V1, EMPTY);
    hide PeriodOk;
    assert d.periods[0] == EMPTY && ActiveAt(d, PID, 0);
  }

  lemma {:induction false} RunAppends(h: Hash, s: System, actions: seq<Action>, more: seq<Action>)
    ensures Run(h, s, actions + more) == Run(h, Run(h, s, actions), more)
    decreases |actions|
  {
    hide Next;
    if actions == [] {
      assert [] + more == more;
    } else {
      assert (actions + more)[1..] == actions[1..] + more;
      RunAppends(h, Next(h, s, actions[0]), actions[1..], more);
    }
  }

  lemma ReachesOn(h: Hash, d: Ledger, more: seq<Action>, e: Ledger)
    requires Reachable(h, d) && Run(h, System(d, None), more) == System(e, None)
    ensures Reachable(h, e)
  {
    hide Run;
    var start := System(File(V1, EMPTY), None);
    var actions :| Run(h, start, actions) == System(d, None);
    RunAppends(h, start, actions, more);
  }

  lemma ReachedKeeps(h: Hash, s: System)
    requires Reached(h, s)
    ensures SystemOk(h, PID, s)
  {
    hide Good, Run;
    var start := System(File(V1, EMPTY), None);
    var actions :| Run(h, start, actions) == s;
    EmptyGood(h);
    RunKeeps(h, PID, start, actions);
  }

  lemma ReachableGood(h: Hash, d: Ledger)
    requires Reachable(h, d)
    ensures Good(h, PID, d)
  {
    hide Good, Reached;
    ReachedKeeps(h, System(d, None));
  }

  lemma EmptyReachable(h: Hash)
    ensures Reachable(h, File(V1, EMPTY))
  {
    assert Run(h, System(File(V1, EMPTY), None), []) == System(File(V1, EMPTY), None);
  }

  // -- One request and one registration ---------------------------------------------------

  lemma ReserveWrites(h: Hash, o: Owner, d: Ledger, units: int, meta: Metadata, id: Id, now: int)
    requires o.data == d && o.body == d
    ensures var r := Reserve(h, o, d, units, meta, id, now, NoFault);
            r.2 ==>
              && ReserveGuard(h, o, units, meta) && r.1 == ReserveData(o, units, meta, id, now).data
              && r.0 == o.(data := r.1, body := r.1)
  {
    hide ReserveGuard, SaveAccepts;
  }

  lemma SettleWrites(h: Hash, o: Owner, d: Ledger, id: Id, cost: Option<int>, sent: bool, now: int)
    requires o.data == d && o.body == d
    ensures var r := Settle(h, o, d, id, cost, sent, now, NoFault);
            r.2 ==> SettleGuard(o, id, cost, sent) && r.1 == SettleData(o, id, cost, sent, now).data
  {
    hide SaveAccepts;
  }

  lemma FoundLast(reqs: seq<Request>, r: Request)
    requires forall i :: 0 <= i < |reqs| ==> reqs[i].id != r.id
    ensures FindRequest(reqs + [r], r.id) == |reqs|
  {
    assert (reqs + [r])[|reqs|] == r && forall i :: 0 <= i < |reqs| ==> (reqs + [r])[i] == reqs[i];
  }

  function Asked(cost: Option<nat>): Option<int> { if cost.Some? then Some(cost.value) else None }

  /** What one request leaves in the period: an unknown one without a cost, else a completed one. */
  function Made(who: Identity, p: Period, units: nat, meta: Metadata, id: Id, cost: Option<nat>): Period
    requires cost.Some? ==> cost.value <= units
  {
    AfterSettle(AfterReserve(p, NewRequest(who, p, units, meta, id, 0)), |p.requests|, Asked(cost), true, 0)
  }

  /** An available owner opens the file, makes one request and closes. */
  lemma RequestReaches(h: Hash, schema: Schema, p: Period, who: Identity, units: nat, meta: Metadata, id: Id,
                       cost: Option<nat>)
    requires p.periodId == PID && Reachable(h, File(schema, p)) && (cost.Some? ==> cost.value <= units)
    requires ReserveGuard(h, Owner(PID, who, Role.Requests, File(schema, p), File(schema, p), p.allocation), units,
                          meta)
    requires |p.requests| < MAX_REQUESTS && forall i :: 0 <= i < |p.requests| ==> p.requests[i].id != id
    ensures Reachable(h, File(schema, Made(who, p, units, meta, id, cost)))
  {
    hide Available, LedgerOk, PeriodOk, Unambiguous, Reserve, Settle, Run, Reachable;
    var d := File(schema, p);
    ReachableGood(h, d);
    FileOwns(schema, p);
    var o := Owner(PID, who, Role.Requests, d, d, p.allocation);
    assert Requests.InStep(h, o, d);
    Requests.ReserveAccepted(h, o, d, units, meta, id, 0);
    ReserveWrites(h, o, d, units, meta, id, 0);
    var sent := NewRequest(who, p, units, meta, id, 0);
    var q := AfterReserve(p, sent);
    var e, o1 := File(schema, q), o.(data := File(schema, q), body := File(schema, q));
    assert Reserve(h, o, d, units, meta, id, 0, NoFault) == (o1, e, true);
    FileOwns(schema, q);
    FoundLast(p.requests, sent);
    Requests.SettleAccepted(h, o1, e, id, Asked(cost), true, 0);
    SettleWrites(h, o1, e, id, Asked(cost), true, 0);
    var last := Settle(h, o1, e, id, Asked(cost), true, 0, NoFault);
    assert last.1 == File(schema, Made(who, p, units, meta, id, cost));
    var actions :=
        [Open(PID, who), DoReserve(units, meta, id, 0, NoFault), DoSettle(id, Asked(cost), true, 0, NoFault), Close];
    assert Next(h, System(d, None), actions[0]) == System(d, Some(o));
    assert Next(h, System(d, Some(o)), actions[1]) == System(e, Some(o1));
    assert Next(h, System(e, Some(o1)), actions[2]) == System(last.1, Some(last.0));
    FourSteps(h, System(d, None), System(d, Some(o)), System(e, Some(o1)), System(last.1, Some(last.0)),
              System(last.1, None), actions);
    ReachesOn(h, d, actions, last.1);
  }

  lemma OneStep(h: Hash, s: System, a: Action)
    ensures Run(h, s, [a]) == Next(h, s, a)
  {
    hide Next;
    assert Run(h, Next(h, s, a), [a][1..]) == Next(h, s, a);
  }

  lemma FourSteps(h: Hash, s0: System, s1: System, s2: System, s3: System, s4: System, actions: seq<Action>)
    requires |actions| == 4 && Next(h, s0, actions[0]) == s1 && Next(h, s1, actions[1]) == s2
    requires Next(h, s2, actions[2]) == s3 && Next(h, s3, actions[3]) == s4
    ensures Run(h, s0, actions) == s4
  {
    hide Next;
    assert actions[1..][1..] == actions[2..] && actions[2..][1..] == actions[3..] && actions[3..] == [actions[3]];
    OneStep(h, s3, actions[3]);
    assert Run(h, s2, actions[2..]) == Run(h, s3, actions[3..]);
    assert Run(h, s1, actions[1..]) == Run(h, s2, actions[2..]);
  }

  /** From the reachable file `d` one action makes the file `e`. */
  ghost predicate Makes(h: Hash, d: Ledger, a: Action, e: Ledger) {
    Reachable(h, d) && Next(h, System(d, None), a) == System(e, None)
  }

  lemma MakesReachable(h: Hash, d: Ledger, a: Action, e: Ledger)
    requires Makes(h, d, a, e)
    ensures Reachable(h, e)
  {
    hide Next, Reachable;
    OneStep(h, System(d, None), a);
    ReachesOn(h, d, [a], e);
  }

  lemma AuthorizeMakes(h: Hash, schema: Schema, p: Period, plan: Plan)
    requires p.periodId == PID == plan.periodId && Reachable(h, File(schema, p))
             && Registrations.MayAuthorize(h, File(schema, p), p, plan)
    ensures Makes(h, File(schema, p), DoAuthorize(plan, NoFault), File(schema, p.(plan := Some(plan))))
  {
    hide LedgerOk, Unambiguous, SaveAccepts, Reachable, Registrations.MayAuthorize;
    var d := File(schema, p);
    ReachableGood(h, d);
    FileOwns(schema, p);
    assert p.plan.None? by { AuthorizeFirst(h, d, p, plan); }
    Registrations.AuthorizeAccepted(h, PID, d, plan);
  }

  lemma AuthorizeFirst(h: Hash, d: Ledger, p: Period, plan: Plan)
    requires Registrations.MayAuthorize(h, d, p, plan)
    ensures p.plan.None?
  {
  }

  lemma RebindMakes(h: Hash, schema: Schema, p: Period, b: Binding)
    requires p.periodId == PID == b.periodId && Reachable(h, File(schema, p)) && p.binding.None?
             && Registrations.MayRebind(h, File(schema, p), p, b)
    ensures Makes(h, File(schema, p), DoRebind(b, NoFault), File(V2, p.(binding := Some(b))))
  {
    hide LedgerOk, Unambiguous, SaveAccepts, Reachable, Registrations.MayRebind;
    var d := File(schema, p);
    ReachableGood(h, d);
    FileOwns(schema, p);
    Registrations.RebindAccepted(h, PID, d, b);
  }

  lemma AppendMakes(h: Hash, schema: Schema, p: Period, b: Binding)
    requires p.periodId == PID == b.periodId && Reachable(h, File(schema, p)) && p.candidates.None?
             && Registrations.MayAppend(h, File(schema, p), p, b)
    ensures Makes(h, File(schema, p), DoAppend(b, NoFault), File(V3, p.(candidates := Some([b]))))
  {
    hide LedgerOk, Unambiguous, SaveAccepts, Reachable, Registrations.MayAppend;
    var d := File(schema, p);
    ReachableGood(h, d);
    FileOwns(schema, p);
    Registrations.AppendAccepted(h, PID, d, b);
    assert ListOf(p.candidates) + [b] == [b];
  }

  lemma ContinueMakes(h: Hash, schema: Schema, p: Period, r: Continuation)
    requires p.periodId == PID == r.periodId && Reachable(h, File(schema, p)) && ActiveContinuation(p) != Some(r)
    requires Registrations.MayContinue(h, File(schema, p), p, r)
    ensures Makes(h, File(schema, p), DoContinue(r, NoFault),
                  File(if r.kind.Successor? then V5 else V4, Registrations.Continuing(p, r)))
  {
    hide LedgerOk, Unambiguous, SaveAccepts, Reachable, Registrations.MayContinue;
    var d := File(schema, p);
    ReachableGood(h, d);
    FileOwns(schema, p);
    Registrations.ContinueAccepted(h, PID, d, r);
  }

  lemma ReconcileMakes(h: Hash, schema: Schema, p: Period, r: Reconciliation)
    requires p.periodId == PID == r.periodId && Reachable(h, File(schema, p)) && p.reconciliations.None?
    requires Usage.MayReconcile(h, File(schema, p), p, r)
    ensures FindRequest(p.requests, r.requestId) < |p.requests|
    ensures Makes(h, File(schema, p), DoReconcile(r, NoFault),
                  File(V6, AfterReconcile(p, FindRequest(p.requests, r.requestId), r)))
  {
    hide LedgerOk, Unambiguous, SaveAccepts, Reachable, Usage.MayReconcile;
    var d := File(schema, p);
    ReachableGood(h, d);
    FileOwns(schema, p);
    Usage.ReconcileAccepted(h, PID, d, r);
  }

  // -- The files --------------------------------------------------------------------------

  const META := Metadata(Some(Pricing.MAX_MODEL), Some(Pricing.MAX_PRICE_BASIS), Some(1), Some(0), map[])

  /** A sent request of unknown cost. */
  const LOST := Request(1, Unknown, 1, None, 0, Some(0), None, None, None, None, None, META)

  const STARTED := EMPTY.(requests := [LOST], reservedCost := 1)

  function CarriedLost(h: Hash): seq<Carried> { [Carried(1, 1, h.request(LOST))] }

  function PlanFor(h: Hash, kind: PlanKind): Plan
    requires kind.SuiteV2? || kind.TaskSingle?
  {
    Plan(kind, 2, if kind.TaskSingle? then None else Some(3), PID, 60 * YUAN, Plans.FixedMaximum(kind).value,
         h.body(File(V1, STARTED)), 1, h.requests([LOST]), CarriedLost(h))
  }

  function Planned(h: Hash, kind: PlanKind): Period
    requires kind.SuiteV2? || kind.TaskSingle?
  {
    STARTED.(plan := Some(PlanFor(h, kind)))
  }

  lemma StartedReachable(h: Hash)
    ensures Reachable(h, File(V1, STARTED))
  {
    EmptyReachable(h);
    hide Reachable;
    FileOwns(V1, EMPTY);
    assert ReserveGuard(h, Owner(PID, NOBODY, Role.Requests, File(V1, EMPTY), File(V1, EMPTY), EMPTY.allocation), 1,
                        META);
    RequestReaches(h, V1, EMPTY, NOBODY, 1, META, 1, None);
    assert Made(NOBODY, EMPTY, 1, META, 1, None) == STARTED;
  }

  lemma LostCarried(h: Hash)
    ensures Plans.CarriedOk(h, [LOST], CarriedLost(h))
  {
    assert CarriedLost(h)[0].id == [LOST][0].id == 1;
  }

  lemma PlanFits(h: Hash, kind: PlanKind)
    requires kind.SuiteV2? || kind.TaskSingle?
    ensures Registrations.MayAuthorize(h, File(V1, STARTED), STARTED, PlanFor(h, kind))
  {
    LostCarried(h);
    hide Plans.CarriedOk;
    assert ContextOf(STARTED).recs == [] && [LOST][..1] == [LOST];
  }

  lemma PlannedReachable(h: Hash, kind: PlanKind)
    requires kind.SuiteV2? || kind.TaskSingle?
    ensures Reachable(h, File(V1, Planned(h, kind)))
  {
    hide Reachable;
    StartedReachable(h);
    PlanFits(h, kind);
    AuthorizeMakes(h, V1, STARTED, PlanFor(h, kind));
    MakesReachable(h, File(V1, STARTED), DoAuthorize(PlanFor(h, kind), NoFault), File(V1, Planned(h, kind)));
  }

  // -- The suite line ---------------------------------------------------------------------

  function Rebinding(h: Hash): Binding {
    var plan := PlanFor(h, SuiteV2);
    Binding(4, 2, PID, 3, 5, h.body(File(V1, Planned(h, SuiteV2))), h.plan(plan), 1, h.requests([LOST]), 0,
            plan.maximumCost, None)
  }

  function Bound(h: Hash): Period { Planned(h, SuiteV2).(binding := Some(Rebinding(h))) }

  function Candidate(h: Hash): Binding {
    Rebinding(h).(bindingId := 6, previousSuiteId := 5, suiteId := 7, ledgerBefore := h.body(File(V2, Bound(h))),
                  link := Some(Link(h.binding(Rebinding(h)), 1)))
  }

  lemma PlanHolds(h: Hash, kind: PlanKind, bound: bool)
    requires kind.SuiteV2? || (kind.TaskSingle? && !bound)
    ensures Plans.PlanOk(h, Context(PID, 60 * YUAN, bound, []), [LOST], PlanFor(h, kind))
  {
    LostCarried(h);
    hide Plans.CarriedOk;
    assert [LOST][..1] == [LOST];
  }

  lemma BaseFits(h: Hash, bound: bool, b: Binding)
    requires b == Rebinding(h) || b == Candidate(h)
    ensures Bindings.BaseOk(h, Context(PID, 60 * YUAN, bound, []), [LOST], PlanFor(h, SuiteV2), b)
  {
    PlanHolds(h, SuiteV2, bound);
    LostCarried(h);
    hide Plans.PlanOk;
    assert [LOST][..1] == [LOST] && [LOST][0].id == 1;
  }

  lemma RebindingFits(h: Hash, bound: bool)
    ensures Bindings.RebindingOk(h, Context(PID, 60 * YUAN, bound, []), [LOST], PlanFor(h, SuiteV2), Rebinding(h))
  {
    BaseFits(h, bound, Rebinding(h));
    hide Bindings.BaseOk;
  }

  lemma CandidateFits(h: Hash)
    ensures Bindings.ChainOk(h, Context(PID, 60 * YUAN, true, []), [LOST], PlanFor(h, SuiteV2), Rebinding(h),
                             [Candidate(h)])
  {
    RebindingFits(h, true);
    BaseFits(h, true, Candidate(h));
    hide Bindings.BaseOk, Bindings.RebindingOk;
    assert [LOST][..1] == [LOST];
    assert Bindings.All(Rebinding(h), [Candidate(h)]) == [Rebinding(h), Candidate(h)];
  }

  lemma SuiteLine(h: Hash)
    ensures Makes(h, File(V1, Planned(h, SuiteV2)), DoRebind(Rebinding(h), NoFault), File(V2, Bound(h)))
    ensures Makes(h, File(V2, Bound(h)), DoAppend(Candidate(h), NoFault),
                  File(V3, Bound(h).(candidates := Some([Candidate(h)]))))
  {
    PlannedReachable(h, SuiteV2);
    RebindingFits(h, false);
    CandidateFits(h);
    hide Makes, Reachable, Bindings.RebindingOk, Bindings.ChainOk;
    var p := Planned(h, SuiteV2);
    assert ContextOf(p) == Context(PID, 60 * YUAN, false, [])
           && ContextOf(Bound(h)) == Context(PID, 60 * YUAN, true, []);
    RebindMakes(h, V1, p, Rebinding(h));
    MakesReachable(h, File(V1, p), DoRebind(Rebinding(h), NoFault), File(V2, Bound(h)));
    assert ListOf(Bound(h).candidates) + [Candidate(h)] == [Candidate(h)];
    AppendMakes(h, V2, Bound(h), Candidate(h));
  }

  // -- The task line ----------------------------------------------------------------------

  function First(h: Hash): Continuation {
    Continuation(Single, 4, 2, PID, BETA_TASK, h.body(File(V1, Planned(h, TaskSingle))), 1, h.requests([LOST]),
                 CarriedLost(h), None)
  }

  function Resumed(h: Hash): Period { Planned(h, TaskSingle).(continuation := Some(First(h))) }

  const TASKED := Identity(Some(2), None, Some(BETA_TASK), Some(4))

  /** The one request of the first window, completed at no cost. */
  const DONE := Request(8, Completed, 0, Some(0), 0, Some(0), Some(2), Some(BETA_TASK), None, None, Some(4), META)

  function Worked(h: Hash): Period { Resumed(h).(requests := [LOST, DONE]) }

  function Second(h: Hash): Continuation {
    Continuation(Successor, 9, 2, PID, BETA_TASK, h.body(File(V4, Worked(h))), 2, h.requests([LOST, DONE]),
                 CarriedLost(h), Some(4))
  }

  function Receipt(h: Hash): Reconciliation {
    Reconciliation(10, None, PID, 1, h.request(LOST), h.body(File(V4, Resumed(h))), 0, 0, 6_000, 24_000, 0, 0)
  }

  const UNBOUND := Context(PID, 60 * YUAN, false, [])

  lemma FirstFits(h: Hash)
    ensures Continuations.WindowOk(h, UNBOUND, [LOST], PlanFor(h, TaskSingle), First(h))
  {
    PlanHolds(h, TaskSingle, false);
    LostCarried(h);
    hide Plans.PlanOk, Plans.CarriedOk;
    assert [LOST][..1] == [LOST];
  }

  lemma PlanHoldsLater(h: Hash)
    ensures Plans.PlanOk(h, UNBOUND, [LOST, DONE], PlanFor(h, TaskSingle))
  {
    LostCarried(h);
    hide Plans.CarriedOk;
    assert [LOST, DONE][..1] == [LOST];
    assert Total(Charged, map[], [LOST, DONE], 1, 2) == 0;
  }

  lemma BothCarried(h: Hash)
    ensures Plans.CarriedOk(h, [LOST, DONE], CarriedLost(h))
  {
    assert CarriedLost(h)[0].id == [LOST, DONE][0].id == 1;
  }

  lemma SecondFits(h: Hash)
    ensures Continuations.LineOk(h, UNBOUND, [LOST, DONE], PlanFor(h, TaskSingle), First(h), [Second(h)])
  {
    PlanHoldsLater(h);
    LostCarried(h);
    BothCarried(h);
    hide Plans.PlanOk, Plans.CarriedOk;
    var all := [LOST, DONE];
    assert all[..1] == [LOST] && all[..2] == all && Take(all, 2) == all;
    assert Continuations.WindowOk(h, UNBOUND, all, PlanFor(h, TaskSingle), First(h));
    assert Continuations.WindowOk(h, UNBOUND, all, PlanFor(h, TaskSingle), Second(h));
    assert Continuations.Line(First(h), [Second(h)]) == [First(h), Second(h)];
  }

  lemma ReceiptFits(h: Hash)
    ensures Rec.RecordOk(h, PID, [LOST], Receipt(h))
  {
    assert Rec.UniqueAt([LOST], 1, 0) && Rec.Matches(h, [LOST][0], Receipt(h));
  }

  lemma ResumedReachable(h: Hash)
    ensures Makes(h, File(V1, Planned(h, TaskSingle)), DoContinue(First(h), NoFault), File(V4, Resumed(h)))
            && Reachable(h, File(V4, Resumed(h)))
  {
    PlannedReachable(h, TaskSingle);
    FirstFits(h);
    hide Makes, Reachable, Continuations.WindowOk;
    var p := Planned(h, TaskSingle);
    assert ContextOf(Resumed(h)) == UNBOUND;
    ContinueMakes(h, V1, p, First(h));
    MakesReachable(h, File(V1, p), DoContinue(First(h), NoFault), File(V4, Resumed(h)));
  }

  lemma WorkAdmitted(h: Hash)
    ensures ReserveGuard(h, Owner(PID, TASKED, Role.Requests, File(V4, Resumed(h)), File(V4, Resumed(h)), 60 * YUAN), 1,
                         META)
  {
    FirstFits(h);
    PlanHolds(h, TaskSingle, false);
    FileOwns(V4, Resumed(h));
    hide Continuations.WindowOk, Plans.PlanOk;
    var p := Resumed(h);
    assert ContextOf(p) == UNBOUND;
    assert Plans.CarriedIn(CarriedLost(h), 1) by { assert CarriedLost(h)[0].id == 1; }
    assert Available(h, TASKED, p);
  }

  lemma WorkedReachable(h: Hash)
    ensures Reachable(h, File(V4, Worked(h)))
  {
    ResumedReachable(h);
    WorkAdmitted(h);
    hide Reachable, ReserveGuard;
    RequestReaches(h, V4, Resumed(h), TASKED, 1, META, 8, Some(0));
    assert Made(TASKED, Resumed(h), 1, META, 8, Some(0)) == Worked(h);
  }

  lemma TaskLine(h: Hash)
    ensures Makes(h, File(V4, Worked(h)), DoContinue(Second(h), NoFault),
                  File(V5, Worked(h).(successors := Some([Second(h)]))))
    ensures Makes(h, File(V4, Resumed(h)), DoReconcile(Receipt(h), NoFault),
                  File(V6, AfterReconcile(Resumed(h), 0, Receipt(h))))
  {
    WorkedReachable(h);
    ResumedReachable(h);
    SecondFits(h);
    ReceiptFits(h);
    hide Makes, Reachable, Continuations.LineOk, Rec.RecordOk;
    assert ListOf(Worked(h).successors) + [Second(h)] == [Second(h)];
    ContinueMakes(h, V4, Worked(h), Second(h));
    assert FindRequest([LOST], 1) == 0;
    ReconcileMakes(h, V4, Resumed(h), Receipt(h));
  }

  /** The action changes the file's schema from `a` to `b`. */
  ghost predicate Upgrades(h: Hash, s: System, act: Action, a: Schema, b: Schema) {
    s.disk.schema == a && Next(h, s, act).disk.schema == b
  }

  /** The upgrades of `SchemaEdge` are exactly those that happen on runs from the empty file, whatever the digests. */
  lemma UpgradesAreExact(h: Hash, a: Schema, b: Schema)
    requires a != b
    ensures SchemaEdge(a, b) <==> exists s, act :: Reached(h, s) && Upgrades(h, s, act, a, b)
  {
    hide Reached, Next, Good;
    if SchemaEdge(a, b) {
      var d, act := EdgeIsTaken(h, a, b);
      assert Upgrades(h, System(d, None), act, a, b);
    }
    if s, act :| Reached(h, s) && Upgrades(h, s, act, a, b) {
      ReachedKeeps(h, s);
      NextKeeps(h, PID, s, act);
      StepRemembers(h, PID, s.disk, Next(h, s, act).disk);
    }
  }

  lemma EdgeIsTaken(h: Hash, a: Schema, b: Schema) returns (d: Ledger, act: Action)
    requires SchemaEdge(a, b)
    ensures Reachable(h, d) && Upgrades(h, System(d, None), act, a, b)
  {
    SuiteLine(h);
    ResumedReachable(h);
    TaskLine(h);
    hide Next, Reachable;
    if a.V1? && b.V2? { d, act := File(V1, Planned(h, SuiteV2)), DoRebind(Rebinding(h), NoFault); }
    else if a.V2? { d, act := File(V2, Bound(h)), DoAppend(Candidate(h), NoFault); }
    else if a.V1? { d, act := File(V1, Planned(h, TaskSingle)), DoContinue(First(h), NoFault); }
    else if b.V5? { d, act := File(V4, Worked(h)), DoContinue(Second(h), NoFault); }
    else { d, act := File(V4, Resumed(h)), DoReconcile(Receipt(h), NoFault); }
  }
}
