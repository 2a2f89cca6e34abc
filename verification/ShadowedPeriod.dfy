/** What goes wrong when a closed period stands before the active one under the same id. */
module ShadowedPeriod {
  import opened Options
  import opened LedgerData
  import opened Validity
  import opened LedgerSteps

  const PID: Id := 7

  const PLAIN := Metadata(None, None, None, None, map[])

  /** A completed request that cost ten units. */
  const PAID := Request(1, Completed, 0, Some(10), 0, Some(0), None, None, None, None, None, PLAIN)

  function PlainPeriod(active: bool, reqs: seq<Request>): Period {
    Period(PID, active, 10, 0, 0, reqs, None, None, None, None, None, None)
  }

  /** A closed period whose stored total forgets its one request, then an active period with the same id. */
  const SHADOWING := Ledger(V1, "aliyun-bailian", "CNY", [PlainPeriod(false, [PAID]), PlainPeriod(true, [])])

  lemma EmptyPeriodOk(h: Hash)
    ensures PeriodOk(h, V1, PlainPeriod(true, []))
  {
    var p := PlainPeriod(true, []);
    assert ContextOf(p).recs == [];
  }

  lemma ShadowingAccepted(h: Hash)
    ensures LedgerOk(h, SHADOWING, PID) && OwnIndex(SHADOWING.periods, PID) == 0 && !Unambiguous(SHADOWING, PID)
  {
    EmptyPeriodOk(h);
    hide PeriodOk;
    assert ActiveAt(SHADOWING, PID, 1);
    assert SHADOWING.periods[0].periodId == PID;
    forall k | 0 <= k < 2 && ActiveAt(SHADOWING, PID, k)
      ensures exists j :: 0 <= j < k && SHADOWING.periods[j].periodId == PID
    {
      assert k == 1;
    }
  }

  lemma ShadowingAvailable(h: Hash)
    ensures Available(h, NOBODY, PlainPeriod(false, [PAID]))
  {
  }

  /** The accepted file lets an owner reserve ten more units in the closed period, although its requests already used up
      the allocation: the refolded total passes the allocation and `_validate` never looks. */
  lemma ShadowedReservation(h: Hash)
    ensures var entered := Enter(h, PID, NOBODY, Role.Requests, SHADOWING);
            && entered.Some? && LedgerOk(h, SHADOWING, PID)
            && var r := Reserve(h, entered.value, SHADOWING, 10, PLAIN, 2, 0, NoFault);
               && r.2 && HasOwn(r.1, PID)
               && var p := OwnPeriod(r.1, PID);
                  && !p.active && |p.requests| == 2
                  && Total(Known, map[], p.requests, 0, 2) + Total(Held, map[], p.requests, 0, 2) > p.allocation
  {
    ShadowingAccepted(h);
    ShadowingAvailable(h);
    hide LedgerOk, Available, Unambiguous;
    var p := PlainPeriod(false, [PAID]);
    assert OwnPeriod(SHADOWING, PID) == p;
    var o := Enter(h, PID, NOBODY, Role.Requests, SHADOWING).value;
    assert ReserveGuard(h, o, 10, PLAIN);
    var q := AfterReserve(p, NewRequest(NOBODY, p, 10, PLAIN, 2, 0));
    var m := WithOwn(SHADOWING, PID, q);
    assert m == ReserveData(o, 10, PLAIN, 2, 0).data;
    ShadowedSave(h, q);
    assert q.requests == [PAID, NewRequest(NOBODY, p, 10, PLAIN, 2, 0)];
  }

  lemma ShadowedSave(h: Hash, q: Period)
    requires q.periodId == PID && !q.active && q.binding.None? && q.continuation.None?
    ensures var m := WithOwn(SHADOWING, PID, q); LedgerOk(h, m, PID) && HasOwn(m, PID) && OwnPeriod(m, PID) == q
  {
    EmptyPeriodOk(h);
    hide PeriodOk;
    var m := WithOwn(SHADOWING, PID, q);
    assert m.periods == [q, PlainPeriod(true, [])];
    assert ActiveAt(m, PID, 1);
  }
}
