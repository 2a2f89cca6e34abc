/** One guarded model request: reserve, relay an arbitrary provider stream, settle once. */
module GuardedStream {
  import opened Options
  import opened LedgerData
  import opened Pricing
  import opened LedgerSteps
  import opened Validity
  import RequestsAccepted
  import Rec = Reconciliations
  import BudgetLedger

  datatype Event =
    | AttemptStarted(attemptId: Id, index: nat, requestedModel: string, provider: string, step: nat)
    | UsageObserved(attemptId: Id, usage: Usage, actualModel: Option<string>)
    | AttemptFinished(attemptId: Id, completed: bool)
    | ResponseCompleted(inputTokens: nat, outputTokens: nat)
    | Content(text: string)

  /** How the provider stream stops: exhausted, exhausted but failing to close, or cut by an exception, a cancellation
      or a closing consumer. */
  datatype Ending = Exhausted | CloseFails | Cut

  // -- Which streams conform --------------------------------------------------------------

  predicate Conforms(b: Bounds, step: nat, e: Event) {
    e.AttemptStarted? && e.index == 1 && e.requestedModel == b.model && e.provider == "openai_chat" && e.step == step
  }

  predicate NoLess(prev: Option<nat>, next: Option<nat>, final: bool) {
    prev.Some? ==> next.Some? && prev.value <= next.value && (final ==> next == prev)
  }

  /** `validate_successor`: a later observation drops and lowers nothing, and a complete one is final. */
  predicate Succeeds(prev: Usage, next: Usage) {
    var final := prev.completeness.Complete?;
    && (final ==> next.completeness.Complete?)
    && NoLess(prev.input, next.input, final) && NoLess(prev.output, next.output, final)
    && NoLess(prev.uncached, next.uncached, final) && NoLess(prev.cacheRead, next.cacheRead, final)
    && NoLess(prev.cacheCreation, next.cacheCreation, final) && NoLess(prev.reasoning, next.reasoning, final)
  }

  /** The last usage observed. */
  function LastUsage(es: seq<Event>): Usage {
    if es == [] then NO_USAGE
    else if es[|es| - 1].UsageObserved? then es[|es| - 1].usage else LastUsage(es[..|es| - 1])
  }

  /** A usage or finish event belongs to the one started attempt and comes before its end. */
  predicate Belongs(es: seq<Event>, i: int)
    requires 0 <= i < |es| && (es[i].UsageObserved? || es[i].AttemptFinished?)
  {
    && (exists j :: 0 <= j < i && es[j].AttemptStarted? && es[j].attemptId == es[i].attemptId)
    && (forall j :: 0 <= j < i ==> !es[j].AttemptFinished?)
  }

  /** Event `i` is admissible after the events before it. */
  predicate Admissible(b: Bounds, step: nat, es: seq<Event>, i: int)
    requires 0 <= i < |es|
  {
    && (forall j :: 0 <= j < i ==> !es[j].ResponseCompleted?)
    && (es[i].AttemptStarted? ==> Conforms(b, step, es[i]) && forall j :: 0 <= j < i ==> !es[j].AttemptStarted?)
    && (es[i].UsageObserved? ==> Belongs(es, i) && Succeeds(LastUsage(es[..i]), es[i].usage))
    && (es[i].AttemptFinished? ==> Belongs(es, i))
  }

  predicate Protocol(b: Bounds, step: nat, es: seq<Event>) {
    forall i :: 0 <= i < |es| ==> Admissible(b, step, es, i)
  }

  /** `out` is the longest prefix of admissible events before any response. */
  predicate Relayed(b: Bounds, step: nat, es: seq<Event>, out: seq<Event>) {
    && out <= es
    && (forall i :: 0 <= i < |out| ==> Admissible(b, step, es, i) && !es[i].ResponseCompleted?)
    && (|out| < |es| ==> !Admissible(b, step, es, |out|) || es[|out|].ResponseCompleted?)
  }

  /** The request may have been sent: some attempt, conforming or not, is announced after admissible events alone. */
  predicate PossiblySent(b: Bounds, step: nat, es: seq<Event>) {
    exists i :: 0 <= i < |es| && es[i].AttemptStarted? && Opens(b, step, es, i)
  }

  predicate Opens(b: Bounds, step: nat, es: seq<Event>, i: int)
    requires 0 <= i < |es|
  {
    forall j :: 0 <= j < i ==> Admissible(b, step, es, j) && !es[j].ResponseCompleted?
  }

  predicate Started(es: seq<Event>) { exists i :: 0 <= i < |es| && es[i].AttemptStarted? }

  predicate Ended(es: seq<Event>) { exists i :: 0 <= i < |es| && es[i].AttemptFinished? }

  predicate Succeeded(es: seq<Event>) { exists i :: 0 <= i < |es| && es[i].AttemptFinished? && es[i].completed }

  predicate Names(e: Event) { e.UsageObserved? && e.actualModel.Some? }

  /** At least one observation names the model that answered, and all that do name the fixed one. */
  predicate OnModel(b: Bounds, es: seq<Event>) {
    && (exists i :: 0 <= i < |es| && Names(es[i]))
    && (forall i :: 0 <= i < |es| && Names(es[i]) ==> es[i].actualModel == Some(b.model))
  }

  function Completion(es: seq<Event>): Option<Event> {
    if es != [] && es[|es| - 1].ResponseCompleted? then Some(es[|es| - 1]) else None
  }

  /** The response, if there is one, agrees with the finished attempt's usage. */
  predicate Agrees(es: seq<Event>) {
    Completion(es).Some? ==>
      && Succeeded(es)
      && Some(Completion(es).value.inputTokens) == LastUsage(es).input
      && Some(Completion(es).value.outputTokens) == LastUsage(es).output
  }

  /** The cost of a request is known exactly when the stream ran out cleanly under the protocol, its attempt ended on
      the fixed model, its response agrees, and its usage is complete and in bounds. */
  function KnownCost(b: Bounds, step: nat, es: seq<Event>, ending: Ending): Option<nat> {
    if !ending.Cut? && Protocol(b, step, es) && Ended(es) && OnModel(b, es) && Agrees(es) then
      CostUnits(b, LastUsage(es))
    else None
  }

  // -- The relay loop ---------------------------------------------------------------------

  /** What the relay tracks. */
  datatype Track = Track(
    attempt: Option<Id>, possiblySent: bool, usage: Usage, actualModel: Option<string>, finished: bool,
    attemptEnded: bool, mismatch: bool, completion: Option<Event>, released: seq<Event>)

  const UNTRACKED := Track(None, false, NO_USAGE, None, false, false, false, None, [])

  /** The tracked state says exactly this about the events seen. */
  ghost predicate Tracks(b: Bounds, es: seq<Event>, t: Track) {
    && (t.attempt.Some? <==> Started(es)) && (t.possiblySent <==> Started(es))
    && (forall i :: 0 <= i < |es| && es[i].AttemptStarted? ==> t.attempt == Some(es[i].attemptId))
    && (t.attemptEnded <==> Ended(es)) && (t.finished <==> Succeeded(es)) && (Ended(es) ==> Started(es))
    && t.usage == LastUsage(es)
    && TracksModel(b, es, t)
    && t.completion == Completion(es)
    && t.released == (if t.completion.Some? && es != [] then es[..|es| - 1] else es)
    && NoCompletion(t.released)
  }

  ghost predicate NoCompletion(es: seq<Event>) { forall i :: 0 <= i < |es| ==> !es[i].ResponseCompleted? }

  ghost predicate TracksModel(b: Bounds, es: seq<Event>, t: Track) {
    && (t.actualModel.Some? <==> exists i :: 0 <= i < |es| && Names(es[i]))
    && (t.mismatch <==> exists i :: 0 <= i < |es| && Names(es[i]) && es[i].actualModel != Some(b.model))
    && (t.actualModel.Some? && !t.mismatch ==> t.actualModel == Some(b.model))
  }

  function Release(t: Track, e: Event): Track {
    if e.ResponseCompleted? then t.(completion := Some(e)) else t.(released := t.released + [e])
  }

  lemma {:induction false} LastSplits(es: seq<Event>, e: Event)
    ensures LastUsage(es + [e]) == if e.UsageObserved? then e.usage else LastUsage(es)
    ensures Completion(es + [e]) == if e.ResponseCompleted? then Some(e) else None
    ensures Started(es + [e]) <==> Started(es) || e.AttemptStarted?
    ensures Ended(es + [e]) <==> Ended(es) || e.AttemptFinished?
    ensures Succeeded(es + [e]) <==> Succeeded(es) || (e.AttemptFinished? && e.completed)
  {
    var all := es + [e];
    assert all[..|es|] == es && all[|es|] == e;
    assert forall i :: 0 <= i < |es| ==> all[i] == es[i];
  }

  lemma TrackStarted(b: Bounds, es: seq<Event>, t: Track, e: Event)
    requires Tracks(b, es, t) && t.completion.None? && t.attempt.None? && e.AttemptStarted?
    ensures Tracks(b, es + [e], Release(t.(possiblySent := true, attempt := Some(e.attemptId)), e))
  {
    LastSplits(es, e);
    assert forall i :: 0 <= i < |es| ==> !es[i].AttemptStarted?;
    hide Started, Ended, Succeeded, Completion, LastUsage;
    ModelKept(b, es, t, e);
    hide TracksModel;
  }

  lemma TrackUsage(b: Bounds, es: seq<Event>, t: Track, e: Event)
    requires Tracks(b, es, t) && t.completion.None? && e.UsageObserved?
    ensures Tracks(b, es + [e], Release(SeeModel(b, t.(usage := e.usage), e.actualModel), e))
  {
    hide Started, Ended, Succeeded, Completion, LastUsage, TracksModel, Names;
    LastSplits(es, e);
    ModelUpdated(b, es, t.(usage := e.usage), e) by { ModelIgnoresUsage(b, es, t, e.usage); }
    assert (es + [e])[|es|] == e;
    ModelIgnoresRelease(b, es + [e], SeeModel(b, t.(usage := e.usage), e.actualModel), e);
  }

  lemma ModelIgnoresUsage(b: Bounds, es: seq<Event>, t: Track, u: Usage)
    requires TracksModel(b, es, t)
    ensures TracksModel(b, es, t.(usage := u))
  {
  }

  lemma ModelIgnoresRelease(b: Bounds, es: seq<Event>, t: Track, e: Event)
    requires TracksModel(b, es, t)
    ensures TracksModel(b, es, Release(t, e))
  {
  }

  function SeeModel(b: Bounds, t: Track, model: Option<string>): Track {
    if model.Some? then t.(mismatch := t.mismatch || model != Some(b.model), actualModel := model) else t
  }

  lemma ModelUpdated(b: Bounds, es: seq<Event>, t: Track, e: Event)
    requires TracksModel(b, es, t) && e.UsageObserved?
    ensures TracksModel(b, es + [e], SeeModel(b, t, e.actualModel))
  {
    var all := es + [e];
    assert all[|es|] == e && forall i :: 0 <= i < |es| ==> all[i] == es[i];
  }

  lemma TrackFinished(b: Bounds, es: seq<Event>, t: Track, e: Event)
    requires Tracks(b, es, t) && t.completion.None? && t.attempt.Some? && !t.attemptEnded && e.AttemptFinished?
    ensures Tracks(b, es + [e], Release(t.(finished := e.completed, attemptEnded := true), e))
  {
    LastSplits(es, e);
    assert !Succeeded(es);
    hide Started, Ended, Succeeded, Completion, LastUsage;
    ModelKept(b, es, t, e);
    hide TracksModel;
  }

  lemma TrackOther(b: Bounds, es: seq<Event>, t: Track, e: Event)
    requires Tracks(b, es, t) && t.completion.None? && (e.Content? || e.ResponseCompleted?)
    ensures Tracks(b, es + [e], Release(t, e))
  {
    LastSplits(es, e);
    hide Started, Ended, Succeeded, Completion, LastUsage;
    ModelKept(b, es, t, e);
    hide TracksModel;
    assert (es + [e])[..|es|] == es;
  }

  lemma ModelKept(b: Bounds, es: seq<Event>, t: Track, e: Event)
    requires TracksModel(b, es, t) && !e.UsageObserved?
    ensures TracksModel(b, es + [e], t)
  {
    var all := es + [e];
    assert all[|es|] == e && forall i :: 0 <= i < |es| ==> all[i] == es[i];
  }

  /** What the relay tests is what admissibility says. */
  lemma AdmissibleNow(b: Bounds, step: nat, es: seq<Event>, k: nat, t: Track)
    requires k < |es| && Tracks(b, es[..k], t)
    ensures Admissible(b, step, es, k) <==>
            && t.completion.None?
            && (es[k].AttemptStarted? ==> t.attempt.None? && Conforms(b, step, es[k]))
            && (es[k].UsageObserved? ==>
                  t.attempt == Some(es[k].attemptId) && !t.attemptEnded && Succeeds(t.usage, es[k].usage))
            && (es[k].AttemptFinished? ==> t.attempt == Some(es[k].attemptId) && !t.attemptEnded)
  {
    hide TracksModel, Succeeds, LastUsage, Conforms;
    assert forall i :: 0 <= i < k ==> es[..k][i] == es[i];
    assert t.completion.Some? <==> exists j :: 0 <= j < k && es[j].ResponseCompleted?;
    assert t.attempt.Some? <==> exists j :: 0 <= j < k && es[j].AttemptStarted?;
    assert t.attemptEnded <==> exists j :: 0 <= j < k && es[j].AttemptFinished?;
    if es[k].UsageObserved? || es[k].AttemptFinished? {
      assert t.attempt == Some(es[k].attemptId) <==>
               exists j :: 0 <= j < k && es[j].AttemptStarted? && es[j].attemptId == es[k].attemptId;
    }
  }

  /** The loop of `stream`, event by event, up to the end, a cut or a protocol violation. */
  method Relay(b: Bounds, step: nat, es: seq<Event>, ending: Ending) returns (t: Track, cleanEnd: bool)
    ensures cleanEnd <==> !ending.Cut? && Protocol(b, step, es)
    ensures cleanEnd ==> Tracks(b, es, t)
    ensures t.possiblySent <==> PossiblySent(b, step, es)
    ensures t.attemptEnded ==> t.possiblySent
    ensures Relayed(b, step, es, t.released)
  {
    hide Admissible, Succeeds, Conforms, TracksModel, LastUsage, Started, Ended, Succeeded, Completion, NoCompletion;
    hide Relayed, PossiblySent;
    t := UNTRACKED;
    NothingTracked(b);
    for k := 0 to |es|
      invariant forall i :: 0 <= i < k ==> Admissible(b, step, es, i)
      invariant Tracks(b, es[..k], t)
    {
      var e := es[k];
      assert es[..k + 1] == es[..k] + [e];
      AdmissibleNow(b, step, es, k, t);
      if !Admissible(b, step, es, k) { RelayStops(b, step, es, k, t); }
      if t.completion.Some? { return t, false; }
      match e {
        case AttemptStarted(id, _, _, _, _) =>
          var previous := t.attempt;
          TrackStartedOrNot(b, es[..k], t, e);
          t := t.(possiblySent := true);
          if previous.Some? || !Conforms(b, step, e) { return t, false; }
          t := t.(attempt := Some(id));
        case UsageObserved(id, next, model) =>
          if t.attempt != Some(id) || t.attemptEnded || !Succeeds(t.usage, next) { return t, false; }
          TrackUsage(b, es[..k], t, e);
          t := t.(usage := next);
          if model.Some? {
            t := t.(mismatch := t.mismatch || model != Some(b.model));
            t := t.(actualModel := model);
          }
        case AttemptFinished(id, completed) =>
          if t.attempt != Some(id) || t.attemptEnded { return t, false; }
          TrackFinished(b, es[..k], t, e);
          t := t.(finished := completed, attemptEnded := true);
        case _ =>
          TrackOther(b, es[..k], t, e);
      }
      t := Release(t, e);
    }
    assert es[..|es|] == es;
    RelayEnds(b, step, es, t);
    return t, !ending.Cut?;
  }

  /** The relay stops at the first event that is not admissible. */
  lemma RelayStops(b: Bounds, step: nat, es: seq<Event>, k: nat, t: Track)
    requires k < |es| && Tracks(b, es[..k], t) && (forall i :: 0 <= i < k ==> Admissible(b, step, es, i))
    requires !Admissible(b, step, es, k)
    ensures Relayed(b, step, es, t.released)
    ensures PossiblySent(b, step, es) <==> t.possiblySent || (t.completion.None? && es[k].AttemptStarted?)
  {
    hide Admissible, TracksModel, LastUsage;
    assert forall i :: 0 <= i < k ==> es[..k][i] == es[i];
    ReleasedPrefix(b, es[..k], t);
    SentWithin(b, step, es, t.released);
  }

  lemma RelayEnds(b: Bounds, step: nat, es: seq<Event>, t: Track)
    requires Tracks(b, es, t) && Protocol(b, step, es)
    ensures Relayed(b, step, es, t.released) && (PossiblySent(b, step, es) <==> t.possiblySent)
  {
    hide Admissible, TracksModel, LastUsage;
    ReleasedPrefix(b, es, t);
    SentWithin(b, step, es, t.released);
  }

  lemma ReleasedPrefix(b: Bounds, es: seq<Event>, t: Track)
    requires Tracks(b, es, t)
    ensures t.released <= es && |es| - 1 <= |t.released|
    ensures |t.released| < |es| <==> t.completion.Some?
    ensures t.completion.Some? ==> es[|t.released|].ResponseCompleted?
    ensures forall i :: 0 <= i < |t.released| ==> !es[i].ResponseCompleted?
  {
    hide TracksModel, LastUsage;
    assert forall i :: 0 <= i < |t.released| ==> t.released[i] == es[i];
  }

  /** The event that announces a possible send is relayed, or is the one the relay stops at. */
  lemma SentWithin(b: Bounds, step: nat, es: seq<Event>, out: seq<Event>)
    requires Relayed(b, step, es, out)
    ensures PossiblySent(b, step, es) <==> exists i :: 0 <= i <= |out| && i < |es| && es[i].AttemptStarted?
  {
    hide Admissible;
    if PossiblySent(b, step, es) {
      var i :| 0 <= i < |es| && es[i].AttemptStarted? && Opens(b, step, es, i);
      assert i <= |out|;
    }
    if i :| 0 <= i <= |out| && i < |es| && es[i].AttemptStarted? { assert Opens(b, step, es, i); }
  }

  lemma NothingTracked(b: Bounds)
    ensures Tracks(b, [], UNTRACKED)
  {
  }

  lemma TrackStartedOrNot(b: Bounds, es: seq<Event>, t: Track, e: Event)
    requires Tracks(b, es, t) && t.completion.None? && e.AttemptStarted?
    ensures t.attempt.None? ==> Tracks(b, es + [e], Release(t.(possiblySent := true, attempt := Some(e.attemptId)), e))
  {
    hide Tracks;
    if t.attempt.None? { TrackStarted(b, es, t, e); }
  }

  // -- The guarded request ----------------------------------------------------------------

  /** The cost that the end of `stream` derives from the tracked state. */
  function TrackedCost(b: Bounds, t: Track, cleanEnd: bool): Option<nat> {
    if cleanEnd && t.attemptEnded && t.actualModel == Some(b.model) && !t.mismatch
       && (t.completion.Some? && t.completion.value.ResponseCompleted? ==>
             t.finished && Some(t.completion.value.inputTokens) == t.usage.input
             && Some(t.completion.value.outputTokens) == t.usage.output)
    then CostUnits(b, t.usage) else None
  }

  lemma TrackedCostIsKnown(b: Bounds, step: nat, es: seq<Event>, ending: Ending, t: Track, cleanEnd: bool)
    requires cleanEnd <==> !ending.Cut? && Protocol(b, step, es)
    requires cleanEnd ==> Tracks(b, es, t)
    ensures TrackedCost(b, t, cleanEnd) == KnownCost(b, step, es, ending)
  {
    hide Protocol, CostUnits, LastUsage;
    if cleanEnd {
      assert (t.actualModel == Some(b.model) && !t.mismatch) <==> OnModel(b, es);
    }
  }

  /** A derived cost always satisfies the guard of `settle`: it fits the reservation and implies a send. */
  lemma CostSettles(b: Bounds, t: Track, cleanEnd: bool)
    requires WellPriced(b) && (t.attemptEnded ==> t.possiblySent)
    ensures SettleArgs(MaximumUnits(b), TrackedCost(b, t, cleanEnd), t.possiblySent)
  {
    CostWithinReservation(b, t.usage);
  }

  /** From an owner in step with the file, a persisted reservation can be settled with any admissible arguments. */
  lemma ReservationSettles(h: Hash, o: Owner, disk: Ledger, units: nat, meta: Metadata, id: Id, now: int, f: Fault,
                           cost: Option<int>, sent: bool)
    requires RequestsAccepted.InStep(h, o, disk) && SettleArgs(units, cost, sent)
    requires Reserve(h, o, disk, units, meta, id, now, f).2
    ensures var r := Reserve(h, o, disk, units, meta, id, now, f);
            RequestsAccepted.InStep(h, r.0, r.1) && SettleGuard(r.0, id, cost, sent)
  {
    hide SaveAccepts, LedgerOk, ReserveGuard;
    RequestsAccepted.ReserveAccepted(h, o, disk, units, meta, id, now);
    assert Reserve(h, o, disk, units, meta, id, now, f) == Reserve(h, o, disk, units, meta, id, now, NoFault);
    var p := OwnPeriod(disk, o.pid);
    var reqs := p.requests + [NewRequest(o.identity, p, units, meta, id, now)];
    assert reqs[|p.requests|].id == id && forall i :: 0 <= i < |p.requests| ==> reqs[i].id != id;
    assert FindRequest(reqs, id) == |p.requests|;
  }

  /** What reaches the consumer: the relayed events, and the response only once its known cost is persisted. */
  function Delivered(t: Track, released: bool): seq<Event> {
    if released && t.completion.Some? then t.released + [t.completion.value] else t.released
  }

  lemma DeliveredCompletion(b: Bounds, step: nat, es: seq<Event>, t: Track, cleanEnd: bool, released: bool)
    requires (cleanEnd ==> Tracks(b, es, t)) && Relayed(b, step, es, t.released)
    requires released ==> cleanEnd && t.completion.Some? && TrackedCost(b, t, cleanEnd).Some?
    ensures HasCompletion(Delivered(t, released)) <==> released
    ensures released ==> Delivered(t, released) == es && Succeeded(es)
    ensures TrackedCost(b, t, cleanEnd).Some? ==> (t.completion.Some? <==> HasCompletion(es))
    ensures TrackedCost(b, t, cleanEnd).Some? && t.completion.Some? ==> t.finished
  {
    hide TracksModel, CostUnits, LastUsage, Admissible;
    assert forall i :: 0 <= i < |t.released| ==> t.released[i] == es[i];
    if released {
      assert es == es[..|es| - 1] + [es[|es| - 1]];
      var out := Delivered(t, released);
      assert out[|out| - 1].ResponseCompleted?;
    }
  }

  lemma NothingDelivered()
    ensures !HasCompletion([])
  {
  }

  /** The last usage is that of the last observation, or nothing was observed. */
  lemma {:induction false} LastUsageMeans(es: seq<Event>) returns (k: nat)
    ensures k <= |es| && (forall j :: k <= j < |es| ==> !es[j].UsageObserved?)
    ensures if k == 0 then LastUsage(es) == NO_USAGE else es[k - 1].UsageObserved? && LastUsage(es) == es[k - 1].usage
  {
    if es == [] { k := 0; }
    else if es[|es| - 1].UsageObserved? { k := |es|; }
    else {
      k := LastUsageMeans(es[..|es| - 1]);
    }
  }

  lemma SucceedsTrans(a: Usage, b: Usage, c: Usage)
    requires Succeeds(a, b) && Succeeds(b, c)
    ensures Succeeds(a, c)
  {
  }

  lemma {:induction false} LastSucceeds(b: Bounds, step: nat, es: seq<Event>, j: nat, k: nat)
    requires Protocol(b, step, es) && j < k <= |es| && es[j].UsageObserved?
    ensures Succeeds(es[j].usage, LastUsage(es[..k]))
    decreases k
  {
    hide Succeeds, Belongs;
    var last := k - 1;
    assert es[..k][..last] == es[..last] && es[..k][last] == es[last];
    if last == j {
      SucceedsItself(es[j].usage);
    } else {
      LastSucceeds(b, step, es, j, last);
      assert Admissible(b, step, es, last);
      if es[last].UsageObserved? { SucceedsTrans(es[j].usage, LastUsage(es[..last]), es[last].usage); }
    }
  }

  lemma SucceedsItself(u: Usage)
    ensures Succeeds(u, u)
  {
  }

  /** No later observation of an admissible stream drops or lowers a count of an earlier one, and after a complete one
      every known count stays as it is. */
  lemma CountsNeverFall(b: Bounds, step: nat, es: seq<Event>, j: nat, k: nat)
    requires Protocol(b, step, es) && j < k < |es| && es[j].UsageObserved? && es[k].UsageObserved?
    ensures var u, v := es[j].usage, es[k].usage;
            && (u.input.Some? ==> v.input.Some? && u.input.value <= v.input.value)
            && (u.output.Some? ==> v.output.Some? && u.output.value <= v.output.value)
            && (u.uncached.Some? ==> v.uncached.Some? && u.uncached.value <= v.uncached.value)
            && (u.cacheRead.Some? ==> v.cacheRead.Some? && u.cacheRead.value <= v.cacheRead.value)
            && (u.cacheCreation.Some? ==> v.cacheCreation.Some? && u.cacheCreation.value <= v.cacheCreation.value)
            && (u.reasoning.Some? ==> v.reasoning.Some? && u.reasoning.value <= v.reasoning.value)
            && (u.completeness == Complete ==>
                  && v.completeness == Complete
                  && (u.input.Some? ==> v.input == u.input) && (u.output.Some? ==> v.output == u.output)
                  && (u.uncached.Some? ==> v.uncached == u.uncached)
                     && (u.cacheRead.Some? ==> v.cacheRead == u.cacheRead)
                  && (u.cacheCreation.Some? ==> v.cacheCreation == u.cacheCreation)
                  && (u.reasoning.Some? ==> v.reasoning == u.reasoning))
  {
    LastSucceeds(b, step, es, j, k);
    assert Admissible(b, step, es, k);
    SucceedsTrans(es[j].usage, LastUsage(es[..k]), es[k].usage);
  }

  /** A known cost means an uncut stream with exactly one announced attempt, at `i`, the first on the fixed model
      through the fixed provider at this step, that ended once, at `k`, with every observation of that attempt in
      between; the models named are the fixed one; and any response follows a completed attempt and repeats its usage.
      The cost is the price of the last usage observed. */
  lemma KnownCostMeans(b: Bounds, step: nat, es: seq<Event>, ending: Ending) returns (i: nat, k: nat)
    requires KnownCost(b, step, es, ending).Some?
    ensures !ending.Cut? && i < k < |es| && KnownCost(b, step, es, ending) == CostUnits(b, LastUsage(es))
    ensures es[i].AttemptStarted? && es[i].index == 1 && es[i].requestedModel == b.model
    ensures es[i].provider == "openai_chat" && es[i].step == step
    ensures forall j :: 0 <= j < |es| && es[j].AttemptStarted? ==> j == i
    ensures es[k].AttemptFinished? && es[k].attemptId == es[i].attemptId
    ensures forall j :: 0 <= j < |es| && es[j].AttemptFinished? ==> j == k
    ensures forall j :: 0 <= j < |es| && es[j].UsageObserved? ==>
              i < j < k && es[j].attemptId == es[i].attemptId
              && (es[j].actualModel.None? || es[j].actualModel == Some(b.model))
    ensures exists j :: 0 <= j < |es| && es[j].UsageObserved? && es[j].actualModel == Some(b.model)
    ensures forall j :: 0 <= j < |es| && es[j].ResponseCompleted? ==>
              && j == |es| - 1 && es[k].completed && Some(es[j].inputTokens) == LastUsage(es).input
              && Some(es[j].outputTokens) == LastUsage(es).output
    ensures InBounds(b, LastUsage(es))
  {
    hide LastUsage, TierFor, Charge, Succeeds;
    k :| 0 <= k < |es| && es[k].AttemptFinished?;
    assert Admissible(b, step, es, k);
    i :| 0 <= i < k && es[i].AttemptStarted? && es[i].attemptId == es[k].attemptId;
    assert Admissible(b, step, es, i);
    forall j | 0 <= j < |es| && es[j].AttemptStarted? ensures j == i { assert Admissible(b, step, es, j); }
    forall j | 0 <= j < |es| && es[j].AttemptFinished? ensures j == k { assert Admissible(b, step, es, j); }
    forall j | 0 <= j < |es| && es[j].UsageObserved?
      ensures i < j < k && es[j].attemptId == es[i].attemptId && (Names(es[j]) ==> es[j].actualModel == Some(b.model))
    {
      assert Admissible(b, step, es, j);
    }
    assert Admissible(b, step, es, |es| - 1);
    var n :| 0 <= n < |es| && Names(es[n]);
  }

  /** Decimal text of a step number. */
  function Decimal(n: nat): string {
    (if n < 10 then [] else Decimal(n / 10)) + ["0123456789"[n % 10]]
  }

  /** Conversely the cost is known whenever the stream is not cut, one conforming attempt starts at `i` and ends at `k`,
      every observation of it lies between and succeeds the one before, at least one names the fixed model and none
      another, the last usage is complete and in bounds, and a response, if any, ends the stream after a completed
      attempt and repeats the usage. */
  lemma KnownCostGiven(b: Bounds, step: nat, es: seq<Event>, ending: Ending, i: nat, k: nat)
    requires WellPriced(b) && !ending.Cut? && i < k < |es|
    requires es[i].AttemptStarted? && es[i].index == 1 && es[i].requestedModel == b.model
    requires es[i].provider == "openai_chat" && es[i].step == step
    requires es[k].AttemptFinished? && es[k].attemptId == es[i].attemptId
    requires forall j :: 0 <= j < |es| && es[j].AttemptStarted? ==> j == i
    requires forall j :: 0 <= j < |es| && es[j].AttemptFinished? ==> j == k
    requires forall j :: 0 <= j < |es| && es[j].UsageObserved? ==>
               && i < j < k && es[j].attemptId == es[i].attemptId && Succeeds(LastUsage(es[..j]), es[j].usage)
               && (es[j].actualModel.None? || es[j].actualModel == Some(b.model))
    requires exists j :: 0 <= j < |es| && es[j].UsageObserved? && es[j].actualModel == Some(b.model)
    requires forall j :: 0 <= j < |es| && es[j].ResponseCompleted? ==>
               && j == |es| - 1 && es[k].completed && Some(es[j].inputTokens) == LastUsage(es).input
               && Some(es[j].outputTokens) == LastUsage(es).output
    requires InBounds(b, LastUsage(es))
    ensures KnownCost(b, step, es, ending).Some?
  {
    hide LastUsage, TierFor, Charge, Succeeds, WellPriced;
    forall j | 0 <= j < |es| ensures Admissible(b, step, es, j) {
      if es[j].UsageObserved? || es[j].AttemptFinished? { assert Belongs(es, j); }
    }
    var n :| 0 <= n < |es| && es[n].UsageObserved? && es[n].actualModel == Some(b.model);
    assert Names(es[n]);
    CostWithinReservation(b, LastUsage(es));
  }

  /** The number that decimal digits spell. */
  function Number(s: string): nat
    requires forall i :: 0 <= i < |s| ==> '0' <= s[i] <= '9'
  {
    if s == [] then 0 else Number(s[..|s| - 1]) * 10 + (s[|s| - 1] as int - '0' as int)
  }

  lemma {:induction false} DecimalReadsBack(n: nat)
    ensures (forall i :: 0 <= i < |Decimal(n)| ==> '0' <= Decimal(n)[i] <= '9') && Number(Decimal(n)) == n
  {
    var s := Decimal(n);
    if n >= 10 { DecimalReadsBack(n / 10); }
    assert s[..|s| - 1] == if n < 10 then [] else Decimal(n / 10);
    DigitIsDigit(n % 10);
  }

  lemma DigitIsDigit(d: nat)
    requires d < 10
    ensures '0' <= "0123456789"[d] <= '9' && "0123456789"[d] as int - '0' as int == d
  {
  }

  /** The recorded metadata names the model, its price source, one attempt and the output limit, and under its five
      other keys the purpose, the region, and the request's own thread, turn and step. */
  lemma MetadataMeans(b: Bounds, thread: string, turn: string, step: nat)
    ensures var m := GuardMetadata(b, thread, turn, step);
            && m.requestedModel == Some(b.model) && m.priceBasis == Some(b.priceSource) && m.maxAttempts == Some(1)
            && m.maxOutputTokens == Some(b.maxOutput) && m.other.Keys == OTHER_METADATA
            && m.other["purpose"] == b.purpose && m.other["region"] == "cn-beijing"
            && m.other["thread_id"] == thread && m.other["turn_id"] == turn
            && (forall i :: 0 <= i < |m.other["step"]| ==> '0' <= m.other["step"][i] <= '9')
               && Number(m.other["step"]) == step
  {
    DecimalReadsBack(step);
  }

  /** What the guard records with its reservation. */
  function GuardMetadata(b: Bounds, thread: string, turn: string, step: nat): Metadata {
    Metadata(Some(b.model), Some(b.priceSource), Some(1), Some(b.maxOutput),
             map["purpose" := b.purpose, "region" := "cn-beijing", "thread_id" := thread, "turn_id" := turn,
                 "step" := Decimal(step)])
  }

  /** Under the Max bounds the price of a record is the live price of the same tokens and fits the hold. */
  lemma MaxPrice(n: nat, r: Reconciliation)
    requires r.inputTokens <= MAX_INPUT_TOKENS && r.outputTokens <= n && Rec.Priced(r)
    ensures CostUnits(MaxBounds(n), Usage(Complete, Some(r.inputTokens), Some(r.outputTokens), None, None, None, None))
            == Some(r.cost)
    ensures r.cost <= MaximumUnits(MaxBounds(n))
  {
    DeclaredAreWellPriced(MaxBounds(n));
    CostWithinReservation(MaxBounds(n),
                          Usage(Complete, Some(r.inputTokens), Some(r.outputTokens), None, None, None, None));
  }

  /** Everything a record of this request must show, except that its cost fits the hold. */
  ghost predicate Documents(h: Hash, q: Request, n: nat, r: Reconciliation) {
    && r.outputTokens <= n && r.inputTokens <= MAX_INPUT_TOKENS && r.requestSha == h.request(q) && Rec.Priced(r)
    && q.completedAt.Some? && q.completedAt.value <= r.recordedAt
  }

  /** A persisted reservation that is then settled without a cost is the last request on file, alone with its id. */
  lemma UnknownOnFile(h: Hash, o: Owner, disk: Ledger, units: nat, meta: Metadata, id: Id, start: int, end: int,
                      f1: Fault, f2: Fault)
    requires RequestsAccepted.InStep(h, o, disk) && Reserve(h, o, disk, units, meta, id, start, f1).2
    requires var held := Reserve(h, o, disk, units, meta, id, start, f1);
             Settle(h, held.0, held.1, id, None, true, end, f2).2
    ensures var held := Reserve(h, o, disk, units, meta, id, start, f1);
            var file := Settle(h, held.0, held.1, id, None, true, end, f2).1;
            && HasOwn(file, o.pid)
            && var reqs := OwnPeriod(file, o.pid).requests;
               && reqs != [] && Rec.UniqueAt(reqs, id, |reqs| - 1)
               && var made := NewRequest(o.identity, OwnPeriod(disk, o.pid), units, meta, id, start);
                  reqs[|reqs| - 1] == SettledRequest(made, None, true, end)
  {
    hide SaveAccepts, LedgerOk, ReserveGuard, Unambiguous;
    ReservationSettles(h, o, disk, units, meta, id, start, f1, None, true);
    RequestsAccepted.ReserveAccepted(h, o, disk, units, meta, id, start);
    var held := Reserve(h, o, disk, units, meta, id, start, f1);
    assert held == Reserve(h, o, disk, units, meta, id, start, NoFault);
    RequestsAccepted.SettleAccepted(h, held.0, held.1, id, None, true, end);
    assert Settle(h, held.0, held.1, id, None, true, end, f2)
           == Settle(h, held.0, held.1, id, None, true, end, NoFault);
    var p := OwnPeriod(disk, o.pid);
    var reqs := p.requests + [NewRequest(o.identity, p, units, meta, id, start)];
    assert reqs[|p.requests|].id == id && forall i :: 0 <= i < |p.requests| ==> reqs[i].id != id;
    assert FindRequest(reqs, id) == |p.requests|;
  }

  /** A request that the guard made under the Max bounds and left unknown: the hold is never the reason to refuse its
      reconciliation. */
  lemma ReconciliationFits(h: Hash, o: Owner, disk: Ledger, n: nat, thread: string, turn: string, step: nat,
                           id: Id, start: int, end: int, f1: Fault, f2: Fault, r: Reconciliation)
    requires RequestsAccepted.InStep(h, o, disk) && r.periodId == o.pid && r.requestId == id
    requires var b := MaxBounds(n);
             var held := Reserve(h, o, disk, MaximumUnits(b), GuardMetadata(b, thread, turn, step), id, start, f1);
             held.2 && Settle(h, held.0, held.1, id, None, true, end, f2).2
    ensures var b := MaxBounds(n);
            var held := Reserve(h, o, disk, MaximumUnits(b), GuardMetadata(b, thread, turn, step), id, start, f1);
            var file := Settle(h, held.0, held.1, id, None, true, end, f2).1;
            && HasOwn(file, o.pid)
            && var reqs := OwnPeriod(file, o.pid).requests;
               reqs != [] && (Rec.RecordOk(h, o.pid, reqs, r) <==> Documents(h, reqs[|reqs| - 1], n, r))
  {
    hide Reserve, Settle, RequestsAccepted.InStep, Rec.Priced, MaximumUnits;
    var b := MaxBounds(n);
    UnknownOnFile(h, o, disk, MaximumUnits(b), GuardMetadata(b, thread, turn, step), id, start, end, f1, f2);
    if r.outputTokens <= n && r.inputTokens <= MAX_INPUT_TOKENS && Rec.Priced(r) { MaxPrice(n, r); }
  }

  /** What one guarded request did. */
  datatype Report = Report(reserved: bool, sent: bool, cost: Option<nat>, settled: bool, completed: bool)

  const IDLE := Report(false, false, None, false, false)

  predicate HasCompletion(es: seq<Event>) { exists i :: 0 <= i < |es| && es[i].ResponseCompleted? }

  class GuardedProvider {
    const ledger: BudgetLedger.VerificationBudgetLedger
    const bounds: Bounds
    var suiteCancelled: bool

    constructor (ledger: BudgetLedger.VerificationBudgetLedger, bounds: Bounds)
      ensures this.ledger == ledger && this.bounds == bounds && !suiteCancelled
    {
      this.ledger, this.bounds, suiteCancelled := ledger, bounds, false;
    }

    predicate MayStream(inWindow: bool)
    {
      && CheckpointOk(bounds, inWindow)
      && (bounds.beta ==> ledger.who.taskId == Some(BETA_TASK) && ledger.who.suiteId.None?)
    }

    /** Reserves at most once, and settles a persisted reservation exactly once, with the cost the stream proves. */
    method Stream(step: nat, thread: string, turn: string, turnCancelled: bool, inWindow: bool,
                  es: seq<Event>, ending: Ending, id: Id, start: int, end: int, f1: Fault, f2: Fault)
      returns (out: seq<Event>, report: Report)
      requires Declared(bounds)
      modifies this`suiteCancelled, ledger`data, ledger`body, ledger.file
      // A reserve is tried once, unless the turn or the suite is cancelled or the bounds refuse.
      ensures var tried := !turnCancelled && !old(suiteCancelled) && MayStream(inWindow) && ledger.live;
              var r := Reserve(ledger.h, old(ledger.View()), old(ledger.file.content), MaximumUnits(bounds),
                               GuardMetadata(bounds, thread, turn, step), id, start, f1);
              && (report.reserved <==> tried && r.2)
              && (!tried ==> ledger.View() == old(ledger.View()) && ledger.file.content == old(ledger.file.content))
              && (tried && !r.2 ==> ledger.View() == r.0 && ledger.file.content == r.1)
              // A reserved request is settled once, with exactly the cost the whole stream proves.
              && (report.reserved ==>
                    && SettleArgs(MaximumUnits(bounds), report.cost, report.sent)
                    && (ledger.View(), ledger.file.content, report.settled)
                       == Settle(ledger.h, r.0, r.1, id, report.cost, report.sent, end, f2))
      ensures !report.reserved ==> out == [] && report == IDLE
      ensures report.reserved ==> report.cost == KnownCost(bounds, step, es, ending)
      // Beta bounds reserve only for the one task of a task plan, and the reservation carries its label.
      ensures report.reserved && bounds.beta ==>
                var r := Reserve(ledger.h, old(ledger.View()), old(ledger.file.content), MaximumUnits(bounds),
                                 GuardMetadata(bounds, thread, turn, step), id, start, f1);
                HasOwn(r.1, ledger.pid) && LastIsTasked(OwnPeriod(r.1, ledger.pid).requests, id)
      // An announced attempt counts as sent, even one that does not conform.
      ensures report.reserved ==> (report.sent <==> PossiblySent(bounds, step, es))
      // From an owner in step with the file the settlement cannot be refused.
      ensures report.reserved && old(RequestsAccepted.InStep(ledger.h, ledger.View(), ledger.file.content))
              && f2.NoFault?
              ==> report.settled
      // The response is released exactly after a clean end with a persisted known cost, and nothing follows it;
      // otherwise exactly the admissible events before any response reach the consumer.
      ensures report.completed <==> report.settled && report.cost.Some? && ending.Exhausted? && HasCompletion(es)
      ensures report.completed ==> out == es && Succeeded(es)
      ensures report.reserved && !report.completed ==> Relayed(bounds, step, es, out)
      ensures HasCompletion(out) <==> report.completed
      // The exact conditions under which no later request of the suite is made.
      ensures suiteCancelled <==>
              || old(suiteCancelled)
              || (!turnCancelled && !report.reserved)
              || (report.reserved && (!report.settled || (report.sent && (report.cost.None? || !HasCompletion(es)))))
    {
      hide KnownCost, Reserve, Settle, RequestsAccepted.InStep, Protocol, Declared, Tracks, TrackedCost, MaximumUnits;
      hide Delivered, HasCompletion, Started, Succeeded, Relayed, PossiblySent, GuardMetadata;
      NothingDelivered();
      if turnCancelled || suiteCancelled { return [], IDLE; }
      if !MayStream(inWindow) { suiteCancelled := true; return [], IDLE; }
      DeclaredAreWellPriced(bounds);
      ghost var o, disk := ledger.View(), ledger.file.content;
      var meta := GuardMetadata(bounds, thread, turn, step);
      var reservation := ledger.Reserve(MaximumUnits(bounds), meta, id, start, f1);
      if reservation.None? { suiteCancelled := true; return [], IDLE; }
      if bounds.beta { BetaIsTasked(ledger.h, o, disk, MaximumUnits(bounds), meta, id, start, f1); }
      var t, cleanEnd := Relay(bounds, step, es, ending);
      var cost := TrackedCost(bounds, t, cleanEnd);
      TrackedCostIsKnown(bounds, step, es, ending, t, cleanEnd);
      CostSettles(bounds, t, cleanEnd);
      var successful := t.completion.Some? && t.finished;
      if t.possiblySent && (cost.None? || !successful) { suiteCancelled := true; }
      if RequestsAccepted.InStep(ledger.h, o, disk) {
        ReservationSettles(ledger.h, o, disk, MaximumUnits(bounds), meta, id, start, f1, cost, t.possiblySent);
        RequestsAccepted.SettleAccepted(ledger.h, ledger.View(), ledger.file.content, id, cost, t.possiblySent, end);
      }
      var settled := ledger.Settle(id, cost, t.possiblySent, end, f2);
      if !settled { suiteCancelled := true; }
      var released := settled && cleanEnd && ending.Exhausted? && t.completion.Some? && cost.Some?;
      DeliveredCompletion(bounds, step, es, t, cleanEnd, released);
      KnownCostIsClean(bounds, step, es, ending);
      out, report := Delivered(t, released), Report(true, t.possiblySent, cost, settled, released);
      assert !released ==> out == t.released by { DeliveredRelayed(t); }
    }
  }

  predicate LastIsTasked(reqs: seq<Request>, id: Id) {
    reqs != [] && reqs[|reqs| - 1].id == id && reqs[|reqs| - 1].taskId == Some(BETA_TASK)
  }

  /** An owner that names the task reserves only under a task plan. */
  lemma BetaIsTasked(h: Hash, o: Owner, disk: Ledger, units: int, meta: Metadata, id: Id, now: int, f: Fault)
    requires o.identity.taskId == Some(BETA_TASK) && Reserve(h, o, disk, units, meta, id, now, f).2
    ensures var r := Reserve(h, o, disk, units, meta, id, now, f);
            HasOwn(r.1, o.pid) && LastIsTasked(OwnPeriod(r.1, o.pid).requests, id)
  {
    var p, q, r := RequestsAccepted.ReserveOutcome(h, o, disk, units, meta, id, now, f);
    hide Save, ContinuationAdmits, Allowed;
    assert NamesPlan(o.identity, p) && PlanAdmits(h, o.identity, p);
  }

  /** When a guard may try to reserve at all: in its price window, with an output limit it supports, and under Beta
      bounds only for the one task. */
  lemma MayStreamMeans(g: GuardedProvider, inWindow: bool)
    requires Declared(g.bounds)
    ensures g.MayStream(inWindow) <==>
            && inWindow && 1 <= g.bounds.maxOutput <= 4096
            && (g.bounds != SuiteBounds(g.bounds.maxOutput) ==>
                  g.ledger.who.taskId == Some("BETA-001") && g.ledger.who.suiteId.None?)
  {
  }

  lemma DeliveredRelayed(t: Track)
    ensures Delivered(t, false) == t.released
  {
  }

  lemma KnownCostIsClean(b: Bounds, step: nat, es: seq<Event>, ending: Ending)
    ensures KnownCost(b, step, es, ending).Some? ==> !ending.Cut? && Protocol(b, step, es)
  {
  }
}
