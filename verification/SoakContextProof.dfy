/** The long-session soak proof: per-turn event counts determine every total. */
module SoakContextProof {

  datatype Kind =
    | ContextPrepared | HistoryPrepared | CompactionRejected
    | Planned | AttemptStarted | UsageObserved | AttemptFinished | Summarized | WindowActivated
    | Other(name: string)

  const COMPACTION: seq<Kind> := [Planned, AttemptStarted, UsageObserved, AttemptFinished, Summarized, WindowActivated]

  /** Membership in the compaction sequence. */
  predicate IsCompaction(k: Kind) {
    k.Planned? || k.AttemptStarted? || k.UsageObserved? || k.AttemptFinished? || k.Summarized? || k.WindowActivated?
  }

  datatype Marker = Marker(sequence: int, turn: nat, kind: Kind)

  datatype Turn = Turn(
    ordinal: int, measured: bool, modelSteps: nat, contextInspections: nat, historyInspections: nat,
    plans: nat, attempts: nat, completed: nat, activations: nat)

  datatype Proof = Proof(turns: seq<Turn>, events: seq<Marker>, finalWindows: nat, finalSequence: nat)

  /** `complete_turn`. */
  predicate TurnOk(t: Turn) {
    && t.contextInspections == t.modelSteps && t.historyInspections == t.modelSteps
    && t.plans == t.attempts == t.completed == t.activations
  }

  datatype Field = Steps | Attempts | Completed | Activations | MeasuredCompleted

  function Value(f: Field, t: Turn): nat {
    match f
    case Steps => t.modelSteps
    case Attempts => t.attempts
    case Completed => t.completed
    case Activations => t.activations
    case MeasuredCompleted => if t.measured then t.completed else 0
  }

  function Sum(f: Field, ts: seq<Turn>): nat {
    if ts == [] then 0 else Sum(f, ts[..|ts| - 1]) + Value(f, ts[|ts| - 1])
  }

  function Count(ks: seq<Kind>, k: Kind): nat {
    if ks == [] then 0 else Count(ks[..|ks| - 1], k) + (if ks[|ks| - 1] == k then 1 else 0)
  }

  /** The kinds of the events of one turn, in order. */
  function KindsOf(es: seq<Marker>, turn: nat): seq<Kind> {
    if es == [] then []
    else KindsOf(es[..|es| - 1], turn) + (if es[|es| - 1].turn == turn then [es[|es| - 1].kind] else [])
  }

  function AllKinds(es: seq<Marker>): seq<Kind> { seq(|es|, i requires 0 <= i < |es| => es[i].kind) }

  function Compactions(ks: seq<Kind>): seq<Kind> {
    if ks == [] then []
    else Compactions(ks[..|ks| - 1]) + (if IsCompaction(ks[|ks| - 1]) then [ks[|ks| - 1]] else [])
  }

  function Repeat(n: nat): seq<Kind> { if n == 0 then [] else Repeat(n - 1) + COMPACTION }

  /** The events of a turn tell its counts, and its compactions are complete sequences. */
  predicate Projects(t: Turn, ks: seq<Kind>) {
    && Count(ks, ContextPrepared) == t.contextInspections && Count(ks, HistoryPrepared) == t.historyInspections
    && Count(ks, CompactionRejected) == 0 && Compactions(ks) == Repeat(t.completed)
  }

  /** A marker outside any turn is neither a context nor a compaction event. */
  predicate Placed(turns: nat, m: Marker) {
    && m.turn <= turns
    && (m.turn == 0 ==> !IsCompaction(m.kind) && m.kind != ContextPrepared && m.kind != CompactionRejected)
  }

  predicate HeaderOk(p: Proof) {
    && (forall i :: 0 <= i < |p.turns| ==> p.turns[i].ordinal == i + 1)
    && (exists i :: 0 <= i < |p.turns| && p.turns[i].measured)
    && Sum(MeasuredCompleted, p.turns) >= 1 && Sum(Activations, p.turns) == p.finalWindows
    && |p.events| == p.finalSequence && (forall i :: 0 <= i < |p.events| ==> p.events[i].sequence == i + 1)
  }

  /** Every check of `continuous_and_covered` except its last one. */
  predicate Covered(p: Proof) {
    && HeaderOk(p)
    && (forall i :: 0 <= i < |p.events| ==> Placed(|p.turns|, p.events[i]))
    && (forall i :: 0 <= i < |p.turns| ==> Projects(p.turns[i], KindsOf(p.events, i + 1)))
  }

  /** `continuous_and_covered`, which fills one list per turn; its last check can never be the one that refuses. */
  method Validate(p: Proof) returns (ok: bool)
    requires forall i :: 0 <= i < |p.turns| ==> TurnOk(p.turns[i])
    ensures ok <==> Covered(p)
  {
    hide Projects, Sum, Count, HeaderOk, Placed;
    if !HeaderOk(p) { return false; }
    var n := |p.turns|;
    var byTurn: map<nat, seq<Kind>> := map[];
    for i := 0 to n
      invariant forall o :: o in byTurn <==> 1 <= o <= i
      invariant forall o :: o in byTurn ==> byTurn[o] == []
    {
      byTurn := byTurn[i + 1 := []];
    }
    for k := 0 to |p.events|
      invariant forall o :: o in byTurn <==> 1 <= o <= n
      invariant forall o :: o in byTurn ==> byTurn[o] == KindsOf(p.events[..k], o)
      invariant forall i :: 0 <= i < k ==> Placed(n, p.events[i])
    {
      var m := p.events[k];
      assert p.events[..k + 1][..k] == p.events[..k];
      if m.turn > 0 {
        if m.turn !in byTurn { Misplaced(n, m); return false; }
        byTurn := byTurn[m.turn := byTurn[m.turn] + [m.kind]];
      } else if IsCompaction(m.kind) || m.kind == ContextPrepared || m.kind == CompactionRejected {
        Misplaced(n, m);
        return false;
      }
      WellPlaced(n, m);
    }
    assert p.events[..|p.events|] == p.events;
    for i := 0 to n
      invariant forall j :: 0 <= j < i ==> Projects(p.turns[j], KindsOf(p.events, j + 1))
    {
      if !Projects(p.turns[i], byTurn[i + 1]) { return false; }
    }
    TotalsFollow(p);
    return Count(AllKinds(p.events), WindowActivated) == p.finalWindows;
  }

  lemma Misplaced(turns: nat, m: Marker)
    requires m.turn > turns
             || (m.turn == 0 && (IsCompaction(m.kind) || m.kind == ContextPrepared || m.kind == CompactionRejected))
    ensures !Placed(turns, m)
  {
  }

  lemma WellPlaced(turns: nat, m: Marker)
    requires 0 < m.turn <= turns
             || (m.turn == 0 && !(IsCompaction(m.kind) || m.kind == ContextPrepared || m.kind == CompactionRejected))
    ensures Placed(turns, m)
  {
  }

  // -- Totals -----------------------------------------------------------------------------

  /** The count of a kind over turns `1` to `n`. */
  ghost function Across(es: seq<Marker>, k: Kind, n: nat): nat {
    if n == 0 then 0 else Across(es, k, n - 1) + Count(KindsOf(es, n), k)
  }

  lemma CountSnoc(ks: seq<Kind>, x: Kind, k: Kind)
    ensures Count(ks + [x], k) == Count(ks, k) + (if x == k then 1 else 0)
  {
    assert (ks + [x])[..|ks|] == ks;
  }

  lemma KindsSnoc(es: seq<Marker>, m: Marker, turn: nat)
    ensures KindsOf(es + [m], turn) == KindsOf(es, turn) + (if m.turn == turn then [m.kind] else [])
  {
    assert (es + [m])[..|es|] == es;
  }

  lemma {:induction false} AcrossAppend(es: seq<Marker>, m: Marker, k: Kind, n: nat)
    ensures Across(es + [m], k, n) == Across(es, k, n) + (if 1 <= m.turn <= n && m.kind == k then 1 else 0)
    decreases n
  {
    hide KindsOf, Count;
    if n > 0 {
      AcrossAppend(es, m, k, n - 1);
      KindsSnoc(es, m, n);
      CountSnoc(KindsOf(es, n), m.kind, k);
      assert KindsOf(es, n) + [] == KindsOf(es, n);
    }
  }

  lemma {:induction false} AcrossNothing(k: Kind, n: nat)
    ensures Across([], k, n) == 0
  {
    if n > 0 { AcrossNothing(k, n - 1); }
  }

  /** Counting a kind turn by turn counts it overall, when no event of the kind stands outside the turns. */
  lemma {:induction false} AcrossIsTotal(es: seq<Marker>, k: Kind, n: nat)
    requires forall i :: 0 <= i < |es| && es[i].kind == k ==> 1 <= es[i].turn <= n
    ensures Across(es, k, n) == Count(AllKinds(es), k)
  {
    hide Across, KindsOf;
    if es == [] {
      AcrossNothing(k, n);
    } else {
      var j := |es| - 1;
      AcrossIsTotal(es[..j], k, n);
      AcrossAppend(es[..j], es[j], k, n);
      assert es == es[..j] + [es[j]];
      assert AllKinds(es)[..j] == AllKinds(es[..j]);
    }
  }

  lemma {:induction false} CountCompactions(ks: seq<Kind>, k: Kind)
    requires IsCompaction(k)
    ensures Count(Compactions(ks), k) == Count(ks, k)
  {
    if ks != [] {
      var n := |ks| - 1;
      CountCompactions(ks[..n], k);
      hide Count;
      CountSnoc(Compactions(ks[..n]), ks[n], k);
      CountSnoc(ks[..n], ks[n], k);
      assert ks == ks[..n] + [ks[n]] && Compactions(ks[..n]) + [] == Compactions(ks[..n]);
    }
  }

  lemma {:induction false} CountJoin(a: seq<Kind>, b: seq<Kind>, k: Kind)
    ensures Count(a + b, k) == Count(a, k) + Count(b, k)
    decreases |b|
  {
    if b == [] {
      assert a + b == a;
    } else {
      var n := |b| - 1;
      CountJoin(a, b[..n], k);
      assert (a + b)[..|a| + n] == a + b[..n];
    }
  }

  lemma CountOne(k: Kind)
    requires IsCompaction(k)
    ensures Count(COMPACTION, k) == 1
  {
    hide Count;
    CountThree(Planned, AttemptStarted, UsageObserved, k);
    CountThree(AttemptFinished, Summarized, WindowActivated, k);
    CountJoin([Planned, AttemptStarted, UsageObserved], [AttemptFinished, Summarized, WindowActivated], k);
    assert COMPACTION == [Planned, AttemptStarted, UsageObserved] + [AttemptFinished, Summarized, WindowActivated];
  }

  lemma CountNothing(k: Kind)
    ensures Count([], k) == 0
  {
  }

  lemma CountThree(a: Kind, b: Kind, c: Kind, k: Kind)
    ensures Count([a, b, c], k) == (if a == k then 1 else 0) + (if b == k then 1 else 0) + (if c == k then 1 else 0)
  {
    CountNothing(k);
    hide Count;
    CountSnoc([], a, k);
    CountSnoc([a], b, k);
    CountSnoc([a, b], c, k);
    assert [] + [a] == [a] && [a] + [b] == [a, b] && [a, b] + [c] == [a, b, c];
  }

  lemma {:induction false} CountRepeat(n: nat, k: Kind)
    requires IsCompaction(k)
    ensures Count(Repeat(n), k) == n
  {
    if n > 0 {
      CountRepeat(n - 1, k);
      CountOne(k);
      CountJoin(Repeat(n - 1), COMPACTION, k);
    }
  }

  /** Each compaction kind occurs as often as the completed summaries, turn by turn. */
  lemma {:induction false} CompactionsAcross(p: Proof, k: Kind, n: nat)
    requires Covered(p) && n <= |p.turns| && IsCompaction(k)
    ensures Across(p.events, k, n) == Sum(Completed, p.turns[..n])
  {
    hide HeaderOk, Placed, KindsOf, Count, Compactions, Repeat;
    if n > 0 {
      CompactionsAcross(p, k, n - 1);
      assert p.turns[..n][..n - 1] == p.turns[..n - 1];
      assert Projects(p.turns[n - 1], KindsOf(p.events, n - 1 + 1));
      CountCompactions(KindsOf(p.events, n), k);
      CountRepeat(p.turns[n - 1].completed, k);
    }
  }

  lemma {:induction false} PreparedAcross(p: Proof, n: nat)
    requires Covered(p) && n <= |p.turns| && forall i :: 0 <= i < |p.turns| ==> TurnOk(p.turns[i])
    ensures Across(p.events, ContextPrepared, n) == Sum(Steps, p.turns[..n])
  {
    hide HeaderOk, Placed, KindsOf, Count, Compactions, Repeat;
    if n > 0 {
      PreparedAcross(p, n - 1);
      assert p.turns[..n][..n - 1] == p.turns[..n - 1];
      assert Projects(p.turns[n - 1], KindsOf(p.events, n - 1 + 1)) && TurnOk(p.turns[n - 1]);
    }
  }

  lemma {:induction false} SumsAgree(ts: seq<Turn>)
    requires forall i :: 0 <= i < |ts| ==> TurnOk(ts[i])
    ensures Sum(Completed, ts) == Sum(Activations, ts) == Sum(Attempts, ts)
  {
    if ts != [] {
      SumsAgree(ts[..|ts| - 1]);
      assert TurnOk(ts[|ts| - 1]);
    }
  }

  /** The per-turn checks fix every total: window events are the final windows, prepared contexts are the model
      requests, and started compaction attempts are the summary requests. */
  lemma TotalsFollow(p: Proof)
    requires forall i :: 0 <= i < |p.turns| ==> TurnOk(p.turns[i])
    ensures Covered(p) ==>
              && Count(AllKinds(p.events), WindowActivated) == p.finalWindows
              && Count(AllKinds(p.events), ContextPrepared) == Sum(Steps, p.turns)
              && Count(AllKinds(p.events), AttemptStarted) == Sum(Attempts, p.turns)
  {
    if Covered(p) {
      var n := |p.turns|;
      assert p.turns[..n] == p.turns;
      SumsAgree(p.turns);
      CompactionsAcross(p, WindowActivated, n);
      CompactionsAcross(p, AttemptStarted, n);
      PreparedAcross(p, n);
      assert forall i :: 0 <= i < |p.events| ==> Placed(n, p.events[i]);
      AcrossIsTotal(p.events, WindowActivated, n);
      AcrossIsTotal(p.events, AttemptStarted, n);
      AcrossIsTotal(p.events, ContextPrepared, n);
    }
  }

  // -- Order ------------------------------------------------------------------------------

  lemma {:induction false} RepeatAt(n: nat, i: nat)
    ensures |Repeat(n)| == 6 * n
    ensures i < 6 * n ==> Repeat(n)[i] == COMPACTION[i % 6]
  {
    if n > 0 {
      RepeatAt(n - 1, i);
      if 6 * (n - 1) <= i < 6 * n { assert i % 6 == i - 6 * (n - 1); }
    }
  }

  /** In every turn of an accepted proof the compaction events come in whole rounds, one per completed summary: planned,
      started, used, finished, summarized, activated, in this order. */
  lemma RoundsAreWhole(p: Proof, t: nat, i: nat)
    requires Covered(p) && t < |p.turns|
    ensures var ks := Compactions(KindsOf(p.events, t + 1));
            && |ks| == 6 * p.turns[t].completed
            && (i < p.turns[t].completed ==>
                  ks[6 * i..6 * i + 6]
                    == [Planned, AttemptStarted, UsageObserved, AttemptFinished, Summarized, WindowActivated])
  {
    hide HeaderOk, Placed, KindsOf, Compactions, Count, Repeat;
    var n := p.turns[t].completed;
    assert Projects(p.turns[t], KindsOf(p.events, t + 1));
    RepeatAt(n, 0);
    if i < n {
      forall j | 0 <= j < 6 ensures Repeat(n)[6 * i + j] == COMPACTION[j] { RepeatAt(n, 6 * i + j); }
    }
  }
}
