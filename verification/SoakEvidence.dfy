/** Soak evidence: a write-ordered publish with a last commit marker and the independent reader, with a failure or a
    death possible at every step. */
module SoakEvidence {
  import opened Options

  type Sha = nat

  // -- Files ------------------------------------------------------------------------------

  datatype ProofKind = ContextProof | ArtifactProof | SdkProof | RestartProof | ThreadProof | ActionProof

  /** `Temp` is what a death inside a write leaves behind. */
  datatype Name =
    | SampleFile | ProofFile(kind: ProofKind) | ManifestFile | CommitFile | StartedFile | FinalFile | Temp(target: Name)

  datatype Profile = Profile(id: string)

  datatype Manifest = Manifest(
    runId: string, scenario: string, revision: string, profile: Option<Profile>, startedAt: int,
    proofKind: Option<ProofKind>, proofSha: Sha, sampleSha: Sha)

  /** A start record with a profile is the version that binds a threshold profile. */
  datatype Start = Start(runId: string, revision: string, scenario: string, startedAt: int, profile: Option<Profile>)

  datatype Phase = Prepared | Warming | Measuring | Reconciling | Publishing

  datatype Final = Final(runId: string, committed: bool, phase: Phase, finishedAt: int, manifestSha: Option<Sha>)

  datatype Body =
    | SampleBody(samples: seq<int>) | ProofBody(proof: string) | ManifestBody(manifest: Manifest)
    | CommitBody(manifestSha: Sha) | StartBody(start: Start) | FinalBody(final: Final) | Torn

  type Directory = map<Name, Body>

  /** Digests, and the cross-checks of a manifest against its samples and its proof. Nothing is assumed of them. */
  datatype Checks = Checks(
    samples: seq<int> -> Sha, proof: string -> Sha, manifest: Manifest -> Sha,
    samplesAgree: (Manifest, seq<int>) -> bool, proofAgrees: (Manifest, string, seq<int>) -> bool)

  /** Where a step stops: before it changed anything, with a temporary file left, or with its target in place (a
      directory sync that fails, say). */
  datatype Moment = Before | Inside | After

  /** A step is done, raises, or the process dies in it. */
  datatype Fault = Fine | Raises(at: Moment) | Dies(at: Moment)

  datatype Result = Written | Failed | Dead

  function Outcome(f: Fault): Result {
    match f
    case Fine => Written
    case Raises(_) => Failed
    case Dies(_) => Dead
  }

  /** The step leaves its target in place, whether or not it returns. */
  predicate Reaches(f: Fault) { f.Fine? || f.at.After? }

  function FaultAt(script: seq<Fault>, i: nat): Fault { if i < |script| then script[i] else Fine }

  /** The first of `n` steps that stops, or `n`. */
  function FirstStop(script: seq<Fault>, n: nat): (k: nat)
    ensures k <= n && (forall j :: 0 <= j < k ==> FaultAt(script, j).Fine?)
    ensures k < n ==> !FaultAt(script, k).Fine?
  {
    if n == 0 then 0
    else if FirstStop(script, n - 1) < n - 1 || !FaultAt(script, n - 1).Fine? then FirstStop(script, n - 1)
    else n
  }

  /** `_write_file`: never overwrites, and the target appears whole or not at all. */
  function WriteFile(d: Directory, name: Name, body: Body, f: Fault): (Directory, Result) {
    if name in d then (d, Failed)
    else if Reaches(f) then (d[name := body], Outcome(f))
    else if f.at.Inside? then (d[Temp(name) := Torn], Outcome(f))
    else (d, Outcome(f))
  }

  // -- Publishing -------------------------------------------------------------------------

  function RunFiles(kind: Option<ProofKind>): set<Name> {
    {SampleFile, ManifestFile, CommitFile} + (if kind.Some? then {ProofFile(kind.value)} else {})
  }

  /** What `publish_run` demands before it creates the directory. */
  predicate Publishable(c: Checks, m: Manifest, samples: seq<int>, kind: Option<ProofKind>, proof: string) {
    && m.proofKind == kind
    && (kind.Some? ==> c.proofAgrees(m, proof, samples) && c.proof(proof) == m.proofSha)
  }

  predicate SamplesMatch(c: Checks, m: Manifest, samples: seq<int>) {
    c.samples(samples) == m.sampleSha && c.samplesAgree(m, samples)
  }

  /** The files in the order they are written; the marker comes last. */
  function Plan(c: Checks, m: Manifest, samples: seq<int>, kind: Option<ProofKind>, proof: string): seq<(Name, Body)> {
    [(SampleFile, SampleBody(samples))]
    + (if kind.Some? then [(ProofFile(kind.value), ProofBody(proof))] else [])
    + [(ManifestFile, ManifestBody(m)), (CommitFile, CommitBody(c.manifest(m)))]
  }

  /** `read_published_run` on the directory of the run named `name`. */
  function ReadRun(c: Checks, name: string, d: Directory): Option<(Manifest, Sha)> {
    if CommitFile in d && d[CommitFile].CommitBody? && ManifestFile in d && d[ManifestFile].ManifestBody?
       && SampleFile in d && d[SampleFile].SampleBody? then
      var m, samples := d[ManifestFile].manifest, d[SampleFile].samples;
      if && d.Keys == RunFiles(m.proofKind) && c.manifest(m) == d[CommitFile].manifestSha
         && (m.proofKind.Some? ==>
               var file := ProofFile(m.proofKind.value);
               file in d && d[file].ProofBody? && c.proof(d[file].proof) == m.proofSha
               && c.proofAgrees(m, d[file].proof, samples))
         && SamplesMatch(c, m, samples) && m.runId == name
      then Some((m, d[CommitFile].manifestSha)) else None
    else None
  }

  /** The first `k` files of the plan are in place. */
  ghost predicate Holds(plan: seq<(Name, Body)>, d: Directory, k: nat) {
    && k <= |plan| && (forall i :: 0 <= i < k ==> plan[i].0 in d && d[plan[i].0] == plan[i].1)
    && (forall n :: n in d ==> exists i :: 0 <= i < k && plan[i].0 == n)
  }

  /** Creating the directory, then one step per file. */
  function Steps(kind: Option<ProofKind>): nat { if kind.Some? then 5 else 4 }

  function MarkerFault(kind: Option<ProofKind>, script: seq<Fault>): Fault { FaultAt(script, Steps(kind) - 1) }

  /** The evidence is consistent and every step before the commit marker succeeds. */
  predicate Sound(c: Checks, m: Manifest, samples: seq<int>, kind: Option<ProofKind>, proof: string,
                  script: seq<Fault>) {
    && Publishable(c, m, samples, kind, proof) && SamplesMatch(c, m, samples)
    && forall k :: 0 <= k < Steps(kind) - 1 ==> FaultAt(script, k).Fine?
  }

  /** How publishing consistent-looking evidence into a new directory ends: at the first step that stops, unless the
      written samples turn out not to match. */
  function PublishResult(c: Checks, m: Manifest, samples: seq<int>, kind: Option<ProofKind>,
                         script: seq<Fault>): Result {
    var k := FirstStop(script, Steps(kind));
    if k >= 2 && !SamplesMatch(c, m, samples) then Failed
    else if k == Steps(kind) then Written
    else Outcome(FaultAt(script, k))
  }

  class RunDirectory {
    const name: string
    var files: Option<Directory>

    constructor (name: string)
      ensures this.name == name && files.None?
    {
      this.name, files := name, None;
    }

    function Readable(c: Checks): Option<(Manifest, Sha)>
      reads this
    {
      if files.Some? then ReadRun(c, name, files.value) else None
    }

    /** `publish_run`. */
    method Publish(c: Checks, m: Manifest, samples: seq<int>, kind: Option<ProofKind>, proof: string,
                   script: seq<Fault>)
      returns (r: Result)
      requires m.runId == name
      modifies this
      ensures old(files.Some?) || !Publishable(c, m, samples, kind, proof) ==> r.Failed? && files == old(files)
      ensures old(files.None?) && Publishable(c, m, samples, kind, proof) ==>
                r == PublishResult(c, m, samples, kind, script)
      // Whatever failed or died, the run reads back exactly when its marker is in place, and then as published.
      ensures old(files.None?) ==> (Readable(c).Some? <==> files.Some? && CommitFile in files.value)
      ensures old(files.None?) && Readable(c).Some? ==> Readable(c) == Some((m, c.manifest(m)))
      // That happens exactly when all before the marker succeeds and the marker's write reaches its target.
      ensures old(files.None?) ==>
                (Readable(c).Some? <==> Sound(c, m, samples, kind, proof, script) && Reaches(MarkerFault(kind, script)))
      ensures r.Written? <==>
                old(files.None?) && Sound(c, m, samples, kind, proof, script) && MarkerFault(kind, script).Fine?
      // The one way to raise and still leave a readable run.
      ensures old(files.None?) ==>
                (r.Failed? && Readable(c).Some?
                 <==> Sound(c, m, samples, kind, proof, script) && MarkerFault(kind, script) == Raises(After))
    {
      hide ReadRun, Publishable, SamplesMatch, Plan, Holds, Reaches;
      if !Publishable(c, m, samples, kind, proof) || files.Some? { return Failed; }
      var made := FaultAt(script, 0);
      var d: Directory := map[];
      if Reaches(made) { files := Some(d); }
      ReadNeedsCommit(c, name, d);
      if !made.Fine? { return Outcome(made); }
      assert files == Some(d) by { ReachesMeans(made); }
      var plan := Plan(c, m, samples, kind, proof);
      NothingHeld(plan);
      PlanShape(c, m, samples, kind, proof);
      for k := 0 to |plan|
        invariant files == Some(d) && Holds(plan, d, k) && (k > 1 ==> SamplesMatch(c, m, samples))
        invariant forall j :: 0 <= j <= k ==> FaultAt(script, j).Fine?
      {
        Uncommitted(c, m, samples, kind, proof, d, k);
        ReadNeedsCommit(c, name, d);
        if k == 1 && !SamplesMatch(c, m, samples) { return Failed; }
        var f := FaultAt(script, k + 1);
        var (after, result) := WriteFile(d, plan[k].0, plan[k].1, f);
        WriteHolds(c, m, samples, kind, proof, d, k, f);
        files := Some(after);
        if !result.Written? {
          ReadNeedsCommit(c, name, after);
          ReachesMeans(f);
          if CommitFile in after { CommittedReads(c, m, samples, kind, proof, after); }
          return result;
        }
        d := after;
      }
      CommittedReads(c, m, samples, kind, proof, d);
      return Written;
    }
  }

  lemma ReachesMeans(f: Fault)
    ensures Reaches(f) <==> f.Fine? || f == Raises(After) || f == Dies(After)
  {
  }

  lemma NothingHeld(plan: seq<(Name, Body)>)
    ensures Holds(plan, map[], 0)
  {
  }

  lemma ReadNeedsCommit(c: Checks, name: string, d: Directory)
    ensures CommitFile !in d ==> ReadRun(c, name, d).None?
  {
  }

  /** The plan writes different final files, at least three, and the marker last. */
  lemma PlanShape(c: Checks, m: Manifest, samples: seq<int>, kind: Option<ProofKind>, proof: string)
    ensures var plan := Plan(c, m, samples, kind, proof);
            && |plan| == (if kind.Some? then 4 else 3)
            && (forall i :: 0 <= i < |plan| ==> !plan[i].0.Temp? && (plan[i].0 == CommitFile <==> i == |plan| - 1))
            && (forall i, j :: 0 <= i < j < |plan| ==> plan[i].0 != plan[j].0)
  {
  }

  lemma Uncommitted(c: Checks, m: Manifest, samples: seq<int>, kind: Option<ProofKind>, proof: string, d: Directory,
                    k: nat)
    requires Holds(Plan(c, m, samples, kind, proof), d, k) && k < |Plan(c, m, samples, kind, proof)|
    ensures CommitFile !in d && Plan(c, m, samples, kind, proof)[k].0 !in d && |Plan(c, m, samples, kind, proof)| > 2
  {
    hide Plan;
    PlanShape(c, m, samples, kind, proof);
  }

  /** A write that reaches its target adds the next file of the plan whole; any other leaves the marker absent. */
  lemma WriteHolds(c: Checks, m: Manifest, samples: seq<int>, kind: Option<ProofKind>, proof: string, d: Directory,
                   k: nat, f: Fault)
    requires var plan := Plan(c, m, samples, kind, proof); k < |plan| && Holds(plan, d, k)
    ensures var plan := Plan(c, m, samples, kind, proof); var r := WriteFile(d, plan[k].0, plan[k].1, f);
            && r.1 == Outcome(f)
            && (Reaches(f) ==> Holds(plan, r.0, k + 1))
            && (CommitFile in r.0 <==> Reaches(f) && k + 1 == |plan|)
  {
    hide Plan;
    PlanShape(c, m, samples, kind, proof);
    Uncommitted(c, m, samples, kind, proof, d, k);
    var plan := Plan(c, m, samples, kind, proof);
    var r := WriteFile(d, plan[k].0, plan[k].1, f);
    if Reaches(f) {
      forall n | n in r.0 ensures exists i :: 0 <= i < k + 1 && plan[i].0 == n {
        if n != plan[k].0 { var i :| 0 <= i < k && plan[i].0 == n; }
      }
    }
  }

  /** With every file of the plan in place the reader returns the published manifest. */
  lemma CommittedReads(c: Checks, m: Manifest, samples: seq<int>, kind: Option<ProofKind>, proof: string, d: Directory)
    requires var plan := Plan(c, m, samples, kind, proof); Holds(plan, d, |plan|)
    requires Publishable(c, m, samples, kind, proof) && SamplesMatch(c, m, samples)
    ensures CommitFile in d && ReadRun(c, m.runId, d) == Some((m, c.manifest(m)))
  {
    var plan := Plan(c, m, samples, kind, proof);
    var n := |plan|;
    assert plan[0] == (SampleFile, SampleBody(samples)) && plan[n - 2] == (ManifestFile, ManifestBody(m))
           && plan[n - 1] == (CommitFile, CommitBody(c.manifest(m)));
    assert kind.Some? ==> plan[1] == (ProofFile(kind.value), ProofBody(proof));
    assert forall i :: 0 <= i < n ==> plan[i].0 in RunFiles(kind);
    assert d.Keys == RunFiles(kind);
  }

  /** The directory holds exactly these four or three files, with these contents. */
  ghost predicate HoldsRun(c: Checks, m: Manifest, samples: seq<int>, proof: string, d: Directory) {
    && d.Keys == {SampleFile, ManifestFile, CommitFile} + (if m.proofKind.Some? then {ProofFile(m.proofKind.value)}
                                                           else {})
    && d[SampleFile] == SampleBody(samples) && d[ManifestFile] == ManifestBody(m)
    && d[CommitFile] == CommitBody(c.manifest(m))
    && (m.proofKind.Some? ==> d[ProofFile(m.proofKind.value)] == ProofBody(proof))
  }

  /** The evidence agrees: digests are the manifest's own, and both cross-checks hold. */
  ghost predicate Consistent(c: Checks, m: Manifest, samples: seq<int>, proof: string) {
    && c.samples(samples) == m.sampleSha && c.samplesAgree(m, samples)
    && (m.proofKind.Some? ==> c.proof(proof) == m.proofSha && c.proofAgrees(m, proof, samples))
  }

  /** The reader returns a manifest exactly for the directories, named after its run, that hold a complete set of
      consistent evidence for it; the digest is that manifest's. */
  lemma ReadsExactly(c: Checks, name: string, d: Directory, m: Manifest, sha: Sha)
    ensures ReadRun(c, name, d) == Some((m, sha)) <==>
            && m.runId == name && sha == c.manifest(m)
            && exists samples, proof :: HoldsRun(c, m, samples, proof, d) && Consistent(c, m, samples, proof)
  {
    if ReadRun(c, name, d) == Some((m, sha)) {
      var samples := d[SampleFile].samples;
      var proof := if m.proofKind.Some? then d[ProofFile(m.proofKind.value)].proof else "";
      assert HoldsRun(c, m, samples, proof, d) && Consistent(c, m, samples, proof);
    }
  }
}
