/** The attempt record around a soak run: a start record, a body that may publish and commit, and a final record. */
module SoakAttempt {
  import opened Options
  import opened SoakEvidence

  /** The run carries the profile the attempt was bound to, and a bound attempt began no later. */
  predicate ProfileFits(s: Start, m: Manifest) {
    m.profile == s.profile && (s.profile.Some? ==> s.startedAt <= m.startedAt)
  }

  /** The published run is the one this attempt started. */
  predicate RunFits(s: Start, m: Manifest) {
    m.runId == s.runId && m.scenario == s.scenario && m.revision == s.revision && ProfileFits(s, m)
  }

  predicate FinalOk(f: Final) {
    (f.committed <==> f.manifestSha.Some?) && (f.committed ==> f.phase.Publishing?)
  }

  /** The run on disk bears the final record out. */
  predicate Bears(s: Start, f: Final, run: Option<(Manifest, Sha)>) {
    if f.committed then run.Some? && f.manifestSha == Some(run.value.1) && RunFits(s, run.value.0) else run.None?
  }

  function ReadStart(name: string, d: Directory): Option<Start> {
    if StartedFile in d && d[StartedFile].StartBody? && d[StartedFile].start.runId == name then
      Some(d[StartedFile].start)
    else None
  }

  /** `read_attempt`, given what the reader of the run returns. */
  function ReadAttempt(name: string, d: Directory, run: Option<(Manifest, Sha)>): Option<(Start, Option<Final>)> {
    if ReadStart(name, d).None? || (d.Keys != {StartedFile} && d.Keys != {StartedFile, FinalFile}) then None
    else
      var s := ReadStart(name, d).value;
      if FinalFile !in d then Some((s, None))
      else if !d[FinalFile].FinalBody? then None
      else
        var f := d[FinalFile].final;
        if && FinalOk(f) && f.runId == s.runId && s.startedAt <= f.finishedAt
           && (run.Some? ==> ProfileFits(s, run.value.0))
           && (f.committed ==> run.Some? && f.manifestSha == Some(run.value.1)
                               && run.value.0.scenario == s.scenario && run.value.0.revision == s.revision)
           && (!f.committed ==> run.None?)
        then Some((s, Some(f))) else None
  }

  // -- What an attempt comes to -----------------------------------------------------------

  /** What the body of an attempt does, whether it goes on after a publish that raised, and how it ends if nothing stops
      it earlier. */
  datatype Work = Work(
    phase: Phase, publishes: bool, manifest: Manifest, samples: seq<int>, kind: Option<ProofKind>, proof: string,
    script: seq<Fault>, catches: bool, commits: bool, commitFault: Fault, ending: Result)

  /** The faults of the attempt's own steps: its directory, its start record and its failed record. */
  datatype Faults = Faults(made: Fault, started: Fault, failed: Fault)

  function Published(c: Checks, w: Work, pre: Option<Directory>): Result {
    if !w.publishes then Written
    else if pre.Some? || !Publishable(c, w.manifest, w.samples, w.kind, w.proof) then Failed
    else PublishResult(c, w.manifest, w.samples, w.kind, w.script)
  }

  predicate GoesOn(c: Checks, w: Work, pre: Option<Directory>) {
    Published(c, w, pre).Written? || (w.catches && Published(c, w, pre).Failed?)
  }

  /** The run that reads back after the body, when `pre` was in the run's place before. */
  function RunAfter(c: Checks, name: string, w: Work, pre: Option<Directory>): Option<(Manifest, Sha)> {
    if pre.Some? then ReadRun(c, name, pre.value)
    else if && w.publishes && Sound(c, w.manifest, w.samples, w.kind, w.proof, w.script)
            && Reaches(MarkerFault(w.kind, w.script)) then
      Some((w.manifest, c.manifest(w.manifest)))
    else None
  }

  /** The body gets as far as writing the committed record. */
  predicate WritesCommit(c: Checks, s: Start, w: Work, pre: Option<Directory>) {
    var run := RunAfter(c, s.runId, w, pre);
    w.commits && GoesOn(c, w, pre) && run.Some? && RunFits(s, run.value.0)
  }

  function BodyResult(c: Checks, s: Start, w: Work, pre: Option<Directory>): Result {
    if !GoesOn(c, w, pre) then Published(c, w, pre)
    else if w.commits && !WritesCommit(c, s, w, pre) then Failed
    else if w.commits && !w.commitFault.Fine? then Outcome(w.commitFault)
    else w.ending
  }

  function CommittedRecord(s: Start, sha: Sha, now: int): Final { Final(s.runId, true, Publishing, now, Some(sha)) }

  function FailedRecord(s: Start, phase: Phase, now: int): Final { Final(s.runId, false, phase, now, None) }

  /** What reads back once the write of a final record ended in this way. */
  function Recorded(s: Start, f: Final, fault: Fault): Option<(Start, Option<Final>)> {
    if Reaches(fault) then if s.startedAt <= f.finishedAt then Some((s, Some(f))) else None
    else if fault.at.Inside? then None
    else Some((s, None))
  }

  /** What reads back after an attempt. */
  function Verdict(c: Checks, s: Start, w: Work, pre: Option<Directory>, now: int,
                   fs: Faults): Option<(Start, Option<Final>)> {
    if !fs.made.Fine? || !Reaches(fs.started) then None
    else if !fs.started.Fine? then Some((s, None))
    else
      var run := RunAfter(c, s.runId, w, pre);
      if WritesCommit(c, s, w, pre) then Recorded(s, CommittedRecord(s, run.value.1, now), w.commitFault)
      else if run.Some? || BodyResult(c, s, w, pre).Dead? then Some((s, None))
      else Recorded(s, FailedRecord(s, w.phase, now), fs.failed)
  }

  /** The fault of the one final record an attempt tries to write, if it tries. */
  function RecordFault(c: Checks, s: Start, w: Work, pre: Option<Directory>, fs: Faults): Option<Fault> {
    if WritesCommit(c, s, w, pre) then Some(w.commitFault)
    else if RunAfter(c, s.runId, w, pre).Some? || BodyResult(c, s, w, pre).Dead? then None
    else Some(fs.failed)
  }

  /** An attempt does not read back exactly when its start record is missing, the write of its final record left a torn
      file, or that record is dated before the start. */
  lemma HiddenExactly(c: Checks, s: Start, w: Work, pre: Option<Directory>, now: int, fs: Faults)
    ensures Verdict(c, s, w, pre, now, fs).None? <==>
            || !fs.made.Fine? || !Reaches(fs.started)
            || (&& fs.started.Fine? && RecordFault(c, s, w, pre, fs).Some?
                && var f := RecordFault(c, s, w, pre, fs).value;
                   if Reaches(f) then now < s.startedAt else f.at.Inside?)
  {
    hide WritesCommit, RunAfter, BodyResult;
  }

  lemma RecordReads(s: Start, f: Final, fault: Fault, run: Option<(Manifest, Sha)>)
    requires f.runId == s.runId && FinalOk(f) && Bears(s, f, run)
    ensures var d := WriteFile(map[StartedFile := StartBody(s)], FinalFile, FinalBody(f), fault).0;
            && ReadAttempt(s.runId, d, run) == Recorded(s, f, fault)
            && (ReadAttempt(s.runId, d, run).Some?
                <==> Temp(FinalFile) !in d && (FinalFile in d ==> s.startedAt <= f.finishedAt))
            && (FinalFile in d ==> d[FinalFile] == FinalBody(f))
  {
    var start: Directory := map[StartedFile := StartBody(s)];
    var d := WriteFile(start, FinalFile, FinalBody(f), fault).0;
    assert start.Keys == {StartedFile};
    assert d.Keys == {StartedFile} + (if Reaches(fault) then {FinalFile}
                                      else if fault.at.Inside? then {Temp(FinalFile)}
                                      else {});
    assert Temp(FinalFile) in d.Keys <==> !Reaches(fault) && fault.at.Inside?;
  }

  lemma StartReads(s: Start, fault: Fault, run: Option<(Manifest, Sha)>)
    ensures var d := WriteFile(map[], StartedFile, StartBody(s), fault).0;
            && ReadAttempt(s.runId, d, run) == (if Reaches(fault) then Some((s, None)) else None)
            && ReadAttempt(s.runId, map[], run) == None
            && (StartedFile in d <==> Reaches(fault)) && FinalFile !in d
            && (Reaches(fault) ==>
                  d == map[StartedFile := StartBody(s)] && Temp(StartedFile) !in d && Temp(FinalFile) !in d)
  {
    var d := WriteFile(map[], StartedFile, StartBody(s), fault).0;
    if Reaches(fault) {
      assert d == map[StartedFile := StartBody(s)] && d.Keys == {StartedFile};
    }
  }

  /** A committed record that gets written is one the run bears out. */
  lemma CommitBears(c: Checks, s: Start, w: Work, pre: Option<Directory>, now: int)
    ensures var run := RunAfter(c, s.runId, w, pre);
            WritesCommit(c, s, w, pre) ==> run.Some? && Bears(s, CommittedRecord(s, run.value.1, now), run)
    ensures WritesCommit(c, s, w, pre) && w.commitFault.Fine? ==> BodyResult(c, s, w, pre) == w.ending
  {
  }

  // -- The attempt ------------------------------------------------------------------------

  class Attempt {
    const name: string
    const run: RunDirectory
    var files: Option<Directory>
    var phase: Phase
    var committed: bool

    constructor (name: string, run: RunDirectory)
      requires run.name == name
      ensures this.name == name && this.run == run && files.None?
    {
      this.name, this.run := name, run;
      files, phase, committed := None, Prepared, false;
    }

    function Readback(c: Checks): Option<(Start, Option<Final>)>
      reads this, run
    {
      if files.Some? then ReadAttempt(name, files.value, run.Readable(c)) else None
    }

    /** `begin_attempt`: an existing attempt is never touched. */
    method Begin(s: Start, made: Fault, f: Fault) returns (r: Result)
      modifies this`files
      ensures old(files.Some?) ==> r.Failed? && files == old(files)
      ensures old(files.None?) ==>
                && files == (if !Reaches(made) then None
                             else if !made.Fine? then Some(map[])
                             else Some(WriteFile(map[], StartedFile, StartBody(s), f).0))
                && r == (if made.Fine? then Outcome(f) else Outcome(made))
    {
      if files.Some? { return Failed; }
      if Reaches(made) { files := Some(map[]); }
      if !made.Fine? { return Outcome(made); }
      var (after, result) := WriteFile(map[], StartedFile, StartBody(s), f);
      files := Some(after);
      return result;
    }

    /** The start record admits this final record and the run bears it out. */
    predicate MayFinish(c: Checks, f: Final)
      reads this, run
    {
      && files.Some? && ReadStart(name, files.value).Some?
      && FinalOk(f) && Bears(ReadStart(name, files.value).value, f, run.Readable(c))
    }

    /** `finish_attempt`: the final record is written once, and only if the run bears it out. */
    method Finish(c: Checks, commit: bool, phase: Phase, sha: Option<Sha>, now: int, f: Fault) returns (r: Result)
      modifies this`files
      ensures var final := Final(name, commit, phase, now, sha);
              if old(MayFinish(c, final)) then
                files.Some? && (files.value, r) == WriteFile(old(files).value, FinalFile, FinalBody(final), f)
              else files == old(files) && r.Failed?
    {
      if files.None? { return Failed; }
      var started := ReadStart(name, files.value);
      if started.None? { return Failed; }
      var published := run.Readable(c);
      if commit {
        if published.None? || Some(published.value.1) != sha || !RunFits(started.value, published.value.0) {
          return Failed;
        }
      } else if published.Some? {
        return Failed;
      }
      var final := Final(started.value.runId, commit, phase, now, sha);
      if !FinalOk(final) { return Failed; }
      var (after, result) := WriteFile(files.value, FinalFile, FinalBody(final), f);
      files := Some(after);
      return result;
    }

    /** `AttemptHandle.commit`. */
    method Commit(c: Checks, now: int, f: Fault) returns (r: Result)
      requires run.name == name
      modifies this
      ensures old(run.Readable(c)).None? ==> r.Failed? && files == old(files) && phase == old(phase)
      ensures old(run.Readable(c)).Some? ==>
                && phase == Publishing
                && var final := Final(name, true, Publishing, now, Some(run.Readable(c).value.1));
                   if old(MayFinish(c, final)) then
                     files.Some? && (files.value, r) == WriteFile(old(files).value, FinalFile, FinalBody(final), f)
                   else files == old(files) && r.Failed?
      ensures committed <==> old(committed) || r.Written?
    {
      var published := run.Readable(c);
      if published.None? || published.value.0.runId != name { return Failed; }
      phase := Publishing;
      r := Finish(c, true, phase, Some(published.value.1), now, f);
      if r.Written? { committed := true; }
    }

    method Body(c: Checks, s: Start, w: Work, now: int) returns (r: Result)
      requires run.name == name == s.runId == w.manifest.runId
      requires files == Some(map[StartedFile := StartBody(s)]) && !committed
      modifies this, run
      ensures run.Readable(c) == RunAfter(c, name, w, old(run.files)) && r == BodyResult(c, s, w, old(run.files))
      ensures committed <==> WritesCommit(c, s, w, old(run.files)) && w.commitFault.Fine?
      ensures files == Some(
                if WritesCommit(c, s, w, old(run.files)) then
                  WriteFile(map[StartedFile := StartBody(s)], FinalFile,
                            FinalBody(CommittedRecord(s, run.Readable(c).value.1, now)), w.commitFault).0
                else map[StartedFile := StartBody(s)])
      ensures run.Readable(c).None? ==> phase == w.phase
    {
      hide Sound, Reaches, SoakEvidence.MarkerFault, PublishResult, ReadRun, Publishable;
      phase := w.phase;
      if w.publishes {
        r := run.Publish(c, w.manifest, w.samples, w.kind, w.proof, w.script);
        if !(r.Written? || (w.catches && r.Failed?)) { return; }
      }
      if w.commits {
        r := Commit(c, now, w.commitFault);
        if !r.Written? { return; }
      }
      return w.ending;
    }

    /** `attempt_scope` around one body. */
    method Scope(c: Checks, s: Start, w: Work, now: int, fs: Faults) returns (r: Result)
      requires run.name == name == s.runId == w.manifest.runId
      modifies this, run
      ensures old(files.Some?) ==> r.Failed? && files == old(files) && run.files == old(run.files)
      // What reads back is fixed by what the body did and by the steps that stopped.
      ensures old(files.None?) ==> Readback(c) == Verdict(c, s, w, old(run.files), now, fs)
      // It reads back exactly when its start record is in place, no torn file is left and no final record is dated
      // before the start.
      ensures old(files.None?) ==>
                (Readback(c).Some? <==>
                 && files.Some? && StartedFile in files.value
                 && Temp(StartedFile) !in files.value && Temp(FinalFile) !in files.value
                 && (FinalFile in files.value ==>
                       files.value[FinalFile].FinalBody? && s.startedAt <= files.value[FinalFile].final.finishedAt))
      // Started only, failed with no readable run, or committed with the run this attempt started.
      ensures old(files.None?) && Readback(c).Some? ==>
                && Readback(c).value.0 == s
                && (Readback(c).value.1.Some? ==>
                      && var f := Readback(c).value.1.value; var published := run.Readable(c);
                         if !f.committed then published.None?
                         else
                           && published.Some? && f.manifestSha == Some(published.value.1)
                           && var m := published.value.0;
                              && m.runId == name && m.scenario == s.scenario && m.revision == s.revision
                              && m.profile == s.profile && (s.profile.Some? ==> s.startedAt <= m.startedAt))
      // Any exception keeps the failure fact.
      ensures && old(files.None?) && fs.made.Fine? && fs.started.Fine?
              && !BodyResult(c, s, w, old(run.files)).Dead? && run.Readable(c).None?
              && Reaches(fs.failed) && s.startedAt <= now
              ==> Readback(c) == Some((s, Some(FailedRecord(s, w.phase, now)))) && !r.Written?
      // A committed record that reached its place counts, even if its write then raised or died.
      ensures && old(files.None?) && fs.made.Fine? && fs.started.Fine?
              && WritesCommit(c, s, w, old(run.files)) && Reaches(w.commitFault) && s.startedAt <= now
              ==> && run.Readable(c).Some?
                  && Readback(c) == Some((s, Some(CommittedRecord(s, run.Readable(c).value.1, now))))
      // It returns normally exactly when it began, committed and its body returned.
      ensures r.Written? <==>
              && old(files.None?) && fs.made.Fine? && fs.started.Fine?
              && WritesCommit(c, s, w, old(run.files)) && w.commitFault.Fine? && w.ending.Written?
    {
      hide RunAfter, WritesCommit, BodyResult, ReadRun, ReadAttempt;
      ghost var pre := run.files;
      r := Begin(s, fs.made, fs.started);
      StartReads(s, fs.started, run.Readable(c));
      if !r.Written? { return; }
      phase, committed := Prepared, false;
      r := Body(c, s, w, now);
      StartReads(s, Fine, run.Readable(c));
      assert Reaches(fs.started);
      hide Reaches, Recorded;
      CommitBears(c, s, w, pre, now);
      if WritesCommit(c, s, w, pre) {
        RecordReads(s, CommittedRecord(s, run.Readable(c).value.1, now), w.commitFault, run.Readable(c));
      }
      if committed || r.Dead? { return; }
      if run.Readable(c).None? {
        RecordReads(s, FailedRecord(s, phase, now), fs.failed, None);
        var last := Finish(c, false, phase, None, now, fs.failed);
        if last.Dead? { return Dead; }
      }
      return Failed;
    }
  }

  // -- Two ways a whole attempt does not read back ----------------------------------------

  /** A death inside the write of a record hides the attempt, and so does a clock stepped back behind the start, even
      when every step succeeds. */
  lemma HiddenAttempts(c: Checks, w: Work)
    requires !w.publishes && !w.commits && w.ending.Failed?
    ensures var s := Start("a", "b", "c", 1, None);
            && Verdict(c, s, w, None, 2, Faults(Fine, Fine, Fine)) == Some((s, Some(FailedRecord(s, w.phase, 2))))
            && Verdict(c, s, w, None, 2, Faults(Fine, Fine, Dies(Inside))) == None
            && Verdict(c, s, w, None, 0, Faults(Fine, Fine, Fine)) == None
    ensures var s := Start("a", "b", "c", 1, None);
            var start: Directory := map[StartedFile := StartBody(s)];
            var torn := WriteFile(start, FinalFile, FinalBody(FailedRecord(s, w.phase, 2)), Dies(Inside)).0;
            var early := WriteFile(start, FinalFile, FinalBody(FailedRecord(s, w.phase, 0)), Fine).0;
            ReadAttempt("a", torn, None) == None && ReadAttempt("a", early, None) == None
  {
    var s := Start("a", "b", "c", 1, None);
    RecordReads(s, FailedRecord(s, w.phase, 2), Dies(Inside), None);
    RecordReads(s, FailedRecord(s, w.phase, 0), Fine, None);
  }
}
