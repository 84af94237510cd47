/**
 Secrets and named-snapshot saves on one lease (api/secrets.go,
 api/named_snapshots.go, api/jobs.go), as a state machine over the steps of
 any number of saves, execs and background jobs. A secret file is its name;
 the guest may delete files at any moment, and a removal or re-stage may miss
 any of its files.
 */
module Secrets {
  import opened Options
  import opened Counting

  datatype Pc =
    // an exec or a job with secrets: before the gate, and staging under it
    | Stager(job: bool, names: set<string>)
    | Staging(job: bool, names: set<string>)
    // a job: running with its files, its names taken, and either refused the
    // gate or removing its files under it
    | Running(names: set<string>)
    | Ending(names: set<string>)
    | Deferring(names: set<string>)
    | Removing(names: set<string>)
    // a save: before the gate, then under it
    | Save
    | Held
    | Checked
    | Scrubbed
    | Checkpointed
    | Leaving(scrubbed: bool)
    | Drained(scrubbed: bool)
    | Restaged(scrubbed: bool, whole: bool)
    | Done

  // What a checkpoint captured, and what a saved row says about it.
  datatype Row = Row(secretFree: bool, stagedBefore: bool)

  // What has happened so far.
  datatype Log = Log(
    hadSecrets: bool,            // the lease's mark
    everStaged: bool,            // an exec or job file was ever written
    whole: bool,                 // no removal so far missed a file
    captured: seq<set<string>>,  // the files at each checkpoint
    rows: seq<Row>)

  datatype State = State(
    threads: seq<Pc>,
    files: set<string>,          // under /run/secrets
    create: set<string>,         // the create-time names and the self token
    pending: set<string>,        // deferred removals
    saving: int,
    staging: int,
    log: Log)

  datatype Step =
    | Arrive(p: Pc)
    | BeginStaging(t: nat)
    | StageFile(t: nat, name: string)
    | EndExec(t: nat, removed: set<string>, restored: set<string>)
    | Launch(t: nat, started: bool, removed: set<string>)
    | TakeNames(t: nat)
    | AskToRemove(t: nat)
    | Defer(t: nat)
    | Remove(t: nat, removed: set<string>, restored: set<string>)
    | BeginSave(t: nat)
    | Check(t: nat, limitReached: bool)
    | Scrub(t: nat, fails: bool)
    | Checkpoint(t: nat, fails: bool)
    | Insert(t: nat, fails: bool)
    | Drain(t: nat, removed: set<string>)
    | Restage(t: nat, written: set<string>)
    | EndSave(t: nat)
    | GuestDeletes(gone: set<string>)

  // `had` says whether a secret had reached the lease before.
  function Init(create: set<string>, had: bool): State {
    State([], create, create, {}, 0, 0, Log(had, false, true, [], []))
  }

  predicate HoldsStaging(p: Pc) { p.Staging? || p.Removing? }

  predicate HoldsSave(p: Pc) {
    p.Held? || p.Checked? || p.Scrubbed? || p.Checkpointed? || p.Leaving? || p.Drained? || p.Restaged?
  }

  predicate JobHasSecrets(s: State) {
    exists t :: 0 <= t < |s.threads| && s.threads[t].Running? && s.threads[t].names != {}
  }

  function At(s: State, t: nat): Pc { if t < |s.threads| then s.threads[t] else Done }

  predicate Enabled(s: State, step: Step) {
    match step
    case Arrive(p) => (p.Stager? && p.names != {}) || p.Save?
    case BeginStaging(t) => At(s, t).Stager?
    case StageFile(t, name) => At(s, t).Staging? && name in At(s, t).names
    case EndExec(t, removed, restored) =>
      At(s, t).Staging? && !At(s, t).job && removed <= At(s, t).names && restored <= At(s, t).names * s.create
    case Launch(t, _, removed) => At(s, t).Staging? && At(s, t).job && removed <= At(s, t).names
    case TakeNames(t) => At(s, t).Running?
    case AskToRemove(t) => At(s, t).Ending?
    case Defer(t) => At(s, t).Deferring?
    case Remove(t, removed, restored) =>
      At(s, t).Removing? && removed <= At(s, t).names && restored <= At(s, t).names * s.create
    case BeginSave(t) => At(s, t).Save?
    case Check(t, _) => At(s, t).Held?
    case Scrub(t, _) => At(s, t).Checked?
    case Checkpoint(t, _) => At(s, t).Scrubbed?
    case Insert(t, _) => At(s, t).Checkpointed?
    case Drain(t, removed) => At(s, t).Leaving? && removed <= s.pending
    case Restage(t, written) => At(s, t).Drained? && written <= s.create
    case EndSave(t) => At(s, t).Restaged?
    case GuestDeletes(_) => true
  }

  function Move(s: State, t: nat, p: Pc): State
    requires t < |s.threads|
  {
    s.(threads := s.threads[t := p])
  }

  predicate SaveStep(step: Step) {
    step.BeginSave? || step.Check? || step.Scrub? || step.Checkpoint? || step.Insert? || step.Drain? ||
    step.Restage? || step.EndSave?
  }

  // The steps of execs, jobs and the guest.
  function WorkNext(s: State, step: Step): State
    requires Enabled(s, step) && !SaveStep(step)
  {
    match step
    case Arrive(p) => s.(threads := s.threads + [p])
    case GuestDeletes(gone) => s.(files := s.files - gone)
    // beginStaging refuses while a save holds the lease
    case BeginStaging(t) =>
      var p := s.threads[t];
      if s.saving > 0 then Move(s, t, Done)
      else Move(s, t, Staging(p.job, p.names)).(staging := s.staging + 1, log := s.log.(hadSecrets := true))
    case StageFile(t, name) => s.(files := s.files + {name}, log := s.log.(everStaged := true))
    case EndExec(t, removed, restored) =>
      Move(s, t, Done).(files := s.files - removed + restored, staging := s.staging - 1,
                        log := s.log.(whole := s.log.whole && removed == s.threads[t].names))
    case Launch(t, started, removed) =>
      if started then Move(s, t, Running(s.threads[t].names)).(staging := s.staging - 1)
      else Move(s, t, Done).(files := s.files - removed, staging := s.staging - 1,
                             log := s.log.(whole := s.log.whole && removed == s.threads[t].names))
    case TakeNames(t) => Move(s, t, Ending(s.threads[t].names))
    case AskToRemove(t) =>
      var names := s.threads[t].names;
      if s.saving > 0 then Move(s, t, Deferring(names)) else Move(s, t, Removing(names)).(staging := s.staging + 1)
    case Defer(t) => Move(s, t, Done).(pending := s.pending + s.threads[t].names)
    case Remove(t, removed, restored) =>
      Move(s, t, Done).(files := s.files - removed + restored, staging := s.staging - 1,
                        log := s.log.(whole := s.log.whole && removed == s.threads[t].names))
  }

  // The steps of a save.
  function SaveNext(s: State, step: Step): State
    requires Enabled(s, step) && SaveStep(step)
  {
    match step
    // beginSave refuses while a save or a staging holds the lease
    case BeginSave(t) =>
      if s.saving > 0 || s.staging > 0 then Move(s, t, Done) else Move(s, t, Held).(saving := s.saving + 1)
    case Check(t, limitReached) =>
      Move(s, t, if JobHasSecrets(s) || limitReached then Leaving(false) else Checked)
    case Scrub(t, fails) =>
      if fails then Move(s, t, Leaving(false)) else Move(s, t, Scrubbed).(files := {})
    case Checkpoint(t, fails) =>
      if fails then Move(s, t, Leaving(true))
      else Move(s, t, Checkpointed).(log := s.log.(captured := s.log.captured + [s.files]))
    case Insert(t, fails) =>
      if fails then Move(s, t, Leaving(true))
      else Move(s, t, Leaving(true)).(log := s.log.(rows := s.log.rows + [Row(!s.log.hadSecrets, s.log.everStaged)]))
    case Drain(t, removed) =>
      Move(s, t, Drained(s.threads[t].scrubbed)).(files := s.files - removed, pending := {},
                                                  log := s.log.(whole := s.log.whole && removed == s.pending))
    case Restage(t, written) =>
      Move(s, t, Restaged(s.threads[t].scrubbed, written == s.create)).(files := s.files + written)
    case EndSave(t) => Move(s, t, Done).(saving := s.saving - 1)
  }

  function Next(s: State, step: Step): State
    requires Enabled(s, step)
  {
    if SaveStep(step) then SaveNext(s, step) else WorkNext(s, step)
  }

  function After(create: set<string>, had: bool, steps: seq<Step>): Option<State>
    decreases |steps|, 1
  {
    if steps == [] then Some(Init(create, had)) else AfterLast(create, had, steps)
  }

  function AfterLast(create: set<string>, had: bool, steps: seq<Step>): Option<State>
    requires steps != []
    decreases |steps|, 0
  {
    var before, step := After(create, had, steps[..|steps| - 1]), steps[|steps| - 1];
    if before.Some? && Enabled(before.value, step) then Some(Next(before.value, step)) else None
  }

  // --- Invariant ---

  // Between its scrub and its re-stage a save finds no secret file.
  ghost predicate Clean(s: State, p: Pc) {
    && (p.Scrubbed? || p.Checkpointed? ==> s.files == {})
    && (p.Leaving? && p.scrubbed ==> s.files == {})
    && (p.Drained? && p.scrubbed ==> s.files == {})
    && (p.Restaged? && p.scrubbed ==> s.files <= s.create)
  }

  ghost predicate GateOk(s: State) {
    && s.saving == Count(s.threads, HoldsSave) && s.staging == Count(s.threads, HoldsStaging)
    && s.saving <= 1 && (s.saving > 0 ==> s.staging == 0)
  }

  ghost predicate FilesOk(s: State) {
    && (forall t :: 0 <= t < |s.threads| ==> Clean(s, s.threads[t]))
    && (forall i :: 0 <= i < |s.log.captured| ==> s.log.captured[i] == {})
  }

  ghost predicate MarksOk(s: State) {
    && (s.log.everStaged ==> s.log.hadSecrets)
    && (forall t :: 0 <= t < |s.threads| && s.threads[t].Staging? ==> s.log.hadSecrets)
    && (forall i :: 0 <= i < |s.log.rows| ==> s.log.rows[i].secretFree ==> !s.log.rows[i].stagedBefore)
  }

  ghost predicate Inv(s: State) { GateOk(s) && FilesOk(s) && MarksOk(s) }

  // While a staging holds the lease no save does, and two saves never do.
  lemma NobodySaves(s: State, t: nat, u: nat)
    requires GateOk(s) && t < |s.threads| && u < |s.threads| && t != u
    requires HoldsStaging(s.threads[t]) || HoldsSave(s.threads[t])
    ensures !HoldsSave(s.threads[u])
  {
    if HoldsSave(s.threads[u]) {
      CountSeesEach(s.threads, HoldsSave, u);
      if HoldsStaging(s.threads[t]) {
        CountSeesEach(s.threads, HoldsStaging, t);
      } else {
        CountSeesBoth(s.threads, HoldsSave, if t < u then t else u, if t < u then u else t);
      }
    }
  }

  lemma HolderIsCounted(s: State, t: nat)
    requires GateOk(s) && t < |s.threads|
    ensures HoldsStaging(s.threads[t]) ==> s.staging > 0 && s.saving == 0
    ensures HoldsSave(s.threads[t]) ==> s.saving == 1 && s.staging == 0
  {
    if HoldsSave(s.threads[t]) { CountSeesEach(s.threads, HoldsSave, t); }
    if HoldsStaging(s.threads[t]) { CountSeesEach(s.threads, HoldsStaging, t); }
  }

  // One thread moves and the gate's counts follow.
  lemma GateFollows(s: State, n: State, t: nat, p: Pc)
    requires GateOk(s) && t < |s.threads| && n.threads == s.threads[t := p]
    requires n.saving == s.saving - One(HoldsSave(s.threads[t])) + One(HoldsSave(p)) <= 1
    requires n.staging == s.staging - One(HoldsStaging(s.threads[t])) + One(HoldsStaging(p))
    requires n.saving > 0 ==> n.staging == 0
    ensures GateOk(n)
  {
    CountAfter(s.threads, HoldsSave, t, p);
    CountAfter(s.threads, HoldsStaging, t, p);
  }

  lemma StagerKeepsGate(s: State, step: Step)
    requires GateOk(s) && Enabled(s, step)
    requires step.BeginStaging? || step.StageFile? || step.EndExec? || step.Launch?
    ensures GateOk(Next(s, step))
  {
    HolderIsCounted(s, step.t);
    var n := Next(s, step);
    assert n.threads == s.threads[step.t := n.threads[step.t]];
    GateFollows(s, n, step.t, n.threads[step.t]);
  }

  lemma JobKeepsGate(s: State, step: Step)
    requires GateOk(s) && Enabled(s, step)
    requires step.TakeNames? || step.AskToRemove? || step.Defer? || step.Remove?
    ensures GateOk(Next(s, step))
  {
    HolderIsCounted(s, step.t);
    var n := Next(s, step);
    GateFollows(s, n, step.t, n.threads[step.t]);
  }

  lemma SaveKeepsGate(s: State, step: Step)
    requires GateOk(s) && Enabled(s, step) && SaveStep(step)
    ensures GateOk(Next(s, step))
  {
    HolderIsCounted(s, step.t);
    var n := Next(s, step);
    GateFollows(s, n, step.t, n.threads[step.t]);
  }

  lemma GateIsKept(s: State, step: Step)
    requires GateOk(s) && Enabled(s, step)
    ensures GateOk(Next(s, step))
  {
    if step.Arrive? {
      CountWith(s.threads, HoldsSave, step.p);
      CountWith(s.threads, HoldsStaging, step.p);
    } else if step.BeginStaging? || step.StageFile? || step.EndExec? || step.Launch? {
      StagerKeepsGate(s, step);
    } else if step.TakeNames? || step.AskToRemove? || step.Defer? || step.Remove? {
      JobKeepsGate(s, step);
    } else if SaveStep(step) {
      SaveKeepsGate(s, step);
    }
  }

  lemma WorkKeepsMarks(s: State, step: Step)
    requires MarksOk(s) && Enabled(s, step) && !SaveStep(step)
    ensures MarksOk(Next(s, step))
  {
  }

  lemma SaveKeepsMarks(s: State, step: Step)
    requires MarksOk(s) && Enabled(s, step) && SaveStep(step)
    ensures MarksOk(Next(s, step))
  {
  }

  // Staging steps change files while nobody saves.
  lemma StagingKeepsFiles(s: State, step: Step)
    requires GateOk(s) && FilesOk(s) && Enabled(s, step)
    requires step.StageFile? || step.EndExec? || step.Launch? || step.Remove?
    ensures FilesOk(Next(s, step))
  {
    var n, t := Next(s, step), step.t;
    forall u | 0 <= u < |n.threads| ensures Clean(n, n.threads[u]) {
      if u != t { NobodySaves(s, t, u); }
    }
  }

  // A save's own steps change files while nobody else saves.
  lemma SavingKeepsFiles(s: State, step: Step)
    requires GateOk(s) && FilesOk(s) && Enabled(s, step)
    requires step.Scrub? || step.Drain? || step.Restage?
    ensures FilesOk(Next(s, step))
  {
    var n, t := Next(s, step), step.t;
    assert Clean(s, s.threads[t]);
    forall u | 0 <= u < |n.threads| ensures Clean(n, n.threads[u]) {
      if u != t { NobodySaves(s, t, u); }
    }
  }

  lemma CheckpointKeepsFiles(s: State, t: nat, fails: bool)
    requires FilesOk(s) && Enabled(s, Checkpoint(t, fails))
    ensures FilesOk(Next(s, Checkpoint(t, fails)))
  {
    var n := Next(s, Checkpoint(t, fails));
    assert Clean(s, s.threads[t]);
    forall u | 0 <= u < |n.threads| ensures Clean(n, n.threads[u]) { assert Clean(s, s.threads[u]); }
  }

  // The other steps add no file.
  ghost predicate AddsNoFile(s: State, n: State) {
    n.files <= s.files && n.create == s.create && n.log.captured == s.log.captured
  }

  lemma OtherWorkKeepsFiles(s: State, step: Step)
    requires FilesOk(s) && Enabled(s, step) && !SaveStep(step)
    requires !step.StageFile? && !step.EndExec? && !step.Launch? && !step.Remove?
    ensures FilesOk(Next(s, step))
  {
    var n := Next(s, step);
    assert AddsNoFile(s, n);
    forall u | 0 <= u < |n.threads| ensures Clean(n, n.threads[u]) {
      if u < |s.threads| { assert Clean(s, s.threads[u]); }
    }
  }

  lemma OtherSavesKeepFiles(s: State, step: Step)
    requires FilesOk(s) && Enabled(s, step) && (step.BeginSave? || step.Check? || step.Insert? || step.EndSave?)
    ensures FilesOk(Next(s, step))
  {
    var n := Next(s, step);
    assert AddsNoFile(s, n);
    forall u | 0 <= u < |n.threads| ensures Clean(n, n.threads[u]) { assert Clean(s, s.threads[u]); }
  }

  lemma FilesAreKept(s: State, step: Step)
    requires GateOk(s) && FilesOk(s) && Enabled(s, step)
    ensures FilesOk(Next(s, step))
  {
    if step.StageFile? || step.EndExec? || step.Launch? || step.Remove? {
      StagingKeepsFiles(s, step);
    } else if !SaveStep(step) {
      OtherWorkKeepsFiles(s, step);
    } else if step.Scrub? || step.Drain? || step.Restage? {
      SavingKeepsFiles(s, step);
    } else if step.Checkpoint? {
      CheckpointKeepsFiles(s, step.t, step.fails);
    } else {
      OtherSavesKeepFiles(s, step);
    }
  }

  lemma CreateStays(s: State, step: Step)
    requires Enabled(s, step)
    ensures Next(s, step).create == s.create
  {
  }

  lemma InvIsKept(s: State, step: Step)
    requires Inv(s) && Enabled(s, step)
    ensures Inv(Next(s, step)) && Next(s, step).create == s.create
  {
    GateIsKept(s, step);
    if SaveStep(step) { SaveKeepsMarks(s, step); } else { WorkKeepsMarks(s, step); }
    FilesAreKept(s, step);
    CreateStays(s, step);
  }

  lemma {:induction false} InvHolds(create: set<string>, had: bool, steps: seq<Step>)
    requires After(create, had, steps).Some?
    ensures Inv(After(create, had, steps).value) && After(create, had, steps).value.create == create
  {
    if steps != [] {
      InvHolds(create, had, steps[..|steps| - 1]);
      InvIsKept(After(create, had, steps[..|steps| - 1]).value, steps[|steps| - 1]);
    }
  }

  // --- Theorems over every run ---

  // A save and a staging never hold the lease together, nor do two saves.
  lemma GateExcludes(create: set<string>, had: bool, steps: seq<Step>, t: nat, u: nat)
    requires After(create, had, steps).Some?
    requires var s := After(create, had, steps).value;
             t < |s.threads| && u < |s.threads| && t != u && HoldsSave(s.threads[t])
    ensures var s := After(create, had, steps).value;
            !HoldsSave(s.threads[u]) && !HoldsStaging(s.threads[u])
  {
    InvHolds(create, had, steps);
    var s := After(create, had, steps).value;
    NobodySaves(s, t, u);
    if HoldsStaging(s.threads[u]) { NobodySaves(s, u, t); }
  }

  predicate NoneSaves(s: State) {
    forall u :: 0 <= u < |s.threads| ==> !HoldsSave(s.threads[u])
  }

  lemma GateCounts(create: set<string>, had: bool, steps: seq<Step>, s: State)
    requires After(create, had, steps) == Some(s)
    ensures s.saving > 0 <==> !NoneSaves(s)
    ensures s.staging > 0 <==> exists u :: 0 <= u < |s.threads| && HoldsStaging(s.threads[u])
  {
    InvHolds(create, had, steps);
    if s.saving > 0 { var u := CountedIsThere(s.threads, HoldsSave); assert HoldsSave(s.threads[u]); }
    if s.staging > 0 { var u := CountedIsThere(s.threads, HoldsStaging); assert HoldsStaging(s.threads[u]); }
    forall u | 0 <= u < |s.threads| ensures HoldsSave(s.threads[u]) ==> s.saving > 0 { HolderIsCounted(s, u); }
    forall u | 0 <= u < |s.threads| ensures HoldsStaging(s.threads[u]) ==> s.staging > 0 { HolderIsCounted(s, u); }
  }

  // An exec or job gets to stage, and a finished job to remove, exactly when no
  // save holds the lease; a save begins exactly when nobody holds it, and goes
  // past its check exactly when no running job was given secrets and the limit
  // leaves room.
  lemma GateAnswersIff(create: set<string>, had: bool, steps: seq<Step>, s: State, step: Step)
    requires After(create, had, steps) == Some(s) && Enabled(s, step)
    ensures step.BeginStaging? ==>
              Next(s, step).threads[step.t] ==
              if NoneSaves(s) then Staging(s.threads[step.t].job, s.threads[step.t].names) else Done
    ensures step.AskToRemove? ==>
              Next(s, step).threads[step.t] ==
              if NoneSaves(s) then Removing(s.threads[step.t].names) else Deferring(s.threads[step.t].names)
    ensures step.BeginSave? ==>
              Next(s, step).threads[step.t] ==
              if NoneSaves(s) && (forall u :: 0 <= u < |s.threads| ==> !HoldsStaging(s.threads[u])) then Held else Done
    ensures step.Check? ==>
              Next(s, step).threads[step.t] ==
              if !step.limitReached &&
                 (forall u :: 0 <= u < |s.threads| && s.threads[u].Running? ==> s.threads[u].names == {})
              then Checked else Leaving(false)
  {
    GateCounts(create, had, steps, s);
  }

  // No checkpoint captures a secret file, and a row marked secret-free means
  // no exec or job file had ever been written on the lease.
  lemma CheckpointsAreClean(create: set<string>, had: bool, steps: seq<Step>)
    requires After(create, had, steps).Some?
    ensures var s := After(create, had, steps).value;
            && (forall i :: 0 <= i < |s.log.captured| ==> s.log.captured[i] == {})
            && (forall i :: 0 <= i < |s.log.rows| && s.log.rows[i].secretFree ==> !s.log.rows[i].stagedBefore)
  {
    InvHolds(create, had, steps);
  }

  // A save that got past its scrub leaves exactly the create-time files when
  // its re-stage writes them all, whatever its outcome and whatever jobs
  // deferred meanwhile.
  lemma SaveRestoresCreateFiles(create: set<string>, had: bool, steps: seq<Step>, t: nat, written: set<string>)
    requires After(create, had, steps).Some? && Enabled(After(create, had, steps).value, Restage(t, written))
    requires After(create, had, steps).value.threads[t].scrubbed
    ensures Next(After(create, had, steps).value, Restage(t, written)).files == written <= create
    ensures Next(After(create, had, steps).value, Restage(t, written)).threads[t].whole <==> written == create
  {
    InvHolds(create, had, steps);
    var s := After(create, had, steps).value;
    assert Clean(s, s.threads[t]);
  }

  // --- Running jobs ---

  // A save that has gone past its check, up to the end of its hold.
  predicate PastCheck(p: Pc) {
    || p.Checked? || p.Scrubbed? || p.Checkpointed?
    || ((p.Leaving? || p.Drained? || p.Restaged?) && p.scrubbed)
  }

  ghost predicate JobsSpared(s: State) {
    forall t, u :: 0 <= t < |s.threads| && 0 <= u < |s.threads| && PastCheck(s.threads[t]) ==>
      !(s.threads[u].Running? && s.threads[u].names != {})
  }

  lemma WorkSparesJobs(s: State, step: Step)
    requires GateOk(s) && JobsSpared(s) && Enabled(s, step) && !SaveStep(step)
    ensures JobsSpared(Next(s, step))
  {
    var n := Next(s, step);
    if step.Launch? && step.started {
      forall t | 0 <= t < |n.threads| ensures !PastCheck(n.threads[t]) {
        if t != step.t && HoldsSave(s.threads[t]) { NobodySaves(s, step.t, t); }
      }
    }
  }

  // A save step moves its own thread, which does not become a job.
  lemma SaveMoves(s: State, step: Step, t: nat)
    requires Enabled(s, step) && SaveStep(step) && t < |s.threads|
    ensures var n := Next(s, step);
            && |n.threads| == |s.threads| && (n.threads[t].Running? ==> n.threads[t] == s.threads[t])
            && (PastCheck(n.threads[t]) ==> PastCheck(s.threads[t]) || (step.Check? && !JobHasSecrets(s)))
  {
  }

  lemma SaveSparesJobs(s: State, step: Step)
    requires JobsSpared(s) && Enabled(s, step) && SaveStep(step)
    ensures JobsSpared(Next(s, step))
  {
    var n := Next(s, step);
    SaveMoves(s, step, step.t);
    forall t, u | 0 <= t < |n.threads| && 0 <= u < |n.threads| && PastCheck(n.threads[t])
      ensures !(n.threads[u].Running? && n.threads[u].names != {})
    {
      SaveMoves(s, step, t);
      SaveMoves(s, step, u);
    }
  }

  lemma {:induction false} JobsSparedHolds(create: set<string>, had: bool, steps: seq<Step>)
    requires After(create, had, steps).Some?
    ensures JobsSpared(After(create, had, steps).value)
  {
    if steps != [] {
      var rest, step := steps[..|steps| - 1], steps[|steps| - 1];
      JobsSparedHolds(create, had, rest);
      InvHolds(create, had, rest);
      var s := After(create, had, rest).value;
      if SaveStep(step) { SaveSparesJobs(s, step); } else { WorkSparesJobs(s, step); }
    }
  }

  // No save scrubs the lease, checkpoints it or re-stages it while a job that
  // was given secrets runs there.
  lemma NoSaveUnderARunningJob(create: set<string>, had: bool, steps: seq<Step>, step: Step, u: nat)
    requires After(create, had, steps).Some? && Enabled(After(create, had, steps).value, step)
    requires step.Scrub? || step.Checkpoint? || step.Insert?
    requires u < |After(create, had, steps).value.threads|
    ensures var p := After(create, had, steps).value.threads[u]; p.Running? ==> p.names == {}
  {
    JobsSparedHolds(create, had, steps);
  }

  // --- What is left behind ---

  // The files an exec or job is still responsible for.
  function Carries(p: Pc): set<string> {
    if p.Staging? || p.Running? || p.Ending? || p.Deferring? || p.Removing? then p.names else {}
  }

  ghost predicate Carried(s: State, x: string) {
    exists t :: 0 <= t < |s.threads| && x in Carries(s.threads[t])
  }

  // As long as no removal misses a file, every file is a create-time one, one
  // some exec or job still has to remove, or a deferred one.
  ghost predicate Answerable(s: State) {
    s.log.whole ==> forall x :: x in s.files ==> x in s.create || x in s.pending || Carried(s, x)
  }

  lemma FileStaysAnswerable(s: State, step: Step, x: string)
    requires Enabled(s, step) && Next(s, step).log.whole
    requires x in Next(s, step).files && x in s.files && Carried(s, x)
    ensures var n := Next(s, step); x in n.create || x in n.pending || Carried(n, x)
  {
    var n := Next(s, step);
    var t :| 0 <= t < |s.threads| && x in Carries(s.threads[t]);
    if x in Carries(n.threads[t]) { assert Carried(n, x); }
  }

  lemma AnswerableIsKept(s: State, step: Step)
    requires Answerable(s) && Enabled(s, step)
    ensures Answerable(Next(s, step))
  {
    var n := Next(s, step);
    if n.log.whole {
      forall x | x in n.files ensures x in n.create || x in n.pending || Carried(n, x) {
        if x in s.files && Carried(s, x) {
          FileStaysAnswerable(s, step, x);
        } else if step.StageFile? && x == step.name {
          assert x in Carries(n.threads[step.t]);
        }
      }
    }
  }

  lemma {:induction false} AnswerableHolds(create: set<string>, had: bool, steps: seq<Step>)
    requires After(create, had, steps).Some?
    ensures Answerable(After(create, had, steps).value)
  {
    if steps != [] {
      AnswerableHolds(create, had, steps[..|steps| - 1]);
      AnswerableIsKept(After(create, had, steps[..|steps| - 1]).value, steps[|steps| - 1]);
    }
  }

  // When everything has finished and no removal missed a file, whatever is
  // left beside the create-time files is recorded as deferred.
  lemma LeftoversAreDeferred(create: set<string>, had: bool, steps: seq<Step>, x: string)
    requires After(create, had, steps).Some? && After(create, had, steps).value.log.whole
    requires AtRest(After(create, had, steps).value)
    requires x in After(create, had, steps).value.files && x !in create
    ensures x in After(create, had, steps).value.pending
  {
    AnswerableHolds(create, had, steps);
    InvHolds(create, had, steps);
  }

  ghost predicate AtRest(s: State) { forall t :: 0 <= t < |s.threads| ==> s.threads[t] == Done }

  // A save that has still to drain the deferred removals.
  predicate WillDrain(p: Pc) { p.Held? || p.Checked? || p.Scrubbed? || p.Checkpointed? || p.Leaving? }

  ghost predicate DrainAhead(s: State) { exists t :: 0 <= t < |s.threads| && WillDrain(s.threads[t]) }

  // Every deferral is recorded while a save has still to drain.
  ghost predicate InTime(create: set<string>, had: bool, steps: seq<Step>) {
    forall i :: 0 <= i < |steps| && steps[i].Defer? && After(create, had, steps[..i]).Some? ==>
      DrainAhead(After(create, had, steps[..i]).value)
  }

  lemma DrainStaysAhead(s: State, step: Step)
    requires GateOk(s) && Enabled(s, step) && DrainAhead(s) && !step.Drain?
    ensures DrainAhead(Next(s, step))
  {
    var n := Next(s, step);
    var t :| 0 <= t < |s.threads| && WillDrain(s.threads[t]);
    assert WillDrain(n.threads[t]);
  }

  lemma {:induction false} PendingIsDrained(create: set<string>, had: bool, steps: seq<Step>)
    requires After(create, had, steps).Some? && InTime(create, had, steps)
    ensures After(create, had, steps).value.pending != {} ==> DrainAhead(After(create, had, steps).value)
  {
    if steps != [] {
      var rest, step := steps[..|steps| - 1], steps[|steps| - 1];
      forall i | 0 <= i < |rest| && rest[i].Defer? && After(create, had, rest[..i]).Some?
        ensures DrainAhead(After(create, had, rest[..i]).value)
      {
        assert rest[..i] == steps[..i];
      }
      PendingIsDrained(create, had, rest);
      InvHolds(create, had, rest);
      PendingStep(After(create, had, rest).value, step);
    }
  }

  lemma PendingStep(s: State, step: Step)
    requires GateOk(s) && Enabled(s, step) && (s.pending != {} || step.Defer? ==> DrainAhead(s))
    ensures Next(s, step).pending != {} ==> DrainAhead(Next(s, step))
  {
    if DrainAhead(s) && !step.Drain? { DrainStaysAhead(s, step); }
  }

  // When every deferral was in time and no removal missed a file, nothing but
  // create-time files is left once everything has finished.
  lemma NothingLeftInTime(create: set<string>, had: bool, steps: seq<Step>)
    requires After(create, had, steps).Some? && InTime(create, had, steps)
    requires AtRest(After(create, had, steps).value) && After(create, had, steps).value.log.whole
    ensures After(create, had, steps).value.files <= create
  {
    AnswerableHolds(create, had, steps);
    InvHolds(create, had, steps);
    PendingIsDrained(create, had, steps);
  }

  // The converse: a name deferred with no drain ahead stays recorded, and its
  // file in place, until a new save begins, the guest deletes the file, or
  // someone who staged the same name removes it.
  predicate Spares(step: Step, x: string) {
    match step
    case BeginSave(_) => false
    case GuestDeletes(gone) => x !in gone
    case EndExec(_, removed, _) => x !in removed
    case Remove(_, removed, _) => x !in removed
    case Launch(_, started, removed) => started || x !in removed
    case _ => true
  }

  lemma {:induction false} LateNameStays(
    create: set<string>, had: bool, steps: seq<Step>, t: nat, more: seq<Step>, x: string)
    requires After(create, had, steps).Some? && Enabled(After(create, had, steps).value, Defer(t))
    requires !DrainAhead(After(create, had, steps).value)
    requires x in After(create, had, steps).value.threads[t].names && x in After(create, had, steps).value.files
    requires After(create, had, steps + [Defer(t)] + more).Some?
    requires forall k :: 0 <= k < |more| ==> Spares(more[k], x)
    ensures Stuck(After(create, had, steps + [Defer(t)] + more).value, x)
  {
    var late := steps + [Defer(t)];
    if more == [] {
      assert late + more == late && late[..|late| - 1] == steps;
      LateDefer(After(create, had, steps).value, t, x);
    } else {
      var rest := more[..|more| - 1];
      assert (late + more)[..|late + more| - 1] == late + rest;
      LateNameStays(create, had, steps, t, rest, x);
      SparedStep(After(create, had, late + rest).value, more[|more| - 1], x);
    }
  }

  // Deferred, still there, and no save about to drain it.
  ghost predicate Stuck(s: State, x: string) { x in s.pending && x in s.files && !DrainAhead(s) }

  lemma LateDefer(s: State, t: nat, x: string)
    requires Enabled(s, Defer(t)) && !DrainAhead(s) && x in s.threads[t].names && x in s.files
    ensures Stuck(Next(s, Defer(t)), x)
  {
    var n := Next(s, Defer(t));
    forall u | 0 <= u < |n.threads| ensures !WillDrain(n.threads[u]) { assert !WillDrain(s.threads[u]); }
  }

  lemma SparedStep(s: State, step: Step, x: string)
    requires Enabled(s, step) && Spares(step, x) && Stuck(s, x)
    ensures Stuck(Next(s, step), x)
  {
    var n := Next(s, step);
    if SaveStep(step) { assert !WillDrain(s.threads[step.t]); }
    forall u | 0 <= u < |n.threads| ensures !WillDrain(n.threads[u]) {
      if u < |s.threads| { assert !WillDrain(s.threads[u]); }
    }
  }

  lemma Extend(steps: seq<Step>, s: State, step: Step, n: State)
    requires After({}, false, steps) == Some(s) && Enabled(s, step) && n == Next(s, step)
    ensures After({}, false, steps + [step]) == Some(n)
  {
    GoesOn({}, false, steps, s, step, n);
  }

  lemma GoesOn(create: set<string>, had: bool, steps: seq<Step>, s: State, step: Step, n: State)
    requires After(create, had, steps) == Some(s) && Enabled(s, step) && n == Next(s, step)
    ensures After(create, had, steps + [step]) == Some(n)
  {
    assert (steps + [step])[..|steps|] == steps;
  }

  // --- Whole operations ---

  // A save that meets nobody takes an empty checkpoint, records whether a
  // secret had reached the lease, removes what was deferred and puts the
  // create-time files back.
  lemma SaveGoesThrough(create: set<string>, had: bool, before: seq<Step>, s: State)
    returns (steps: seq<Step>, n: State)
    requires After(create, had, before) == Some(s) && s.saving == 0 && s.staging == 0 && !JobHasSecrets(s)
    ensures After(create, had, steps) == Some(n)
    ensures n == s.(threads := s.threads + [Done], files := s.create, pending := {},
                    log := s.log.(captured := s.log.captured + [{}],
                                  rows := s.log.rows + [Row(!s.log.hadSecrets, s.log.everStaged)]))
  {
    var mid, m := SaveCaptures(create, had, before, s);
    assert {} - s.pending + s.create == s.create;
    steps, n := SaveEnds(create, had, mid, m, s.threads, true);
  }

  // A save on its way out removes what was deferred and re-stages.
  lemma SaveEnds(create: set<string>, had: bool, before: seq<Step>, s: State, others: seq<Pc>, scrubbed: bool)
    returns (steps: seq<Step>, n: State)
    requires After(create, had, before) == Some(s) && s.threads == others + [Leaving(scrubbed)]
    ensures After(create, had, steps) == Some(n)
    ensures n == s.(threads := others + [Done], files := s.files - s.pending + s.create, pending := {},
                    saving := s.saving - 1)
  {
    var t := |others|;
    var s1 := s.(threads := others + [Drained(scrubbed)], files := s.files - s.pending, pending := {});
    GoesOn(create, had, before, s, Drain(t, s.pending), s1);
    var s2 := s1.(threads := others + [Restaged(scrubbed, true)], files := s1.files + s.create);
    GoesOn(create, had, before + [Drain(t, s.pending)], s1, Restage(t, s.create), s2);
    n := s2.(threads := others + [Done], saving := s.saving - 1);
    GoesOn(create, had, before + [Drain(t, s.pending)] + [Restage(t, s.create)], s2, EndSave(t), n);
    steps := before + [Drain(t, s.pending)] + [Restage(t, s.create)] + [EndSave(t)];
  }

  datatype SaveFault = NoScrub | NoCheckpoint | NoRow

  // So does one whose scrub, checkpoint or row fails: it saves nothing, and
  // once scrubbed the create-time files are what is left.
  lemma FailedSaveRestores(create: set<string>, had: bool, before: seq<Step>, s: State, fault: SaveFault)
    returns (steps: seq<Step>, n: State)
    requires After(create, had, before) == Some(s) && s.saving == 0 && s.staging == 0 && !JobHasSecrets(s)
    ensures After(create, had, steps) == Some(n)
    ensures n == s.(threads := s.threads + [Done], pending := {},
                    files := if fault.NoScrub? then s.files - s.pending + s.create else s.create,
                    log := if fault.NoRow? then s.log.(captured := s.log.captured + [{}]) else s.log)
  {
    var t := |s.threads|;
    var mid, m := SaveIsChecked(create, had, before, s);
    if fault.NoScrub? {
      var out := m.(threads := s.threads + [Leaving(false)]);
      GoesOn(create, had, mid, m, Scrub(t, true), out);
      steps, n := SaveEnds(create, had, mid + [Scrub(t, true)], out, s.threads, false);
    } else {
      var s1 := m.(threads := s.threads + [Scrubbed], files := {});
      GoesOn(create, had, mid, m, Scrub(t, false), s1);
      var mid', out := LosesItsRow(create, had, mid + [Scrub(t, false)], s1, s.threads, fault);
      assert {} - s.pending + s.create == s.create;
      steps, n := SaveEnds(create, had, mid', out, s.threads, true);
    }
  }

  lemma LosesItsRow(create: set<string>, had: bool, before: seq<Step>, s: State, others: seq<Pc>, fault: SaveFault)
    returns (steps: seq<Step>, n: State)
    requires After(create, had, before) == Some(s) && s.threads == others + [Scrubbed] && !fault.NoScrub?
    ensures After(create, had, steps) == Some(n)
    ensures n == s.(threads := others + [Leaving(true)],
                    log := if fault.NoRow? then s.log.(captured := s.log.captured + [s.files]) else s.log)
  {
    var t := |others|;
    if fault.NoCheckpoint? {
      n := s.(threads := others + [Leaving(true)]);
      GoesOn(create, had, before, s, Checkpoint(t, true), n);
      steps := before + [Checkpoint(t, true)];
    } else {
      var s1 := s.(threads := others + [Checkpointed], log := s.log.(captured := s.log.captured + [s.files]));
      GoesOn(create, had, before, s, Checkpoint(t, false), s1);
      n := s1.(threads := others + [Leaving(true)]);
      GoesOn(create, had, before + [Checkpoint(t, false)], s1, Insert(t, true), n);
      steps := before + [Checkpoint(t, false)] + [Insert(t, true)];
    }
  }

  lemma SaveCaptures(create: set<string>, had: bool, before: seq<Step>, s: State)
    returns (steps: seq<Step>, n: State)
    requires After(create, had, before) == Some(s) && s.saving == 0 && s.staging == 0 && !JobHasSecrets(s)
    ensures After(create, had, steps) == Some(n)
    ensures n == s.(threads := s.threads + [Leaving(true)], files := {}, saving := 1,
                    log := s.log.(captured := s.log.captured + [{}],
                                  rows := s.log.rows + [Row(!s.log.hadSecrets, s.log.everStaged)]))
  {
    var t := |s.threads|;
    var mid, m := SaveIsChecked(create, had, before, s);
    var s1 := m.(threads := s.threads + [Scrubbed], files := {});
    GoesOn(create, had, mid, m, Scrub(t, false), s1);
    var s2 := s1.(threads := s.threads + [Checkpointed], log := s.log.(captured := s.log.captured + [{}]));
    GoesOn(create, had, mid + [Scrub(t, false)], s1, Checkpoint(t, false), s2);
    n := Next(s2, Insert(t, false));
    GoesOn(create, had, mid + [Scrub(t, false)] + [Checkpoint(t, false)], s2, Insert(t, false), n);
    steps := mid + [Scrub(t, false)] + [Checkpoint(t, false)] + [Insert(t, false)];
  }

  lemma SaveIsChecked(create: set<string>, had: bool, before: seq<Step>, s: State)
    returns (steps: seq<Step>, n: State)
    requires After(create, had, before) == Some(s) && s.saving == 0 && s.staging == 0 && !JobHasSecrets(s)
    ensures After(create, had, steps) == Some(n)
    ensures n == s.(threads := s.threads + [Checked], saving := 1)
  {
    var t := |s.threads|;
    var s1 := s.(threads := s.threads + [Save]);
    GoesOn(create, had, before, s, Arrive(Save), s1);
    var s2 := s.(threads := s.threads + [Held], saving := 1);
    GoesOn(create, had, before + [Arrive(Save)], s1, BeginSave(t), s2);
    n := s.(threads := s.threads + [Checked], saving := 1);
    GoesOn(create, had, before + [Arrive(Save)] + [BeginSave(t)], s2, Check(t, false), n);
    steps := before + [Arrive(Save)] + [BeginSave(t)] + [Check(t, false)];
  }

  // A job that meets no save removes the files it was given when it ends,
  // whatever the guest has deleted meanwhile, and puts back the create-time ones
  // among them.
  lemma JobGoesThrough(create: set<string>, had: bool, before: seq<Step>, s: State, names: set<string>, x: string,
                       gone: set<string>)
    returns (steps: seq<Step>, n: State)
    requires After(create, had, before) == Some(s) && s.saving == 0 && x in names
    ensures After(create, had, steps) == Some(n)
    ensures n == s.(threads := s.threads + [Done], files := s.files - gone - names + names * s.create,
                    log := s.log.(hadSecrets := true, everStaged := true))
  {
    var t := |s.threads|;
    var mid, m := JobRuns(create, had, before, s, names, x, gone);
    var s2 := m.(threads := s.threads + [Ending(names)]);
    GoesOn(create, had, mid, m, TakeNames(t), s2);
    var s3 := m.(threads := s.threads + [Removing(names)], staging := s.staging + 1);
    GoesOn(create, had, mid + [TakeNames(t)], s2, AskToRemove(t), s3);
    steps := mid + [TakeNames(t)] + [AskToRemove(t)];
    n := Next(s3, Remove(t, names, names * s.create));
    assert s.files + {x} - gone - names + names * s.create == s.files - gone - names + names * s.create;
    GoesOn(create, had, steps, s3, Remove(t, names, names * s.create), n);
    steps := steps + [Remove(t, names, names * s.create)];
  }

  lemma JobRuns(create: set<string>, had: bool, before: seq<Step>, s: State, names: set<string>, x: string,
                gone: set<string>)
    returns (steps: seq<Step>, n: State)
    requires After(create, had, before) == Some(s) && s.saving == 0 && x in names
    ensures After(create, had, steps) == Some(n)
    ensures n == s.(threads := s.threads + [Running(names)], files := s.files + {x} - gone,
                    log := s.log.(hadSecrets := true, everStaged := true))
  {
    var t := |s.threads|;
    var mid, m := StagesOne(create, had, before, s, true, names, x);
    var s1 := m.(threads := s.threads + [Running(names)], staging := s.staging);
    GoesOn(create, had, mid, m, Launch(t, true, {}), s1);
    n := s1.(files := s.files + {x} - gone);
    GoesOn(create, had, mid + [Launch(t, true, {})], s1, GuestDeletes(gone), n);
    steps := mid + [Launch(t, true, {})] + [GuestDeletes(gone)];
  }

  // So does an exec; a job that does not start only removes them.
  lemma ExecGoesThrough(create: set<string>, had: bool, before: seq<Step>, s: State, job: bool, names: set<string>,
                        x: string)
    returns (steps: seq<Step>, n: State)
    requires After(create, had, before) == Some(s) && s.saving == 0 && x in names
    ensures After(create, had, steps) == Some(n)
    ensures n == s.(threads := s.threads + [Done],
                    files := if job then s.files - names else s.files - names + names * s.create,
                    log := s.log.(hadSecrets := true, everStaged := true))
  {
    var t := |s.threads|;
    var mid, m := StagesOne(create, had, before, s, job, names, x);
    var step := if job then Launch(t, false, names) else EndExec(t, names, names * s.create);
    n := Next(m, step);
    assert s.files + {x} - names == s.files - names;
    GoesOn(create, had, mid, m, step, n);
    steps := mid + [step];
  }

  lemma StagesOne(create: set<string>, had: bool, before: seq<Step>, s: State, job: bool, names: set<string>, x: string)
    returns (steps: seq<Step>, n: State)
    requires After(create, had, before) == Some(s) && s.saving == 0 && x in names
    ensures After(create, had, steps) == Some(n)
    ensures n == s.(threads := s.threads + [Staging(job, names)], files := s.files + {x}, staging := s.staging + 1,
                    log := s.log.(hadSecrets := true, everStaged := true))
  {
    var t := |s.threads|;
    var p := Stager(job, names);
    var s1 := s.(threads := s.threads + [p]);
    GoesOn(create, had, before, s, Arrive(p), s1);
    var s2 := s.(threads := s.threads + [Staging(job, names)], staging := s.staging + 1,
                 log := s.log.(hadSecrets := true));
    GoesOn(create, had, before + [Arrive(p)], s1, BeginStaging(t), s2);
    n := Next(s2, StageFile(t, x));
    GoesOn(create, had, before + [Arrive(p)] + [BeginStaging(t)], s2, StageFile(t, x), n);
    steps := before + [Arrive(p)] + [BeginStaging(t)] + [StageFile(t, x)];
  }

  // That can be something: a job refused the gate records its names only after
  // the save has drained the list, and nothing removes its file any more.
  const STAGED := Log(true, true, true, [], [])

  lemma LateDeferralLeavesFile() returns (steps: seq<Step>, s: State)
    ensures After({}, false, steps) == Some(s) && s.threads == [Done, Done] && s.saving == 0 && s.staging == 0
    ensures s.log.whole && s.files == {"k"} && s.pending == {"k"}
  {
    var before := SaveLeaves();
    var s4 := State([Deferring({"k"}), Restaged(false, true)], {"k"}, {}, {}, 1, 0, STAGED);
    var s5 := State([Deferring({"k"}), Done], {"k"}, {}, {}, 0, 0, STAGED);
    Extend(before, s4, EndSave(1), s5);
    assert {} + {"k"} == {"k"};
    s := State([Done, Done], {"k"}, {}, {"k"}, 0, 0, STAGED);
    Extend(before + [EndSave(1)], s5, Defer(0), s);
    steps := before + [EndSave(1)] + [Defer(0)];
  }

  lemma SaveLeaves() returns (steps: seq<Step>)
    ensures After({}, false, steps) ==
            Some(State([Deferring({"k"}), Restaged(false, true)], {"k"}, {}, {}, 1, 0, STAGED))
  {
    var before := SaveIsRefused();
    var s2 := State([Deferring({"k"}), Leaving(false)], {"k"}, {}, {}, 1, 0, STAGED);
    var s3 := State([Deferring({"k"}), Drained(false)], {"k"}, {}, {}, 1, 0, STAGED);
    assert {"k"} - {} == {"k"};
    Extend(before, s2, Drain(1, {}), s3);
    assert {"k"} + {} == {"k"};
    Extend(before + [Drain(1, {})], s3, Restage(1, {}),
           State([Deferring({"k"}), Restaged(false, true)], {"k"}, {}, {}, 1, 0, STAGED));
    steps := before + [Drain(1, {})] + [Restage(1, {})];
  }

  lemma SaveIsRefused() returns (steps: seq<Step>)
    ensures After({}, false, steps) == Some(State([Deferring({"k"}), Leaving(false)], {"k"}, {}, {}, 1, 0, STAGED))
  {
    var before := SaveBegins();
    var s0 := State([Ending({"k"}), Held], {"k"}, {}, {}, 1, 0, STAGED);
    var s1 := State([Deferring({"k"}), Held], {"k"}, {}, {}, 1, 0, STAGED);
    Extend(before, s0, AskToRemove(0), s1);
    Extend(before + [AskToRemove(0)], s1, Check(1, true),
           State([Deferring({"k"}), Leaving(false)], {"k"}, {}, {}, 1, 0, STAGED));
    steps := before + [AskToRemove(0)] + [Check(1, true)];
  }

  lemma SaveBegins() returns (steps: seq<Step>)
    ensures After({}, false, steps) == Some(State([Ending({"k"}), Held], {"k"}, {}, {}, 1, 0, STAGED))
  {
    var before := JobEnds();
    var s0 := State([Ending({"k"})], {"k"}, {}, {}, 0, 0, STAGED);
    var s1 := State([Ending({"k"}), Save], {"k"}, {}, {}, 0, 0, STAGED);
    Extend(before, s0, Arrive(Save), s1);
    Extend(before + [Arrive(Save)], s1, BeginSave(1),
           State([Ending({"k"}), Held], {"k"}, {}, {}, 1, 0, STAGED));
    steps := before + [Arrive(Save)] + [BeginSave(1)];
  }

  lemma JobEnds() returns (steps: seq<Step>)
    ensures After({}, false, steps) == Some(State([Ending({"k"})], {"k"}, {}, {}, 0, 0, STAGED))
  {
    var s0;
    steps, s0 := JobRuns({}, false, [], Init({}, false), {"k"}, "k", {});
    assert {} + {"k"} - {} == {"k"};
    assert s0 == State([Running({"k"})], {"k"}, {}, {}, 0, 0, STAGED);
    Extend(steps, s0, TakeNames(0), State([Ending({"k"})], {"k"}, {}, {}, 0, 0, STAGED));
    steps := steps + [TakeNames(0)];
  }

  // --- The gate, over all leases ---

  function HoldersOf(m: map<string, nat>, lease: string): nat { if lease in m then m[lease] else 0 }

  class Gate {
    var saving: map<string, nat>
    var staging: map<string, nat>

    // No lease is held by a save and a staging at once.
    ghost predicate Valid()
      reads this
    {
      && (forall id :: id in saving ==> saving[id] > 0 && id !in staging)
      && (forall id :: id in staging ==> staging[id] > 0)
    }

    constructor ()
      ensures Valid() && saving == map[] && staging == map[]
    {
      saving, staging := map[], map[];
    }

    method BeginSave(lease: string) returns (ok: bool)
      requires Valid()
      modifies this
      ensures Valid() && staging == old(staging)
      ensures ok <==> HoldersOf(old(saving), lease) == 0 && HoldersOf(old(staging), lease) == 0
      ensures saving == if ok then old(saving)[lease := 1] else old(saving)
    {
      if HoldersOf(saving, lease) > 0 || HoldersOf(staging, lease) > 0 { return false; }
      saving := saving[lease := HoldersOf(saving, lease) + 1];
      ok := true;
    }

    method EndSave(lease: string)
      requires Valid()
      modifies this
      ensures Valid() && staging == old(staging)
      ensures forall id :: HoldersOf(saving, id) ==
                if id == lease && HoldersOf(old(saving), id) > 0
                then HoldersOf(old(saving), id) - 1 else HoldersOf(old(saving), id)
    {
      if HoldersOf(saving, lease) <= 1 {
        saving := saving - {lease};
      } else {
        saving := saving[lease := saving[lease] - 1];
      }
    }

    method BeginStaging(lease: string) returns (ok: bool)
      requires Valid()
      modifies this
      ensures Valid() && saving == old(saving)
      ensures ok <==> HoldersOf(old(saving), lease) == 0
      ensures staging == if ok then old(staging)[lease := HoldersOf(old(staging), lease) + 1] else old(staging)
    {
      if HoldersOf(saving, lease) > 0 { return false; }
      staging := staging[lease := HoldersOf(staging, lease) + 1];
      ok := true;
    }

    method EndStaging(lease: string)
      requires Valid()
      modifies this
      ensures Valid() && saving == old(saving)
      ensures forall id :: HoldersOf(staging, id) ==
                if id == lease && HoldersOf(old(staging), id) > 0
                then HoldersOf(old(staging), id) - 1 else HoldersOf(old(staging), id)
    {
      if HoldersOf(staging, lease) <= 1 {
        staging := staging - {lease};
      } else {
        staging := staging[lease := staging[lease] - 1];
      }
    }
  }
}
