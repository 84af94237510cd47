/**
 What an undrain does to one drained lease (api/admin.go, api/service.go), as a
 state machine: any number of undrain and self-heal calls, the owner's own
 resumes, restores and pauses, and a box whose builds and image come and go.

 An attempt reads the image and the row of the lease's build, and starts a
 sandbox from the build's files, while it holds the lease's busy mark. It drops
 the mark when it returns; what becomes of the lease is decided later, on the
 lease as it then is.
 */
module Undrain {
  import opened Options
  import opened Counting
  import DrainGate

  type Error = DrainGate.Error

  // --- The lease and what a failed resume does to it ---

  datatype Phase = Live | Suspended | Lost

  const NO_BUILD := 0

  // `build` is the pause build a resume starts from.
  datatype Lease = Lease(phase: Phase, busy: bool, released: bool, drained: bool, build: nat, resumeFailed: bool)

  predicate Deferred(e: Error) {
    e.refusal || e.notReady || e.busy || e.capacity || e.cancelled || e.draining
  }

  // undrainLossAllowed.
  predicate CanLose(l: Lease) { !l.released && !l.busy && l.phase.Suspended? }

  predicate Loses(l: Lease, e: Error, ended: bool) {
    !e.released && !Deferred(e) && !ended && e.permanent && CanLose(l)
  }

  // Drained is cleared on a lease found already lost, or lost now.
  predicate Undrains(l: Lease, e: Error, ended: bool) {
    !e.released && !Deferred(e) && !ended && !l.released && (l.phase.Lost? || (e.permanent && CanLose(l)))
  }

  // The lease after a failed resume.
  function AfterFailure(l: Lease, e: Error, ended: bool): Lease {
    if Loses(l, e, ended) then l.(phase := Lost, drained := false)
    else if Undrains(l, e, ended) then l.(drained := false)
    else if !e.released && !Deferred(e) && !ended && !e.permanent && CanLose(l) then l.(resumeFailed := true)
    else l
  }

  class Holder {
    var lease: Lease

    // drainResumeOutcome's tail. `now` is the lease as other requests left it
    // while the resume ran; the answer says whether the resume is deferred.
    method Settle(err: Option<Error>, ended: bool, now: Lease) returns (deferred: bool)
      modifies this
      ensures err.None? ==> !deferred && lease == if now.released then now else now.(drained := false)
      ensures err.Some? ==> lease == AfterFailure(now, err.value, ended)
      ensures err.Some? && deferred ==> lease.drained == now.drained && lease.phase == now.phase
      ensures err.Some? ==>
                (deferred <==>
                 !err.value.released && (Deferred(err.value) || ended || (!err.value.permanent && CanLose(now))))
    {
      lease := now;
      if !err.Some? {
        if !lease.released { lease := lease.(drained := false); }
        return false;
      }
      var e := err.value;
      if e.released { return false; }
      if Deferred(e) || ended { return true; }
      if e.permanent {
        if lease.released || lease.phase.Lost? {
          if !lease.released && lease.drained { lease := lease.(drained := false); }
          return false;
        }
        if lease.busy || !lease.phase.Suspended? { return false; }
        lease := lease.(drained := false, phase := Lost);
        return false;
      }
      if lease.phase.Lost? || !CanLose(lease) {
        if !lease.released && lease.phase.Lost? && lease.drained { lease := lease.(drained := false); }
        return false;
      }
      lease := lease.(resumeFailed := true);
      return true;
    }
  }

  // --- The protocol ---

  // What a failed attempt did not find.
  datatype Cause = NoImage | NoBuild | NoFiles | NothingMissing

  // One undrain or self-heal call: before an attempt; inside one, as far as it
  // has come; after one that failed, with the build it tried and whether that
  // build was whole then; after success.
  datatype Pc =
    | Calling
    | Attempting
    | Imaged
    | Built
    | Started
    | Failed(error: Error, cause: Cause, build: nat, whole: bool)
    | Resumed
    | Done

  // A loss: why, and whether the lease could still have been resumed.
  datatype Loss = Loss(cause: Cause, intact: bool)

  // `builds` are the builds with a row, `files` those with files.
  datatype State = State(
    threads: seq<Pc>, lease: Lease, builds: set<nat>, files: set<nat>, image: bool, next: nat, owner: bool,
    losses: seq<Loss>)

  datatype Step =
    // a call
    | Arrive
    | Begin(t: nat)
    | LookImage(t: nat, error: Error)
    | LookBuild(t: nat, error: Error)
    | Create(t: nat, error: Error)
    | EndAttempt(t: nat, err: Option<Error>)
    | Retry(t: nat)
    | Settle(t: nat, ended: bool)
    // the owner, under the busy mark
    | OwnerTakes
    | OwnerResume
    | OwnerRestore(from: nat)
    | OwnerPause(drain: bool)
    | OwnerEnds
    // everything else
    | Release
    | Perish
    | DeleteRow(b: nat)
    | DeleteFiles(b: nat)
    | SetImage(present: bool)

  const NO_FLAGS := DrainGate.ERR_DRAINING.(draining := false)
  const ERR_BUSY := NO_FLAGS.(busy := true)
  const ERR_LOST := NO_FLAGS
  const ERR_MISSING := NO_FLAGS.(permanent := true)

  // The pause build and the image a resume needs are both there.
  predicate Whole(s: State, b: nat) { b in s.builds && b in s.files }

  predicate Intact(s: State) { s.image && Whole(s, s.lease.build) }

  predicate Attempts(p: Pc) { p.Attempting? || p.Imaged? || p.Built? || p.Started? }

  function At(s: State, t: nat): Pc { if t < |s.threads| then s.threads[t] else Done }

  predicate Enabled(s: State, step: Step) {
    match step
    case Arrive => true
    case Begin(t) => At(s, t).Calling?
    case LookImage(t, e) => At(s, t).Attempting? && e.permanent && !e.released
    case LookBuild(t, e) => At(s, t).Imaged? && e.permanent && !e.released
    case Create(t, e) => At(s, t).Built? && e.permanent && !e.released
    case EndAttempt(t, err) =>
      Attempts(At(s, t)) && (err.None? ==> At(s, t).Started? && !s.lease.released) &&
      (err.Some? ==> !err.value.permanent && (err.value.released ==> s.lease.released))
    case Retry(t) => At(s, t).Failed? && !At(s, t).error.permanent && !At(s, t).error.refusal
    case Settle(t, _) => At(s, t).Failed? || At(s, t).Resumed?
    case OwnerTakes => !s.lease.busy && !s.lease.released && !s.lease.phase.Lost?
    case OwnerResume => s.owner && s.lease.phase.Suspended? && Intact(s)
    case OwnerRestore(from) => s.owner && s.image && Whole(s, from)
    case OwnerPause(_) => s.owner && s.lease.phase.Live?
    case OwnerEnds => s.owner
    case Release => true
    case Perish => s.lease.phase.Live? && !s.lease.busy
    case DeleteRow(_) => true
    case DeleteFiles(_) => true
    case SetImage(_) => true
  }

  // An attempt that ended with an error, on the lease as it was then.
  function Failure(s: State, e: Error, cause: Cause): Pc {
    Failed(e, cause, s.lease.build, Whole(s, s.lease.build))
  }

  // Where a step takes a call. resumeLease refuses a busy or lost lease and has
  // nothing to do for a live one.
  function PcAfter(s: State, p: Pc, step: Step): Pc {
    match step
    case Begin(_) =>
      if s.lease.busy then Failure(s, ERR_BUSY, NothingMissing)
      else if s.lease.phase.Lost? then Failure(s, ERR_LOST, NothingMissing)
      else if s.lease.phase.Live? then Resumed
      else Attempting
    case LookImage(_, e) => if s.image then Imaged else Failure(s, e, NoImage)
    case LookBuild(_, e) => if s.lease.build in s.builds then Built else Failure(s, e, NoBuild)
    case Create(_, e) => if s.lease.build in s.files then Started else Failure(s, e, NoFiles)
    case EndAttempt(_, err) => if err.Some? then Failure(s, err.value, NothingMissing) else Resumed
    case Retry(_) => Calling
    case Settle(_, _) => Done
    case _ => p
  }

  // What it does to the lease: an attempt holds the busy mark until it ends.
  function LeaseAfter(s: State, p: Pc, step: Step): Lease {
    var l := s.lease;
    match step
    case Begin(_) => if !l.busy && l.phase.Suspended? then l.(busy := true) else l
    case LookImage(_, _) => if s.image then l else l.(busy := false)
    case LookBuild(_, _) => if l.build in s.builds then l else l.(busy := false)
    case Create(_, _) => if l.build in s.files then l else l.(busy := false)
    case EndAttempt(_, err) =>
      if err.Some? then l.(busy := false) else l.(busy := false, phase := Live, drained := false)
    case Settle(_, ended) =>
      if p.Failed? then AfterFailure(l, p.error, ended) else if l.released then l else l.(drained := false)
    case _ => l
  }

  // The steps of a call.
  function CallNext(s: State, step: Step): State
    requires Enabled(s, step) && CallStep(step)
  {
    var p := s.threads[step.t];
    var n := s.(threads := s.threads[step.t := PcAfter(s, p, step)], lease := LeaseAfter(s, p, step));
    if step.Settle? && p.Failed? && Loses(s.lease, p.error, step.ended)
    then n.(losses := s.losses + [Loss(p.cause, Intact(s))])
    else n
  }

  predicate CallStep(step: Step) {
    || step.Begin? || step.LookImage? || step.LookBuild? || step.Create?
    || step.EndAttempt? || step.Retry? || step.Settle?
  }

  // Everyone else's.
  function OtherNext(s: State, step: Step): State
    requires Enabled(s, step) && !CallStep(step)
  {
    match step
    case Arrive => s.(threads := s.threads + [Calling])
    case OwnerTakes => s.(lease := s.lease.(busy := true), owner := true)
    case OwnerResume => s.(lease := s.lease.(phase := Live, drained := false))
    case OwnerRestore(_) => s.(lease := s.lease.(phase := Live, drained := false, build := NO_BUILD))
    case OwnerPause(drain) =>
      s.(lease := s.lease.(phase := Suspended, drained := s.lease.drained || drain, build := s.next),
         builds := s.builds + {s.next}, files := s.files + {s.next}, next := s.next + 1)
    case OwnerEnds => s.(lease := s.lease.(busy := false), owner := false)
    case Release => s.(lease := s.lease.(released := true))
    case Perish => s.(lease := s.lease.(phase := Lost))
    case DeleteRow(b) => s.(builds := s.builds - {b})
    case DeleteFiles(b) => s.(files := s.files - {b})
    case SetImage(present) => s.(image := present)
  }

  function Next(s: State, step: Step): State
    requires Enabled(s, step)
  {
    if CallStep(step) then CallNext(s, step) else OtherNext(s, step)
  }

  // Any lease nobody is working on, on any box.
  ghost predicate Starts(s: State) {
    && s.threads == [] && !s.owner && !s.lease.busy && s.losses == []
    && NO_BUILD !in s.builds && s.next > 0 && s.lease.build < s.next
    && (forall b :: b in s.builds || b in s.files ==> b < s.next)
  }

  function After(start: State, steps: seq<Step>): Option<State>
    decreases |steps|, 1
  {
    if steps == [] then Some(start) else AfterLast(start, steps)
  }

  function AfterLast(start: State, steps: seq<Step>): Option<State>
    requires steps != []
    decreases |steps|, 0
  {
    var before, step := After(start, steps[..|steps| - 1]), steps[|steps| - 1];
    if before.Some? && Enabled(before.value, step) then Some(Next(before.value, step)) else None
  }

  // --- What every run keeps ---

  // The busy mark has one holder: the owner or one attempt, and an attempt
  // works on a suspended lease.
  ghost predicate BusyOk(s: State) {
    && One(s.owner) + Count(s.threads, Attempts) == One(s.lease.busy)
    && (Count(s.threads, Attempts) > 0 ==> s.lease.phase.Suspended?)
  }

  // Build ids are not reused, and a build found missing stays missing.
  ghost predicate FailureOk(s: State, p: Pc) {
    p.Failed? ==>
      && p.build < s.next && (p.error.permanent <==> !p.cause.NothingMissing?)
      && (p.cause.NoBuild? || p.cause.NoFiles? ==> !p.whole) && (!p.whole ==> !Whole(s, p.build))
  }

  ghost predicate IdsOk(s: State) {
    && NO_BUILD !in s.builds && s.next > 0 && s.lease.build < s.next
    && (forall b :: b in s.builds || b in s.files ==> b < s.next)
    && (forall t :: 0 <= t < |s.threads| ==> FailureOk(s, s.threads[t]))
    && (forall k :: 0 <= k < |s.losses| ==> !s.losses[k].cause.NothingMissing?)
  }

  lemma BusyFollows(s: State, n: State, t: nat, p: Pc)
    requires BusyOk(s) && t < |s.threads| && n.threads == s.threads[t := p] && n.owner == s.owner
    requires One(n.lease.busy) == One(s.lease.busy) - One(Attempts(s.threads[t])) + One(Attempts(p))
    requires n.lease.busy && !n.owner ==> n.lease.phase.Suspended?
    ensures BusyOk(n)
  {
    CountAfter(s.threads, Attempts, t, p);
  }

  lemma CallKeepsBusy(s: State, step: Step)
    requires BusyOk(s) && Enabled(s, step) && CallStep(step)
    ensures BusyOk(Next(s, step))
  {
    var n, t := Next(s, step), step.t;
    if Attempts(s.threads[t]) { CountSeesEach(s.threads, Attempts, t); }
    BusyFollows(s, n, t, n.threads[t]);
  }

  lemma OtherKeepsBusy(s: State, step: Step)
    requires BusyOk(s) && Enabled(s, step) && !CallStep(step)
    ensures BusyOk(Next(s, step))
  {
    if step.Arrive? { CountWith(s.threads, Attempts, Calling); }
  }

  // A box that only gains fresh builds keeps what is known of the failures.
  lemma FailuresStay(s: State, n: State)
    requires IdsOk(s) && n.threads == s.threads && n.losses == s.losses
    requires s.next <= n.next && n.lease.build < n.next && NO_BUILD !in n.builds
    requires forall b :: b in n.builds ==> b in s.builds || s.next <= b < n.next
    requires forall b :: b in n.files ==> b in s.files || s.next <= b < n.next
    ensures IdsOk(n)
  {
    forall t | 0 <= t < |n.threads| ensures FailureOk(n, n.threads[t]) { assert FailureOk(s, s.threads[t]); }
  }

  lemma OtherKeepsIds(s: State, step: Step)
    requires IdsOk(s) && Enabled(s, step) && !CallStep(step)
    ensures IdsOk(Next(s, step))
  {
    if step.Arrive? {
      var n := Next(s, step);
      forall t | 0 <= t < |n.threads| ensures FailureOk(n, n.threads[t]) {
        if t < |s.threads| { assert FailureOk(s, s.threads[t]); }
      }
    } else {
      FailuresStay(s, Next(s, step));
    }
  }

  lemma SettleKeepsIds(s: State, t: nat, ended: bool)
    requires IdsOk(s) && Enabled(s, Settle(t, ended))
    ensures IdsOk(Next(s, Settle(t, ended)))
  {
    var n := Next(s, Settle(t, ended));
    assert FailureOk(s, s.threads[t]);
    forall u | 0 <= u < |n.threads| ensures FailureOk(n, n.threads[u]) { assert FailureOk(s, s.threads[u]); }
  }

  lemma MovesOnly(s: State, step: Step)
    requires Enabled(s, step) && CallStep(step) && !step.Settle?
    requires s.lease.build < s.next && FailureOk(s, s.threads[step.t])
    ensures var n := Next(s, step);
            && n.builds == s.builds && n.files == s.files && n.next == s.next && n.losses == s.losses
            && n.lease.build == s.lease.build && n.threads == s.threads[step.t := n.threads[step.t]]
            && FailureOk(n, n.threads[step.t])
  {
  }

  lemma CallKeepsIds(s: State, step: Step)
    requires IdsOk(s) && Enabled(s, step) && CallStep(step)
    ensures IdsOk(Next(s, step))
  {
    if step.Settle? {
      SettleKeepsIds(s, step.t, step.ended);
    } else {
      var n := Next(s, step);
      assert FailureOk(s, s.threads[step.t]);
      MovesOnly(s, step);
      forall u | 0 <= u < |n.threads| ensures FailureOk(n, n.threads[u]) {
        if u != step.t { assert FailureOk(s, s.threads[u]); }
      }
    }
  }

  lemma InvIsKept(s: State, step: Step)
    requires BusyOk(s) && IdsOk(s) && Enabled(s, step)
    ensures BusyOk(Next(s, step)) && IdsOk(Next(s, step))
  {
    if CallStep(step) {
      CallKeepsBusy(s, step);
      CallKeepsIds(s, step);
    } else {
      OtherKeepsBusy(s, step);
      OtherKeepsIds(s, step);
    }
  }

  lemma {:induction false} InvHolds(start: State, steps: seq<Step>)
    requires Starts(start) && After(start, steps).Some?
    ensures BusyOk(After(start, steps).value) && IdsOk(After(start, steps).value)
  {
    if steps != [] {
      InvHolds(start, steps[..|steps| - 1]);
      InvIsKept(After(start, steps[..|steps| - 1]).value, steps[|steps| - 1]);
    }
  }

  // --- What a loss takes ---

  // In every run a failed resume loses the lease only after an attempt that
  // found its image, its build or the build's files missing.
  lemma LossNeedsAMiss(start: State, steps: seq<Step>, k: nat)
    requires Starts(start) && After(start, steps).Some? && k < |After(start, steps).value.losses|
    ensures !After(start, steps).value.losses[k].cause.NothingMissing?
  {
    InvHolds(start, steps);
  }

  // In every run, if the lease is still on the build that the attempt did not
  // find, a loss takes nothing that could have been resumed.
  lemma UnchangedIsNotIntact(start: State, steps: seq<Step>, t: nat)
    requires Starts(start) && After(start, steps).Some? && t < |After(start, steps).value.threads|
    requires var s := After(start, steps).value;
             s.threads[t].Failed? && (s.threads[t].cause.NoBuild? || s.threads[t].cause.NoFiles?) &&
             s.lease.build == s.threads[t].build
    ensures !Intact(After(start, steps).value)
  {
    InvHolds(start, steps);
    assert FailureOk(After(start, steps).value, After(start, steps).value.threads[t]);
  }

  // Nothing deletes the row or the files of the build the lease names, or the
  // image. (The collector keeps them; they may be gone from the start.)
  predicate Protects(s: State, step: Step) {
    match step
    case DeleteRow(b) => b != s.lease.build
    case DeleteFiles(b) => b != s.lease.build
    case SetImage(present) => present
    case _ => true
  }

  ghost predicate Protected(start: State, steps: seq<Step>) {
    forall i :: 0 <= i < |steps| && After(start, steps[..i]).Some? ==>
      Protects(After(start, steps[..i]).value, steps[i])
  }

  // An attempt past its image look has its image, and so has one that missed
  // its build. A suspended lease is on a whole build if it has been paused again
  // since, or its build was whole then.
  ghost predicate MissOk(s: State, p: Pc) {
    && (p.Imaged? || p.Built? || p.Started? ==> s.image)
    && (p.Failed? && (p.cause.NoBuild? || p.cause.NoFiles?) ==> s.image)
    && (p.Failed? && s.lease.phase.Suspended? && (s.lease.build != p.build || p.whole) ==> Whole(s, s.lease.build))
  }

  ghost predicate MissesOk(s: State) { forall t :: 0 <= t < |s.threads| ==> MissOk(s, s.threads[t]) }

  lemma CallKeepsMisses(s: State, step: Step)
    requires MissesOk(s) && Enabled(s, step) && CallStep(step)
    ensures MissesOk(Next(s, step))
  {
    var n, t := Next(s, step), step.t;
    assert MissOk(s, s.threads[t]);
    assert n.builds == s.builds && n.files == s.files && n.image == s.image && n.lease.build == s.lease.build;
    assert n.lease.phase.Suspended? ==> s.lease.phase.Suspended?;
    forall u | 0 <= u < |n.threads| ensures MissOk(n, n.threads[u]) { assert MissOk(s, s.threads[u]); }
  }

  lemma OtherKeepsMisses(s: State, step: Step)
    requires MissesOk(s) && Enabled(s, step) && !CallStep(step) && Protects(s, step)
    ensures MissesOk(Next(s, step))
  {
    var n := Next(s, step);
    forall u | 0 <= u < |n.threads| ensures MissOk(n, n.threads[u]) {
      if u < |s.threads| { assert MissOk(s, s.threads[u]); }
    }
  }

  lemma {:induction false} MissesHold(start: State, steps: seq<Step>)
    requires Starts(start) && After(start, steps).Some? && Protected(start, steps)
    ensures MissesOk(After(start, steps).value)
  {
    if steps != [] {
      var rest, step := steps[..|steps| - 1], steps[|steps| - 1];
      ProtectedPrefix(start, steps);
      MissesHold(start, rest);
      var s := After(start, rest).value;
      assert Protects(After(start, steps[..|rest|]).value, steps[|rest|]);
      if CallStep(step) { CallKeepsMisses(s, step); } else { OtherKeepsMisses(s, step); }
    }
  }

  lemma ProtectedPrefix(start: State, steps: seq<Step>)
    requires steps != [] && Protected(start, steps)
    ensures Protected(start, steps[..|steps| - 1])
  {
    var rest := steps[..|steps| - 1];
    forall i | 0 <= i < |rest| && After(start, rest[..i]).Some?
      ensures Protects(After(start, rest[..i]).value, rest[i])
    {
      assert rest[..i] == steps[..i];
    }
  }

  // The step loses a lease that could have been resumed.
  ghost predicate LosesIntact(s: State, step: Step) {
    Enabled(s, step) && !s.lease.phase.Lost? && Next(s, step).lease.phase.Lost? && Intact(s)
  }

  // What was missing no longer stands in the way: the lease has been moved to
  // another build since or, when it was the image, that is registered again and
  // the build was whole then.
  predicate Mended(s: State, p: Pc)
    requires p.Failed?
  {
    if p.cause.NoImage? then s.image && (s.lease.build != p.build || p.whole) else s.lease.build != p.build
  }

  // With builds and image protected, the outcome of an attempt that missed one
  // of them loses an intact lease if and only if it has been mended since, the
  // lease is suspended, idle and unreleased, and the error is neither
  // deferrable nor cut off.
  lemma LosesIntactIff(start: State, steps: seq<Step>, s: State, t: nat, ended: bool)
    requires Starts(start) && After(start, steps) == Some(s) && Protected(start, steps)
    requires t < |s.threads| && s.threads[t].Failed? && s.threads[t].error.permanent
    ensures LosesIntact(s, Settle(t, ended)) <==>
            Mended(s, s.threads[t]) && CanLose(s.lease) &&
            !ended && !s.threads[t].error.released && !Deferred(s.threads[t].error)
  {
    InvHolds(start, steps);
    MissesHold(start, steps);
    assert FailureOk(s, s.threads[t]) && MissOk(s, s.threads[t]);
  }

  // No miss outstanding, and a suspended lease can be resumed.
  ghost predicate Sound(s: State) {
    && s.image && (s.lease.phase.Suspended? ==> Whole(s, s.lease.build))
    && (forall t :: 0 <= t < |s.threads| && s.threads[t].Failed? ==> !s.threads[t].error.permanent)
  }

  lemma SoundIsKept(s: State, step: Step)
    requires Sound(s) && BusyOk(s) && Enabled(s, step) && Protects(s, step)
    ensures Sound(Next(s, step)) && Next(s, step).losses == s.losses
  {
    var n := Next(s, step);
    if CallStep(step) && Attempts(s.threads[step.t]) { CountSeesEach(s.threads, Attempts, step.t); }
    forall u | 0 <= u < |n.threads| && n.threads[u].Failed? ensures !n.threads[u].error.permanent {
      if u < |s.threads| && s.threads[u].Failed? { assert !s.threads[u].error.permanent; }
    }
  }

  // A continuation in which builds and image are protected.
  ghost predicate ProtectedOn(start: State, steps: seq<Step>, more: seq<Step>) {
    forall i :: 0 <= i < |more| && After(start, steps + more[..i]).Some? ==>
      Protects(After(start, steps + more[..i]).value, more[i])
  }

  lemma ProtectedOnPrefix(start: State, steps: seq<Step>, more: seq<Step>)
    requires more != [] && ProtectedOn(start, steps, more)
    ensures ProtectedOn(start, steps, more[..|more| - 1])
  {
    var rest := more[..|more| - 1];
    forall i | 0 <= i < |rest| && After(start, steps + rest[..i]).Some?
      ensures Protects(After(start, steps + rest[..i]).value, rest[i])
    {
      assert rest[..i] == more[..i];
    }
  }

  // From any state with no miss outstanding and the lease intact, no number of
  // attempts, failures and owner's operations makes an undrain lose it.
  lemma {:induction false} IntactIsNeverLost(start: State, steps: seq<Step>, s: State, more: seq<Step>)
    requires Starts(start) && After(start, steps) == Some(s) && Sound(s)
    requires After(start, steps + more).Some? && ProtectedOn(start, steps, more)
    ensures Sound(After(start, steps + more).value) && After(start, steps + more).value.losses == s.losses
  {
    if more == [] {
      assert steps + more == steps;
    } else {
      var rest := more[..|more| - 1];
      assert (steps + more)[..|steps + more| - 1] == steps + rest && more[..|rest|] == rest;
      ProtectedOnPrefix(start, steps, more);
      IntactIsNeverLost(start, steps, s, rest);
      InvHolds(start, steps + rest);
      assert Protects(After(start, steps + more[..|rest|]).value, more[|rest|]);
      SoundIsKept(After(start, steps + rest).value, more[|more| - 1]);
    }
  }

  // A call that succeeded and whose outcome is still to be applied.
  ghost predicate HasResumed(s: State) { exists t :: 0 <= t < |s.threads| && s.threads[t].Resumed? }

  // The lease stays suspended throughout a continuation.
  ghost predicate StaysSuspended(start: State, steps: seq<Step>, more: seq<Step>) {
    forall i :: 0 <= i <= |more| ==>
      After(start, steps + more[..i]).Some? && After(start, steps + more[..i]).value.lease.phase.Suspended?
  }

  // It does, and has lost its Drained mark at the end.
  ghost predicate Unmarks(start: State, steps: seq<Step>, more: seq<Step>) {
    && StaysSuspended(start, steps, more)
    && After(start, steps + more).Some? && !After(start, steps + more).value.lease.drained
  }

  lemma CallKeepsMark(s: State, p: Pc, step: Step)
    requires CallStep(step) && !p.Resumed? && (step.Settle? ==> p.Failed?)
    requires s.lease.phase.Suspended? && s.lease.drained && LeaseAfter(s, p, step).phase.Suspended?
    ensures LeaseAfter(s, p, step).drained && !PcAfter(s, p, step).Resumed?
  {
  }

  lemma OtherKeepsMark(s: State, step: Step)
    requires Enabled(s, step) && !CallStep(step) && s.lease.phase.Suspended? && s.lease.drained
    requires Next(s, step).lease.phase.Suspended?
    ensures var n := Next(s, step); n.lease.drained && (n.threads == s.threads || n.threads == s.threads + [Calling])
  {
  }

  lemma MarkStays(s: State, step: Step)
    requires Enabled(s, step) && s.lease.phase.Suspended? && s.lease.drained && !HasResumed(s)
    requires Next(s, step).lease.phase.Suspended?
    ensures Next(s, step).lease.drained && !HasResumed(Next(s, step))
  {
    if CallStep(step) { CallKeepsMark(s, s.threads[step.t], step); } else { OtherKeepsMark(s, step); }
  }

  lemma StaysSuspendedPrefix(start: State, steps: seq<Step>, more: seq<Step>)
    requires more != [] && StaysSuspended(start, steps, more)
    ensures StaysSuspended(start, steps, more[..|more| - 1])
    ensures After(start, steps + more).Some? && After(start, steps + more).value.lease.phase.Suspended?
  {
    var rest := more[..|more| - 1];
    assert more[..|more|] == more;
    forall i | 0 <= i <= |rest|
      ensures After(start, steps + rest[..i]).Some? && After(start, steps + rest[..i]).value.lease.phase.Suspended?
    {
      assert rest[..i] == more[..i];
    }
  }

  lemma LastOf(start: State, steps: seq<Step>, more: seq<Step>)
    requires more != [] && After(start, steps + more).Some?
    ensures var before := After(start, steps + more[..|more| - 1]);
            && before.Some? && Enabled(before.value, more[|more| - 1])
            && After(start, steps + more) == Some(Next(before.value, more[|more| - 1]))
  {
    assert (steps + more)[..|steps + more| - 1] == steps + more[..|more| - 1];
  }

  lemma {:induction false} NoneResumesSuspended(start: State, steps: seq<Step>, s: State, more: seq<Step>)
    requires After(start, steps) == Some(s) && s.lease.drained && !HasResumed(s)
    requires StaysSuspended(start, steps, more)
    ensures var r := After(start, steps + more);
            r.Some? && r.value.lease.phase.Suspended? && r.value.lease.drained && !HasResumed(r.value)
  {
    if more == [] {
      assert steps + more == steps == steps + more[..0];
    } else {
      var rest := more[..|more| - 1];
      StaysSuspendedPrefix(start, steps, more);
      NoneResumesSuspended(start, steps, s, rest);
      LastOf(start, steps, more);
      MarkStays(After(start, steps + rest).value, more[|more| - 1]);
    }
  }

  // From a reachable state with a drained lease, suspended and unreleased, some
  // run clears the mark while the lease stays suspended if and only if some
  // call has already succeeded there: whatever starts later cannot.
  lemma DrainedMarkDropsIff(start: State, steps: seq<Step>, s: State)
    requires After(start, steps) == Some(s)
    requires s.lease.phase.Suspended? && s.lease.drained && !s.lease.released
    ensures (exists more :: Unmarks(start, steps, more)) <==> HasResumed(s)
  {
    if HasResumed(s) {
      var t: nat :| t < |s.threads| && s.threads[t].Resumed?;
      SuccessUnmarks(start, steps, s, t);
    } else {
      forall more ensures !Unmarks(start, steps, more) {
        if Unmarks(start, steps, more) { NoneResumesSuspended(start, steps, s, more); }
      }
    }
  }

  lemma SuccessUnmarks(start: State, steps: seq<Step>, s: State, t: nat)
    requires After(start, steps) == Some(s) && t < |s.threads| && s.threads[t].Resumed?
    requires s.lease.phase.Suspended? && !s.lease.released
    ensures Unmarks(start, steps, [Settle(t, false)])
  {
    var more := [Settle(t, false)];
    Extend(start, steps, s, Settle(t, false), Next(s, Settle(t, false)));
    assert steps + more[..0] == steps && more[..1] == more;
  }

  // --- What moves the lease ---

  // A lease comes back to life by an attempt that found everything and ended
  // without an error, or by its owner's resume or restore.
  lemma LivesIff(s: State, step: Step)
    requires Enabled(s, step) && !s.lease.phase.Live?
    ensures Next(s, step).lease.phase.Live? <==>
            || step.OwnerResume? || step.OwnerRestore?
            || (step.EndAttempt? && step.err.None? && s.threads[step.t].Started? && !s.lease.released)
  {
    if CallStep(step) { assert Next(s, step).lease == LeaseAfter(s, s.threads[step.t], step); }
  }

  // It is then no longer marked drained, and only a drain's pause marks it.
  lemma MarkedIff(s: State, step: Step)
    requires Enabled(s, step)
    ensures step.OwnerResume? || step.OwnerRestore? || (step.EndAttempt? && step.err.None?) ==>
              !Next(s, step).lease.drained
    ensures !s.lease.drained ==> (Next(s, step).lease.drained <==> step == OwnerPause(true))
  {
    if CallStep(step) { assert Next(s, step).lease == LeaseAfter(s, s.threads[step.t], step); }
  }

  // It is lost when its sandbox dies, or when a not-found is applied to it
  // while it is suspended, unreleased and nobody is working on it.
  lemma LostIff(s: State, step: Step)
    requires Enabled(s, step) && !s.lease.phase.Lost?
    ensures Next(s, step).lease.phase.Lost? <==>
            || step.Perish?
            || (step.Settle? && !step.ended && s.threads[step.t].Failed? &&
                s.lease.phase.Suspended? && !s.lease.busy && !s.lease.released && FinalMiss(s.threads[step.t].error))
  {
    if CallStep(step) { assert Next(s, step).lease == LeaseAfter(s, s.threads[step.t], step); }
  }

  // A not-found and nothing else.
  predicate FinalMiss(e: Error) {
    && e.permanent && !e.released && !e.refusal && !e.notReady && !e.busy
    && !e.capacity && !e.cancelled && !e.draining
  }

  // A released lease is left as it is.
  lemma ReleasedIsLeft(s: State, step: Step)
    requires Enabled(s, step) && step.Settle? && s.lease.released
    ensures Next(s, step).lease == s.lease
  {
  }

  lemma Extend(start: State, steps: seq<Step>, s: State, step: Step, n: State)
    requires After(start, steps) == Some(s) && Enabled(s, step) && n == Next(s, step)
    ensures After(start, steps + [step]) == Some(n)
  {
    assert (steps + [step])[..|steps|] == steps;
  }

  // --- Whole calls ---

  // A new call comes in and begins an attempt on a suspended lease nobody is
  // working on.
  lemma AttemptBegins(start: State, before: seq<Step>, s: State) returns (steps: seq<Step>)
    requires After(start, before) == Some(s) && s.lease.phase.Suspended? && !s.lease.busy
    ensures After(start, steps) ==
            Some(s.(threads := s.threads + [Attempting], lease := s.lease.(busy := true)))
  {
    var s1 := s.(threads := s.threads + [Calling]);
    Extend(start, before, s, Arrive, s1);
    assert s1.threads[|s.threads| := Attempting] == s.threads + [Attempting];
    Extend(start, before + [Arrive], s1, Begin(|s.threads|),
           s.(threads := s.threads + [Attempting], lease := s.lease.(busy := true)));
    steps := before + [Arrive] + [Begin(|s.threads|)];
  }

  // When the row or the files of its pause build go, the call finds it out and
  // the lease is lost, once, for the reason found.
  lemma BrokenIsLost(start: State, before: seq<Step>, s: State, row: bool) returns (steps: seq<Step>, n: State)
    requires After(start, before) == Some(s) && s.lease.phase.Suspended? && !s.lease.busy && !s.lease.released
    requires Intact(s)
    ensures After(start, steps) == Some(n) && n.lease == s.lease.(phase := Lost, drained := false)
    ensures n.losses == s.losses + [Loss(if row then NoBuild else NoFiles, false)]
  {
    var t, b := |s.threads|, s.lease.build;
    var s1 := if row then s.(builds := s.builds - {b}) else s.(files := s.files - {b});
    var gone := if row then DeleteRow(b) else DeleteFiles(b);
    Extend(start, before, s, gone, s1);
    steps := AttemptBegins(start, before + [gone], s1);
    var busy := s.lease.(busy := true);
    var s2 := s1.(threads := s.threads + [Attempting], lease := busy);
    var s3 := s1.(threads := s.threads + [Imaged], lease := busy);
    Extend(start, steps, s2, LookImage(t, ERR_MISSING), s3);
    steps := steps + [LookImage(t, ERR_MISSING)];
    steps, n := MissIsApplied(start, steps, s3, row);
  }

  lemma MissIsApplied(start: State, before: seq<Step>, s: State, row: bool) returns (steps: seq<Step>, n: State)
    requires After(start, before) == Some(s) && s.threads != [] && s.threads[|s.threads| - 1].Imaged?
    requires s.lease.phase.Suspended? && s.lease.busy && !s.lease.released
    requires s.lease.build in s.builds <==> !row
    requires !row ==> s.lease.build !in s.files
    ensures After(start, steps) == Some(n) && n.lease == s.lease.(phase := Lost, busy := false, drained := false)
    ensures n.losses == s.losses + [Loss(if row then NoBuild else NoFiles, false)]
  {
    var t := |s.threads| - 1;
    var miss := Failed(ERR_MISSING, if row then NoBuild else NoFiles, s.lease.build, false);
    var s2 := s.(threads := s.threads[t := miss], lease := s.lease.(busy := false));
    if row {
      Extend(start, before, s, LookBuild(t, ERR_MISSING), s2);
      steps := before + [LookBuild(t, ERR_MISSING)];
    } else {
      var s1 := s.(threads := s.threads[t := Built]);
      Extend(start, before, s, LookBuild(t, ERR_MISSING), s1);
      Extend(start, before + [LookBuild(t, ERR_MISSING)], s1, Create(t, ERR_MISSING), s2);
      steps := before + [LookBuild(t, ERR_MISSING)] + [Create(t, ERR_MISSING)];
    }
    n := s2.(threads := s.threads[t := Done], lease := s.lease.(phase := Lost, busy := false, drained := false),
             losses := s.losses + [Loss(miss.cause, false)]);
    Extend(start, steps, s2, Settle(t, false), n);
    steps := steps + [Settle(t, false)];
  }

  // An attempt that fails for a passing reason leaves everything as it was, and
  // the call tries again.
  lemma FailureIsRetried(start: State, before: seq<Step>, s: State, e: Error) returns (steps: seq<Step>)
    requires After(start, before) == Some(s) && s.lease.phase.Suspended? && !s.lease.busy
    requires !e.permanent && !e.refusal && !e.released
    ensures After(start, steps) == Some(s.(threads := s.threads + [Calling]))
  {
    var t := |s.threads|;
    steps := AttemptBegins(start, before, s);
    var s1 := s.(threads := s.threads + [Attempting], lease := s.lease.(busy := true));
    var s2 := s.(threads := s.threads + [Failure(s, e, NothingMissing)]);
    Extend(start, steps, s1, EndAttempt(t, Some(e)), s2);
    Extend(start, steps + [EndAttempt(t, Some(e))], s2, Retry(t), s.(threads := s.threads + [Calling]));
    steps := steps + [EndAttempt(t, Some(e))] + [Retry(t)];
  }

  // A lease released during the attempt stays as the release left it.
  lemma ReleaseWins(start: State, before: seq<Step>, s: State, e: Error) returns (steps: seq<Step>, n: State)
    requires After(start, before) == Some(s) && s.lease.phase.Suspended? && !s.lease.busy
    requires !e.permanent
    ensures After(start, steps) == Some(n) && n.lease == s.lease.(released := true) && n.losses == s.losses
  {
    var t := |s.threads|;
    steps := AttemptBegins(start, before, s);
    var s1 := s.(threads := s.threads + [Attempting], lease := s.lease.(busy := true));
    var s2 := s1.(lease := s.lease.(busy := true, released := true));
    Extend(start, steps, s1, Release, s2);
    var s3 := Next(s2, EndAttempt(t, Some(e)));
    Extend(start, steps + [Release], s2, EndAttempt(t, Some(e)), s3);
    n := Next(s3, Settle(t, false));
    Extend(start, steps + [Release] + [EndAttempt(t, Some(e))], s3, Settle(t, false), n);
    steps := steps + [Release] + [EndAttempt(t, Some(e))] + [Settle(t, false)];
  }

  // When the sandbox of a live lease dies, the next call fails and loses
  // nothing more.
  lemma DeadIsNotResumed(start: State, before: seq<Step>, s: State) returns (steps: seq<Step>, n: State)
    requires After(start, before) == Some(s) && s.lease.phase.Live? && !s.lease.busy
    ensures After(start, steps) == Some(n) && n.lease == s.lease.(phase := Lost) && n.losses == s.losses
    ensures |n.threads| == |s.threads| + 1 && n.threads[|s.threads|].Failed?
    ensures n.threads[|s.threads|].error == ERR_LOST
  {
    var s1 := s.(lease := s.lease.(phase := Lost));
    Extend(start, before, s, Perish, s1);
    var s2 := s1.(threads := s.threads + [Calling]);
    Extend(start, before + [Perish], s1, Arrive, s2);
    n := Next(s2, Begin(|s.threads|));
    Extend(start, before + [Perish] + [Arrive], s2, Begin(|s.threads|), n);
    steps := before + [Perish] + [Arrive] + [Begin(|s.threads|)];
  }

  // --- The runs that fall short ---

  // A drained lease whose pause build 1 is gone; build 2 is a checkpoint.
  const DRAINED := Lease(Suspended, false, false, true, 1, false)
  const BROKEN := State([], DRAINED, {2}, {2}, true, 3, false, [])

  // One call begins its first attempt.
  function Begun(start: State): State { start.(threads := [Attempting], lease := DRAINED.(busy := true)) }

  lemma CallBegins(start: State) returns (steps: seq<Step>)
    requires start.threads == [] && start.lease == DRAINED
    ensures After(start, steps) == Some(Begun(start))
  {
    var s1 := start.(threads := [Calling]);
    Extend(start, [], start, Arrive, s1);
    BeginsOne(start);
    Extend(start, [] + [Arrive], s1, Begin(0), Begun(start));
    steps := [] + [Arrive] + [Begin(0)];
  }

  lemma BeginsOne(start: State)
    requires start.lease == DRAINED
    ensures var s := start.(threads := [Calling]); Enabled(s, Begin(0)) && Next(s, Begin(0)) == Begun(start)
  {
    assert [Calling][0 := Attempting] == [Attempting];
  }

  lemma BuildIsMissed() returns (steps: seq<Step>)
    ensures After(BROKEN, steps) == Some(BROKEN.(threads := [Failed(ERR_MISSING, NoBuild, 1, false)]))
  {
    steps := CallBegins(BROKEN);
    var s3 := Begun(BROKEN).(threads := [Imaged]);
    Extend(BROKEN, steps, Begun(BROKEN), LookImage(0, ERR_MISSING), s3);
    steps := steps + [LookImage(0, ERR_MISSING)];
    Extend(BROKEN, steps, s3, LookBuild(0, ERR_MISSING), BROKEN.(threads := [Failed(ERR_MISSING, NoBuild, 1, false)]));
    steps := steps + [LookBuild(0, ERR_MISSING)];
  }

  // The owner restores the lease to its checkpoint and pauses it again.
  lemma OwnerMoves(before: seq<Step>, s: State) returns (steps: seq<Step>)
    requires After(BROKEN, before) == Some(s) && s == BROKEN.(threads := [Failed(ERR_MISSING, NoBuild, 1, false)])
    ensures After(BROKEN, steps) ==
            Some(s.(lease := DRAINED.(drained := false, build := 3), builds := {2, 3}, files := {2, 3}, next := 4))
  {
    var s1 := s.(lease := DRAINED.(busy := true), owner := true);
    Extend(BROKEN, before, s, OwnerTakes, s1);
    var s2 := s1.(lease := Lease(Live, true, false, false, NO_BUILD, false));
    Extend(BROKEN, before + [OwnerTakes], s1, OwnerRestore(2), s2);
    var s3 := s2.(lease := Lease(Suspended, true, false, false, 3, false),
                  builds := {2, 3}, files := {2, 3}, next := 4);
    assert {2} + {3} == {2, 3};
    Extend(BROKEN, before + [OwnerTakes] + [OwnerRestore(2)], s2, OwnerPause(false), s3);
    steps := before + [OwnerTakes] + [OwnerRestore(2)] + [OwnerPause(false)];
    Extend(BROKEN, steps, s3, OwnerEnds,
           s.(lease := DRAINED.(drained := false, build := 3), builds := {2, 3}, files := {2, 3}, next := 4));
    steps := steps + [OwnerEnds];
  }

  // The old not-found is applied to the lease on its new, existing build.
  lemma RestoredLeaseIsLost() returns (steps: seq<Step>, s: State)
    ensures Starts(BROKEN) && After(BROKEN, steps) == Some(s) && LosesIntact(s, Settle(0, false))
  {
    var before := BuildIsMissed();
    var s0 := BROKEN.(threads := [Failed(ERR_MISSING, NoBuild, 1, false)]);
    steps := OwnerMoves(before, s0);
    s := s0.(lease := DRAINED.(drained := false, build := 3), builds := {2, 3}, files := {2, 3}, next := 4);
  }

  // A drained lease whose image is not registered, though its build is whole.
  const UNREGISTERED := State([], DRAINED, {1}, {1}, false, 2, false, [])

  lemma ImageIsMissed() returns (steps: seq<Step>)
    ensures After(UNREGISTERED, steps) == Some(UNREGISTERED.(threads := [Failed(ERR_MISSING, NoImage, 1, true)]))
  {
    steps := CallBegins(UNREGISTERED);
    Extend(UNREGISTERED, steps, Begun(UNREGISTERED), LookImage(0, ERR_MISSING),
           UNREGISTERED.(threads := [Failed(ERR_MISSING, NoImage, 1, true)]));
    steps := steps + [LookImage(0, ERR_MISSING)];
  }

  // The image is registered again before the not-found is applied.
  lemma ReturnedImageIsLost() returns (steps: seq<Step>, s: State)
    ensures Starts(UNREGISTERED) && After(UNREGISTERED, steps) == Some(s) && LosesIntact(s, Settle(0, false))
  {
    steps := ImageIsMissed();
    var s0 := UNREGISTERED.(threads := [Failed(ERR_MISSING, NoImage, 1, true)]);
    s := s0.(image := true);
    Extend(UNREGISTERED, steps, s0, SetImage(true), s);
    steps := steps + [SetImage(true)];
  }

  // A drained lease that can be resumed.
  const WHOLE := State([], DRAINED, {1}, {1}, true, 2, false, [])

  lemma CallLooks() returns (steps: seq<Step>)
    ensures After(WHOLE, steps) == Some(Begun(WHOLE).(threads := [Built]))
  {
    steps := CallBegins(WHOLE);
    var s1 := Begun(WHOLE).(threads := [Imaged]);
    Extend(WHOLE, steps, Begun(WHOLE), LookImage(0, ERR_MISSING), s1);
    Extend(WHOLE, steps + [LookImage(0, ERR_MISSING)], s1, LookBuild(0, ERR_MISSING),
           Begun(WHOLE).(threads := [Built]));
    steps := steps + [LookImage(0, ERR_MISSING)] + [LookBuild(0, ERR_MISSING)];
  }

  lemma CallResumes() returns (steps: seq<Step>)
    ensures After(WHOLE, steps) ==
            Some(WHOLE.(threads := [Resumed], lease := Lease(Live, false, false, false, 1, false)))
  {
    steps := CallLooks();
    var s1 := Begun(WHOLE).(threads := [Started]);
    Extend(WHOLE, steps, Begun(WHOLE).(threads := [Built]), Create(0, ERR_MISSING), s1);
    Extend(WHOLE, steps + [Create(0, ERR_MISSING)], s1, EndAttempt(0, None),
           WHOLE.(threads := [Resumed], lease := Lease(Live, false, false, false, 1, false)));
    steps := steps + [Create(0, ERR_MISSING)] + [EndAttempt(0, None)];
  }

  // A new drain pauses it before the success is applied, which then clears the
  // mark the drain has just set: the lease stays suspended and unmarked.
  lemma LateSuccessUnmarks() returns (steps: seq<Step>, s: State)
    ensures Starts(WHOLE) && After(WHOLE, steps) == Some(s) && Enabled(s, Settle(0, false))
    ensures s.lease.phase.Suspended? && s.lease.drained && !s.lease.released
    ensures !Next(s, Settle(0, false)).lease.drained
  {
    var before := CallResumes();
    var s0 := WHOLE.(threads := [Resumed], lease := Lease(Live, false, false, false, 1, false));
    var s1 := s0.(lease := s0.lease.(busy := true), owner := true);
    Extend(WHOLE, before, s0, OwnerTakes, s1);
    var s2 := s1.(lease := Lease(Suspended, true, false, true, 2, false), builds := {1, 2}, files := {1, 2}, next := 3);
    assert {1} + {2} == {1, 2};
    Extend(WHOLE, before + [OwnerTakes], s1, OwnerPause(true), s2);
    s := s2.(lease := Lease(Suspended, false, false, true, 2, false), owner := false);
    Extend(WHOLE, before + [OwnerTakes] + [OwnerPause(true)], s2, OwnerEnds, s);
    steps := before + [OwnerTakes] + [OwnerPause(true)] + [OwnerEnds];
  }
}
