/**
 Drain, undrain and self-heal (api/admin.go, api/rootfs_probe.go): the gate
 between a drain and the recoveries it must not overlap, and the retry loop of
 one drained lease. What a failed resume does to the lease is module Undrain.
 */
module DrainGate {
  import opened Options
  import opened Counting

  // --- The gate: a drain against heals and probe recoveries ---

  datatype Pc =
    // a drain (or, with `start` false, the clearing of one): before the write
    // lock, and under it
    | Drainer(start: bool)
    | Writing(start: bool)
    // a heal's resume or a probe's recovery: outside the gate, holding the
    // read lock, and inside its gated section
    | Waiting
    | Reading
    | Gated
    | Done

  datatype State = State(threads: seq<Pc>, draining: bool, writer: bool, readers: int)

  datatype Step =
    | Arrive(p: Pc)
    | Lock(t: nat)
    | Write(t: nat, fails: bool)
    | RLock(t: nat)
    | CheckDraining(t: nat)
    | Attempted(t: nat)
    | BackOff(t: nat)
    | RUnlock(t: nat)

  function Init(draining: bool): State { State([], draining, false, 0) }

  function At(s: State, t: nat): Pc { if t < |s.threads| then s.threads[t] else Done }

  predicate HoldsRead(p: Pc) { p.Reading? || p.Gated? }

  predicate HoldsWrite(p: Pc) { p.Writing? }

  predicate Enabled(s: State, step: Step) {
    match step
    case Arrive(p) => p.Drainer? || p.Waiting?
    case Lock(t) => At(s, t).Drainer? && !s.writer && s.readers == 0
    case Write(t, _) => At(s, t).Writing?
    case RLock(t) => At(s, t).Waiting? && !s.writer
    case CheckDraining(t) => At(s, t).Reading?
    case Attempted(t) => At(s, t).Gated?
    case BackOff(t) => At(s, t).Reading?
    case RUnlock(t) => At(s, t).Reading?
  }

  function Next(s: State, step: Step): State
    requires Enabled(s, step)
  {
    match step
    case Arrive(p) => s.(threads := s.threads + [p])
    case Lock(t) => s.(threads := s.threads[t := Writing(s.threads[t].start)], writer := true)
    case Write(t, fails) =>
      State(s.threads[t := Done], if fails then s.draining else s.threads[t].start, false, s.readers)
    case RLock(t) => s.(threads := s.threads[t := Reading], readers := s.readers + 1)
    case CheckDraining(t) =>
      if s.draining then s.(threads := s.threads[t := Done], readers := s.readers - 1)
      else s.(threads := s.threads[t := Gated])
    case Attempted(t) => s.(threads := s.threads[t := Reading])
    case BackOff(t) => s.(threads := s.threads[t := Waiting], readers := s.readers - 1)
    case RUnlock(t) => s.(threads := s.threads[t := Done], readers := s.readers - 1)
  }

  function After(draining: bool, steps: seq<Step>): Option<State>
    decreases |steps|, 1
  {
    if steps == [] then Some(Init(draining)) else AfterLast(draining, steps)
  }

  function AfterLast(draining: bool, steps: seq<Step>): Option<State>
    requires steps != []
    decreases |steps|, 0
  {
    var before, step := After(draining, steps[..|steps| - 1]), steps[|steps| - 1];
    if before.Some? && Enabled(before.value, step) then Some(Next(before.value, step)) else None
  }

  ghost predicate Inv(s: State) {
    && s.readers == Count(s.threads, HoldsRead)
    && One(s.writer) == Count(s.threads, HoldsWrite)
    && (s.writer ==> s.readers == 0)
    && (s.draining ==> forall t :: 0 <= t < |s.threads| ==> !s.threads[t].Gated?)
  }

  // While the write lock is held nobody is in a gated section.
  lemma NobodyGated(s: State, t: nat, u: nat)
    requires Inv(s) && t < |s.threads| && u < |s.threads| && HoldsWrite(s.threads[t])
    ensures !HoldsRead(s.threads[u])
  {
    CountSeesEach(s.threads, HoldsWrite, t);
    if HoldsRead(s.threads[u]) { CountSeesEach(s.threads, HoldsRead, u); }
  }

  lemma WriteKeeps(s: State, t: nat, fails: bool)
    requires Inv(s) && Enabled(s, Write(t, fails))
    ensures Inv(Next(s, Write(t, fails)))
  {
    var n := Next(s, Write(t, fails));
    CountAfter(s.threads, HoldsRead, t, Done);
    CountAfter(s.threads, HoldsWrite, t, Done);
    CountSeesEach(s.threads, HoldsWrite, t);
    forall u | 0 <= u < |n.threads| ensures !n.threads[u].Gated? { NobodyGated(s, t, u); }
  }

  lemma LockKeeps(s: State, t: nat)
    requires Inv(s) && Enabled(s, Lock(t))
    ensures Inv(Next(s, Lock(t)))
  {
    CountAfter(s.threads, HoldsRead, t, Writing(s.threads[t].start));
    CountAfter(s.threads, HoldsWrite, t, Writing(s.threads[t].start));
  }

  // A reader enters, moves or leaves.
  lemma ReaderKeeps(s: State, n: State, t: nat, p: Pc)
    requires Inv(s) && t < |s.threads| && !HoldsWrite(s.threads[t]) && !HoldsWrite(p)
    requires n == s.(threads := s.threads[t := p], readers := n.readers)
    requires n.readers == s.readers - One(HoldsRead(s.threads[t])) + One(HoldsRead(p))
    requires p.Gated? ==> !s.draining
    requires HoldsRead(p) && !HoldsRead(s.threads[t]) ==> !s.writer
    ensures Inv(n)
  {
    CountAfter(s.threads, HoldsRead, t, p);
    CountAfter(s.threads, HoldsWrite, t, p);
    if HoldsRead(s.threads[t]) { CountSeesEach(s.threads, HoldsRead, t); }
  }

  lemma InvIsKept(s: State, step: Step)
    requires Inv(s) && Enabled(s, step)
    ensures Inv(Next(s, step))
  {
    match step
    case Arrive(p) =>
      CountWith(s.threads, HoldsRead, p);
      CountWith(s.threads, HoldsWrite, p);
    case Lock(t) => LockKeeps(s, t);
    case Write(t, fails) => WriteKeeps(s, t, fails);
    case RLock(t) => ReaderKeeps(s, Next(s, step), t, Reading);
    case CheckDraining(t) => ReaderKeeps(s, Next(s, step), t, if s.draining then Done else Gated);
    case Attempted(t) => ReaderKeeps(s, Next(s, step), t, Reading);
    case BackOff(t) => ReaderKeeps(s, Next(s, step), t, Waiting);
    case RUnlock(t) => ReaderKeeps(s, Next(s, step), t, Done);
  }

  lemma {:induction false} InvHolds(draining: bool, steps: seq<Step>)
    requires After(draining, steps).Some?
    ensures Inv(After(draining, steps).value)
  {
    if steps != [] {
      InvHolds(draining, steps[..|steps| - 1]);
      InvIsKept(After(draining, steps[..|steps| - 1]).value, steps[|steps| - 1]);
    }
  }

  // In every run no resume attempt or probe recovery is inside its gated
  // section while the node drains: none is there when draining is set, and
  // none begins while it holds.
  lemma DrainExcludesRecovery(draining: bool, steps: seq<Step>, t: nat)
    requires After(draining, steps).Some? && t < |After(draining, steps).value.threads|
    ensures var s := After(draining, steps).value; s.draining ==> !s.threads[t].Gated?
  {
    InvHolds(draining, steps);
  }

  lemma Extend(draining: bool, steps: seq<Step>, s: State, step: Step, n: State)
    requires After(draining, steps) == Some(s) && Enabled(s, step) && n == Next(s, step)
    ensures After(draining, steps + [step]) == Some(n)
  {
    assert (steps + [step])[..|steps|] == steps;
  }

  // A recovery inside its gated section keeps a drain from its lock; once it has
  // backed off the drain gets in and draining is set.
  lemma DrainWaitsItsTurn() returns (steps: seq<Step>, mid: State)
    ensures After(false, steps) == Some(mid) && mid.threads == [Gated, Drainer(true)] && !mid.draining
    ensures !Enabled(mid, Lock(1))
    ensures var more := steps + [Attempted(0)] + [BackOff(0)] + [Lock(1)] + [Write(1, false)];
            After(false, more) == Some(State([Waiting, Done], true, false, 0))
  {
    steps := RecoveryGetsIn();
    mid := State([Gated, Drainer(true)], false, false, 1);
    Extend(false, steps, State([Gated], false, false, 1), Arrive(Drainer(true)), mid);
    steps := steps + [Arrive(Drainer(true))];
    DrainTakesHold(steps, mid);
  }

  lemma RecoveryGetsIn() returns (steps: seq<Step>)
    ensures After(false, steps) == Some(State([Gated], false, false, 1))
  {
    var w, r := State([Waiting], false, false, 0), State([Reading], false, false, 1);
    Extend(false, [], Init(false), Arrive(Waiting), w);
    Extend(false, [] + [Arrive(Waiting)], w, RLock(0), r);
    steps := [] + [Arrive(Waiting)] + [RLock(0)];
    Extend(false, steps, r, CheckDraining(0), State([Gated], false, false, 1));
    steps := steps + [CheckDraining(0)];
  }

  lemma DrainTakesHold(steps: seq<Step>, mid: State)
    requires mid == State([Gated, Drainer(true)], false, false, 1) && After(false, steps) == Some(mid)
    ensures var more := steps + [Attempted(0)] + [BackOff(0)] + [Lock(1)] + [Write(1, false)];
            After(false, more) == Some(State([Waiting, Done], true, false, 0))
  {
    var s1 := State([Reading, Drainer(true)], false, false, 1);
    Extend(false, steps, mid, Attempted(0), s1);
    var s2 := State([Waiting, Drainer(true)], false, false, 0);
    Extend(false, steps + [Attempted(0)], s1, BackOff(0), s2);
    var s3 := State([Waiting, Writing(true)], false, true, 0);
    Extend(false, steps + [Attempted(0)] + [BackOff(0)], s2, Lock(1), s3);
    Extend(false, steps + [Attempted(0)] + [BackOff(0)] + [Lock(1)], s3, Write(1, false),
           State([Waiting, Done], true, false, 0));
  }

  // From then on a recovery is turned away at its test, until the drain is
  // cleared; a drain or a clearing whose write fails changes nothing.
  lemma RecoveryIsTurnedAway(steps: seq<Step>, s: State, t: nat)
    requires After(false, steps) == Some(s) && s.draining && !s.writer && t < |s.threads| && s.threads[t].Waiting?
    ensures var more := steps + [RLock(t)] + [CheckDraining(t)];
            After(false, more) == Some(s.(threads := s.threads[t := Done]))
  {
    var s1 := s.(threads := s.threads[t := Reading], readers := s.readers + 1);
    Extend(false, steps, s, RLock(t), s1);
    assert s.threads[t := Reading][t := Done] == s.threads[t := Done];
    Extend(false, steps + [RLock(t)], s1, CheckDraining(t), s.(threads := s.threads[t := Done]));
  }

  lemma ClearingLetsThemIn(steps: seq<Step>, s: State, t: nat, fails: bool)
    requires After(false, steps) == Some(s) && s.readers == 0 && !s.writer
    requires t < |s.threads| && s.threads[t] == Drainer(false)
    ensures var more := steps + [Lock(t)] + [Write(t, fails)];
            After(false, more) == Some(s.(threads := s.threads[t := Done], draining := fails && s.draining))
  {
    var s1 := s.(threads := s.threads[t := Writing(false)], writer := true);
    Extend(false, steps, s, Lock(t), s1);
    assert s.threads[t := Writing(false)][t := Done] == s.threads[t := Done];
    Extend(false, steps + [Lock(t)], s1, Write(t, fails),
           s.(threads := s.threads[t := Done], draining := fails && s.draining));
  }

  // --- Resuming one drained lease ---

  // What is known about a failed resume. The tests on an error are not
  // exclusive; the order they are asked in decides.
  datatype Error = Error(
    released: bool, refusal: bool, permanent: bool, notReady: bool, retryable: bool,
    busy: bool, capacity: bool, cancelled: bool, draining: bool)

  const ERR_DRAINING := Error(false, false, false, false, false, false, false, false, true)

  // How often a retryable failure is tried again, how long a not-ready node is
  // waited for, and the shortest and longest pause.
  datatype Config = Config(retries: nat, window: nat, shortest: nat, longest: nat)

  // What the node and the substrate say each time they are asked: whether the
  // node drains, and what the resume answers.
  datatype World = World(draining: nat -> bool, answers: nat -> Option<Error>, config: Config)

  // What one call does, in order: the caller's lock taken and given up, the test
  // whether the node drains, an attempt with its answer and the time it came,
  // and a wait with the pause asked for, the time it ended and whether the
  // context cut it short.
  datatype Act =
    | Acquire
    | Test(draining: bool)
    | Attempt(answer: Option<Error>, at: int)
    | Release
    | Wait(pause: int, until: int, cut: bool)

  function Balance(acts: seq<Act>): int {
    if acts == [] then 0
    else
      var last := acts[|acts| - 1];
      Balance(acts[..|acts| - 1]) + if last.Acquire? then 1 else if last.Release? then -1 else 0
  }

  function Clock(acts: seq<Act>): int {
    if acts == [] then 0
    else
      var last := acts[|acts| - 1];
      if last.Attempt? then last.at else if last.Wait? then last.until else Clock(acts[..|acts| - 1])
  }

  function Tests(acts: seq<Act>): nat {
    if acts == [] then 0 else Tests(acts[..|acts| - 1]) + if acts[|acts| - 1].Test? then 1 else 0
  }

  function Waits(acts: seq<Act>): nat {
    if acts == [] then 0 else Waits(acts[..|acts| - 1]) + if acts[|acts| - 1].Wait? then 1 else 0
  }

  // An answer that says something about the lease itself: not merely that the
  // node is not ready.
  predicate Definite(answer: Option<Error>) {
    answer.None? || answer.value.refusal || answer.value.permanent || !answer.value.notReady
  }

  function Definites(acts: seq<Act>): nat {
    if acts == [] then 0
    else
      var last := acts[|acts| - 1];
      Definites(acts[..|acts| - 1]) + if last.Attempt? && Definite(last.answer) then 1 else 0
  }

  // An answer after which another attempt may follow.
  predicate Retryable(answer: Option<Error>) {
    && answer.Some? && !answer.value.refusal && !answer.value.permanent
    && (answer.value.notReady || answer.value.retryable)
  }

  // Every answer so far was one to retry, and no wait was cut short.
  ghost predicate GoesOn(acts: seq<Act>) {
    acts == [] || (GoesOn(acts[..|acts| - 1]) && Continues(acts[|acts| - 1]))
  }

  predicate Continues(a: Act) { (a.Attempt? ==> Retryable(a.answer)) && (a.Wait? ==> !a.cut) }

  function Min(a: int, b: int): int { if a < b then a else b }

  // The pause before a retry doubles from the shortest up to the longest.
  function Backoff(c: Config, retry: nat): int {
    Min(c.shortest * Pow2(if retry > 0 then retry - 1 else 0), c.longest)
  }

  // A not-ready node is not waited for past the window.
  function Pause(c: Config, e: Error, retry: nat, now: int): int {
    if e.notReady then Min(Backoff(c, retry), c.window - now) else Backoff(c, retry)
  }

  // undrainBackoffFor.
  method BackoffFor(c: Config, retry: nat) returns (d: int)
    ensures d == Backoff(c, retry)
  {
    d := c.shortest;
    var i := 1;
    while i < retry && d < c.longest
      invariant 1 <= i && (i <= retry || i == 1) && d == c.shortest * Pow2(i - 1)
    {
      d, i := d * 2, i + 1;
    }
    if i < retry { TimesGrows(c.shortest, i - 1, retry - 1); }
    if d > c.longest { d := c.longest; }
  }

  lemma TimesGrows(c: nat, a: nat, b: nat)
    requires a < b
    ensures c * Pow2(a) <= c * Pow2(b)
  {
    Pow2Grows(a, b);
    MulOrder(Pow2(a), Pow2(b), c);
  }

  // The lock is taken when free and given up when held; every attempt is made
  // with it, right after a test that found the node not draining; every wait is
  // made without it, after a failure to retry, for the pause that failure asks
  // for. Time does not go back.
  ghost predicate Disciplined(acts: seq<Act>, w: World) {
    acts == [] || (Disciplined(acts[..|acts| - 1], w) && Follows(acts[..|acts| - 1], acts[|acts| - 1], w))
  }

  ghost predicate Follows(before: seq<Act>, a: Act, w: World) {
    match a
    case Acquire => Balance(before) == 0
    case Test(draining) => Balance(before) == 1 && draining == w.draining(Tests(before))
    case Attempt(answer, at) =>
      && Balance(before) == 1 && before != [] && before[|before| - 1] == Test(false) && Clock(before) <= at
      && Tests(before) > 0 && answer == w.answers(Tests(before) - 1)
    case Release => Balance(before) == 1
    case Wait(pause, until, cut) =>
      && Balance(before) == 0 && Clock(before) <= until && (!cut ==> Clock(before) + pause <= until)
      && |before| >= 2 && before[|before| - 2].Attempt? && Retryable(before[|before| - 2].answer)
      && pause == Pause(w.config, before[|before| - 2].answer.value, Waits(before) + 1, Clock(before))
  }

  lemma ActNext(acts: seq<Act>, a: Act, w: World)
    ensures var now := acts + [a];
            && Balance(now) == Balance(acts) + (if a.Acquire? then 1 else if a.Release? then -1 else 0)
            && Clock(now) == (if a.Attempt? then a.at else if a.Wait? then a.until else Clock(acts))
            && Tests(now) == Tests(acts) + (if a.Test? then 1 else 0)
            && Waits(now) == Waits(acts) + (if a.Wait? then 1 else 0)
            && Definites(now) == Definites(acts) + (if a.Attempt? && Definite(a.answer) then 1 else 0)
            && (GoesOn(now) <==> GoesOn(acts) && Continues(a))
            && (Disciplined(now, w) <==> Disciplined(acts, w) && Follows(acts, a, w))
  {
    assert (acts + [a])[..|acts|] == acts;
  }

  // Giving up the lock for a wait and taking it again.
  function Paused(acts: seq<Act>, wait: Act): seq<Act> { acts + [Release] + [wait] + [Acquire] }

  lemma WaitBetween(acts: seq<Act>, wait: Act, w: World)
    requires Disciplined(acts, w) && Balance(acts) == 1
    requires wait.Wait? && Clock(acts) <= wait.until && (!wait.cut ==> Clock(acts) + wait.pause <= wait.until)
    requires acts != [] && acts[|acts| - 1].Attempt? && Retryable(acts[|acts| - 1].answer)
    requires wait.pause == Pause(w.config, acts[|acts| - 1].answer.value, Waits(acts) + 1, Clock(acts))
    ensures var now := Paused(acts, wait);
            && Disciplined(now, w) && Balance(now) == 1 && Clock(now) == wait.until
            && Tests(now) == Tests(acts) && Definites(now) == Definites(acts) && Waits(now) == Waits(acts) + 1
            && (GoesOn(now) <==> GoesOn(acts) && !wait.cut)
  {
    ActNext(acts, Release, w);
    ActNext(acts + [Release], wait, w);
    ActNext(acts + [Release] + [wait], Acquire, w);
  }

  // The clock, at least `least` later.
  method Elapse(now: int, least: int) returns (later: int)
    ensures later >= now && later >= now + least
  {
    later := *;
    if later < now || later < now + least { later := if least > 0 then now + least else now; }
  }

  function AtLeastZero(a: int): nat { if a < 0 then 0 else a }

  // How a call ended: on a test that found the node draining, on the answer of
  // its last attempt, or with the wait after it cut short. Until then it went on.
  ghost predicate EndsWith(acts: seq<Act>, err: Option<Error>, cutOff: bool) {
    if cutOff then
      exists before, at, pause, until :: GoesOn(before) && Retryable(err) &&
        acts == Paused(before + [Attempt(err, at)], Wait(pause, until, true))
    else
      acts != [] && GoesOn(acts[..|acts| - 1]) &&
      match acts[|acts| - 1]
      case Test(draining) => draining && err == Some(ERR_DRAINING)
      case Attempt(answer, _) => err == answer
      case _ => false
  }

  // One test and, unless the node drains, one attempt.
  method TryOnce(w: World, n: nat, ghost acts: seq<Act>, elapsed: int)
    returns (answer: Option<Option<Error>>, now: int, ghost acts': seq<Act>)
    requires Disciplined(acts, w) && Balance(acts) == 1 && Clock(acts) == elapsed && n == Tests(acts) && GoesOn(acts)
    ensures Disciplined(acts', w) && Balance(acts') == 1 && Clock(acts') == now >= elapsed
    ensures Tests(acts') == n + 1 && Waits(acts') == Waits(acts)
    ensures acts' != [] && acts'[|acts'| - 1] == if answer.None? then Test(true) else Attempt(answer.value, now)
    ensures EndsWith(acts', if answer.None? then Some(ERR_DRAINING) else answer.value, false)
    ensures answer.Some? && Retryable(answer.value) ==> GoesOn(acts')
    ensures Definites(acts') == Definites(acts) + if answer.Some? && Definite(answer.value) then 1 else 0
  {
    now := elapsed;
    ActNext(acts, Test(w.draining(n)), w);
    if w.draining(n) {
      assert (acts + [Test(true)])[..|acts|] == acts;
      return None, now, acts + [Test(true)];
    }
    now := Elapse(elapsed, 0);
    var outcome := w.answers(n);
    ghost var tested := acts + [Test(false)];
    ActNext(tested, Attempt(outcome, now), w);
    assert (tested + [Attempt(outcome, now)])[..|tested|] == tested;
    return Some(outcome), now, tested + [Attempt(outcome, now)];
  }

  // The wait after a failure to retry, with the lock given up for it.
  method WaitOnce(w: World, e: Error, retry: nat, ghost acts: seq<Act>, elapsed: int)
    returns (now: int, cut: bool, ghost acts': seq<Act>)
    requires Disciplined(acts, w) && Balance(acts) == 1 && Clock(acts) == elapsed && retry == Waits(acts) + 1
    requires acts != [] && acts[|acts| - 1].Attempt? && acts[|acts| - 1].answer == Some(e) && Retryable(Some(e))
    requires EndsWith(acts, Some(e), false)
    ensures cut ==> EndsWith(acts', Some(e), true)
    ensures Disciplined(acts', w) && Balance(acts') == 1 && Clock(acts') == now >= elapsed
    ensures Tests(acts') == Tests(acts) && Definites(acts') == Definites(acts) && Waits(acts') == retry
    ensures GoesOn(acts) && !cut ==> GoesOn(acts')
    ensures !cut && e.notReady ==> now >= elapsed + Min(Backoff(w.config, retry), w.config.window - elapsed)
  {
    var pause := BackoffFor(w.config, retry);
    if e.notReady && w.config.window - elapsed < pause { pause := w.config.window - elapsed; }
    cut := *;
    now := Elapse(elapsed, if cut then 0 else pause);
    WaitBetween(acts, Wait(pause, now, cut), w);
    acts' := Paused(acts, Wait(pause, now, cut));
    assert acts == acts[..|acts| - 1] + [Attempt(Some(e), acts[|acts| - 1].at)];
  }

  lemma BackoffIsPositive(c: Config, retry: nat)
    requires c.shortest > 0 && c.longest > 0
    ensures Backoff(c, retry) > 0
  {
    var p := Pow2(if retry > 0 then retry - 1 else 0);
    MulOrder(1, p, c.shortest);
  }

  // resumeDrainedLease. `definite` counts the attempts that did not end in a
  // not-ready answer: at most 1 + retries of them, however many not-ready
  // ones come between. What is returned is the answer of the last attempt, or
  // that the node drains. A retryable failure is returned only with that budget
  // spent, a not-ready one only after the window, unless the context ended.
  method ResumeDrained(w: World)
    returns (err: Option<Error>, attempts: nat, definite: nat, elapsed: int, cutOff: bool, ghost acts: seq<Act>)
    requires w.config.shortest > 0 && w.config.longest > 0
    ensures Disciplined(acts, w) && Balance(acts) == 1 && elapsed == Clock(acts)
    ensures attempts == Tests(acts) > 0 && definite == Definites(acts) <= 1 + w.config.retries
    ensures EndsWith(acts, err, cutOff)
    ensures !cutOff && acts[|acts| - 1].Attempt? && Retryable(err) ==>
              if err.value.notReady then elapsed >= w.config.window else definite == 1 + w.config.retries
  {
    var maxAttempts := 1 + w.config.retries;
    attempts, definite, elapsed, cutOff := 0, 0, 0, false;
    var envdTries, retries := 0, 0;
    acts := [] + [Acquire];
    ActNext([], Acquire, w);
    while true
      invariant Disciplined(acts, w) && Balance(acts) == 1 && Clock(acts) == elapsed && GoesOn(acts)
      invariant envdTries == definite == Definites(acts) < maxAttempts && attempts == Tests(acts) && !cutOff
      invariant retries == Waits(acts)
      decreases maxAttempts - envdTries + AtLeastZero(w.config.window - elapsed)
    {
      var answer;
      answer, elapsed, acts := TryOnce(w, attempts, acts, elapsed);
      attempts := attempts + 1;
      if answer.None? {
        err := Some(ERR_DRAINING);
        return;
      }
      err := answer.value;
      if !err.Some? { definite := definite + 1; return; }
      var e := err.value;
      if e.refusal || e.permanent { definite := definite + 1; return; }
      if e.notReady && elapsed >= w.config.window { return; }
      if !e.notReady {
        envdTries, definite := envdTries + 1, definite + 1;
        if !e.retryable || envdTries >= maxAttempts { return; }
      }
      retries := retries + 1;
      BackoffIsPositive(w.config, retries);
      elapsed, cutOff, acts := WaitOnce(w, e, retries, acts, elapsed);
      if cutOff { return; }
    }
  }

  lemma {:induction false} ContinuesAt(acts: seq<Act>, k: nat)
    requires GoesOn(acts) && k < |acts|
    ensures Continues(acts[k])
  {
    if k < |acts| - 1 { ContinuesAt(acts[..|acts| - 1], k); }
  }

  // A success, a refusal, a missing build or any other answer that cannot be
  // retried ends the call at once and is what it returns.
  lemma DecisiveAnswerEndsIt(acts: seq<Act>, err: Option<Error>, cutOff: bool, k: nat)
    requires EndsWith(acts, err, cutOff) && k < |acts| && acts[k].Attempt?
    requires var a := acts[k].answer;
             a.None? || a.value.refusal || a.value.permanent || (!a.value.notReady && !a.value.retryable)
    ensures k == |acts| - 1 && err == acts[k].answer && !cutOff
  {
    if cutOff {
      var before, at, pause, until :| GoesOn(before) && Retryable(err) &&
        acts == Paused(before + [Attempt(err, at)], Wait(pause, until, true));
      if k < |before| { ContinuesAt(before, k); }
    } else if k < |acts| - 1 {
      ContinuesAt(acts[..|acts| - 1], k);
    }
  }
}
