/**
 Memory admission under the overcommit cap (api/admit_memory.go,
 api/preempt.go) and the warm pool beside it (api/service.go), as a state
 machine over their steps. Lease admissions take turns under one lock; pool
 fills do not. Both read the running memory in one step and check and debit in
 another; sandboxes are started, stocked, popped, settled and stopped between.
 */
module MemoryAdmission {
  import opened Options

  // One sandbox, from the request for its memory on. A lease admission waits
  // for its turn; a pool fill has none. Popped: taken out of the pool by a
  // grant and not yet live as a lease.
  datatype Phase = Waiting | Turn | Sized | Starting | Pooled | Popped | Live | Gone

  // `hold` is the memory debited by the admission or fill and not yet given
  // back, `raised` the same for the grant that popped it. `seen` is the
  // running memory as its request read it, `limbo` what was popped and not yet
  // raised at that moment, `since` the count of settled memory then.
  datatype Vm = Vm(
    mib: nat, fill: bool, phase: Phase, hold: bool, raised: bool, seen: nat, limbo: nat, since: nat)

  // `settled` is all the memory ever given back by holds that took effect, and
  // `slack` the most any grant so far did not see.
  datatype State = State(
    vms: seq<Vm>, inflight: int, turn: Option<nat>, settled: nat, slack: nat, cap: int)

  datatype Step =
    | Arrive(mib: nat, fill: bool)
    | Lock(t: nat)
    | ReadRunning(t: nat)
    | CheckAndDebit(t: nat, short: bool)  // short: too few free pages for a fill
    | Fail(t: nat)
    | GoLive(t: nat)
    | Stock(t: nat)
    | Pop(t: nat)
    | Raise(t: nat)
    | Remove(t: nat)  // released, paused, dropped from the pool or discarded
    | Undo(t: nat)
    | Settle(t: nat)

  function Init(cap: int): State { State([], 0, None, 0, 0, cap) }

  function Fresh(mib: nat, fill: bool): Vm { Vm(mib, fill, Waiting, false, false, 0, 0, 0) }

  // --- Sums over the sandboxes ---

  function If(b: bool, mib: nat): nat { if b then mib else 0 }

  function LiveMiB(v: Vm): nat { If(v.phase.Live? || v.phase.Pooled?, v.mib) }

  function InflightMiB(v: Vm): nat { If(v.hold, v.mib) + If(v.raised, v.mib) }

  // Memory promised to a sandbox that runs or is on its way.
  function PromisedMiB(v: Vm): nat {
    If(v.phase.Starting? || v.phase.Pooled? || v.phase.Popped? || v.phase.Live?, v.mib)
  }

  // Popped, and in neither figure.
  function LimboMiB(v: Vm): nat { If(v.phase.Popped? && !v.hold && !v.raised, v.mib) }

  // Memory inflight that is also running, inflight twice, or no longer promised.
  function TwiceMiB(v: Vm): nat {
    match v.phase
    case Popped => If(v.hold && v.raised, v.mib)
    case Pooled => InflightMiB(v)
    case Live => InflightMiB(v)
    case Gone => InflightMiB(v)
    case _ => 0
  }

  function Sum(vms: seq<Vm>, weight: Vm -> nat): nat {
    if vms == [] then 0 else Sum(vms[..|vms| - 1], weight) + weight(vms[|vms| - 1])
  }

  function Running(s: State): nat { Sum(s.vms, LiveMiB) }

  function Promised(s: State): nat { Sum(s.vms, PromisedMiB) }

  function Limbo(s: State): nat { Sum(s.vms, LimboMiB) }

  lemma {:induction false} SumAfter(vms: seq<Vm>, weight: Vm -> nat, t: nat, v: Vm)
    requires t < |vms|
    ensures Sum(vms[t := v], weight) == Sum(vms, weight) - weight(vms[t]) + weight(v)
  {
    var n := |vms| - 1;
    if t == n {
      assert vms[t := v][..n] == vms[..n];
    } else {
      SumAfter(vms[..n], weight, t, v);
      assert vms[t := v][..n] == vms[..n][t := v];
    }
  }

  lemma SumWith(vms: seq<Vm>, weight: Vm -> nat, v: Vm)
    ensures Sum(vms + [v], weight) == Sum(vms, weight) + weight(v)
  {
    assert (vms + [v])[..|vms|] == vms;
  }

  // Which figures a sandbox is in, phase by phase.
  predicate VmOk(v: Vm) {
    match v.phase
    case Starting => v.hold && !v.raised
    case Pooled => !v.raised
    case Popped => true
    case Live => true
    case Gone => true
    case _ => !v.hold && !v.raised
  }

  // Promised memory is the running and the inflight memory and what is in
  // limbo, less what is counted twice or no longer promised.
  lemma {:induction false} PromisedSplits(vms: seq<Vm>)
    requires forall i :: 0 <= i < |vms| ==> VmOk(vms[i])
    ensures Sum(vms, PromisedMiB) + Sum(vms, TwiceMiB) ==
            Sum(vms, LiveMiB) + Sum(vms, InflightMiB) + Sum(vms, LimboMiB)
  {
    if vms != [] { PromisedSplits(vms[..|vms| - 1]); }
  }

  // --- Steps ---

  predicate Enabled(s: State, step: Step) {
    step.Arrive? ||
    (step.t < |s.vms| && Ready(s.vms[step.t], step) && (step.Lock? ==> s.turn.None?))
  }

  predicate Ready(v: Vm, step: Step) {
    match step
    case Arrive(_, _) => true
    case Lock(_) => !v.fill && v.phase.Waiting?
    case ReadRunning(_) => if v.fill then v.phase.Waiting? else v.phase.Turn?
    case CheckAndDebit(_, short) => v.phase.Sized? && (short ==> v.fill)
    case Fail(_) => v.phase.Starting?
    case GoLive(_) => (v.phase.Starting? && !v.fill) || (v.phase.Popped? && v.raised)
    case Stock(_) => v.phase.Starting? && v.fill
    case Pop(_) => v.phase.Pooled?
    case Raise(_) => v.phase.Popped? && !v.raised
    case Remove(_) => v.phase.Live? || v.phase.Pooled? || (v.phase.Popped? && v.raised)
    case Undo(_) => v.phase.Pooled? || v.phase.Popped? || v.phase.Live? || v.phase.Gone?
    case Settle(_) => v.phase.Live? || v.phase.Gone?
  }

  // overcommitShortfallLocked, for a known pool.
  function Shortfall(s: State, v: Vm): int { v.seen + s.inflight + v.mib - s.cap }

  function Clamped(n: int): int { if n < 0 then 0 else n }

  // What a reading has missed: memory in limbo then, or settled since.
  function Unseen(s: State, v: Vm): int { v.limbo + s.settled - v.since }

  function Set(s: State, t: nat, v: Vm): State
    requires t < |s.vms|
  {
    s.(vms := s.vms[t := v])
  }

  function Next(s: State, step: Step): State
    requires Enabled(s, step)
  {
    if step.Arrive? then s.(vms := s.vms + [Fresh(step.mib, step.fill)])
    else if Moves(step) then Moved(s, step)
    else Requested(s, step)
  }

  predicate Moves(step: Step) { !step.Arrive? && !step.Lock? && !step.ReadRunning? && !step.CheckAndDebit? }

  // The request: its turn, its reading, its check and debit.
  function Requested(s: State, step: Step): State
    requires Enabled(s, step) && !step.Arrive? && !Moves(step)
  {
    var t := step.t;
    var v := s.vms[t];
    match step
    case Lock(_) => Set(s, t, v.(phase := Turn)).(turn := Some(t))
    case ReadRunning(_) =>
      Set(s, t, v.(phase := Sized, seen := Running(s), limbo := Limbo(s), since := s.settled))
    case CheckAndDebit(_, short) =>
      var turn := if v.fill then s.turn else None;
      if Shortfall(s, v) > 0 || short then Set(s, t, v.(phase := Gone)).(turn := turn)
      else
        var unseen := Unseen(s, v);
        Set(s, t, v.(phase := Starting, hold := true)).(
          turn := turn, inflight := s.inflight + v.mib, slack := if s.slack < unseen then unseen else s.slack)
  }

  // What becomes of the sandbox. The undo counts once: a later call finds
  // nothing left to give back.
  function MovedVm(v: Vm, step: Step): Vm {
    match step
    case Fail(_) => v.(phase := Gone, hold := false)
    case GoLive(_) => v.(phase := Live)
    case Stock(_) => v.(phase := Pooled)
    case Pop(_) => v.(phase := Popped)
    case Raise(_) => v.(raised := true)
    case Remove(_) => v.(phase := Gone)
    case Undo(_) => v.(hold := false)
    case Settle(_) => v.(raised := false)
    case _ => v
  }

  function GivenBack(v: Vm, step: Step): nat {
    match step
    case Fail(_) => v.mib
    case Undo(_) => If(v.hold, v.mib)
    case Settle(_) => If(v.raised, v.mib)
    case _ => 0
  }

  function Moved(s: State, step: Step): State
    requires Enabled(s, step) && Moves(step)
  {
    var v := s.vms[step.t];
    var n := Set(s, step.t, MovedVm(v, step));
    if step.Raise? then n.(inflight := s.inflight + v.mib)
    else n.(inflight := Clamped(s.inflight - GivenBack(v, step)),
            settled := s.settled + if step.Fail? then 0 else GivenBack(v, step))
  }

  function After(cap: int, steps: seq<Step>): Option<State>
    decreases |steps|, 1
  {
    if steps == [] then Some(Init(cap)) else AfterLast(cap, steps)
  }

  function AfterLast(cap: int, steps: seq<Step>): Option<State>
    requires steps != []
    decreases |steps|, 0
  {
    var before, step := After(cap, steps[..|steps| - 1]), steps[|steps| - 1];
    if before.Some? && Enabled(before.value, step) then Some(Next(before.value, step)) else None
  }

  // --- Invariant ---

  // Promised memory in neither the inflight figure nor settled before now.
  function Owed(s: State): int { Promised(s) - s.inflight - s.settled }

  ghost predicate Books(s: State) {
    && s.inflight == Sum(s.vms, InflightMiB)
    && (forall t :: 0 <= t < |s.vms| ==> VmOk(s.vms[t]))
  }

  ghost predicate Turns(s: State) {
    && (s.turn.Some? ==> s.turn.value < |s.vms|)
    && forall t :: 0 <= t < |s.vms| && !s.vms[t].fill && (s.vms[t].phase.Turn? || s.vms[t].phase.Sized?) ==>
         s.turn == Some(t)
  }

  // A reading falls short of the promised memory outside the inflight figure
  // by what was in limbo or has settled since, at most.
  ghost predicate ReadingOk(s: State, v: Vm) {
    v.phase.Sized? ==> v.since <= s.settled && Owed(s) <= v.seen + v.limbo - v.since
  }

  ghost predicate Readings(s: State) { forall t :: 0 <= t < |s.vms| ==> ReadingOk(s, s.vms[t]) }

  ghost predicate Inv(s: State) {
    Books(s) && Turns(s) && Readings(s) && (Promised(s) == 0 || Promised(s) <= s.cap + s.slack)
  }

  lemma SumsAfter(s: State, t: nat, v: Vm)
    requires t < |s.vms|
    ensures var u := s.vms[t];
            var after := s.vms[t := v];
            && Sum(after, InflightMiB) == Sum(s.vms, InflightMiB) - InflightMiB(u) + InflightMiB(v)
            && Sum(after, PromisedMiB) == Promised(s) - PromisedMiB(u) + PromisedMiB(v)
  {
    SumAfter(s.vms, InflightMiB, t, v);
    SumAfter(s.vms, PromisedMiB, t, v);
  }

  lemma {:induction false} PartOfSum(vms: seq<Vm>, weight: Vm -> nat, t: nat)
    requires t < |vms|
    ensures weight(vms[t]) <= Sum(vms, weight)
  {
    if t < |vms| - 1 { PartOfSum(vms[..|vms| - 1], weight, t); }
  }

  // What one move does to the sandbox's part in the figures.
  lemma VmMoves(v: Vm, step: Step)
    requires VmOk(v) && Ready(v, step) && Moves(step)
    ensures var n := MovedVm(v, step);
            && VmOk(n) && n.fill == v.fill && PromisedMiB(n) <= PromisedMiB(v)
            && InflightMiB(n) == InflightMiB(v) + (if step.Raise? then v.mib else 0) - GivenBack(v, step)
            && (n.phase == v.phase || (!n.phase.Turn? && !n.phase.Sized?))
            && (step.Fail? ==> PromisedMiB(n) == 0 && PromisedMiB(v) == v.mib)
  {
  }

  lemma MoveIsSteady(s: State, step: Step)
    requires Books(s) && Enabled(s, step) && Moves(step)
    ensures var n := Next(s, step);
            && Books(n) && Owed(n) <= Owed(s) && Promised(n) <= Promised(s) && s.settled <= n.settled
            && n.inflight == s.inflight + (if step.Raise? then s.vms[step.t].mib else 0) -
                             GivenBack(s.vms[step.t], step)
  {
    var v := s.vms[step.t];
    VmMoves(v, step);
    SumsAfter(s, step.t, MovedVm(v, step));
    PartOfSum(s.vms, InflightMiB, step.t);
  }

  lemma MoveKeeps(s: State, step: Step)
    requires Inv(s) && Enabled(s, step) && Moves(step)
    ensures Inv(Next(s, step))
  {
    MoveIsSteady(s, step);
    VmMoves(s.vms[step.t], step);
    var n := Next(s, step);
    forall t | 0 <= t < |n.vms| ensures ReadingOk(n, n.vms[t]) { assert ReadingOk(s, s.vms[t]); }
  }

  lemma ArriveKeeps(s: State, mib: nat, fill: bool)
    requires Inv(s)
    ensures Inv(Next(s, Arrive(mib, fill)))
  {
    SumWith(s.vms, InflightMiB, Fresh(mib, fill));
    SumWith(s.vms, PromisedMiB, Fresh(mib, fill));
    var n := Next(s, Arrive(mib, fill));
    forall t | 0 <= t < |s.vms| ensures ReadingOk(n, n.vms[t]) { assert ReadingOk(s, s.vms[t]); }
  }

  lemma TurnKeeps(s: State, step: Step)
    requires Inv(s) && Enabled(s, step) && (step.Lock? || step.ReadRunning?)
    ensures Inv(Next(s, step))
  {
    var n := Next(s, step);
    SumsAfter(s, step.t, n.vms[step.t]);
    PromisedSplits(s.vms);
    forall t | 0 <= t < |n.vms| ensures ReadingOk(n, n.vms[t]) { assert ReadingOk(s, s.vms[t]); }
  }

  lemma RefusalKeeps(s: State, t: nat, short: bool)
    requires Inv(s) && Enabled(s, CheckAndDebit(t, short)) && (short || Shortfall(s, s.vms[t]) > 0)
    ensures Inv(Next(s, CheckAndDebit(t, short)))
  {
    var n := Next(s, CheckAndDebit(t, short));
    SumsAfter(s, t, n.vms[t]);
    forall u | 0 <= u < |n.vms| ensures ReadingOk(n, n.vms[u]) { assert ReadingOk(s, s.vms[u]); }
  }

  lemma GrantKeeps(s: State, t: nat)
    requires Inv(s) && Enabled(s, CheckAndDebit(t, false)) && Shortfall(s, s.vms[t]) <= 0
    ensures Inv(Next(s, CheckAndDebit(t, false)))
  {
    var n := Next(s, CheckAndDebit(t, false));
    SumsAfter(s, t, n.vms[t]);
    forall u | 0 <= u < |n.vms| ensures ReadingOk(n, n.vms[u]) { assert ReadingOk(s, s.vms[u]); }
    assert ReadingOk(s, s.vms[t]);
  }

  lemma InvIsKept(s: State, step: Step)
    requires Inv(s) && Enabled(s, step)
    ensures Inv(Next(s, step)) && Next(s, step).cap == s.cap
  {
    if step.Arrive? {
      ArriveKeeps(s, step.mib, step.fill);
    } else if step.CheckAndDebit? {
      if step.short || Shortfall(s, s.vms[step.t]) > 0 {
        RefusalKeeps(s, step.t, step.short);
      } else {
        GrantKeeps(s, step.t);
      }
    } else if step.Lock? || step.ReadRunning? {
      TurnKeeps(s, step);
    } else {
      MoveKeeps(s, step);
    }
  }

  lemma {:induction false} InvHolds(cap: int, steps: seq<Step>)
    requires After(cap, steps).Some?
    ensures Inv(After(cap, steps).value) && After(cap, steps).value.cap == cap
  {
    if steps != [] {
      InvHolds(cap, steps[..|steps| - 1]);
      InvIsKept(After(cap, steps[..|steps| - 1]).value, steps[|steps| - 1]);
    }
  }

  // --- Theorems over every run ---

  // What is promised, to leases and to the pool, stays within the cap plus
  // what some grant's reading missed: memory that settled between its read and
  // its check, or had left the pool and was not yet raised when it read. The
  // inflight figure is exactly the memory not yet given back.
  lemma PromisedWithinSlack(cap: int, steps: seq<Step>)
    requires After(cap, steps).Some?
    ensures var s := After(cap, steps).value;
            && (Promised(s) == 0 || Promised(s) <= cap + s.slack)
            && s.inflight == Sum(s.vms, InflightMiB)
  {
    InvHolds(cap, steps);
  }

  predicate InWindow(s: State) { exists t :: 0 <= t < |s.vms| && s.vms[t].phase.Sized? }

  // The step gives back memory that was held.
  predicate GivesBack(s: State, step: Step)
    requires Enabled(s, step)
  {
    (step.Undo? && s.vms[step.t].hold) || (step.Settle? && s.vms[step.t].raised)
  }

  // No hold is given back between a request's read and its check, and no
  // request reads while a popped sandbox has not been raised.
  ghost predicate QuietStep(s: State, step: Step)
    requires Enabled(s, step)
  {
    (GivesBack(s, step) ==> !InWindow(s)) && (step.ReadRunning? ==> Limbo(s) == 0)
  }

  ghost predicate Quiet(cap: int, steps: seq<Step>) {
    steps == [] ||
    (var rest, step := steps[..|steps| - 1], steps[|steps| - 1];
     var before := After(cap, rest);
     Quiet(cap, rest) && before.Some? && Enabled(before.value, step) && QuietStep(before.value, step))
  }

  // With quiet windows, as when read, check and debit are one step and a pop
  // raises at once, the cap itself holds throughout.
  lemma CapHoldsInQuietRuns(cap: int, steps: seq<Step>)
    requires After(cap, steps).Some? && Quiet(cap, steps)
    ensures Promised(After(cap, steps).value) == 0 || Promised(After(cap, steps).value) <= cap
  {
    InvHolds(cap, steps);
    QuietHasNoSlack(cap, steps);
  }

  ghost predicate NothingUnseen(s: State) {
    s.slack == 0 && forall t :: 0 <= t < |s.vms| && s.vms[t].phase.Sized? ==> Unseen(s, s.vms[t]) == 0
  }

  lemma QuietKeeps(s: State, step: Step)
    requires Inv(s) && NothingUnseen(s) && Enabled(s, step) && QuietStep(s, step)
    ensures NothingUnseen(Next(s, step))
  {
  }

  lemma {:induction false} QuietHasNoSlack(cap: int, steps: seq<Step>)
    requires After(cap, steps).Some? && Quiet(cap, steps)
    ensures NothingUnseen(After(cap, steps).value)
  {
    if steps != [] {
      var rest := steps[..|steps| - 1];
      QuietHasNoSlack(cap, rest);
      InvHolds(cap, rest);
      QuietKeeps(After(cap, rest).value, steps[|steps| - 1]);
    }
  }

  // A grant keeps within the cap if and only if its headroom covers the
  // promised memory that was neither in its reading nor is inflight.
  lemma GrantWithinCapIff(cap: int, steps: seq<Step>, t: nat)
    requires After(cap, steps).Some? && Enabled(After(cap, steps).value, CheckAndDebit(t, false))
    requires var s := After(cap, steps).value; Shortfall(s, s.vms[t]) <= 0
    ensures var s := After(cap, steps).value;
            var unseen := Running(s) + Limbo(s) - Sum(s.vms, TwiceMiB) - s.vms[t].seen;
            Promised(Next(s, CheckAndDebit(t, false))) <= cap <==> unseen <= -Shortfall(s, s.vms[t])
  {
    InvHolds(cap, steps);
    var s := After(cap, steps).value;
    PromisedSplits(s.vms);
    SumsAfter(s, t, Next(s, CheckAndDebit(t, false)).vms[t]);
  }

  // Giving back takes exactly what was held, its clamp at zero never bites,
  // and a second call changes nothing.
  lemma UndoCountsOnce(cap: int, steps: seq<Step>, step: Step)
    requires After(cap, steps).Some? && Enabled(After(cap, steps).value, step) && (step.Undo? || step.Settle?)
    ensures var s := After(cap, steps).value;
            var n := Next(s, step);
            && n.inflight == s.inflight - (if GivesBack(s, step) then s.vms[step.t].mib else 0)
            && Enabled(n, step) && Next(n, step) == n
  {
    InvHolds(cap, steps);
    var s := After(cap, steps).value;
    PartOfSum(s.vms, InflightMiB, step.t);
    var n := Next(s, step);
    MoveIsSteady(s, step);
    assert n.vms[step.t := n.vms[step.t]] == n.vms;
  }

  lemma Extend(cap: int, steps: seq<Step>, s: State, step: Step, n: State)
    requires After(cap, steps) == Some(s) && Enabled(s, step) && n == Next(s, step)
    ensures After(cap, steps + [step]) == Some(n)
  {
    assert (steps + [step])[..|steps|] == steps;
  }

  // --- One sandbox's life ---

  // A lone request gets its memory exactly when the cap leaves room for it.
  lemma LoneRequest(cap: int, mib: nat, fill: bool) returns (steps: seq<Step>)
    ensures After(cap, steps) ==
            Some(if mib <= cap then State([Vm(mib, fill, Starting, true, false, 0, 0, 0)], mib, None, 0, 0, cap)
                 else State([Vm(mib, fill, Gone, false, false, 0, 0, 0)], 0, None, 0, 0, cap))
  {
    var s0 := Init(cap).(vms := [Fresh(mib, fill)]);
    Extend(cap, [], Init(cap), Arrive(mib, fill), s0);
    steps := [] + [Arrive(mib, fill)];
    if !fill {
      Extend(cap, steps, s0, Lock(0), s0.(vms := [s0.vms[0].(phase := Turn)], turn := Some(0)));
      steps, s0 := steps + [Lock(0)], s0.(vms := [s0.vms[0].(phase := Turn)], turn := Some(0));
    }
    SumOfOne(s0.vms[0], LiveMiB);
    SumOfOne(s0.vms[0], LimboMiB);
    var v := Vm(mib, fill, Sized, false, false, 0, 0, 0);
    var s1 := s0.(vms := [v]);
    Extend(cap, steps, s0, ReadRunning(0), s1);
    var s2 := if mib <= cap then State([v.(phase := Starting, hold := true)], mib, None, 0, 0, cap)
              else State([v.(phase := Gone)], 0, None, 0, 0, cap);
    Extend(cap, steps + [ReadRunning(0)], s1, CheckAndDebit(0, false), s2);
    steps := steps + [ReadRunning(0)] + [CheckAndDebit(0, false)];
  }

  // A lease that starts, runs, settles and ends leaves nothing inflight; so
  // does one that fails to start, which settles nothing.
  lemma LeaseLife(cap: int, mib: nat, fails: bool) returns (steps: seq<Step>)
    requires mib <= cap
    ensures After(cap, steps) ==
            Some(State([Vm(mib, false, Gone, false, false, 0, 0, 0)], 0, None, if fails then 0 else mib, 0, cap))
  {
    steps := LoneRequest(cap, mib, false);
    var v := Vm(mib, false, Starting, true, false, 0, 0, 0);
    var s := State([v], mib, None, 0, 0, cap);
    if fails {
      Extend(cap, steps, s, Fail(0), State([v.(phase := Gone, hold := false)], 0, None, 0, 0, cap));
      steps := steps + [Fail(0)];
    } else {
      var s1 := s.(vms := [v.(phase := Live)]);
      Extend(cap, steps, s, GoLive(0), s1);
      var s2 := State([v.(phase := Live, hold := false)], 0, None, mib, 0, cap);
      Extend(cap, steps + [GoLive(0)], s1, Undo(0), s2);
      Extend(cap, steps + [GoLive(0)] + [Undo(0)], s2, Remove(0), s2.(vms := [v.(phase := Gone, hold := false)]));
      steps := steps + [GoLive(0)] + [Undo(0)] + [Remove(0)];
    }
  }

  // A pool fill that is stocked, popped by a grant, settled and ended has held
  // its memory twice, and leaves nothing inflight either.
  lemma PooledLife(cap: int, mib: nat) returns (steps: seq<Step>)
    requires mib <= cap
    ensures After(cap, steps) ==
            Some(State([Vm(mib, true, Gone, false, false, 0, 0, 0)], 0, None, mib + mib, 0, cap))
  {
    var v;
    steps, v := FillIsPopped(cap, mib);
    var s0 := State([v], 0, None, mib, 0, cap);
    var s1 := State([v.(raised := true)], mib, None, mib, 0, cap);
    Extend(cap, steps, s0, Raise(0), s1);
    var s2 := s1.(vms := [v.(phase := Live, raised := true)]);
    Extend(cap, steps + [Raise(0)], s1, GoLive(0), s2);
    var s3 := State([v.(phase := Live)], 0, None, mib + mib, 0, cap);
    Extend(cap, steps + [Raise(0)] + [GoLive(0)], s2, Settle(0), s3);
    Extend(cap, steps + [Raise(0)] + [GoLive(0)] + [Settle(0)], s3, Remove(0), s3.(vms := [v.(phase := Gone)]));
    steps := steps + [Raise(0)] + [GoLive(0)] + [Settle(0)] + [Remove(0)];
  }

  lemma FillIsPopped(cap: int, mib: nat) returns (steps: seq<Step>, v: Vm)
    requires mib <= cap
    ensures v == Vm(mib, true, Popped, false, false, 0, 0, 0)
    ensures After(cap, steps) == Some(State([v], 0, None, mib, 0, cap))
  {
    steps := LoneRequest(cap, mib, true);
    v := Vm(mib, true, Popped, false, false, 0, 0, 0);
    var s0 := State([v.(phase := Starting, hold := true)], mib, None, 0, 0, cap);
    var s1 := s0.(vms := [v.(phase := Pooled, hold := true)]);
    Extend(cap, steps, s0, Stock(0), s1);
    var s2 := State([v.(phase := Pooled)], 0, None, mib, 0, cap);
    Extend(cap, steps + [Stock(0)], s1, Undo(0), s2);
    Extend(cap, steps + [Stock(0)] + [Undo(0)], s2, Pop(0), s2.(vms := [v]));
    steps := steps + [Stock(0)] + [Undo(0)] + [Pop(0)];
  }

  // --- Two runs that promise twice the cap ---

  function Ten(fill: bool, phase: Phase, hold: bool): Vm { Vm(10, fill, phase, hold, false, 0, 0, 0) }

  lemma SumOfOne(v: Vm, weight: Vm -> nat)
    ensures Sum([v], weight) == weight(v)
  {
    SumWith([], weight, v);
    assert [] + [v] == [v];
  }

  lemma SumOfTwo(v: Vm, w: Vm, weight: Vm -> nat)
    ensures Sum([v, w], weight) == weight(v) + weight(w)
  {
    SumOfOne(v, weight);
    SumWith([v], weight, w);
    assert [v] + [w] == [v, w];
  }

  // A first request, lease or fill, is granted the whole cap.
  lemma FirstStarts(fill: bool) returns (steps: seq<Step>)
    ensures After(10, steps) == Some(State([Ten(fill, Starting, true)], 10, None, 0, 0, 10))
  {
    steps := LoneRequest(10, 10, fill);
  }

  // A second admission comes in and reads.
  lemma SecondReads(before: seq<Step>, s: State, v: Vm) returns (steps: seq<Step>)
    requires After(10, before) == Some(s) && s.vms == [v] && s.turn.None? && LiveMiB(v) == 0
    ensures After(10, steps) ==
            Some(s.(vms := [v, Vm(10, false, Sized, false, false, 0, LimboMiB(v), s.settled)], turn := Some(1)))
  {
    var s1 := s.(vms := [v, Ten(false, Waiting, false)]);
    Extend(10, before, s, Arrive(10, false), s1);
    var s2 := s.(vms := [v, Ten(false, Turn, false)], turn := Some(1));
    Extend(10, before + [Arrive(10, false)], s1, Lock(1), s2);
    SumOfTwo(v, Ten(false, Turn, false), LiveMiB);
    SumOfTwo(v, Ten(false, Turn, false), LimboMiB);
    Extend(10, before + [Arrive(10, false)] + [Lock(1)], s2, ReadRunning(1),
           s2.(vms := [v, Vm(10, false, Sized, false, false, 0, LimboMiB(v), s.settled)]));
    steps := before + [Arrive(10, false)] + [Lock(1)] + [ReadRunning(1)];
  }

  // The second is granted on that reading although the first still stands.
  lemma SecondGranted(before: seq<Step>, s: State) returns (steps: seq<Step>, n: State)
    requires After(10, before) == Some(s) && |s.vms| == 2 && s.vms[1].phase.Sized? && s.vms[1].mib == 10
    requires s.inflight == 0 && s.cap == 10 && s.vms[1].seen == 0 && PromisedMiB(s.vms[0]) == 10
    ensures After(10, steps) == Some(n) && Promised(n) == 20
  {
    n := Next(s, CheckAndDebit(1, false));
    Extend(10, before, s, CheckAndDebit(1, false), n);
    steps := before + [CheckAndDebit(1, false)];
    assert n.vms == [s.vms[0], n.vms[1]];
    SumOfTwo(s.vms[0], n.vms[1], PromisedMiB);
  }

  // The first lease goes live and settles between the second's read and check.
  lemma StaleReadOvercommits() returns (steps: seq<Step>, s: State)
    ensures After(10, steps) == Some(s) && Promised(s) == 20
  {
    steps := FirstStarts(false);
    var first := Ten(false, Starting, true);
    steps := SecondReads(steps, State([first], 10, None, 0, 0, 10), first);
    var second := Vm(10, false, Sized, false, false, 0, 0, 0);
    var s0 := State([first, second], 10, Some(1), 0, 0, 10);
    var s1 := s0.(vms := [first.(phase := Live), second]);
    Extend(10, steps, s0, GoLive(0), s1);
    var s2 := State([Ten(false, Live, false), second], 0, Some(1), 10, 0, 10);
    Extend(10, steps + [GoLive(0)], s1, Undo(0), s2);
    steps, s := SecondGranted(steps + [GoLive(0)] + [Undo(0)], s2);
  }

  // A grant pops the stocked sandbox, and the second reads and checks before
  // the pop is raised into the inflight figure: nothing settled meanwhile.
  lemma PopGapOvercommits() returns (steps: seq<Step>, s: State)
    ensures After(10, steps) == Some(s) && Promised(s) == 20
  {
    steps := FirstStarts(true);
    var s0 := State([Ten(true, Starting, true)], 10, None, 0, 0, 10);
    var s1 := s0.(vms := [Ten(true, Pooled, true)]);
    Extend(10, steps, s0, Stock(0), s1);
    var s2 := State([Ten(true, Pooled, false)], 0, None, 10, 0, 10);
    Extend(10, steps + [Stock(0)], s1, Undo(0), s2);
    var popped := Ten(true, Popped, false);
    Extend(10, steps + [Stock(0)] + [Undo(0)], s2, Pop(0), s2.(vms := [popped]));
    steps := SecondReads(steps + [Stock(0)] + [Undo(0)] + [Pop(0)], s2.(vms := [popped]), popped);
    steps, s := SecondGranted(
      steps, State([popped, Vm(10, false, Sized, false, false, 0, 10, 10)], 0, Some(1), 10, 0, 10));
  }
}
