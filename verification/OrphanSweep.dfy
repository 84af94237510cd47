/**
 The periodic orphan sweep (api/orphan_sweep.go) against the creators of
 sandboxes, as a state machine. A sandbox id is the position of its record.
 Creators take fresh ids and go through begin, substrate create, claim, end; a
 grant may also take a sandbox over from the warm pool.
 */
module OrphanSweep {
  import opened Options

  datatype Claim = Pool | Lease(lost: bool, busy: bool)

  datatype Sandbox = Sandbox(
    creating: bool,        // the in-flight mark
    making: bool,          // begun and not yet claimed
    handing: bool,         // taken from the pool and not yet claimed
    owed: nat,             // ends still to come
    erased: bool,          // its mark was erased while it was being handed over
    running: bool,
    startedAt: int,
    claim: Option<Claim>)

  datatype Sweep =
    | Idle
    | Listed(list: map<nat, int>)
    | Snapped(list: map<nat, int>, inFlight: set<nat>)
    | Sorted(lost: set<nat>, unclaimed: map<nat, int>)
    // deleting, on a pass or as a retry of remembered ids
    | Working(retry: bool, todo: set<nat>)
    | Half(id: nat, retry: bool, todo: set<nat>)   // past the in-flight guard
    // past both guards; `passed` is the sandbox as the second one found it
    | Safe(id: nat, retry: bool, todo: set<nat>, passed: Sandbox)

  // A sandbox as the claim guard found it and as it was when it was deleted.
  datatype Deletion = Deletion(id: nat, passed: Sandbox, box: Sandbox)

  datatype State = State(
    boxes: seq<Sandbox>,
    sweep: Sweep,
    seen: map<nat, int>,
    before: map<nat, int>,         // what the previous pass found unclaimed
    remembered: set<nat>,
    deleted: seq<Deletion>)

  datatype Step =
    // creators, leases and the substrate
    | Begin
    | SubCreate(i: nat, at: int)
    | Take(i: nat, claim: Claim)
    | PoolPop(i: nat)
    | TakeOver(i: nat)
    | Abort(i: nat, cleaned: bool)
    | End(i: nat)
    | Change(i: nat, now: Option<Claim>)
    | Vanish(i: nat)
    | Remember(i: nat)   // a failed delete of a sandbox given up elsewhere
    // the sweep
    | List
    | Snap
    | Classify
    | Decide
    | Retry
    | Guard1(i: nat)
    | Guard2
    | Delete(fails: bool)
    | Finish

  const NEW := Sandbox(true, true, false, 1, false, false, 0, None)

  function Init(): State { State([], Idle, map[], map[], {}, []) }

  predicate Lost(c: Option<Claim>) { c.Some? && c.value.Lease? && c.value.lost }

  // How a claim may change by itself: a lease or pool entry goes away, a lease
  // is lost or changes its busy mark. A lost lease is not brought back under
  // the same sandbox id.
  predicate MayBecome(was: Option<Claim>, now: Option<Claim>) {
    now.None? || now == was ||
    (was.Some? && was.value.Lease? && now.value.Lease? && (was.value.lost ==> now.value.lost))
  }

  predicate Holding(b: Sandbox) { b.making || b.handing }

  // Nobody's: not being created or handed over, and owned by nobody or by a
  // lost lease.
  predicate Nobodys(b: Sandbox) { !Holding(b) && (b.claim.None? || Lost(b.claim)) }

  predicate BoxEnabled(b: Sandbox, step: Step) {
    match step
    case SubCreate(_, _) => b.making
    case Take(_, c) => b.making && b.running && !(c.Lease? && c.lost)
    case PoolPop(_) => b.claim == Some(Pool)
    case TakeOver(_) => b.handing
    case Abort(_, _) => Holding(b) && b.owed > 0
    case End(_) => b.owed > if Holding(b) then 1 else 0
    case Change(_, c) => MayBecome(b.claim, c)
    case Vanish(_) => true
    case _ => false
  }

  function BoxNext(b: Sandbox, step: Step): Sandbox
    requires BoxEnabled(b, step)
  {
    match step
    case SubCreate(_, at) => b.(running := true, startedAt := at)
    case Take(_, c) => b.(making := false, claim := Some(c))
    case PoolPop(_) =>
      b.(claim := None, handing := true, creating := true, owed := b.owed + 1)
    case TakeOver(_) => b.(handing := false, claim := Some(Lease(false, true)))
    case Abort(_, cleaned) =>
      b.(making := false, handing := false, creating := false, owed := b.owed - 1, running := b.running && !cleaned)
    case End(_) => b.(creating := false, owed := b.owed - 1, erased := b.erased || b.handing)
    case Change(_, c) => b.(claim := c)
    case Vanish(_) => b.(running := false)
  }

  predicate BoxStep(step: Step) {
    step.SubCreate? || step.Take? || step.PoolPop? || step.TakeOver? || step.Abort? || step.End? || step.Change? ||
    step.Vanish?
  }

  predicate Enabled(s: State, step: Step) {
    if BoxStep(step) then step.i < |s.boxes| && BoxEnabled(s.boxes[step.i], step)
    else match step
      case Begin => true
      case Remember(i) => i < |s.boxes| && Nobodys(s.boxes[i])
      case List => s.sweep.Idle?
      case Snap => s.sweep.Listed?
      case Classify => s.sweep.Snapped?
      case Decide => s.sweep.Sorted?
      case Retry => s.sweep.Idle?
      case Guard1(i) => s.sweep.Working? && i in s.sweep.todo
      case Guard2 => s.sweep.Half?
      case Delete(_) => s.sweep.Safe?
      case Finish => s.sweep.Working? && s.sweep.todo == {}
      case _ => false
  }

  function InFlight(boxes: seq<Sandbox>): set<nat> { set i: nat | i < |boxes| && boxes[i].creating }

  function AllRunning(boxes: seq<Sandbox>): map<nat, int> {
    map i: nat | i < |boxes| && boxes[i].running :: boxes[i].startedAt
  }

  predicate Considered(boxes: seq<Sandbox>, inFlight: set<nat>, i: nat) {
    i !in inFlight && i < |boxes| && boxes[i].claim != Some(Pool)
  }

  function LostOf(boxes: seq<Sandbox>, list: map<nat, int>, inFlight: set<nat>): set<nat> {
    set i | i in list && Considered(boxes, inFlight, i) && boxes[i].claim.Some? && Deletable(boxes[i].claim)
  }

  function UnclaimedOf(boxes: seq<Sandbox>, list: map<nat, int>, inFlight: set<nat>): map<nat, int> {
    map i | i in list && Considered(boxes, inFlight, i) && boxes[i].claim.None? :: list[i]
  }

  function Orphans(unclaimed: map<nat, int>, seen: map<nat, int>): set<nat> {
    set i | i in unclaimed && i in seen && seen[i] == unclaimed[i]
  }

  predicate Deletable(c: Option<Claim>) { c.None? || (Lost(c) && !c.value.busy) }

  // On to the next id; a retry also forgets this one.
  function GivenUp(s: State, i: nat, retry: bool, todo: set<nat>): State {
    s.(sweep := Working(retry, todo), remembered := if retry then s.remembered - {i} else s.remembered)
  }

  function SweepNext(s: State, step: Step): State
    requires !BoxStep(step) && Enabled(s, step)
  {
    match step
    case Begin => s.(boxes := s.boxes + [NEW])
    case Remember(i) => s.(remembered := s.remembered + {i})
    case List => s.(sweep := Listed(AllRunning(s.boxes)))
    case Snap => s.(sweep := Snapped(s.sweep.list, InFlight(s.boxes)))
    case Classify =>
      var list, fly := s.sweep.list, s.sweep.inFlight;
      s.(sweep := Sorted(LostOf(s.boxes, list, fly), UnclaimedOf(s.boxes, list, fly)))
    case Decide =>
      var u := s.sweep.unclaimed;
      var orphans := Orphans(u, s.seen);
      s.(sweep := Working(false, s.sweep.lost + orphans), seen := u - orphans, before := u)
    case Retry => s.(sweep := Working(true, s.remembered))
    case Guard1(i) =>
      var w := s.sweep;
      if i < |s.boxes| && !s.boxes[i].creating then s.(sweep := Half(i, w.retry, w.todo - {i}))
      else GivenUp(s, i, w.retry, w.todo - {i})
    case Guard2 =>
      var w := s.sweep;
      if w.id < |s.boxes| && Deletable(s.boxes[w.id].claim)
      then s.(sweep := Safe(w.id, w.retry, w.todo, s.boxes[w.id]))
      else GivenUp(s, w.id, w.retry, w.todo)
    case Delete(fails) =>
      var w := s.sweep;
      var n := if fails then s.(sweep := Working(w.retry, w.todo), remembered := s.remembered + {w.id})
               else GivenUp(s, w.id, w.retry, w.todo);
      if w.id >= |s.boxes| then n
      else n.(deleted := s.deleted + [Deletion(w.id, w.passed, s.boxes[w.id])],
              boxes := if fails then s.boxes else s.boxes[w.id := s.boxes[w.id].(running := false)])
    case Finish => s.(sweep := Idle)
  }

  function Next(s: State, step: Step): State
    requires Enabled(s, step)
  {
    if BoxStep(step) then s.(boxes := s.boxes[step.i := BoxNext(s.boxes[step.i], step)]) else SweepNext(s, step)
  }

  function After(steps: seq<Step>): Option<State>
    decreases |steps|, 1
  {
    if steps == [] then Some(Init()) else AfterLast(steps)
  }

  function AfterLast(steps: seq<Step>): Option<State>
    requires steps != []
    decreases |steps|, 0
  {
    var before, step := After(steps[..|steps| - 1]), steps[|steps| - 1];
    if before.Some? && Enabled(before.value, step) then Some(Next(before.value, step)) else None
  }

  // --- Invariant ---

  ghost predicate BoxOk(b: Sandbox) {
    && (Holding(b) ==> b.claim.None? && b.owed > 0)
    && (b.making ==> !b.handing && !b.erased && b.creating && b.owed == 1)
    && (b.handing && !b.erased ==> b.creating)
    && (b.erased ==> b.claim != Some(Pool))
  }

  // Facts that last: the creation is over and it will not go to the pool
  // again; nor is it being handed over with its mark; and it is nobody's,
  // unless its mark was erased.
  ghost predicate NoPool(b: Sandbox) { !b.making && b.claim != Some(Pool) }
  ghost predicate Free(b: Sandbox) { NoPool(b) && (b.handing ==> b.erased) }
  ghost predicate Doomed(b: Sandbox) { Nobodys(b) || (b.erased && NoPool(b)) }

  // A box only ever moves on: each of these facts, once true, stays.
  ghost predicate Later(b: Sandbox, n: Sandbox) {
    && (BoxOk(b) ==> BoxOk(n)) && (!b.making ==> !n.making) && (NoPool(b) ==> NoPool(n)) && (Free(b) ==> Free(n))
    && (Doomed(b) ==> Doomed(n)) && (Nobodys(b) ==> Nobodys(n))
    && (NoPool(b) && !b.creating ==> !n.creating)
  }

  lemma BoxMovesOn(b: Sandbox, step: Step)
    requires BoxEnabled(b, step)
    ensures Later(b, BoxNext(b, step))
  {
  }

  ghost predicate AllOk(boxes: seq<Sandbox>) { forall i :: 0 <= i < |boxes| ==> BoxOk(boxes[i]) }

  ghost predicate AllDoomed(boxes: seq<Sandbox>, ids: set<nat>) {
    forall i :: i in ids ==> i < |boxes| && Doomed(boxes[i])
  }

  ghost predicate AllNoPool(boxes: seq<Sandbox>, ids: map<nat, int>) {
    forall i :: i in ids ==> i < |boxes| && NoPool(boxes[i])
  }

  ghost predicate SnapOk(boxes: seq<Sandbox>, list: map<nat, int>, fly: set<nat>, seen: map<nat, int>) {
    forall i :: i in list ==> i < |boxes| && (i !in fly ==> !boxes[i].making && (i in seen ==> Free(boxes[i])))
  }

  // Being handed over without the in-flight mark.
  predicate Unmarked(b: Sandbox) { b.handing && !b.creating }

  ghost predicate SweepOk(s: State) {
    match s.sweep
    case Idle => true
    case Listed(list) => forall i :: i in list ==> i < |s.boxes|
    case Snapped(list, fly) => SnapOk(s.boxes, list, fly, s.seen)
    case Sorted(lost, unclaimed) =>
      AllDoomed(s.boxes, lost) && AllNoPool(s.boxes, unclaimed) &&
      forall i :: i in unclaimed && i in s.seen ==> i < |s.boxes| && Doomed(s.boxes[i])
    case Working(_, todo) => AllDoomed(s.boxes, todo)
    case Half(id, _, todo) => AllDoomed(s.boxes, todo + {id}) && !s.boxes[id].creating
    case Safe(id, _, todo, passed) =>
      AllDoomed(s.boxes, todo + {id}) && (Nobodys(s.boxes[id]) || Unmarked(passed))
  }

  ghost predicate Inv(s: State) {
    && AllOk(s.boxes) && SweepOk(s) && AllNoPool(s.boxes, s.seen) && AllDoomed(s.boxes, s.remembered)
    && (forall k :: 0 <= k < |s.deleted| ==> Nobodys(s.deleted[k].box) || Unmarked(s.deleted[k].passed))
    && (forall i :: i in s.seen ==> i in s.before && s.before[i] == s.seen[i])
  }

  // Creators and leases: every box moves on.
  lemma BoxesMoveOn(s: State, boxes: seq<Sandbox>)
    requires Inv(s) && |s.boxes| <= |boxes|
    requires forall i :: 0 <= i < |s.boxes| ==> Later(s.boxes[i], boxes[i])
    requires forall i :: |s.boxes| <= i < |boxes| ==> BoxOk(boxes[i])
    ensures Inv(s.(boxes := boxes))
  {
    assert forall i :: 0 <= i < |s.boxes| ==> BoxOk(s.boxes[i]);
  }

  lemma BoxStepKeeps(s: State, step: Step)
    requires Inv(s) && Enabled(s, step) && BoxStep(step)
    ensures Inv(Next(s, step))
  {
    BoxMovesOn(s.boxes[step.i], step);
    BoxesMoveOn(s, Next(s, step).boxes);
  }

  lemma SnapKeeps(s: State)
    requires Inv(s) && Enabled(s, Snap)
    ensures Inv(Next(s, Snap))
  {
    forall i | i in s.sweep.list && i !in InFlight(s.boxes)
      ensures !s.boxes[i].making && (i in s.seen ==> Free(s.boxes[i]))
    {
      assert BoxOk(s.boxes[i]);
    }
  }

  lemma ClassifyKeeps(s: State)
    requires Inv(s) && Enabled(s, Classify)
    ensures Inv(Next(s, Classify))
  {
    var list, fly := s.sweep.list, s.sweep.inFlight;
    forall i | i in LostOf(s.boxes, list, fly) ensures i < |s.boxes| && Doomed(s.boxes[i]) {
      assert BoxOk(s.boxes[i]);
    }
  }

  lemma GuardKeeps(s: State)
    requires Inv(s) && Enabled(s, Guard2)
    ensures Inv(Next(s, Guard2))
  {
    var b := s.boxes[s.sweep.id];
    assert s.sweep.id in s.sweep.todo + {s.sweep.id} && BoxOk(b);
  }

  lemma SweepStepKeeps(s: State, step: Step)
    requires Inv(s) && Enabled(s, step) && !BoxStep(step)
    requires !step.Begin? && !step.Snap? && !step.Classify? && !step.Guard2? && !step.Delete?
    ensures Inv(Next(s, step))
  {
  }

  lemma DeleteKeeps(s: State, fails: bool)
    requires Inv(s) && Enabled(s, Delete(fails))
    ensures Inv(Next(s, Delete(fails)))
  {
    var n := Next(s, Delete(fails));
    var logged := n.(boxes := s.boxes);
    assert Inv(logged);
    BoxesMoveOn(logged, n.boxes);
  }

  lemma InvIsKept(s: State, step: Step)
    requires Inv(s) && Enabled(s, step)
    ensures Inv(Next(s, step))
  {
    if BoxStep(step) {
      BoxStepKeeps(s, step);
    } else if step.Begin? {
      BoxesMoveOn(s, s.boxes + [NEW]);
    } else if step.Snap? {
      SnapKeeps(s);
    } else if step.Classify? {
      ClassifyKeeps(s);
    } else if step.Guard2? {
      GuardKeeps(s);
    } else if step.Delete? {
      DeleteKeeps(s, step.fails);
    } else {
      SweepStepKeeps(s, step);
    }
  }

  lemma {:induction false} InvHolds(steps: seq<Step>)
    requires After(steps).Some?
    ensures Inv(After(steps).value)
  {
    if steps != [] {
      InvHolds(steps[..|steps| - 1]);
      InvIsKept(After(steps[..|steps| - 1]).value, steps[|steps| - 1]);
    }
  }

  // --- Theorems over every run ---

  // The sweep deletes no sandbox that is being created or handed over, no
  // pool entry's and no lease's that is not lost, though its two guards are
  // separate and everyone else goes on between them. The one exception is a
  // sandbox that the claim guard found being handed over without a mark.
  lemma SweepSparesOwners(steps: seq<Step>, k: nat)
    requires After(steps).Some? && k < |After(steps).value.deleted|
    ensures var d := After(steps).value.deleted[k];
            || (d.passed.handing && !d.passed.creating)
            || (!d.box.making && !d.box.handing &&
                (d.box.claim.None? || (d.box.claim.value.Lease? && d.box.claim.value.lost)))
  {
    InvHolds(steps);
  }

  // Claimed by nobody, or by a lost lease that nobody is working on.
  predicate Unowned(b: Sandbox) {
    b.claim.None? || (b.claim.value.Lease? && b.claim.value.lost && !b.claim.value.busy)
  }

  // Whatever is deleted, the claim guard found it so.
  lemma {:induction false} GuardFoundIt(steps: seq<Step>, k: nat)
    requires After(steps).Some?
    ensures k < |After(steps).value.deleted| ==> Unowned(After(steps).value.deleted[k].passed)
    ensures After(steps).value.sweep.Safe? ==> Unowned(After(steps).value.sweep.passed)
  {
    if steps != [] { GuardFoundIt(steps[..|steps| - 1], k); }
  }

  // --- Deletes that fail ---

  // An id is remembered when its delete fails, and until a retry deletes it or
  // finds it being created or owned.
  lemma RememberedIff(s: State, step: Step, i: nat)
    requires Enabled(s, step) && i < |s.boxes|
    ensures i in Next(s, step).remembered <==>
            || (step == Remember(i))
            || (step == Delete(true) && s.sweep.id == i)
            || (i in s.remembered &&
                !(step == Guard1(i) && s.sweep.retry && s.boxes[i].creating) &&
                !(step == Guard2 && s.sweep.id == i && s.sweep.retry && !Unowned(s.boxes[i])) &&
                !(step == Delete(false) && s.sweep.id == i && s.sweep.retry))
  {
  }

  // A remembered sandbox that nobody owns or is making is deleted by the next
  // retry and forgotten, or kept in mind again when the delete fails.
  lemma RetryGoesThrough(before: seq<Step>, s: State, i: nat, fails: bool) returns (steps: seq<Step>, n: State)
    requires After(before) == Some(s) && s.sweep == Idle && i in s.remembered && i < |s.boxes|
    requires !s.boxes[i].creating && Unowned(s.boxes[i])
    ensures After(steps) == Some(n) && n.sweep == Working(true, s.remembered - {i})
    ensures n.deleted == s.deleted + [Deletion(i, s.boxes[i], s.boxes[i])]
    ensures n.remembered == if fails then s.remembered else s.remembered - {i}
    ensures n.boxes == if fails then s.boxes else s.boxes[i := s.boxes[i].(running := false)]
  {
    var s1 := s.(sweep := Working(true, s.remembered));
    Extend(before, s, Retry, s1);
    var s2 := s.(sweep := Half(i, true, s.remembered - {i}));
    Extend(before + [Retry], s1, Guard1(i), s2);
    var s3 := s.(sweep := Safe(i, true, s.remembered - {i}, s.boxes[i]));
    Extend(before + [Retry] + [Guard1(i)], s2, Guard2, s3);
    n := Next(s3, Delete(fails));
    assert s.remembered + {i} == s.remembered;
    Extend(before + [Retry] + [Guard1(i)] + [Guard2], s3, Delete(fails), n);
    steps := before + [Retry] + [Guard1(i)] + [Guard2] + [Delete(fails)];
  }

  // --- One sandbox's life ---

  // Made for the pool, stocked, popped and taken over by a lease: in flight from
  // its begin to the filler's end and from the pop to the grant's.
  lemma PooledLife(at: int) returns (steps: seq<Step>)
    ensures After(steps) == Some(Init().(boxes := [Sandbox(false, false, false, 0, false, true, at,
                                                           Some(Lease(false, true)))]))
  {
    steps := Stocked(at);
    var b := Sandbox(false, false, false, 0, false, true, at, Some(Pool));
    var popped := Sandbox(true, false, true, 1, false, true, at, None);
    Extend(steps, Init().(boxes := [b]), PoolPop(0), Init().(boxes := [popped]));
    var leased := popped.(handing := false, claim := Some(Lease(false, true)));
    Extend(steps + [PoolPop(0)], Init().(boxes := [popped]), TakeOver(0), Init().(boxes := [leased]));
    Extend(steps + [PoolPop(0)] + [TakeOver(0)], Init().(boxes := [leased]), End(0),
           Init().(boxes := [leased.(creating := false, owed := 0)]));
    steps := steps + [PoolPop(0)] + [TakeOver(0)] + [End(0)];
  }

  lemma Stocked(at: int) returns (steps: seq<Step>)
    ensures After(steps) == Some(Init().(boxes := [Sandbox(false, false, false, 0, false, true, at, Some(Pool))]))
  {
    steps := Made(at);
    var made := NEW.(running := true, startedAt := at);
    var taken := made.(making := false, claim := Some(Pool));
    Extend(steps, Init().(boxes := [made]), Take(0, Pool), Init().(boxes := [taken]));
    Extend(steps + [Take(0, Pool)], Init().(boxes := [taken]), End(0),
           Init().(boxes := [taken.(creating := false, owed := 0)]));
    steps := steps + [Take(0, Pool)] + [End(0)];
  }

  lemma Made(at: int) returns (steps: seq<Step>)
    ensures After(steps) == Some(Init().(boxes := [NEW.(running := true, startedAt := at)]))
  {
    var made := NEW.(running := true, startedAt := at);
    Extend([], Init(), Begin, Init().(boxes := [NEW]));
    Extend([] + [Begin], Init().(boxes := [NEW]), SubCreate(0, at), Init().(boxes := [made]));
    steps := [] + [Begin] + [SubCreate(0, at)];
  }

  // A create that fails gives up its mark, whether or not what it started is
  // gone; and a sandbox that stops by itself is not listed any more.
  lemma AbortedLife(at: int, cleaned: bool) returns (steps: seq<Step>, s: State)
    ensures After(steps) == Some(s) && s.boxes == [Sandbox(false, false, false, 0, false, !cleaned, at, None)]
    ensures After(steps + [Vanish(0)]).Some? && AllRunning(After(steps + [Vanish(0)]).value.boxes) == map[]
  {
    steps := Made(at);
    var made := NEW.(running := true, startedAt := at);
    s := Init().(boxes := [Sandbox(false, false, false, 0, false, !cleaned, at, None)]);
    Extend(steps, Init().(boxes := [made]), Abort(0, cleaned), s);
    steps := steps + [Abort(0, cleaned)];
    var gone := s.(boxes := [s.boxes[0].(running := false)]);
    Extend(steps, s, Vanish(0), gone);
  }

  // A pass takes up an unclaimed sandbox only if the previous pass found it
  // unclaimed too, with the same start time.
  lemma UnclaimedTwice(steps: seq<Step>, i: nat)
    requires After(steps).Some? && Enabled(After(steps).value, Decide)
    requires i in Next(After(steps).value, Decide).sweep.todo
    ensures var s := After(steps).value;
            i in s.sweep.lost ||
            (i in s.sweep.unclaimed && i in s.before && s.before[i] == s.sweep.unclaimed[i])
  {
    InvHolds(steps);
  }

  // --- The exception is exactly the missing mark ---

  predicate SweepStep(step: Step) { !BoxStep(step) && !step.Begin? && !step.Remember? }

  ghost predicate SweepOnly(steps: seq<Step>) { forall k :: 0 <= k < |steps| ==> SweepStep(steps[k]) }

  // The sweep by itself goes on to delete sandbox i while it is handed over.
  ghost predicate Sweeps(steps: seq<Step>, more: seq<Step>, i: nat) {
    && SweepOnly(more) && After(steps).Some? && After(steps + more).Some?
    && exists k :: |After(steps).value.deleted| <= k < |After(steps + more).value.deleted| &&
         After(steps + more).value.deleted[k].id == i && After(steps + more).value.deleted[k].box.handing
  }

  lemma Extend(steps: seq<Step>, s: State, step: Step, n: State)
    requires After(steps) == Some(s) && Enabled(s, step) && n == Next(s, step)
    ensures After(steps + [step]) == Some(n)
  {
    assert (steps + [step])[..|steps|] == steps;
  }

  // One pass up to its decision.
  lemma PassDecides(before: seq<Step>, s: State) returns (more: seq<Step>, n: State)
    requires After(before) == Some(s) && s.sweep == Idle
    ensures After(before + more) == Some(n) && SweepOnly(more)
    ensures var list, fly := AllRunning(s.boxes), InFlight(s.boxes);
            var u := UnclaimedOf(s.boxes, list, fly);
            n == s.(sweep := Working(false, LostOf(s.boxes, list, fly) + Orphans(u, s.seen)),
                    seen := u - Orphans(u, s.seen), before := u)
  {
    var list, fly := AllRunning(s.boxes), InFlight(s.boxes);
    var s1, s2 := s.(sweep := Listed(list)), s.(sweep := Snapped(list, fly));
    var s3 := s.(sweep := Sorted(LostOf(s.boxes, list, fly), UnclaimedOf(s.boxes, list, fly)));
    Extend(before, s, List, s1);
    Extend(before + [List], s1, Snap, s2);
    Extend(before + [List] + [Snap], s2, Classify, s3);
    n := Next(s3, Decide);
    Extend(before + [List] + [Snap] + [Classify], s3, Decide, n);
    more := [List, Snap, Classify, Decide];
    assert before + [List] + [Snap] + [Classify] + [Decide] == before + more;
  }

  // One id of a pass's work, when its delete fails.
  lemma HalfIsDone(before: seq<Step>, s: State) returns (more: seq<Step>, n: State)
    requires After(before) == Some(s) && s.sweep.Half?
    ensures After(before + more) == Some(n) && SweepOnly(more) && n.boxes == s.boxes && n.seen == s.seen
    ensures n.sweep == Working(s.sweep.retry, s.sweep.todo) && s.deleted <= n.deleted
  {
    var mid := Next(s, Guard2);
    Extend(before, s, Guard2, mid);
    if mid.sweep.Safe? {
      n := Next(mid, Delete(true));
      Extend(before + [Guard2], mid, Delete(true), n);
      more := [Guard2, Delete(true)];
      assert before + [Guard2] + [Delete(true)] == before + more;
    } else {
      n, more := mid, [Guard2];
    }
  }

  lemma OneIsDone(before: seq<Step>, s: State, j: nat) returns (more: seq<Step>, n: State)
    requires After(before) == Some(s) && s.sweep.Working? && j in s.sweep.todo
    ensures After(before + more) == Some(n) && SweepOnly(more) && n.boxes == s.boxes && n.seen == s.seen
    ensures n.sweep == Working(s.sweep.retry, s.sweep.todo - {j}) && s.deleted <= n.deleted
  {
    var mid := Next(s, Guard1(j));
    Extend(before, s, Guard1(j), mid);
    if mid.sweep.Half? {
      var rest;
      rest, n := HalfIsDone(before + [Guard1(j)], mid);
      more := [Guard1(j)] + rest;
      assert before + [Guard1(j)] + rest == before + more;
    } else {
      n, more := mid, [Guard1(j)];
    }
  }

  lemma NothingLeft(before: seq<Step>, s: State) returns (more: seq<Step>, n: State)
    requires After(before) == Some(s) && s.sweep.Working? && s.sweep.todo == {}
    ensures After(before + more) == Some(n) && SweepOnly(more)
    ensures n.sweep == Idle && n.boxes == s.boxes && n.seen == s.seen && n.deleted == s.deleted
  {
    n, more := Next(s, Finish), [Finish];
    Extend(before, s, Finish, n);
  }

  lemma Longer(a: seq<Deletion>, b: seq<Deletion>, c: seq<Deletion>)
    requires a <= b <= c
    ensures a <= c
  {
  }

  lemma OnlyJoins(a: seq<Step>, b: seq<Step>)
    requires SweepOnly(a) && SweepOnly(b)
    ensures SweepOnly(a + b)
  {
  }

  // The rest of a pass, leaving every sandbox as it is.
  lemma PassEnds(before: seq<Step>, s: State) returns (more: seq<Step>, n: State)
    requires After(before) == Some(s) && s.sweep.Working?
    ensures After(before + more) == Some(n) && SweepOnly(more)
    ensures n.sweep == Idle && n.boxes == s.boxes && n.seen == s.seen && s.deleted <= n.deleted
    decreases |s.sweep.todo|
  {
    if s.sweep.todo == {} {
      more, n := NothingLeft(before, s);
    } else {
      var j :| j in s.sweep.todo;
      var first, mid := OneIsDone(before, s, j);
      var rest;
      rest, n := PassEnds(before + first, mid);
      more := first + rest;
      assert before + first + rest == before + more;
      Longer(s.deleted, mid.deleted, n.deleted);
      OnlyJoins(first, rest);
    }
  }

  lemma DeletedNow(before: seq<Step>, s: State, i: nat) returns (more: seq<Step>, n: State)
    requires After(before) == Some(s) && s.sweep.Working? && i in s.sweep.todo
    requires i < |s.boxes| && Unmarked(s.boxes[i]) && s.boxes[i].claim.None?
    ensures After(before + more) == Some(n) && SweepOnly(more)
    ensures n.deleted == s.deleted + [Deletion(i, s.boxes[i], s.boxes[i])]
  {
    var w := s.sweep;
    var half := s.(sweep := Half(i, w.retry, w.todo - {i}));
    var safe := s.(sweep := Safe(i, w.retry, w.todo - {i}, s.boxes[i]));
    Extend(before, s, Guard1(i), half);
    Extend(before + [Guard1(i)], half, Guard2, safe);
    n := Next(safe, Delete(false));
    Extend(before + [Guard1(i)] + [Guard2], safe, Delete(false), n);
    more := [Guard1(i), Guard2, Delete(false)];
    assert before + [Guard1(i)] + [Guard2] + [Delete(false)] == before + more;
  }

  ghost predicate InDanger(s: State, i: nat) {
    i < |s.boxes| && Unmarked(s.boxes[i]) && s.boxes[i].running && s.boxes[i].claim.None?
  }

  lemma FoundUnclaimed(s: State, i: nat)
    requires InDanger(s, i)
    ensures var u := UnclaimedOf(s.boxes, AllRunning(s.boxes), InFlight(s.boxes));
            i in u && u[i] == s.boxes[i].startedAt
  {
  }

  // A pass that has seen it before deletes it.
  lemma SecondPassSweeps(before: seq<Step>, s: State, i: nat) returns (more: seq<Step>, n: State)
    requires After(before) == Some(s) && s.sweep == Idle && InDanger(s, i)
    requires i in s.seen && s.seen[i] == s.boxes[i].startedAt
    ensures After(before + more) == Some(n) && SweepOnly(more)
    ensures n.deleted == s.deleted + [Deletion(i, s.boxes[i], s.boxes[i])]
  {
    FoundUnclaimed(s, i);
    var m1, s1 := PassDecides(before, s);
    var m2;
    m2, n := DeletedNow(before + m1, s1, i);
    more := m1 + m2;
    assert before + m1 + m2 == before + more;
    OnlyJoins(m1, m2);
  }

  // A pass that has not remembers it.
  lemma FirstPassSees(before: seq<Step>, s: State, i: nat) returns (more: seq<Step>, n: State)
    requires After(before) == Some(s) && s.sweep == Idle && InDanger(s, i)
    requires !(i in s.seen && s.seen[i] == s.boxes[i].startedAt)
    ensures After(before + more) == Some(n) && SweepOnly(more)
    ensures n.sweep == Idle && n.boxes == s.boxes && s.deleted <= n.deleted
    ensures i in n.seen && n.seen[i] == s.boxes[i].startedAt
  {
    FoundUnclaimed(s, i);
    var m1, s1 := PassDecides(before, s);
    var m2;
    m2, n := PassEnds(before + m1, s1);
    more := m1 + m2;
    assert before + m1 + m2 == before + more;
    OnlyJoins(m1, m2);
  }

  lemma SweepsWhen(steps: seq<Step>, more: seq<Step>, i: nat, s: State, n: State, b: Sandbox)
    requires After(steps) == Some(s) && After(steps + more) == Some(n) && SweepOnly(more) && b.handing
    requires s.deleted < n.deleted && n.deleted[|n.deleted| - 1] == Deletion(i, b, b)
    ensures Sweeps(steps, more, i)
  {
    var k := |n.deleted| - 1;
    assert |s.deleted| <= k && n.deleted[k].id == i && n.deleted[k].box.handing;
  }

  // From every reachable state with the sweep idle, two passes at most delete
  // a running sandbox that is handed over without its mark.
  lemma UnmarkedIsSwept(steps: seq<Step>, s: State, i: nat) returns (more: seq<Step>)
    requires After(steps) == Some(s) && s.sweep.Idle? && i < |s.boxes|
    requires Unmarked(s.boxes[i]) && s.boxes[i].running
    ensures Sweeps(steps, more, i)
  {
    InvHolds(steps);
    assert BoxOk(s.boxes[i]);
    var m1, s1 := [], s;
    assert steps + m1 == steps;
    if !(i in s.seen && s.seen[i] == s.boxes[i].startedAt) { m1, s1 := FirstPassSees(steps, s, i); }
    var m2, s2 := SecondPassSweeps(steps + m1, s1, i);
    more := m1 + m2;
    assert steps + m1 + m2 == steps + more;
    SweepsWhen(steps, more, i, s, s2, s.boxes[i]);
  }

  // With its mark, the sweep by itself never deletes it.
  ghost predicate Untouched(s: State, i: nat, from: nat) {
    && i < |s.boxes| && s.boxes[i].creating
    && !(s.sweep.Half? && s.sweep.id == i) && !(s.sweep.Safe? && s.sweep.id == i)
    && from <= |s.deleted| && forall k :: from <= k < |s.deleted| ==> s.deleted[k].id != i
  }

  lemma SweepLeavesMarked(s: State, step: Step, i: nat, from: nat)
    requires Untouched(s, i, from) && Enabled(s, step) && SweepStep(step)
    ensures Untouched(Next(s, step), i, from)
  {
  }

  lemma {:induction false} MarkedIsSpared(steps: seq<Step>, more: seq<Step>, s: State, i: nat)
    requires After(steps) == Some(s) && s.sweep.Idle? && i < |s.boxes| && s.boxes[i].creating
    requires SweepOnly(more) && After(steps + more).Some?
    ensures Untouched(After(steps + more).value, i, |s.deleted|)
  {
    if more == [] {
      assert steps + more == steps;
    } else {
      var rest := more[..|more| - 1];
      assert (steps + more)[..|steps + more| - 1] == steps + rest;
      MarkedIsSpared(steps, rest, s, i);
      SweepLeavesMarked(After(steps + rest).value, more[|more| - 1], i, |s.deleted|);
    }
  }

  // So a sandbox being handed over is in danger if and only if its mark is gone.
  lemma SweptIffUnmarked(steps: seq<Step>, s: State, i: nat)
    requires After(steps) == Some(s) && s.sweep.Idle? && i < |s.boxes| && s.boxes[i].handing && s.boxes[i].running
    ensures (exists more :: Sweeps(steps, more, i)) <==> !s.boxes[i].creating
  {
    if !s.boxes[i].creating {
      var more := UnmarkedIsSwept(steps, s, i);
    } else {
      forall more ensures !Sweeps(steps, more, i) {
        if Sweeps(steps, more, i) { MarkedIsSpared(steps, more, s, i); }
      }
    }
  }

  // And the mark does go: the filler's end erases that of a grant that took
  // the sandbox over first.
  lemma FillerErasesMark() returns (steps: seq<Step>, s: State)
    ensures After(steps) == Some(s) && s.sweep == Idle && |s.boxes| == 1
    ensures Unmarked(s.boxes[0]) && s.boxes[0].running
  {
    var s0 := Init();
    var s1 := s0.(boxes := [NEW]);
    Extend([], s0, Begin, s1);
    var s2 := s0.(boxes := [NEW.(running := true, startedAt := 7)]);
    Extend([] + [Begin], s1, SubCreate(0, 7), s2);
    var s3 := s0.(boxes := [s2.boxes[0].(making := false, claim := Some(Pool))]);
    Extend([] + [Begin] + [SubCreate(0, 7)], s2, Take(0, Pool), s3);
    steps := [] + [Begin] + [SubCreate(0, 7)] + [Take(0, Pool)];
    var s4 := s0.(boxes := [s3.boxes[0].(claim := None, handing := true, creating := true, owed := 2)]);
    Extend(steps, s3, PoolPop(0), s4);
    s := s0.(boxes := [s4.boxes[0].(creating := false, owed := 1, erased := true)]);
    Extend(steps + [PoolPop(0)], s4, End(0), s);
    steps := steps + [PoolPop(0)] + [End(0)];
  }

  lemma HandOverIsSwept() returns (steps: seq<Step>, more: seq<Step>)
    ensures Sweeps(steps, more, 0)
  {
    var s;
    steps, s := FillerErasesMark();
    more := UnmarkedIsSwept(steps, s, 0);
  }
}
