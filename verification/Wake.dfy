/**
 The two-flag wake protocol of the admission queue (api/admitqueue.go).

 Any number of wakers run wakeAdmissionQueue and any number of goroutines run
 scheduledWake. Every atomic load, store and compare-and-swap is one step, and
 the steps of all threads interleave freely. Three counters describe what a run
 has done so far: how many times wakePending was set, and the value of that
 count when the latest pass started and when the latest finished pass started.
 */
module Wake {
  import opened Options

  // Where one goroutine stands. The waker sets wakePending (WakerStore), then
  // tries to take the flag (WakerCas). The runner is scheduledWake's loop.
  datatype Pc =
    | WakerStore
    | WakerCas
    | Clearing              // about to store wakePending = false
    | Starting              // about to start a pass
    | Passing(mark: nat)    // inside a pass that started after `mark` stores
    | Releasing             // about to CAS wakeScheduled true -> false
    | Loading               // about to load wakePending
    | Retaking              // about to CAS wakeScheduled false -> true
    | Finished

  datatype State = State(
    scheduled: bool,
    pending: bool,
    threads: seq<Pc>,
    stores: nat,
    startedAt: nat,
    finishedAt: nat)

  // Arrive is a call of wakeAdmissionQueue that found a ticket waiting; Run
  // lets one goroutine take its next atomic step.
  datatype Step = Arrive | Run(t: nat)

  function Init(): State {
    State(false, false, [], 0, 0, 0)
  }

  predicate Enabled(s: State, a: Step) {
    match a
    case Arrive => true
    case Run(t) => t < |s.threads| && s.threads[t] != Finished
  }

  function Next(s: State, a: Step): State
    requires Enabled(s, a)
  {
    match a
    case Arrive => s.(threads := s.threads + [WakerStore])
    case Run(t) =>
      match s.threads[t]
      case WakerStore =>
        s.(pending := true, stores := s.stores + 1, threads := s.threads[t := WakerCas])
      case WakerCas =>
        if s.scheduled then s.(threads := s.threads[t := Finished])
        else s.(scheduled := true, threads := s.threads[t := Finished] + [Clearing])
      case Clearing =>
        s.(pending := false, threads := s.threads[t := Starting])
      case Starting =>
        s.(startedAt := s.stores, threads := s.threads[t := Passing(s.stores)])
      case Passing(mark) =>
        s.(finishedAt := mark, threads := s.threads[t := Releasing])
      case Releasing =>
        if s.scheduled then s.(scheduled := false, threads := s.threads[t := Loading])
        else s.(threads := s.threads[t := Finished]) // the defensive guard
      case Loading =>
        s.(threads := s.threads[t := if s.pending then Retaking else Finished])
      case Retaking =>
        if s.scheduled then s.(threads := s.threads[t := Finished])
        else s.(scheduled := true, threads := s.threads[t := Clearing])
  }

  // The state a schedule leads to, if every step of it was enabled.
  function After(steps: seq<Step>): Option<State>
    decreases |steps|, 1
  {
    if steps == [] then Some(Init()) else AfterLast(steps)
  }

  function AfterLast(steps: seq<Step>): Option<State>
    requires steps != []
    decreases |steps|, 0
  {
    var before, a := After(steps[..|steps| - 1]), steps[|steps| - 1];
    if before.Some? && Enabled(before.value, a) then Some(Next(before.value, a)) else None
  }

  // The pcs between winning wakeScheduled and giving it back.
  predicate Owns(pc: Pc) {
    pc.Clearing? || pc.Starting? || pc.Passing? || pc.Releasing?
  }

  // The pcs from which a thread will still look at wakePending or take the flag.
  predicate WillLook(pc: Pc) {
    pc.Loading? || pc.Retaking? || pc.WakerCas?
  }

  predicate BeforePass(pc: Pc) {
    pc.Clearing? || pc.Starting?
  }

  ghost predicate OneOwner(s: State) {
    && (forall t, u | 0 <= t < |s.threads| && 0 <= u < |s.threads| ::
          Owns(s.threads[t]) && Owns(s.threads[u]) ==> t == u)
    && (s.scheduled <==> exists t :: 0 <= t < |s.threads| && Owns(s.threads[t]))
  }

  ghost predicate PendingIsWatched(s: State) {
    s.pending ==> s.scheduled || exists t :: 0 <= t < |s.threads| && WillLook(s.threads[t])
  }

  ghost predicate UnservedIsCarried(s: State) {
    s.startedAt < s.stores ==>
      s.pending || exists t :: 0 <= t < |s.threads| && BeforePass(s.threads[t])
  }

  ghost predicate PassesAreAccounted(s: State) {
    && s.finishedAt <= s.startedAt <= s.stores
    && (forall t :: 0 <= t < |s.threads| && s.threads[t].Passing? ==> s.threads[t].mark == s.startedAt)
    && (s.finishedAt != s.startedAt ==>
          exists t :: 0 <= t < |s.threads| && s.threads[t].Passing?)
  }

  ghost predicate Inv(s: State) {
    OneOwner(s) && PendingIsWatched(s) && UnservedIsCarried(s) && PassesAreAccounted(s)
  }

  lemma OneOwnerKept(s: State, a: Step)
    requires Inv(s) && Enabled(s, a)
    ensures OneOwner(Next(s, a))
  {
    var n := Next(s, a);
    if a.Run? && n.scheduled {
      if s.threads[a.t] == WakerCas && !s.scheduled {
        assert Owns(n.threads[|n.threads| - 1]);
      } else if s.threads[a.t] == Retaking && !s.scheduled {
        assert Owns(n.threads[a.t]);
      } else {
        var t :| 0 <= t < |s.threads| && Owns(s.threads[t]);
        assert Owns(n.threads[t]);
      }
    } else if n.scheduled {
      var t :| 0 <= t < |s.threads| && Owns(s.threads[t]);
      assert Owns(n.threads[t]);
    }
  }

  lemma PendingStaysWatched(s: State, a: Step)
    requires Inv(s) && Enabled(s, a)
    ensures PendingIsWatched(Next(s, a))
  {
    var n := Next(s, a);
    if n.pending && !n.scheduled {
      if a.Run? && (s.threads[a.t] == WakerStore || s.threads[a.t] == Releasing || s.threads[a.t] == Loading) {
        assert WillLook(n.threads[a.t]);
      } else if a.Arrive? {
        var t :| 0 <= t < |s.threads| && WillLook(s.threads[t]);
        assert WillLook(n.threads[t]);
      }
    }
  }

  lemma UnservedStaysCarried(s: State, a: Step)
    requires Inv(s) && Enabled(s, a)
    ensures UnservedIsCarried(Next(s, a))
  {
    var n := Next(s, a);
    if n.startedAt < n.stores && !n.pending {
      if a.Run? && s.threads[a.t] == Clearing {
        assert BeforePass(n.threads[a.t]);
      } else {
        var t :| 0 <= t < |s.threads| && BeforePass(s.threads[t]);
        assert BeforePass(n.threads[t]);
      }
    }
  }

  lemma PassesStayAccounted(s: State, a: Step)
    requires Inv(s) && Enabled(s, a)
    ensures PassesAreAccounted(Next(s, a))
  {
    var n := Next(s, a);
    if n.finishedAt != n.startedAt {
      if a.Run? && s.threads[a.t] == Starting {
        assert n.threads[a.t].Passing?;
      } else {
        var t :| 0 <= t < |s.threads| && s.threads[t].Passing?;
        assert n.threads[t].Passing?;
      }
    }
  }

  lemma {:induction false} InvHolds(steps: seq<Step>)
    requires After(steps).Some?
    ensures Inv(After(steps).value)
  {
    if steps != [] {
      var s, a := After(steps[..|steps| - 1]).value, steps[|steps| - 1];
      InvHolds(steps[..|steps| - 1]);
      OneOwnerKept(s, a);
      PendingStaysWatched(s, a);
      UnservedStaysCarried(s, a);
      PassesStayAccounted(s, a);
    }
  }

  // At most one goroutine owns wakeScheduled, so the guard after a pass never
  // fires: a runner about to release the flag always finds it set.
  lemma SingleOwner(steps: seq<Step>, t: nat, u: nat)
    requires After(steps).Some?
    requires t < |After(steps).value.threads| && u < |After(steps).value.threads|
    requires Owns(After(steps).value.threads[t]) && Owns(After(steps).value.threads[u])
    ensures t == u && After(steps).value.scheduled
  {
    InvHolds(steps);
  }

  // Once every goroutine has finished, nothing is pending, the flag is free,
  // and the last finished pass started after every store of wakePending.
  lemma NoWakeIsLost(steps: seq<Step>)
    requires After(steps).Some?
    requires forall t :: 0 <= t < |After(steps).value.threads| ==> After(steps).value.threads[t] == Finished
    ensures !After(steps).value.pending && !After(steps).value.scheduled
    ensures After(steps).value.finishedAt == After(steps).value.stores
  {
    InvHolds(steps);
  }

  // --- The goroutines do finish: without new calls every step lowers a rank ---

  function Stores(ts: seq<Pc>): nat {
    if ts == [] then 0 else (if ts[0] == WakerStore then 1 else 0) + Stores(ts[1..])
  }

  // While wakePending is set a runner may go round once more; once it is clear
  // and no store is left to come, every loop ends at its next load.
  function Weight(pending: bool, pc: Pc): nat {
    match pc
    case WakerStore => 9
    case WakerCas => 9
    case Finished => 0
    case Clearing => if pending then 1 else 6
    case Retaking => if pending then 2 else 7
    case Loading => if pending then 3 else 1
    case Releasing => if pending then 4 else 2
    case Passing(_) => if pending then 5 else 3
    case Starting => if pending then 6 else 4
  }

  function Total(pending: bool, ts: seq<Pc>): nat {
    if ts == [] then 0 else Weight(pending, ts[0]) + Total(pending, ts[1..])
  }

  lemma {:induction false} Replaced(pending: bool, ts: seq<Pc>, t: nat, pc: Pc)
    requires t < |ts|
    ensures Stores(ts[t := pc]) == Stores(ts) - Stores([ts[t]]) + Stores([pc])
    ensures Total(pending, ts[t := pc]) == Total(pending, ts) - Weight(pending, ts[t]) + Weight(pending, pc)
  {
    if t == 0 {
      assert ts[0 := pc][1..] == ts[1..];
    } else {
      Replaced(pending, ts[1..], t - 1, pc);
      assert ts[t := pc][1..] == ts[1..][t - 1 := pc];
    }
  }

  lemma {:induction false} Appended(pending: bool, ts: seq<Pc>, pc: Pc)
    ensures Stores(ts + [pc]) == Stores(ts) + Stores([pc])
    ensures Total(pending, ts + [pc]) == Total(pending, ts) + Weight(pending, pc)
  {
    if ts != [] {
      Appended(pending, ts[1..], pc);
      assert (ts + [pc])[1..] == ts[1..] + [pc];
    } else {
      assert ts + [pc] == [pc];
    }
  }

  predicate Lower(s: State, n: State) {
    || Stores(n.threads) < Stores(s.threads)
    || (Stores(n.threads) == Stores(s.threads) && s.pending && !n.pending)
    || (Stores(n.threads) == Stores(s.threads) && s.pending == n.pending
        && Total(n.pending, n.threads) < Total(s.pending, s.threads))
  }

  // Every step of a running goroutine lowers the rank (stores still to come,
  // wakePending, remaining work), so a burst of wakes always quiesces: with
  // NoWakeIsLost, each wake is served by a pass that starts after it.
  lemma StepsQuiesce(s: State, t: nat)
    requires Enabled(s, Run(t))
    ensures Lower(s, Next(s, Run(t)))
  {
    var n := Next(s, Run(t));
    var pc := n.threads[t];
    Replaced(n.pending, s.threads, t, pc);
    if s.threads[t] == WakerCas && !s.scheduled {
      Appended(n.pending, s.threads[t := pc], Clearing);
    }
  }

  // --- Every call is served ---

  function Arrivals(steps: seq<Step>): nat {
    if steps == [] then 0
    else Arrivals(steps[..|steps| - 1]) + if steps[|steps| - 1] == Arrive then 1 else 0
  }

  // Each call stores wakePending once.
  lemma {:induction false} StoresAreCalls(steps: seq<Step>)
    requires After(steps).Some?
    ensures After(steps).value.stores + Stores(After(steps).value.threads) == Arrivals(steps)
  {
    if steps != [] {
      var s, a := After(steps[..|steps| - 1]).value, steps[|steps| - 1];
      StoresAreCalls(steps[..|steps| - 1]);
      if a.Arrive? { Appended(false, s.threads, WakerStore); } else { RunStoresOnce(s, a.t); }
    }
  }

  lemma RunStoresOnce(s: State, t: nat)
    requires Enabled(s, Run(t))
    ensures Next(s, Run(t)).stores + Stores(Next(s, Run(t)).threads) == s.stores + Stores(s.threads)
  {
    var pc := Next(s, Run(t)).threads[t];
    Replaced(false, s.threads, t, pc);
    if s.threads[t] == WakerCas && !s.scheduled { Appended(false, s.threads[t := pc], Clearing); }
  }

  lemma {:induction false} NoneToStore(ts: seq<Pc>)
    requires forall t :: 0 <= t < |ts| ==> ts[t] == Finished
    ensures Stores(ts) == 0
  {
    if ts != [] { NoneToStore(ts[1..]); }
  }

  // With no new call the goroutines run to their end, and the last pass started
  // after every call so far had stored its wake.
  lemma {:induction false} EveryCallIsServed(steps: seq<Step>, s: State) returns (more: seq<Step>, n: State)
    requires After(steps) == Some(s)
    ensures After(more) == Some(n) && Arrivals(more) == Arrivals(steps)
    ensures forall t :: 0 <= t < |n.threads| ==> n.threads[t] == Finished
    ensures n.finishedAt == Arrivals(steps) && !n.pending && !n.scheduled
    decreases Stores(s.threads), if s.pending then 1 else 0, Total(s.pending, s.threads)
  {
    if t: nat :| t < |s.threads| && s.threads[t] != Finished {
      assert (steps + [Run(t)])[..|steps|] == steps;
      StepsQuiesce(s, t);
      more, n := EveryCallIsServed(steps + [Run(t)], Next(s, Run(t)));
    } else {
      more, n := steps, s;
      NoWakeIsLost(steps);
      StoresAreCalls(steps);
      NoneToStore(s.threads);
    }
  }

  // A call may come at any time, and one more is then served.
  lemma NextCallIsServed(steps: seq<Step>, s: State) returns (more: seq<Step>, n: State)
    requires After(steps) == Some(s)
    ensures After(more) == Some(n) && n.finishedAt == Arrivals(steps) + 1
  {
    assert (steps + [Arrive])[..|steps|] == steps;
    more, n := EveryCallIsServed(steps + [Arrive], Next(s, Arrive));
  }
}
