/**
 The fair-share snapshot (api/fair_shares.go): its cache, as a state machine
 over writers and computing readers, and the slices it gives to the owners.

 A snapshot is a function of the accounted quantities, so it is represented
 by the values read for them. A compute reads them one at a time, while
 writers change them.
 */
module FairShares {
  import opened Counting
  import opened Options

  datatype Pc =
    // a writer: the cells it has changed and not yet announced
    | Writer(cells: set<nat>)
    // a reader computing against the epoch it saw, with what it has read
    | Reader(epoch: nat, values: seq<int>)
    | Done

  datatype State = State(cells: seq<int>, threads: seq<Pc>, epoch: nat, cached: Option<seq<int>>)

  datatype Step =
    | Arrive(p: Pc)
    | WriteCell(t: nat, cell: nat, value: int)
    | Invalidate(t: nat)
    | ReadCell(t: nat)
    | Fail(t: nat)
    | Store(t: nat)

  function Init(cells: seq<int>): State { State(cells, [], 0, None) }

  function At(s: State, t: nat): Pc { if t < |s.threads| then s.threads[t] else Done }

  predicate Enabled(s: State, step: Step) {
    match step
    case Arrive(p) => p == Writer({}) || p == Reader(s.epoch, [])
    case WriteCell(t, cell, _) => At(s, t).Writer? && cell < |s.cells|
    case Invalidate(t) => At(s, t).Writer?
    case ReadCell(t) => At(s, t).Reader? && |At(s, t).values| < |s.cells|
    case Fail(t) => At(s, t).Reader?
    case Store(t) => At(s, t).Reader? && |At(s, t).values| == |s.cells|
  }

  function Next(s: State, step: Step): State
    requires Enabled(s, step)
  {
    match step
    case Arrive(p) => s.(threads := s.threads + [p])
    case WriteCell(t, cell, value) =>
      s.(cells := s.cells[cell := value], threads := s.threads[t := Writer(s.threads[t].cells + {cell})])
    case Invalidate(t) => s.(threads := s.threads[t := Done], epoch := s.epoch + 1, cached := None)
    case ReadCell(t) =>
      var p := s.threads[t];
      s.(threads := s.threads[t := p.(values := p.values + [s.cells[|p.values|]])])
    case Fail(t) => s.(threads := s.threads[t := Done])
    case Store(t) =>
      var n := s.(threads := s.threads[t := Done]);
      if s.threads[t].epoch == s.epoch then n.(cached := Some(s.threads[t].values)) else n
  }

  function After(cells: seq<int>, steps: seq<Step>): Option<State> {
    if steps == [] then Some(Init(cells))
    else
      var before, step := After(cells, steps[..|steps| - 1]), steps[|steps| - 1];
      if before.Some? && Enabled(before.value, step) then Some(Next(before.value, step)) else None
  }

  // Some writer has changed the cell and not invalidated yet.
  ghost predicate Unannounced(s: State, cell: nat) {
    exists t :: 0 <= t < |s.threads| && s.threads[t].Writer? && cell in s.threads[t].cells
  }

  // Every value still current, or its change unannounced.
  ghost predicate Current(s: State, values: seq<int>) {
    && |values| <= |s.cells|
    && forall k: nat :: k < |values| && values[k] != s.cells[k] ==> Unannounced(s, k)
  }

  ghost predicate ThreadOk(s: State, p: Pc) {
    p.Reader? ==> p.epoch <= s.epoch && (p.epoch == s.epoch ==> Current(s, p.values))
  }

  ghost predicate Inv(s: State) {
    && (forall t :: 0 <= t < |s.threads| ==> ThreadOk(s, s.threads[t]))
    && (s.cached.Some? ==> |s.cached.value| == |s.cells| && Current(s, s.cached.value))
  }

  // What is unannounced stays so until an invalidate.
  lemma StaysUnannounced(s: State, step: Step, cell: nat)
    requires Enabled(s, step) && !step.Invalidate? && Unannounced(s, cell)
    ensures Unannounced(Next(s, step), cell)
  {
    var n := Next(s, step);
    var t :| 0 <= t < |s.threads| && s.threads[t].Writer? && cell in s.threads[t].cells;
    assert n.threads[t].Writer? && cell in n.threads[t].cells;
  }

  lemma StaysCurrent(s: State, step: Step, values: seq<int>)
    requires Enabled(s, step) && !step.Invalidate? && Current(s, values)
    ensures Current(Next(s, step), values)
  {
    var n := Next(s, step);
    forall k: nat | k < |values| && values[k] != n.cells[k] ensures Unannounced(n, k) {
      if values[k] != s.cells[k] {
        StaysUnannounced(s, step, k);
      } else {
        assert step.WriteCell? && k in n.threads[step.t].cells;
      }
    }
  }

  lemma InvIsKept(s: State, step: Step)
    requires Inv(s) && Enabled(s, step)
    ensures Inv(Next(s, step))
  {
    var n := Next(s, step);
    forall t | 0 <= t < |n.threads| ensures ThreadOk(n, n.threads[t]) {
      if t < |s.threads| {
        assert ThreadOk(s, s.threads[t]);
        if !step.Invalidate? && s.threads[t].Reader? && s.threads[t].epoch == s.epoch {
          StaysCurrent(s, step, s.threads[t].values);
        }
      }
    }
    if !step.Invalidate? && n.cached.Some? {
      if step.Store? && n.cached != s.cached { assert ThreadOk(s, s.threads[step.t]); }
      StaysCurrent(s, step, n.cached.value);
    }
  }

  lemma {:induction false} InvHolds(cells: seq<int>, steps: seq<Step>)
    requires After(cells, steps).Some?
    ensures Inv(After(cells, steps).value)
  {
    if steps != [] {
      InvHolds(cells, steps[..|steps| - 1]);
      InvIsKept(After(cells, steps[..|steps| - 1]).value, steps[|steps| - 1]);
    }
  }

  // In every run, torn computes included, the cached snapshot differs from a
  // fresh compute only in quantities some writer has changed and not yet
  // invalidated; with no writer in between it is the fresh compute.
  lemma CacheIsFresh(cells: seq<int>, steps: seq<Step>)
    requires After(cells, steps).Some? && After(cells, steps).value.cached.Some?
    ensures var s := After(cells, steps).value;
            && |s.cached.value| == |s.cells|
            && (forall k: nat :: k < |s.cells| && s.cached.value[k] != s.cells[k] ==> Unannounced(s, k))
            && ((forall t :: 0 <= t < |s.threads| ==> !s.threads[t].Writer?) ==> s.cached.value == s.cells)
  {
    InvHolds(cells, steps);
    var s := After(cells, steps).value;
    if forall t :: 0 <= t < |s.threads| ==> !s.threads[t].Writer? {
      forall k | 0 <= k < |s.cells| ensures s.cached.value[k] == s.cells[k] {}
    }
  }

  // The quantities after the writes of a run.
  function Written(cells: seq<int>, steps: seq<Step>): seq<int> {
    if steps == [] then cells
    else
      var before, step := Written(cells, steps[..|steps| - 1]), steps[|steps| - 1];
      if step.WriteCell? && step.cell < |before| then before[step.cell := step.value] else before
  }

  lemma {:induction false} CellsAreWritten(cells: seq<int>, steps: seq<Step>)
    requires After(cells, steps).Some?
    ensures After(cells, steps).value.cells == Written(cells, steps)
  {
    if steps != [] { CellsAreWritten(cells, steps[..|steps| - 1]); }
  }

  lemma Extend(cells: seq<int>, steps: seq<Step>, s: State, step: Step, n: State)
    requires After(cells, steps) == Some(s) && Enabled(s, step) && n == Next(s, step)
    ensures After(cells, steps + [step]) == Some(n)
  {
    assert (steps + [step])[..|steps|] == steps;
  }

  // From any reachable state a compute that nobody disturbs is cached, and is
  // the quantities as they are.
  lemma QuietComputeIsCached(cells: seq<int>, before: seq<Step>, s: State) returns (steps: seq<Step>)
    requires After(cells, before) == Some(s)
    ensures After(cells, steps) == Some(s.(threads := s.threads + [Done], cached := Some(s.cells)))
  {
    steps := Computed(cells, before, s);
    var t, full := |s.threads|, s.(threads := s.threads + [Reader(s.epoch, s.cells)]);
    assert full.threads[t := Done] == s.threads + [Done];
    Extend(cells, steps, full, Store(t), s.(threads := s.threads + [Done], cached := Some(s.cells)));
    steps := steps + [Store(t)];
  }

  lemma Computed(cells: seq<int>, before: seq<Step>, s: State) returns (steps: seq<Step>)
    requires After(cells, before) == Some(s)
    ensures After(cells, steps) == Some(s.(threads := s.threads + [Reader(s.epoch, s.cells)]))
  {
    var t := |s.threads|;
    Extend(cells, before, s, Arrive(Reader(s.epoch, [])), s.(threads := s.threads + [Reader(s.epoch, [])]));
    steps := before + [Arrive(Reader(s.epoch, []))];
    assert s.cells[..0] == [];
    for k := 0 to |s.cells|
      invariant After(cells, steps) == Some(s.(threads := s.threads + [Reader(s.epoch, s.cells[..k])]))
    {
      var now := s.(threads := s.threads + [Reader(s.epoch, s.cells[..k])]);
      assert s.cells[..k] + [s.cells[k]] == s.cells[..k + 1];
      assert now.threads[t := Reader(s.epoch, s.cells[..k + 1])] == s.threads + [Reader(s.epoch, s.cells[..k + 1])];
      Extend(cells, steps, now, ReadCell(t), s.(threads := s.threads + [Reader(s.epoch, s.cells[..k + 1])]));
      steps := steps + [ReadCell(t)];
    }
    assert s.cells[..|s.cells|] == s.cells;
  }

  // Thread t is computing for the current epoch.
  predicate Begun(s: State, t: nat) { t < |s.threads| && s.threads[t].Reader? && s.threads[t].epoch == s.epoch }

  // A write and its invalidate empty the cache, and a compute begun before them
  // is not cached afterwards.
  lemma WriteDropsTheCache(cells: seq<int>, before: seq<Step>, s: State, cell: nat, value: int)
    returns (steps: seq<Step>, n: State)
    requires After(cells, before) == Some(s) && cell < |s.cells|
    ensures After(cells, steps) == Some(n) && n.cached.None? && n.cells == s.cells[cell := value]
    ensures n.threads == s.threads + [Done]
    ensures forall t: nat :: Begun(s, t) && Enabled(n, Store(t)) ==> Next(n, Store(t)).cached.None?
  {
    var t := |s.threads|;
    var s1 := s.(threads := s.threads + [Writer({})]);
    Extend(cells, before, s, Arrive(Writer({})), s1);
    assert s1.threads[t := Writer({cell})] == s.threads + [Writer({cell})];
    var s2 := s.(threads := s.threads + [Writer({cell})], cells := s.cells[cell := value]);
    assert {} + {cell} == {cell};
    Extend(cells, before + [Arrive(Writer({}))], s1, WriteCell(t, cell, value), s2);
    assert s2.threads[t := Done] == s.threads + [Done];
    n := s2.(threads := s.threads + [Done], epoch := Next(s2, Invalidate(t)).epoch, cached := None);
    Extend(cells, before + [Arrive(Writer({}))] + [WriteCell(t, cell, value)], s2, Invalidate(t), n);
    steps := before + [Arrive(Writer({}))] + [WriteCell(t, cell, value)] + [Invalidate(t)];
  }

  // --- Slices ---

  datatype View = View(owner: string, active: bool, memory: nat, disk: nat)

  // An active owner's part of the box; an idle one's is the part it would get
  // on starting.
  function ViewOf(owner: string, active: set<string>, memory: nat, disk: nat, known: bool): View {
    var n := |active|;
    if !known then View(owner, owner in active, 0, 0)
    else if owner !in active then View(owner, false, memory / (n + 1), disk / (n + 1))
    else View(owner, true, memory / n, disk / n)
  }

  method ComputeSlices(owners: seq<string>, active: set<string>, memory: nat, disk: nat, known: bool)
    returns (views: seq<View>)
    ensures |views| == |owners|
    ensures forall i :: 0 <= i < |owners| ==> views[i] == ViewOf(owners[i], active, memory, disk, known)
  {
    var n := |active|;
    var memSlice, diskSlice := 0, 0;
    if known && n > 0 { memSlice, diskSlice := memory / n, disk / n; }
    views := [];
    for i := 0 to |owners|
      invariant |views| == i
      invariant forall j :: 0 <= j < i ==> views[j] == ViewOf(owners[j], active, memory, disk, known)
    {
      var o := owners[i];
      var v := View(o, o in active, 0, 0);
      if o in active && n > 0 {
        v := v.(memory := memSlice, disk := diskSlice);
      } else if o !in active && known {
        v := v.(memory := memory / (n + 1), disk := disk / (n + 1));
      }
      views := views + [v];
    }
  }

  // A part: the largest whole number that `parts` times fits the box.
  predicate Part(share: nat, parts: nat, box: nat) { parts * share <= box < parts * (share + 1) }

  // An active owner is shown one part of as many as there are active owners, an
  // idle one of one more; nothing is shown while the capacity is unknown.
  lemma SliceIs(owner: string, active: set<string>, memory: nat, disk: nat, known: bool)
    ensures var v := ViewOf(owner, active, memory, disk, known);
            var parts := |active| + if owner in active then 0 else 1;
            && v.owner == owner && (v.active <==> owner in active)
            && if known then Part(v.memory, parts, memory) && Part(v.disk, parts, disk) else v.memory == v.disk == 0
  {
    var parts := |active| + if owner in active then 0 else 1;
    if parts > 0 {
      Divides(memory, parts);
      Divides(disk, parts);
    }
  }

  lemma Divides(box: nat, parts: nat)
    requires parts > 0
    ensures Part(box / parts, parts, box)
  {
    assert box == parts * (box / parts) + box % parts;
    assert parts * (box / parts + 1) == parts * (box / parts) + parts;
  }

  // What an idle owner is shown is what it gets when it becomes active.
  lemma IdleSliceIsKept(owner: string, active: set<string>, memory: nat, disk: nat, known: bool)
    requires owner !in active
    ensures ViewOf(owner, active + {owner}, memory, disk, known) ==
            ViewOf(owner, active, memory, disk, known).(active := true)
  {
    assert |active + {owner}| == |active| + 1;
  }

  function ActiveMemory(views: seq<View>): nat {
    if views == [] then 0
    else ActiveMemory(views[..|views| - 1]) + if views[|views| - 1].active then views[|views| - 1].memory else 0
  }

  function ActiveDisk(views: seq<View>): nat {
    if views == [] then 0
    else ActiveDisk(views[..|views| - 1]) + if views[|views| - 1].active then views[|views| - 1].disk else 0
  }

  // The active owners among those viewed.
  function Listed(views: seq<View>): set<string> {
    if views == [] then {}
    else Listed(views[..|views| - 1]) + if views[|views| - 1].active then {views[|views| - 1].owner} else {}
  }

  lemma {:induction false} ListedAreViewed(views: seq<View>, x: string)
    requires x in Listed(views)
    ensures exists i :: 0 <= i < |views| && views[i].owner == x && views[i].active
  {
    if x in Listed(views[..|views| - 1]) {
      ListedAreViewed(views[..|views| - 1], x);
      var i :| 0 <= i < |views| - 1 && views[..|views| - 1][i].owner == x && views[..|views| - 1][i].active;
      assert views[i].owner == x && views[i].active;
    } else {
      assert views[|views| - 1].owner == x && views[|views| - 1].active;
    }
  }

  // With equal slices and no owner twice, the sums are multiples of the slices.
  lemma {:induction false} EqualParts(views: seq<View>, memory: nat, disk: nat)
    requires forall i, j :: 0 <= i < j < |views| ==> views[i].owner != views[j].owner
    requires forall i :: 0 <= i < |views| && views[i].active ==> views[i].memory == memory && views[i].disk == disk
    ensures ActiveMemory(views) == |Listed(views)| * memory && ActiveDisk(views) == |Listed(views)| * disk
  {
    if views != [] {
      var rest, last := views[..|views| - 1], views[|views| - 1];
      EqualParts(rest, memory, disk);
      if last.active {
        if last.owner in Listed(rest) { ListedAreViewed(rest, last.owner); }
        OneMore(|Listed(rest)|, memory);
        OneMore(|Listed(rest)|, disk);
      }
    }
  }

  lemma OneMore(k: nat, c: nat)
    ensures (k + 1) * c == k * c + c
  {
  }

  lemma PartsFit(total: nat, n: nat, parts: nat)
    requires 0 < n && parts <= n
    ensures parts * (total / n) <= total
  {
    assert total == n * (total / n) + total % n;
    MulOrder(parts, n, total / n);
  }

  // The active owners' slices never sum past the box.
  lemma SlicesFit(owners: seq<string>, active: set<string>, memory: nat, disk: nat, known: bool, views: seq<View>)
    requires forall i, j :: 0 <= i < j < |owners| ==> owners[i] != owners[j]
    requires |views| == |owners|
    requires forall i :: 0 <= i < |owners| ==> views[i] == ViewOf(owners[i], active, memory, disk, known)
    ensures ActiveMemory(views) <= memory && ActiveDisk(views) <= disk
  {
    var n := |active|;
    var m, d := if known && n > 0 then memory / n else 0, if known && n > 0 then disk / n else 0;
    forall i | 0 <= i < |views| && views[i].active
      ensures views[i].memory == m && views[i].disk == d && views[i].owner in active
    {
      assert views[i] == ViewOf(owners[i], active, memory, disk, known);
    }
    EqualParts(views, m, d);
    ListedFit(views, active);
    if known && n > 0 {
      PartsFit(memory, n, |Listed(views)|);
      PartsFit(disk, n, |Listed(views)|);
    }
  }

  lemma ListedFit(views: seq<View>, active: set<string>)
    requires forall i :: 0 <= i < |views| && views[i].active ==> views[i].owner in active
    ensures |Listed(views)| <= |active|
  {
    forall x | x in Listed(views) ensures x in active { ListedAreViewed(views, x); }
    SmallerSet(Listed(views), active);
  }
}
