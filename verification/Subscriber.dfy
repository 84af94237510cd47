/**
 One event-stream subscriber (api/events.go, eventSub).

 The emitter delivers under the bus lock; the consumer reads the channel at
 any moment, also between the two selects of a send. The channel is a queue
 of `capacity` items. Everything ever queued stays in `pushed`; `fates` says
 what became of the items that have left the queue, oldest first.
 */
module Subscriber {
  import opened Options

  datatype Item = Event(number: nat) | Gap(count: nat)
  datatype Fate = Read | Shed

  // Where the emitter is: outside deliver, or inside a send of the event or of
  // the gap marker, before its first select or between the two.
  datatype Pc =
    | Idle
    | Offering(item: Item)
    | Refused(item: Item)

  datatype State = State(
    pushed: seq<Item>,
    fates: seq<Fate>,
    dropped: nat,
    pc: Pc,
    marker: Option<nat>,   // where the latest gap marker was queued
    newest: Option<nat>,   // where the latest event was queued
    readsSince: nat,       // items the consumer took since the last refusal
    overtaken: bool,       // the latest event was shed to make room for its own marker
    delivered: nat,        // deliveries begun
    uncounted: nat)        // items shed to make room for markers

  datatype Step = Deliver | Offer | MakeRoom | Consume

  function Init(): State { State([], [], 0, Idle, None, None, 0, false, 0, 0) }

  function Queued(s: State): int { |s.pushed| - |s.fates| }

  predicate Enabled(capacity: nat, s: State, step: Step) {
    match step
    case Deliver => s.pc.Idle?
    case Offer => s.pc.Offering?
    case MakeRoom => s.pc.Refused?
    case Consume => Queued(s) > 0
  }

  // What follows a successful send: the marker when something was shed.
  function AfterPush(s: State, item: Item): State {
    var n := s.(pushed := s.pushed + [item]);
    if item.Gap? then n.(dropped := 0, marker := Some(|s.pushed|), pc := Idle)
    else n.(newest := Some(|s.pushed|), pc := if s.dropped > 0 then Offering(Gap(s.dropped)) else Idle)
  }

  function Next(capacity: nat, s: State, step: Step): State
    requires Enabled(capacity, s, step)
  {
    match step
    case Deliver => s.(pc := Offering(Event(s.delivered)), delivered := s.delivered + 1, overtaken := false)
    case Offer =>
      if Queued(s) < capacity then AfterPush(s, s.pc.item) else s.(pc := Refused(s.pc.item), readsSince := 0)
    case MakeRoom =>
      var n := s.(pc := Offering(s.pc.item));
      if Queued(s) > 0
      then n.(fates := s.fates + [Shed], dropped := s.dropped + 1,
              overtaken := s.overtaken || (s.pc.item.Gap? && Queued(s) == 1),
              uncounted := s.uncounted + if s.pc.item.Gap? then 1 else 0)
      else n
    case Consume => s.(fates := s.fates + [Read], readsSince := s.readsSince + 1)
  }

  function After(capacity: nat, steps: seq<Step>): Option<State>
    decreases |steps|, 1
  {
    if steps == [] then Some(Init()) else AfterLast(capacity, steps)
  }

  function AfterLast(capacity: nat, steps: seq<Step>): Option<State>
    requires steps != []
    decreases |steps|, 0
  {
    var before, step := After(capacity, steps[..|steps| - 1]), steps[|steps| - 1];
    if before.Some? && Enabled(capacity, before.value, step) then Some(Next(capacity, before.value, step)) else None
  }

  // --- Invariants ---

  ghost predicate WasShed(s: State, i: nat) { i < |s.fates| && s.fates[i] == Shed }

  ghost predicate Bounded(capacity: nat, s: State) {
    && 0 <= Queued(s) <= capacity
    && (s.pc.Refused? ==> Queued(s) == capacity - s.readsSince)
  }

  // Every loss is behind the latest marker, or still to be announced.
  ghost predicate Announced(s: State) {
    && (s.marker.Some? ==> s.marker.value < |s.pushed| && s.pushed[s.marker.value].Gap?)
    && (s.pc.Idle? ==> s.dropped == 0)
    && (!s.pc.Idle? && s.pc.item.Gap? ==> s.dropped > 0)
    && (forall i: nat :: WasShed(s, i) ==> s.dropped > 0 || (s.marker.Some? && i < s.marker.value))
  }

  // Events are numbered in the order they were delivered.
  ghost predicate InOrder(s: State) {
    && (!s.pc.Idle? ==> s.delivered > 0)
    && (forall i, j :: 0 <= i < j < |s.pushed| && s.pushed[i].Event? && s.pushed[j].Event? ==>
          s.pushed[i].number < s.pushed[j].number)
    && (forall i :: 0 <= i < |s.pushed| && s.pushed[i].Event? ==> s.pushed[i].number < s.delivered)
    && (!s.pc.Idle? && s.pc.item.Event? ==>
          s.pc.item.number + 1 == s.delivered &&
          forall i :: 0 <= i < |s.pushed| && s.pushed[i].Event? ==> s.pushed[i].number + 1 < s.delivered)
    && (s.newest.Some? ==> s.newest.value < |s.pushed| && s.pushed[s.newest.value].Event?)
    && ((s.pc.Idle? && s.delivered > 0) || (!s.pc.Idle? && s.pc.item.Gap?) ==>
          s.newest.Some? && s.pushed[s.newest.value] == Event(s.delivered - 1))
    && (!s.pc.Idle? && s.pc.item.Gap? ==> s.newest.value == |s.pushed| - 1)
  }

  // Once queued, the latest event is lost only by being overtaken.
  ghost predicate Fresh(s: State) {
    && (!s.pc.Idle? && s.pc.item.Event? ==> !s.overtaken)
    && (s.newest.Some? && (s.pc.Idle? || s.pc.item.Gap?) ==> (WasShed(s, s.newest.value) <==> s.overtaken))
  }

  // What the markers queued so far have reported.
  function Reported(items: seq<Item>): nat {
    if items == [] then 0
    else Reported(items[..|items| - 1]) + (if items[|items| - 1].Gap? then items[|items| - 1].count else 0)
  }

  function Sheds(fates: seq<Fate>): nat {
    if fates == [] then 0 else Sheds(fates[..|fates| - 1]) + (if fates[|fates| - 1] == Shed then 1 else 0)
  }

  // What the marker being queued will report, or one would.
  function Reporting(s: State): nat { if !s.pc.Idle? && s.pc.item.Gap? then s.pc.item.count else s.dropped }

  ghost predicate Honest(s: State) {
    && Reported(s.pushed) + Reporting(s) + s.uncounted == Sheds(s.fates)
    && Reporting(s) <= s.dropped <= Reporting(s) + s.uncounted
    && (!s.pc.Idle? && s.pc.item.Gap? ==> s.pc.item.count > 0)
  }

  ghost predicate Inv(capacity: nat, s: State) {
    Bounded(capacity, s) && Announced(s) && InOrder(s) && Fresh(s) && Honest(s)
  }

  lemma BoundedHolds(capacity: nat, s: State, step: Step)
    requires Inv(capacity, s) && Enabled(capacity, s, step)
    ensures Bounded(capacity, Next(capacity, s, step))
  {
  }

  lemma AnnouncedHolds(capacity: nat, s: State, step: Step)
    requires Inv(capacity, s) && Enabled(capacity, s, step)
    ensures Announced(Next(capacity, s, step))
  {
    var n := Next(capacity, s, step);
    forall i: nat | WasShed(n, i) ensures n.dropped > 0 || (n.marker.Some? && i < n.marker.value) {
      if i < |s.fates| { assert WasShed(s, i); }
    }
  }

  lemma InOrderHolds(capacity: nat, s: State, step: Step)
    requires Inv(capacity, s) && Enabled(capacity, s, step)
    ensures InOrder(Next(capacity, s, step))
  {
    if step == Offer && Queued(s) < capacity { PushKeepsOrder(s); }
  }

  lemma PushKeepsOrder(s: State)
    requires InOrder(s) && s.pc.Offering?
    ensures InOrder(AfterPush(s, s.pc.item))
  {
  }

  lemma FreshHolds(capacity: nat, s: State, step: Step)
    requires Inv(capacity, s) && Enabled(capacity, s, step)
    ensures Fresh(Next(capacity, s, step))
  {
  }

  lemma HonestHolds(capacity: nat, s: State, step: Step)
    requires Inv(capacity, s) && Enabled(capacity, s, step)
    ensures Honest(Next(capacity, s, step))
  {
    if step.Offer? && Queued(s) < capacity { PushIsHonest(s); }
    if step.MakeRoom? || step.Consume? { LeavingIsCounted(s.fates); }
  }

  lemma PushIsHonest(s: State)
    requires Honest(s) && s.pc.Offering?
    ensures Honest(AfterPush(s, s.pc.item))
  {
    assert (s.pushed + [s.pc.item])[..|s.pushed|] == s.pushed;
  }

  lemma LeavingIsCounted(fates: seq<Fate>)
    ensures Sheds(fates + [Shed]) == Sheds(fates) + 1 && Sheds(fates + [Read]) == Sheds(fates)
  {
    assert (fates + [Shed])[..|fates|] == fates && (fates + [Read])[..|fates|] == fates;
  }

  lemma InvIsKept(capacity: nat, s: State, step: Step)
    requires Inv(capacity, s) && Enabled(capacity, s, step)
    ensures Inv(capacity, Next(capacity, s, step))
  {
    BoundedHolds(capacity, s, step);
    AnnouncedHolds(capacity, s, step);
    InOrderHolds(capacity, s, step);
    FreshHolds(capacity, s, step);
    HonestHolds(capacity, s, step);
  }

  lemma {:induction false} InvHolds(capacity: nat, steps: seq<Step>)
    requires After(capacity, steps).Some?
    ensures Inv(capacity, After(capacity, steps).value)
  {
    if steps != [] {
      InvHolds(capacity, steps[..|steps| - 1]);
      InvIsKept(capacity, After(capacity, steps[..|steps| - 1]).value, steps[|steps| - 1]);
    }
  }

  // --- Theorems over every run ---

  // Between deliveries, a consumer that lost anything finds a gap marker that
  // was queued after the last lost item and has not itself been lost.
  lemma LossIsAnnounced(capacity: nat, steps: seq<Step>, i: nat)
    requires After(capacity, steps).Some?
    requires var s := After(capacity, steps).value; s.pc.Idle? && WasShed(s, i)
    ensures var s := After(capacity, steps).value;
            && s.marker.Some? && i < s.marker.value < |s.pushed|
            && s.pushed[s.marker.value].Gap? && !WasShed(s, s.marker.value)
  {
    InvHolds(capacity, steps);
  }

  // Between deliveries the counts the markers carry add up to what was really
  // lost, less exactly the items shed to make room for markers.
  lemma CountsAreLowerBounds(capacity: nat, steps: seq<Step>)
    requires After(capacity, steps).Some?
    ensures var s := After(capacity, steps).value;
            && Reported(s.pushed) + s.dropped <= Sheds(s.fates)
            && (s.pc.Idle? ==> Reported(s.pushed) == Sheds(s.fates) - s.uncounted)
  {
    InvHolds(capacity, steps);
  }

  lemma {:induction false} ShedsCount(fates: seq<Fate>)
    ensures Sheds(fates) == |set i | 0 <= i < |fates| && fates[i] == Shed|
  {
    var all := set i | 0 <= i < |fates| && fates[i] == Shed;
    if fates == [] {
      assert all == {};
    } else {
      var n := |fates| - 1;
      ShedsCount(fates[..n]);
      var rest := set i | 0 <= i < n && fates[..n][i] == Shed;
      assert all == if fates[n] == Shed then rest + {n} else rest;
    }
  }

  lemma {:induction false} ReportedSplits(a: seq<Item>, b: seq<Item>)
    ensures Reported(a + b) == Reported(a) + Reported(b)
    ensures forall item: Item :: Reported([item]) == if item.Gap? then item.count else 0
  {
    forall item: Item ensures Reported([item]) == if item.Gap? then item.count else 0 { assert [item][..0] == []; }
    if b == [] {
      assert a + b == a;
    } else {
      assert (a + b)[..|a + b| - 1] == a + b[..|b| - 1];
      ReportedSplits(a, b[..|b| - 1]);
    }
  }

  // The queue never exceeds its buffer.
  lemma BufferIsBounded(capacity: nat, steps: seq<Step>)
    requires After(capacity, steps).Some?
    ensures 0 <= Queued(After(capacity, steps).value) <= capacity
  {
    InvHolds(capacity, steps);
  }

  // Whatever the consumer reads comes in emission order, each event at most once.
  lemma ReadsAreOrdered(capacity: nat, steps: seq<Step>, i: nat, j: nat)
    requires After(capacity, steps).Some?
    requires var s := After(capacity, steps).value;
             i < j < |s.fates| <= |s.pushed| && s.fates[i] == Read && s.fates[j] == Read &&
             s.pushed[i].Event? && s.pushed[j].Event?
    ensures var s := After(capacity, steps).value; s.pushed[i].number < s.pushed[j].number
  {
    InvHolds(capacity, steps);
  }

  // Between deliveries, the event delivered last has been lost if and only if
  // making room for its own marker found it alone in the queue.
  lemma NewestLostIff(capacity: nat, steps: seq<Step>)
    requires After(capacity, steps).Some?
    requires var s := After(capacity, steps).value; s.pc.Idle? && s.delivered > 0
    ensures var s := After(capacity, steps).value;
            && s.newest.Some? && s.newest.value < |s.pushed| && s.pushed[s.newest.value] == Event(s.delivered - 1)
            && (WasShed(s, s.newest.value) <==> s.overtaken)
  {
    InvHolds(capacity, steps);
  }

  // That needs the consumer to take all but one of the buffered items between
  // the two selects of one send.
  lemma OvertakingNeedsReads(capacity: nat, steps: seq<Step>, step: Step)
    requires After(capacity, steps).Some? && Enabled(capacity, After(capacity, steps).value, step)
    ensures var s := After(capacity, steps).value;
            !s.overtaken && Next(capacity, s, step).overtaken <==>
            !s.overtaken && step.MakeRoom? && s.pc.item.Gap? && s.readsSince == capacity - 1
  {
    InvHolds(capacity, steps);
  }

  // So where the consumer never reads between the two selects, with room for
  // two items every event survives its own delivery.
  ghost predicate ReadsOutsideSends(capacity: nat, steps: seq<Step>) {
    forall i :: 0 <= i < |steps| && steps[i].Consume? && After(capacity, steps[..i]).Some? ==>
      !After(capacity, steps[..i]).value.pc.Refused?
  }

  lemma {:induction false} NewestSurvives(capacity: nat, steps: seq<Step>)
    requires capacity >= 2 && After(capacity, steps).Some? && ReadsOutsideSends(capacity, steps)
    ensures var s := After(capacity, steps).value;
            && !s.overtaken && (s.pc.Refused? ==> s.readsSince == 0)
            && (s.pc.Idle? && s.delivered > 0 ==> s.newest.Some? && !WasShed(s, s.newest.value))
  {
    InvHolds(capacity, steps);
    if steps != [] {
      var rest := steps[..|steps| - 1];
      forall i | 0 <= i < |rest| && rest[i].Consume? && After(capacity, rest[..i]).Some?
        ensures !After(capacity, rest[..i]).value.pc.Refused?
      {
        assert rest[..i] == steps[..i];
      }
      NewestSurvives(capacity, rest);
      InvHolds(capacity, rest);
    }
  }

  // It does happen, whatever the capacity: fill the queue, deliver one more
  // event, and let the consumer read all but one item before the second select.
  lemma Extend(capacity: nat, steps: seq<Step>, s: State, step: Step, n: State)
    requires After(capacity, steps) == Some(s) && Enabled(capacity, s, step) && n == Next(capacity, s, step)
    ensures After(capacity, steps + [step]) == Some(n)
  {
    assert (steps + [step])[..|steps|] == steps;
  }

  function Numbered(n: nat): seq<Item> { seq(n, i requires 0 <= i < n => Event(i)) }

  function Filled(k: nat): State {
    State(Numbered(k), [], 0, Idle, None, if k == 0 then None else Some(k - 1), 0, false, k, 0)
  }

  lemma Fill(capacity: nat, k: nat) returns (steps: seq<Step>)
    requires k <= capacity
    ensures After(capacity, steps) == Some(Filled(k))
  {
    steps := [];
    assert Numbered(0) == [];
    for i := 0 to k
      invariant After(capacity, steps) == Some(Filled(i))
    {
      var offering := Filled(i).(pc := Offering(Event(i)), delivered := i + 1);
      Extend(capacity, steps, Filled(i), Deliver, offering);
      assert Numbered(i) + [Event(i)] == Numbered(i + 1);
      Extend(capacity, steps + [Deliver], offering, Offer, Filled(i + 1));
      steps := steps + [Deliver] + [Offer];
    }
  }

  // One delivery too many: its event is queued, its marker refused, and the
  // consumer has since read `taken` items.
  function Overrun(capacity: nat, taken: nat): State {
    State(Numbered(capacity + 1), [Shed] + seq(taken, _ => Read), 1, Refused(Gap(1)),
          None, Some(capacity), taken, false, capacity + 1, 0)
  }

  lemma ReachOverrun(capacity: nat) returns (steps: seq<Step>)
    requires capacity > 0
    ensures After(capacity, steps) == Some(Overrun(capacity, 0))
  {
    steps := Fill(capacity, capacity);
    var s1 := Filled(capacity).(pc := Offering(Event(capacity)), delivered := capacity + 1);
    Extend(capacity, steps, Filled(capacity), Deliver, s1);
    var s2 := s1.(pc := Refused(Event(capacity)));
    Extend(capacity, steps + [Deliver], s1, Offer, s2);
    var s3 := s1.(fates := [Shed], dropped := 1);
    Extend(capacity, steps + [Deliver] + [Offer], s2, MakeRoom, s3);
    assert Numbered(capacity) + [Event(capacity)] == Numbered(capacity + 1);
    var s4 := s3.(pushed := Numbered(capacity + 1), newest := Some(capacity), pc := Offering(Gap(1)));
    Extend(capacity, steps + [Deliver] + [Offer] + [MakeRoom], s3, Offer, s4);
    assert [Shed] + seq(0, _ => Read) == [Shed];
    Extend(capacity, steps + [Deliver] + [Offer] + [MakeRoom] + [Offer], s4, Offer, Overrun(capacity, 0));
    steps := steps + [Deliver] + [Offer] + [MakeRoom] + [Offer] + [Offer];
  }

  lemma ReadAllButOne(capacity: nat) returns (steps: seq<Step>)
    requires capacity > 0
    ensures After(capacity, steps) == Some(Overrun(capacity, capacity - 1))
  {
    steps := ReachOverrun(capacity);
    for j := 0 to capacity - 1
      invariant After(capacity, steps) == Some(Overrun(capacity, j))
    {
      assert Overrun(capacity, j).fates + [Read] == Overrun(capacity, j + 1).fates;
      Extend(capacity, steps, Overrun(capacity, j), Consume, Overrun(capacity, j + 1));
      steps := steps + [Consume];
    }
  }

  lemma NewestCanBeLost(capacity: nat) returns (steps: seq<Step>)
    requires capacity > 0
    ensures var r := After(capacity, steps);
            r.Some? && r.value.pc.Idle? && r.value.newest.Some? && WasShed(r.value, r.value.newest.value)
  {
    steps := ReadAllButOne(capacity);
    var s1 := Overrun(capacity, capacity - 1);
    var s2 := Next(capacity, s1, MakeRoom);
    Extend(capacity, steps, s1, MakeRoom, s2);
    assert WasShed(s2, capacity);
    Extend(capacity, steps + [MakeRoom], s2, Offer, Next(capacity, s2, Offer));
    steps := steps + [MakeRoom] + [Offer];
  }

  // A consumer that keeps up reads every event, and nothing is shed.
  lemma KeepsUp(capacity: nat, k: nat) returns (steps: seq<Step>)
    requires k <= capacity
    ensures After(capacity, steps) ==
            Some(Filled(k).(fates := seq(k, _ => Read), readsSince := k))
  {
    steps := Fill(capacity, k);
    assert seq(0, _ => Read) == [];
    for j := 0 to k
      invariant After(capacity, steps) == Some(Filled(k).(fates := seq(j, _ => Read), readsSince := j))
    {
      var now := Filled(k).(fates := seq(j, _ => Read), readsSince := j);
      assert now.fates + [Read] == seq(j + 1, _ => Read);
      Extend(capacity, steps, now, Consume, Filled(k).(fates := seq(j + 1, _ => Read), readsSince := j + 1));
      steps := steps + [Consume];
    }
  }
}
