/**
 Room on the snapshot disk (api/disk_room.go): the bytes promised and the
 bytes being freed, and the grant under the admission lock.
 */
module DiskRoom {
  import opened Options

  // --- Promised and freeing bytes ---

  const FREEING_TTL := 30_000  // milliseconds

  datatype Entry = Entry(bytes: int, at: int, freeAtNote: int)

  datatype Reservation = Reservation(bytes: int, released: bool)

  function Outstanding(reservations: seq<Reservation>): int {
    if reservations == [] then 0
    else
      var r := reservations[|reservations| - 1];
      Outstanding(reservations[..|reservations| - 1]) + if r.released then 0 else r.bytes
  }

  predicate Settled(e: Entry, now: int, freeNow: int) {
    freeNow - e.freeAtNote >= e.bytes || now - e.at >= FREEING_TTL
  }

  function Unsettled(entries: seq<Entry>, now: int, freeNow: int): seq<Entry> {
    if entries == [] then []
    else
      var e := entries[|entries| - 1];
      Unsettled(entries[..|entries| - 1], now, freeNow) + if Settled(e, now, freeNow) then [] else [e]
  }

  function Total(entries: seq<Entry>): int {
    if entries == [] then 0 else Total(entries[..|entries| - 1]) + entries[|entries| - 1].bytes
  }

  // An entry stays as often as it was noted if the disk has grown by less than
  // its bytes and it is less than 30 seconds old, and otherwise goes.
  lemma {:induction false} UnsettledIff(entries: seq<Entry>, now: int, freeNow: int, e: Entry)
    ensures multiset(Unsettled(entries, now, freeNow))[e] ==
            if freeNow < e.freeAtNote + e.bytes && now < e.at + 30_000 then multiset(entries)[e] else 0
  {
    if entries != [] {
      UnsettledIff(entries[..|entries| - 1], now, freeNow, e);
      assert entries == entries[..|entries| - 1] + [entries[|entries| - 1]];
    }
  }

  lemma AllUnsettled(entries: seq<Entry>, now: int, freeNow: int)
    ensures forall e :: e in Unsettled(entries, now, freeNow) <==>
              e in entries && freeNow < e.freeAtNote + e.bytes && now < e.at + 30_000
  {
    var kept := Unsettled(entries, now, freeNow);
    forall e ensures e in kept <==> e in entries && freeNow < e.freeAtNote + e.bytes && now < e.at + 30_000 {
      UnsettledIff(entries, now, freeNow, e);
      assert e in entries <==> e in multiset(entries);
      assert e in kept <==> e in multiset(kept);
    }
  }

  lemma {:induction false} TotalSplits(a: seq<Entry>, b: seq<Entry>)
    ensures Total(a + b) == Total(a) + Total(b)
    ensures |a| == 1 ==> Total(a) == a[0].bytes
  {
    if b == [] {
      assert a + b == a;
    } else {
      assert (a + b)[..|a + b| - 1] == a + b[..|b| - 1];
      TotalSplits(a, b[..|b| - 1]);
    }
    if |a| == 1 { assert a[..0] == []; }
  }

  lemma {:induction false} OutstandingAfter(reservations: seq<Reservation>, k: nat)
    requires k < |reservations|
    ensures Outstanding(reservations[k := reservations[k].(released := true)]) ==
            Outstanding(reservations) - if reservations[k].released then 0 else reservations[k].bytes
  {
    var after := reservations[k := reservations[k].(released := true)];
    var n := |reservations| - 1;
    if k == n {
      assert after[..n] == reservations[..n];
    } else {
      OutstandingAfter(reservations[..n], k);
      assert after[..n] == reservations[..n][k := reservations[k].(released := true)];
    }
  }

  lemma OutstandingWith(reservations: seq<Reservation>, n: int)
    ensures Outstanding(reservations + [Reservation(n, false)]) == Outstanding(reservations) + n
  {
    assert (reservations + [Reservation(n, false)])[..|reservations|] == reservations;
  }

  // The entries that stay, and their bytes.
  method StillFreeing(entries: seq<Entry>, now: int, freeNow: int) returns (kept: seq<Entry>, bytes: int)
    ensures kept == Unsettled(entries, now, freeNow) && bytes == Total(kept)
  {
    kept, bytes := [], 0;
    for i := 0 to |entries|
      invariant kept == Unsettled(entries[..i], now, freeNow) && bytes == Total(kept)
    {
      assert entries[..i + 1][..i] == entries[..i];
      if !Settled(entries[i], now, freeNow) {
        assert (kept + [entries[i]])[..|kept|] == kept;
        kept, bytes := kept + [entries[i]], bytes + entries[i].bytes;
      }
    }
    assert entries[..|entries|] == entries;
  }

  class Inflight {
    var pending: int
    var freeing: seq<Entry>
    // One flag per release handed out: whether it has run.
    var reservations: seq<Reservation>

    ghost predicate Valid()
      reads this
    {
      pending == Outstanding(reservations)
    }

    constructor ()
      ensures Valid() && pending == 0 && reservations == [] && freeing == []
    {
      pending, freeing, reservations := 0, [], [];
    }

    method Reserve(n: int) returns (handle: nat)
      requires Valid()
      modifies this
      ensures Valid() && freeing == old(freeing)
      ensures handle == |old(reservations)| && reservations == old(reservations) + [Reservation(n, false)]
    {
      OutstandingWith(reservations, n);
      handle := |reservations|;
      pending, reservations := pending + n, reservations + [Reservation(n, false)];
    }

    // The release of one reservation, as often as it is called.
    method Release(handle: nat)
      requires Valid() && handle < |reservations|
      modifies this
      ensures Valid() && freeing == old(freeing)
      ensures reservations == old(reservations)[handle := old(reservations)[handle].(released := true)]
    {
      OutstandingAfter(reservations, handle);
      if !reservations[handle].released {
        pending := pending - reservations[handle].bytes;
        reservations := reservations[handle := reservations[handle].(released := true)];
      } else {
        assert reservations[handle := reservations[handle].(released := true)] == reservations;
      }
    }

    method NoteFreeing(n: int, at: int, freeAtNote: int)
      requires Valid()
      modifies this
      ensures Valid() && reservations == old(reservations) && freeing == old(freeing) + [Entry(n, at, freeAtNote)]
    {
      freeing := freeing + [Entry(n, at, freeAtNote)];
    }

    method Settle(now: int, freeNow: int) returns (promised: int, crediting: int)
      requires Valid()
      modifies this
      ensures Valid() && reservations == old(reservations)
      ensures freeing == Unsettled(old(freeing), now, freeNow)
      ensures promised == Outstanding(reservations) && crediting == Total(freeing)
      ensures forall e :: e in freeing <==>
                e in old(freeing) && freeNow < e.freeAtNote + e.bytes && now < e.at + 30_000
    {
      AllUnsettled(freeing, now, freeNow);
      freeing, crediting := StillFreeing(freeing, now, freeNow);
      promised := pending;
    }
  }

  // computeDiskRoom.
  function Usable(free: int, reserved: int, floor: int, pending: int, freeing: int): int {
    free - reserved - floor - pending + freeing
  }

  // A request fits if and only if the free bytes and those being freed cover it
  // together with the running leases' reservations, the floor and what is
  // promised already.
  lemma FitsIff(free: int, reserved: int, floor: int, pending: int, freeing: int, need: int)
    ensures need <= Usable(free, reserved, floor, pending, freeing) <==>
            reserved + floor + pending + need <= free + freeing
  {
  }

  // --- Granting under the admission lock ---

  // A request: waiting for the lock, holding it, having read the room, done.
  datatype Pc =
    | Asking(need: int)
    | Holding(need: int)
    | Seen(need: int, budget: int, pending: int)
    | Granted(handle: nat, budget: int, after: int)
    | Refused

  // `locked` says whether the admission lock is in force at all.
  datatype State = State(reservations: seq<Reservation>, threads: seq<Pc>, holder: Option<nat>, locked: bool)

  // `budget` is free - reserved - floor + freeing as one read found it.
  datatype Step = Ask(need: int) | Lock(t: nat) | Read(t: nat, budget: int) | Decide(t: nat) | Release(handle: nat)

  function Init(locked: bool): State { State([], [], None, locked) }

  predicate Enabled(s: State, step: Step) {
    match step
    case Ask(need) => need > 0
    case Lock(t) => t < |s.threads| && s.threads[t].Asking? && (s.locked ==> s.holder.None?)
    case Read(t, _) => t < |s.threads| && s.threads[t].Holding?
    case Decide(t) => t < |s.threads| && s.threads[t].Seen?
    case Release(h) => h < |s.reservations|
  }

  function Next(s: State, step: Step): State
    requires Enabled(s, step)
  {
    match step
    case Ask(need) => s.(threads := s.threads + [Asking(need)])
    case Lock(t) => s.(threads := s.threads[t := Holding(s.threads[t].need)], holder := Some(t))
    case Read(t, budget) =>
      s.(threads := s.threads[t := Seen(s.threads[t].need, budget, Outstanding(s.reservations))])
    case Decide(t) =>
      var p := s.threads[t];
      if Usable(p.budget, 0, 0, p.pending, 0) < p.need
      then s.(threads := s.threads[t := Refused], holder := None)
      else
        var rs := s.reservations + [Reservation(p.need, false)];
        State(rs, s.threads[t := Granted(|s.reservations|, p.budget, Outstanding(rs))], None, s.locked)
    case Release(h) =>
      s.(reservations := s.reservations[h := s.reservations[h].(released := true)])
  }

  function After(locked: bool, steps: seq<Step>): Option<State> {
    if steps == [] then Some(Init(locked))
    else
      var before, step := After(locked, steps[..|steps| - 1]), steps[|steps| - 1];
      if before.Some? && Enabled(before.value, step) then Some(Next(before.value, step)) else None
  }

  ghost predicate ThreadOk(s: State, t: nat)
    requires t < |s.threads|
  {
    var p := s.threads[t];
    && (p.Asking? || p.Holding? || p.Seen? ==> p.need > 0)
    && (p.Holding? || p.Seen? ==> s.holder == Some(t))
    && (p.Seen? ==> Outstanding(s.reservations) <= p.pending)
    && (p.Granted? ==> p.handle < |s.reservations| && p.after <= p.budget)
  }

  ghost predicate Inv(s: State) {
    && s.locked
    && (forall k :: 0 <= k < |s.reservations| ==> s.reservations[k].bytes > 0)
    && (forall t :: 0 <= t < |s.threads| ==> ThreadOk(s, t))
  }

  lemma DecideKeeps(s: State, t: nat)
    requires Inv(s) && Enabled(s, Decide(t))
    ensures Inv(Next(s, Decide(t)))
  {
    var n := Next(s, Decide(t));
    assert ThreadOk(s, t);
    OutstandingWith(s.reservations, s.threads[t].need);
    forall u | 0 <= u < |n.threads| ensures ThreadOk(n, u) { assert ThreadOk(s, u); }
  }

  lemma ReleaseKeeps(s: State, h: nat)
    requires Inv(s) && Enabled(s, Release(h))
    ensures Inv(Next(s, Release(h)))
  {
    var n := Next(s, Release(h));
    OutstandingAfter(s.reservations, h);
    forall u | 0 <= u < |n.threads| ensures ThreadOk(n, u) { assert ThreadOk(s, u); }
  }

  lemma InvIsKept(s: State, step: Step)
    requires Inv(s) && Enabled(s, step)
    ensures Inv(Next(s, step))
  {
    if step.Decide? {
      DecideKeeps(s, step.t);
    } else if step.Release? {
      ReleaseKeeps(s, step.handle);
    } else {
      var n := Next(s, step);
      forall u | 0 <= u < |n.threads| ensures ThreadOk(n, u) {
        if u < |s.threads| { assert ThreadOk(s, u); }
      }
    }
  }

  lemma {:induction false} InvHolds(steps: seq<Step>)
    requires After(true, steps).Some?
    ensures Inv(After(true, steps).value)
  {
    if steps != [] {
      InvHolds(steps[..|steps| - 1]);
      InvIsKept(After(true, steps[..|steps| - 1]).value, steps[|steps| - 1]);
    }
  }

  // However requests and releases interleave, everything promised at the
  // moment of a grant, the grant included, fits the room that grant read.
  lemma NoOvergrant(steps: seq<Step>, t: nat)
    requires After(true, steps).Some?
    requires t < |After(true, steps).value.threads| && After(true, steps).value.threads[t].Granted?
    ensures After(true, steps).value.threads[t].after <= After(true, steps).value.threads[t].budget
  {
    InvHolds(steps);
    assert ThreadOk(After(true, steps).value, t);
  }

  // A request is granted if and only if what it needs and what was promised when
  // it read the room fit the room; it is refused otherwise, and a grant adds
  // exactly its bytes to what is promised.
  lemma GrantedIff(s: State, t: nat)
    requires Enabled(s, Decide(t))
    ensures var p, n := s.threads[t], Next(s, Decide(t));
            && (n.threads[t].Granted? <==> p.pending + p.need <= p.budget)
            && (!n.threads[t].Granted? ==> n.threads[t].Refused? && n.reservations == s.reservations)
            && n.holder.None?
            && Outstanding(n.reservations) == Outstanding(s.reservations) + if n.threads[t].Granted? then p.need else 0
  {
    OutstandingWith(s.reservations, s.threads[t].need);
  }

  // Without the lock, two requests can each be granted the whole room.
  lemma WithoutLockOvergrants() returns (steps: seq<Step>)
    ensures After(false, steps).Some? && |After(false, steps).value.threads| == 2
    ensures After(false, steps).value.threads[1].Granted?
    ensures After(false, steps).value.threads[1].budget < After(false, steps).value.threads[1].after
  {
    steps := BothRead();
    var s0 := State([], [Seen(1, 1, 0), Seen(1, 1, 0)], Some(1), false);
    OutstandingWith([], 1);
    assert [] + [Reservation(1, false)] == [Reservation(1, false)];
    var s1 := State([Reservation(1, false)], [Granted(0, 1, 1), Seen(1, 1, 0)], None, false);
    Extend(steps, s0, Decide(0), s1);
    OutstandingWith(s1.reservations, 1);
    Extend(steps + [Decide(0)], s1, Decide(1), Next(s1, Decide(1)));
    steps := steps + [Decide(0)] + [Decide(1)];
  }

  lemma BothRead() returns (steps: seq<Step>)
    ensures After(false, steps) == Some(State([], [Seen(1, 1, 0), Seen(1, 1, 0)], Some(1), false))
  {
    var s1 := State([], [Asking(1)], None, false);
    Extend([], Init(false), Ask(1), s1);
    var s2 := State([], [Holding(1)], Some(0), false);
    Extend([] + [Ask(1)], s1, Lock(0), s2);
    var s3 := State([], [Seen(1, 1, 0)], Some(0), false);
    Extend([] + [Ask(1)] + [Lock(0)], s2, Read(0, 1), s3);
    steps := [] + [Ask(1)] + [Lock(0)] + [Read(0, 1)];
    var s4 := State([], [Seen(1, 1, 0), Asking(1)], Some(0), false);
    Extend(steps, s3, Ask(1), s4);
    var s5 := State([], [Seen(1, 1, 0), Holding(1)], Some(1), false);
    Extend(steps + [Ask(1)], s4, Lock(1), s5);
    Extend(steps + [Ask(1)] + [Lock(1)], s5, Read(1, 1), State([], [Seen(1, 1, 0), Seen(1, 1, 0)], Some(1), false));
    steps := steps + [Ask(1)] + [Lock(1)] + [Read(1, 1)];
  }

  lemma Extend(steps: seq<Step>, s: State, step: Step, n: State)
    requires After(false, steps) == Some(s) && Enabled(s, step) && n == Next(s, step)
    ensures After(false, steps + [step]) == Some(n)
  {
    assert (steps + [step])[..|steps|] == steps;
  }
}
