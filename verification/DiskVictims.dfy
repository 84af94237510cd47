/**
 Choosing whose paused leases give way when the snapshot disk is short
 (api/disk_room.go, diskVictims). Ratios are exact quotients.
 */
module DiskVictims {
  import opened Options

  datatype Lease = Lease(id: string, bytes: int, pinned: bool, pausedAt: int)

  datatype Owner = Owner(name: string, used: int, slice: int, paused: seq<Lease>)

  // A chosen lease and the owner, by position, that loses it.
  datatype Victim = Victim(owner: nat, lease: Lease, ratio: real)

  // --- An owner's leases in the order they are given up ---

  function Unpinned(leases: seq<Lease>): seq<Lease> {
    if leases == [] then []
    else
      var l := leases[|leases| - 1];
      Unpinned(leases[..|leases| - 1]) + if l.pinned then [] else [l]
  }

  // A stable sort by pause time: each lease goes in behind those not younger.
  function Insert(sorted: seq<Lease>, l: Lease): seq<Lease> {
    if sorted == [] || sorted[|sorted| - 1].pausedAt <= l.pausedAt then sorted + [l]
    else Insert(sorted[..|sorted| - 1], l) + [sorted[|sorted| - 1]]
  }

  function OldestFirst(leases: seq<Lease>): seq<Lease> {
    if leases == [] then [] else Insert(OldestFirst(leases[..|leases| - 1]), leases[|leases| - 1])
  }

  function Order(o: Owner): seq<Lease> { OldestFirst(Unpinned(o.paused)) }

  ghost predicate Sorted(leases: seq<Lease>) {
    forall i, j :: 0 <= i < j < |leases| ==> leases[i].pausedAt <= leases[j].pausedAt
  }

  function PausedAt(leases: seq<Lease>, t: int): seq<Lease> {
    if leases == [] then []
    else PausedAt(leases[..|leases| - 1], t) +
         if leases[|leases| - 1].pausedAt == t then [leases[|leases| - 1]] else []
  }

  ghost predicate NotAfter(leases: seq<Lease>, t: int) {
    forall i :: 0 <= i < |leases| ==> leases[i].pausedAt <= t
  }

  lemma {:induction false} InsertSorts(sorted: seq<Lease>, l: Lease, t: int)
    requires Sorted(sorted)
    ensures Sorted(Insert(sorted, l))
    ensures NotAfter(sorted, t) && l.pausedAt <= t ==> NotAfter(Insert(sorted, l), t)
  {
    if sorted != [] && sorted[|sorted| - 1].pausedAt > l.pausedAt {
      var init, last := sorted[..|sorted| - 1], sorted[|sorted| - 1];
      InsertSorts(init, l, last.pausedAt);
      InsertSorts(init, l, t);
    }
  }

  lemma {:induction false} InsertHolds(sorted: seq<Lease>, l: Lease)
    ensures multiset(Insert(sorted, l)) == multiset(sorted) + multiset{l}
  {
    if sorted != [] && sorted[|sorted| - 1].pausedAt > l.pausedAt {
      InsertHolds(sorted[..|sorted| - 1], l);
      assert sorted == sorted[..|sorted| - 1] + [sorted[|sorted| - 1]];
    }
  }

  lemma PausedAtNext(leases: seq<Lease>, l: Lease, t: int)
    ensures PausedAt(leases + [l], t) == PausedAt(leases, t) + if l.pausedAt == t then [l] else []
  {
    assert (leases + [l])[..|leases|] == leases;
  }

  lemma {:induction false} InsertIsStable(sorted: seq<Lease>, l: Lease, t: int)
    requires Sorted(sorted)
    ensures PausedAt(Insert(sorted, l), t) == PausedAt(sorted, t) + if l.pausedAt == t then [l] else []
  {
    if sorted == [] || sorted[|sorted| - 1].pausedAt <= l.pausedAt {
      PausedAtNext(sorted, l, t);
    } else {
      var init, last := sorted[..|sorted| - 1], sorted[|sorted| - 1];
      InsertIsStable(init, l, t);
      PausedAtNext(Insert(init, l), last, t);
    }
  }

  // The order is the owner's unpinned leases, oldest first, and leases paused
  // at the same moment keep their places.
  lemma OldestFirstSorts(leases: seq<Lease>, t: int)
    ensures Sorted(OldestFirst(leases)) && multiset(OldestFirst(leases)) == multiset(leases)
    ensures PausedAt(OldestFirst(leases), t) == PausedAt(leases, t)
  {
    OldestFirstIsStable(leases, t);
    OldestFirstHolds(leases);
  }

  lemma {:induction false} OldestFirstIsStable(leases: seq<Lease>, t: int)
    ensures Sorted(OldestFirst(leases)) && PausedAt(OldestFirst(leases), t) == PausedAt(leases, t)
  {
    if leases != [] {
      OldestFirstIsStable(leases[..|leases| - 1], t);
      InsertSorts(OldestFirst(leases[..|leases| - 1]), leases[|leases| - 1], t);
      InsertIsStable(OldestFirst(leases[..|leases| - 1]), leases[|leases| - 1], t);
    }
  }

  lemma {:induction false} OldestFirstHolds(leases: seq<Lease>)
    ensures multiset(OldestFirst(leases)) == multiset(leases)
  {
    if leases != [] {
      OldestFirstHolds(leases[..|leases| - 1]);
      InsertHolds(OldestFirst(leases[..|leases| - 1]), leases[|leases| - 1]);
      assert leases == leases[..|leases| - 1] + [leases[|leases| - 1]];
    }
  }

  lemma {:induction false} InsertKeeps(sorted: seq<Lease>, l: Lease, x: Lease)
    requires x in Insert(sorted, l)
    ensures x in sorted || x == l
  {
    if sorted != [] && sorted[|sorted| - 1].pausedAt > l.pausedAt && x in Insert(sorted[..|sorted| - 1], l) {
      InsertKeeps(sorted[..|sorted| - 1], l, x);
    }
  }

  lemma {:induction false} OldestFirstKeeps(leases: seq<Lease>, x: Lease)
    requires x in OldestFirst(leases)
    ensures x in leases
  {
    if leases != [] {
      InsertKeeps(OldestFirst(leases[..|leases| - 1]), leases[|leases| - 1], x);
      if x in OldestFirst(leases[..|leases| - 1]) { OldestFirstKeeps(leases[..|leases| - 1], x); }
    }
  }

  lemma {:induction false} UnpinnedKeeps(leases: seq<Lease>, x: Lease)
    requires x in Unpinned(leases)
    ensures x in leases && !x.pinned
  {
    if leases != [] && x in Unpinned(leases[..|leases| - 1]) { UnpinnedKeeps(leases[..|leases| - 1], x); }
  }

  lemma {:induction false} UnpinnedSelects(leases: seq<Lease>, l: Lease)
    ensures multiset(Unpinned(leases))[l] == if l.pinned then 0 else multiset(leases)[l]
  {
    if leases != [] {
      UnpinnedSelects(leases[..|leases| - 1], l);
      assert leases == leases[..|leases| - 1] + [leases[|leases| - 1]];
    }
  }

  // Pinned leases are never in the order; unpinned ones as often as they are held.
  lemma OrderHolds(o: Owner, l: Lease)
    ensures multiset(Order(o))[l] == if l.pinned then 0 else multiset(o.paused)[l]
  {
    OldestFirstSorts(Unpinned(o.paused), 0);
    UnpinnedSelects(o.paused, l);
  }

  // --- Whose turn it is ---

  // An owner as the selector sees it: the leases it may lose, in order.
  datatype Holder = Holder(name: string, used: int, slice: int, order: seq<Lease>)

  function Holds(o: Owner): Holder { Holder(o.name, o.used, o.slice, Order(o)) }

  function AllHold(owners: seq<Owner>): (r: seq<Holder>)
    ensures |r| == |owners| && forall j :: 0 <= j < |owners| ==> r[j] == Holds(owners[j])
  {
    seq(|owners|, j requires 0 <= j < |owners| => Holds(owners[j]))
  }

  function Ratio(used: int, slice: int): real {
    if slice <= 0 then 0.0 else used as real / slice as real
  }

  function Bytes(leases: seq<Lease>): int {
    if leases == [] then 0 else Bytes(leases[..|leases| - 1]) + leases[|leases| - 1].bytes
  }

  // The ratio the requester would sit at, by the last row that names them.
  function Bar(owners: seq<Holder>, requester: string, need: int): real {
    if owners == [] then 0.0
    else
      var o := owners[|owners| - 1];
      if o.name == requester then Ratio(o.used + need, o.slice)
      else Bar(owners[..|owners| - 1], requester, need)
  }

  predicate Names(owners: seq<Holder>, requester: string) {
    exists i :: 0 <= i < |owners| && owners[i].name == requester
  }

  // How many of its leases owner i has lost to the picks.
  function Lost(picks: seq<nat>, i: nat): nat {
    if picks == [] then 0 else Lost(picks[..|picks| - 1], i) + if picks[|picks| - 1] == i then 1 else 0
  }

  function UsedAfter(o: Holder, lost: nat): int
    requires lost <= |o.order|
  {
    o.used - Bytes(o.order[..lost])
  }

  // Owner o may lose its next lease: it is over its slice and above the bar,
  // and still above the bar without that lease.
  predicate MayLose(o: Holder, requester: string, bar: real, lost: nat) {
    && o.name != requester && o.slice > 0 && lost < |o.order|
    && UsedAfter(o, lost) > o.slice
    && Ratio(UsedAfter(o, lost), o.slice) > bar
    && Ratio(UsedAfter(o, lost + 1), o.slice) > bar
  }

  // The ratio an owner is judged by, when it may lose a lease.
  function Score(o: Holder, requester: string, bar: real, lost: nat): Option<real> {
    if MayLose(o, requester, bar, lost) then Some(Ratio(UsedAfter(o, lost), o.slice)) else None
  }

  // Owner i is next: of those that may lose a lease it has the highest ratio,
  // and of equals it comes first.
  ghost predicate IsNext(owners: seq<Holder>, requester: string, bar: real, picks: seq<nat>, i: nat) {
    && i < |owners| && Score(owners[i], requester, bar, Lost(picks, i)).Some?
    && IsFirstHighest(owners, requester, bar, picks, i,
                      Score(owners[i], requester, bar, Lost(picks, i)).value, |owners|)
  }

  ghost predicate IsFirstHighest(
    owners: seq<Holder>, requester: string, bar: real, picks: seq<nat>, i: nat, r: real, n: nat)
    requires n <= |owners|
  {
    forall j :: 0 <= j < n ==>
      var sc := Score(owners[j], requester, bar, Lost(picks, j));
      sc.Some? ==> sc.value < r || (sc.value == r && i <= j)
  }

  ghost predicate Stuck(owners: seq<Holder>, requester: string, bar: real, picks: seq<nat>) {
    forall j :: 0 <= j < |owners| ==> Score(owners[j], requester, bar, Lost(picks, j)).None?
  }

  // The picks, each made in turn.
  ghost predicate InTurn(owners: seq<Holder>, requester: string, bar: real, picks: seq<nat>) {
    picks == [] ||
    (InTurn(owners, requester, bar, picks[..|picks| - 1]) &&
     IsNext(owners, requester, bar, picks[..|picks| - 1], picks[|picks| - 1]))
  }

  // What one pick takes, after the picks before it.
  function Take(owners: seq<Holder>, before: seq<nat>, i: nat): Victim
    requires i < |owners| && Lost(before, i) < |owners[i].order|
  {
    var o, lost := owners[i], Lost(before, i);
    Victim(i, o.order[lost], Ratio(UsedAfter(o, lost), o.slice))
  }

  ghost function Victims(owners: seq<Holder>, requester: string, bar: real, picks: seq<nat>): seq<Victim>
    requires InTurn(owners, requester, bar, picks)
  {
    if picks == [] then []
    else
      Victims(owners, requester, bar, picks[..|picks| - 1]) + [Take(owners, picks[..|picks| - 1], picks[|picks| - 1])]
  }

  function Freed(victims: seq<Victim>): int {
    if victims == [] then 0 else Freed(victims[..|victims| - 1]) + victims[|victims| - 1].lease.bytes
  }

  // --- The selector ---

  function Left(leaps: seq<seq<Lease>>): nat {
    if leaps == [] then 0 else Left(leaps[..|leaps| - 1]) + |leaps[|leaps| - 1]|
  }

  lemma {:induction false} LeftShrinks(leaps: seq<seq<Lease>>, i: nat)
    requires i < |leaps| && leaps[i] != []
    ensures Left(leaps[i := leaps[i][1..]]) == Left(leaps) - 1
  {
    var after := leaps[i := leaps[i][1..]];
    if i == |leaps| - 1 {
      assert after[..|leaps| - 1] == leaps[..|leaps| - 1];
    } else {
      LeftShrinks(leaps[..|leaps| - 1], i);
      assert after[..|leaps| - 1] == leaps[..|leaps| - 1][i := leaps[i][1..]];
    }
  }

  // The selector's per-owner bookkeeping after the picks so far.
  ghost predicate Tracks(owners: seq<Holder>, picks: seq<nat>, used: seq<int>, leaps: seq<seq<Lease>>) {
    && |used| == |leaps| == |owners|
    && forall j :: 0 <= j < |owners| ==>
         && Lost(picks, j) <= |owners[j].order|
         && leaps[j] == owners[j].order[Lost(picks, j)..]
         && used[j] == UsedAfter(owners[j], Lost(picks, j))
  }

  lemma LostGrows(picks: seq<nat>, i: nat, j: nat)
    ensures Lost(picks + [i], j) == Lost(picks, j) + if i == j then 1 else 0
  {
    assert (picks + [i])[..|picks|] == picks;
  }

  lemma UsedShrinks(o: Holder, lost: nat)
    requires lost < |o.order|
    ensures UsedAfter(o, lost + 1) == UsedAfter(o, lost) - o.order[lost].bytes
  {
    assert o.order[..lost + 1][..lost] == o.order[..lost];
  }

  lemma TracksPick(owners: seq<Holder>, picks: seq<nat>, used: seq<int>, leaps: seq<seq<Lease>>, i: nat)
    requires Tracks(owners, picks, used, leaps) && i < |owners| && leaps[i] != []
    ensures Tracks(owners, picks + [i], used[i := used[i] - leaps[i][0].bytes], leaps[i := leaps[i][1..]])
  {
    var used', leaps' := used[i := used[i] - leaps[i][0].bytes], leaps[i := leaps[i][1..]];
    forall j | 0 <= j < |owners|
      ensures && Lost(picks + [i], j) <= |owners[j].order|
              && leaps'[j] == owners[j].order[Lost(picks + [i], j)..]
              && used'[j] == UsedAfter(owners[j], Lost(picks + [i], j))
    {
      LostGrows(picks, i, j);
      if j == i { UsedShrinks(owners[i], Lost(picks, i)); }
    }
  }

  method ScoreOf(o: Holder, requester: string, bar: real, ghost lost: nat, used: int, leaps: seq<Lease>)
    returns (score: Option<real>)
    requires lost <= |o.order| && leaps == o.order[lost..] && used == UsedAfter(o, lost)
    ensures score == Score(o, requester, bar, lost)
  {
    if o.name == requester || |leaps| == 0 || o.slice <= 0 || used <= o.slice { return None; }
    UsedShrinks(o, lost);
    var r := Ratio(used, o.slice);
    if r <= bar || !(Ratio(used - leaps[0].bytes, o.slice) > bar) { return None; }
    return Some(r);
  }

  // One round: the owner whose turn it is, if any.
  method PickNext(owners: seq<Holder>, requester: string, bar: real, ghost picks: seq<nat>,
                  used: seq<int>, leaps: seq<seq<Lease>>) returns (best: Option<nat>)
    requires Tracks(owners, picks, used, leaps)
    ensures best.None? ==> Stuck(owners, requester, bar, picks)
    ensures best.Some? ==> IsNext(owners, requester, bar, picks, best.value)
  {
    best := None;
    var bestRatio := 0.0;
    for j := 0 to |owners|
      invariant best.None? ==> forall m :: 0 <= m < j ==> Score(owners[m], requester, bar, Lost(picks, m)).None?
      invariant best.Some? ==>
                  && best.value < j
                  && Score(owners[best.value], requester, bar, Lost(picks, best.value)) == Some(bestRatio)
                  && IsFirstHighest(owners, requester, bar, picks, best.value, bestRatio, j)
    {
      var score := ScoreOf(owners[j], requester, bar, Lost(picks, j), used[j], leaps[j]);
      if score.Some? && (best.None? || score.value > bestRatio) {
        best, bestRatio := Some(j), score.value;
      }
    }
  }

  method FindRequester(owners: seq<Holder>, requester: string, need: int) returns (seen: bool, bar: real)
    ensures seen <==> Names(owners, requester)
    ensures bar == Bar(owners, requester, need)
  {
    seen, bar := false, 0.0;
    for j := 0 to |owners|
      invariant seen <==> Names(owners[..j], requester)
      invariant bar == Bar(owners[..j], requester, need)
    {
      assert owners[..j + 1] == owners[..j] + [owners[j]];
      if owners[j].name == requester {
        seen, bar := true, Ratio(owners[j].used + need, owners[j].slice);
        assert owners[..j + 1][j].name == requester;
      } else {
        assert forall i :: 0 <= i < j ==> owners[..j + 1][i] == owners[..j][i];
      }
    }
    assert owners[..|owners|] == owners;
  }

  lemma TurnTaken(owners: seq<Holder>, requester: string, bar: real, picks: seq<nat>, i: nat)
    requires InTurn(owners, requester, bar, picks) && IsNext(owners, requester, bar, picks, i)
    ensures InTurn(owners, requester, bar, picks + [i])
    ensures Victims(owners, requester, bar, picks + [i]) ==
            Victims(owners, requester, bar, picks) + [Take(owners, picks, i)]
  {
    assert (picks + [i])[..|picks|] == picks;
  }

  lemma FreedGrows(victims: seq<Victim>, v: Victim)
    ensures Freed(victims + [v]) == Freed(victims) + v.lease.bytes && (victims + [v])[..|victims|] == victims
  {
  }

  // The picks, in turn, have freed less than is asked for, all the way.
  ghost predicate Below(owners: seq<Holder>, requester: string, bar: real, picks: seq<nat>, cover: int) {
    && InTurn(owners, requester, bar, picks)
    && Freed(Victims(owners, requester, bar, picks)) < cover
    && (picks != [] ==> Below(owners, requester, bar, picks[..|picks| - 1], cover))
  }

  // The picks, in turn, cover the bytes asked for, and did not before the last.
  ghost predicate JustCovers(owners: seq<Holder>, requester: string, bar: real, picks: seq<nat>, cover: int) {
    && InTurn(owners, requester, bar, picks) && picks != []
    && Below(owners, requester, bar, picks[..|picks| - 1], cover)
    && cover <= Freed(Victims(owners, requester, bar, picks))
  }

  // How far the picks are: still short, or just there.
  ghost predicate Stands(owners: seq<Holder>, requester: string, bar: real, picks: seq<nat>, freed: int, cover: int) {
    if freed < cover then Below(owners, requester, bar, picks, cover)
    else JustCovers(owners, requester, bar, picks, cover)
  }

  // The picks, in turn, fall short and nobody is left to pick.
  ghost predicate FallsShort(owners: seq<Holder>, requester: string, bar: real, picks: seq<nat>, cover: int) {
    Below(owners, requester, bar, picks, cover) && Stuck(owners, requester, bar, picks)
  }

  lemma NextHasOne(owners: seq<Holder>, requester: string, bar: real, picks: seq<nat>,
                   used: seq<int>, leaps: seq<seq<Lease>>, i: nat)
    requires Tracks(owners, picks, used, leaps) && IsNext(owners, requester, bar, picks, i)
    ensures leaps[i] != []
    ensures Take(owners, picks, i) == Victim(i, leaps[i][0], Ratio(used[i], owners[i].slice))
  {
  }

  // The selector's whole state after the picks so far.
  ghost predicate OnTrack(owners: seq<Holder>, requester: string, bar: real, picks: seq<nat>,
                          used: seq<int>, leaps: seq<seq<Lease>>, chosen: seq<Victim>) {
    && InTurn(owners, requester, bar, picks) && Tracks(owners, picks, used, leaps)
    && chosen == Victims(owners, requester, bar, picks)
  }

  method StartTracking(owners: seq<Holder>, requester: string, bar: real, cover: int)
    returns (used: seq<int>, leaps: seq<seq<Lease>>)
    requires 0 < cover
    ensures OnTrack(owners, requester, bar, [], used, leaps, [])
    ensures Stands(owners, requester, bar, [], 0, cover)
  {
    used := seq(|owners|, j requires 0 <= j < |owners| => owners[j].used);
    leaps := seq(|owners|, j requires 0 <= j < |owners| => owners[j].order);
  }

  lemma RoundKeepsTrack(owners: seq<Holder>, requester: string, bar: real, cover: int, picks: seq<nat>,
                        used: seq<int>, leaps: seq<seq<Lease>>, chosen: seq<Victim>, i: nat, v: Victim)
    requires OnTrack(owners, requester, bar, picks, used, leaps, chosen)
    requires IsNext(owners, requester, bar, picks, i) && leaps[i] != []
    requires v == Victim(i, leaps[i][0], Ratio(used[i], owners[i].slice))
    ensures OnTrack(owners, requester, bar, picks + [i],
                    used[i := used[i] - v.lease.bytes], leaps[i := leaps[i][1..]], chosen + [v])
    ensures Freed(chosen + [v]) == Freed(chosen) + v.lease.bytes
    ensures Below(owners, requester, bar, picks, cover) ==>
              Stands(owners, requester, bar, picks + [i], Freed(chosen + [v]), cover)
  {
    NextHasOne(owners, requester, bar, picks, used, leaps, i);
    TracksPick(owners, picks, used, leaps, i);
    TurnTaken(owners, requester, bar, picks, i);
    FreedGrows(chosen, v);
    assert (picks + [i])[..|picks|] == picks;
  }

  // One round: nothing when nobody may lose a lease, and otherwise the victim
  // and the bookkeeping after it.
  method TakeNext(owners: seq<Holder>, requester: string, bar: real, cover: int, ghost picks: seq<nat>,
                  used: seq<int>, leaps: seq<seq<Lease>>, chosen: seq<Victim>)
    returns (v: Option<Victim>, used': seq<int>, leaps': seq<seq<Lease>>)
    requires OnTrack(owners, requester, bar, picks, used, leaps, chosen)
    ensures v.None? ==> Stuck(owners, requester, bar, picks)
    ensures v.Some? ==>
              && OnTrack(owners, requester, bar, picks + [v.value.owner], used', leaps', chosen + [v.value])
              && Left(leaps') < Left(leaps) && Freed(chosen + [v.value]) == Freed(chosen) + v.value.lease.bytes
              && (Below(owners, requester, bar, picks, cover) ==>
                    Stands(owners, requester, bar, picks + [v.value.owner], Freed(chosen + [v.value]), cover))
  {
    var best := PickNext(owners, requester, bar, picks, used, leaps);
    if best.None? { return None, used, leaps; }
    var i := best.value;
    NextHasOne(owners, requester, bar, picks, used, leaps, i);
    LeftShrinks(leaps, i);
    var taken := Victim(i, leaps[i][0], Ratio(used[i], owners[i].slice));
    RoundKeepsTrack(owners, requester, bar, cover, picks, used, leaps, chosen, i, taken);
    return Some(taken), used[i := used[i] - taken.lease.bytes], leaps[i := leaps[i][1..]];
  }

  method TakeInTurn(owners: seq<Holder>, requester: string, bar: real, cover: int)
    returns (out: Option<seq<Victim>>, ghost picks: seq<nat>)
    requires 0 < cover
    ensures out.Some? ==>
              JustCovers(owners, requester, bar, picks, cover) && out.value == Victims(owners, requester, bar, picks)
    ensures out.None? ==> FallsShort(owners, requester, bar, picks, cover)
  {
    picks := [];
    var used, leaps := StartTracking(owners, requester, bar, cover);
    var freed, chosen := 0, [];
    while freed < cover
      invariant OnTrack(owners, requester, bar, picks, used, leaps, chosen) && freed == Freed(chosen)
      invariant Stands(owners, requester, bar, picks, freed, cover)
      decreases Left(leaps)
    {
      var v;
      v, used, leaps := TakeNext(owners, requester, bar, cover, picks, used, leaps, chosen);
      if v.None? { return None, picks; }
      chosen, freed := chosen + [v.value], freed + v.value.lease.bytes;
      picks := picks + [v.value.owner];
    }
    return Some(chosen), picks;
  }

  // Some picks in turn cover the bytes asked for.
  ghost predicate CanCover(owners: seq<Owner>, requester: string, need: int, cover: int) {
    var holders := AllHold(owners);
    0 < cover && Names(holders, requester) &&
    exists picks :: JustCovers(holders, requester, Bar(holders, requester, need), picks, cover)
  }

  // The victims are what such picks take.
  ghost predicate IsAnswer(owners: seq<Owner>, requester: string, need: int, cover: int, victims: seq<Victim>) {
    var holders := AllHold(owners);
    var bar := Bar(holders, requester, need);
    exists picks ::
      JustCovers(holders, requester, bar, picks, cover) && victims == Victims(holders, requester, bar, picks)
  }

  // Picks in turn fall short, and nobody is left who may lose a lease.
  ghost predicate IsShort(owners: seq<Owner>, requester: string, need: int, cover: int) {
    var holders := AllHold(owners);
    exists picks :: FallsShort(holders, requester, Bar(holders, requester, need), picks, cover)
  }

  // diskVictims: a list exactly when picks in turn can cover the bytes asked
  // for, and then it is what they take. (Module DiskFairness says the same in
  // bytes.)
  method ChooseVictims(owners: seq<Owner>, requester: string, need: int, cover: int)
    returns (out: Option<seq<Victim>>)
    ensures out.Some? <==> CanCover(owners, requester, need, cover)
    ensures out.Some? ==> IsAnswer(owners, requester, need, cover, out.value)
    ensures out.None? ==>
              cover <= 0 || (forall i :: 0 <= i < |owners| ==> owners[i].name != requester) ||
              IsShort(owners, requester, need, cover)
  {
    var holders := AllHold(owners);
    assert forall i :: 0 <= i < |owners| ==> holders[i].name == owners[i].name;
    var seen, bar := FindRequester(holders, requester, need);
    if cover <= 0 || |owners| == 0 || !seen { return None; }
    ghost var picks;
    out, picks := TakeInTurn(holders, requester, bar, cover);
    if !out.Some? {
      forall q ensures !JustCovers(holders, requester, bar, q, cover) {
        ShortHasNoCover(holders, requester, bar, cover, picks, q);
      }
    }
  }

  // --- What the choice guarantees ---

  // Taking in turn leaves no choice: of two runs, one continues the other.
  lemma {:induction false} OneWayOnly(owners: seq<Holder>, requester: string, bar: real, p: seq<nat>, q: seq<nat>)
    requires InTurn(owners, requester, bar, p) && InTurn(owners, requester, bar, q) && |p| <= |q|
    ensures p == q[..|p|]
    decreases |q|
  {
    if |p| < |q| {
      OneWayOnly(owners, requester, bar, p, q[..|q| - 1]);
      assert q[..|q| - 1][..|p|] == q[..|p|];
    } else if p != [] {
      OneWayOnly(owners, requester, bar, p[..|p| - 1], q[..|q| - 1]);
      assert p[..|p| - 1] == q[..|q| - 1];
      NextIsUnique(owners, requester, bar, p[..|p| - 1], p[|p| - 1], q[|q| - 1]);
    }
  }

  lemma {:induction false} BelowAllTheWay(
    owners: seq<Holder>, requester: string, bar: real, cover: int, picks: seq<nat>, k: nat)
    requires Below(owners, requester, bar, picks, cover) && k <= |picks|
    ensures Below(owners, requester, bar, picks[..k], cover)
  {
    if k == |picks| {
      assert picks[..k] == picks;
    } else {
      BelowAllTheWay(owners, requester, bar, cover, picks[..|picks| - 1], k);
      assert picks[..|picks| - 1][..k] == picks[..k];
    }
  }

  // So the answer is determined by the question.
  lemma AnswerIsUnique(
    owners: seq<Owner>, requester: string, need: int, cover: int, v: seq<Victim>, w: seq<Victim>)
    requires IsAnswer(owners, requester, need, cover, v) && IsAnswer(owners, requester, need, cover, w)
    ensures v == w
  {
    var holders := AllHold(owners);
    var bar := Bar(holders, requester, need);
    var p :| JustCovers(holders, requester, bar, p, cover) && v == Victims(holders, requester, bar, p);
    var q :| JustCovers(holders, requester, bar, q, cover) && w == Victims(holders, requester, bar, q);
    if |p| <= |q| {
      OneCover(holders, requester, bar, cover, p, q);
    } else {
      OneCover(holders, requester, bar, cover, q, p);
    }
  }

  // Picks that cover the bytes are unique,
  lemma OneCover(owners: seq<Holder>, requester: string, bar: real, cover: int, p: seq<nat>, q: seq<nat>)
    requires JustCovers(owners, requester, bar, p, cover) && JustCovers(owners, requester, bar, q, cover)
    requires |p| <= |q|
    ensures p == q
  {
    OneWayOnly(owners, requester, bar, p, q);
    if |p| < |q| {
      assert q[..|q| - 1][..|p|] == p;
      BelowAllTheWay(owners, requester, bar, cover, q[..|q| - 1], |p|);
    }
  }

  // and there are none when picks fall short with nobody left.
  lemma ShortHasNoCover(owners: seq<Holder>, requester: string, bar: real, cover: int, p: seq<nat>, q: seq<nat>)
    requires FallsShort(owners, requester, bar, p, cover)
    ensures !JustCovers(owners, requester, bar, q, cover)
  {
    if JustCovers(owners, requester, bar, q, cover) {
      if |q| <= |p| {
        OneWayOnly(owners, requester, bar, q, p);
        BelowAllTheWay(owners, requester, bar, cover, p, |q|);
      } else {
        OneWayOnly(owners, requester, bar, p, q);
        NextAt(owners, requester, bar, q, |p|);
      }
    }
  }

  lemma {:induction false} NextAt(owners: seq<Holder>, requester: string, bar: real, picks: seq<nat>, k: nat)
    requires InTurn(owners, requester, bar, picks) && k < |picks|
    ensures IsNext(owners, requester, bar, picks[..k], picks[k])
  {
    if k < |picks| - 1 {
      NextAt(owners, requester, bar, picks[..|picks| - 1], k);
      assert picks[..|picks| - 1][..k] == picks[..k];
    }
  }

  lemma NextIsUnique(owners: seq<Holder>, requester: string, bar: real, picks: seq<nat>, i: nat, j: nat)
    requires IsNext(owners, requester, bar, picks, i) && IsNext(owners, requester, bar, picks, j)
    ensures i == j
  {
  }

  // A victim: the next of its owner's leases, of an owner other than the
  // requester, strictly above the requester's ratio before and after losing
  // it, whose ratio is the highest of all that may lose a lease at that moment.
  ghost predicate Fair(owners: seq<Holder>, requester: string, bar: real, before: seq<nat>, v: Victim) {
    && IsNext(owners, requester, bar, before, v.owner) && owners[v.owner].name != requester
    && v.lease == owners[v.owner].order[Lost(before, v.owner)]
    && v.ratio == Ratio(UsedAfter(owners[v.owner], Lost(before, v.owner)), owners[v.owner].slice) > bar
    && Ratio(UsedAfter(owners[v.owner], Lost(before, v.owner) + 1), owners[v.owner].slice) > bar
  }

  lemma {:induction false} EveryVictimIsFair(
    owners: seq<Holder>, requester: string, bar: real, picks: seq<nat>, k: nat)
    requires InTurn(owners, requester, bar, picks) && k < |picks|
    ensures |Victims(owners, requester, bar, picks)| == |picks|
    ensures Fair(owners, requester, bar, picks[..k], Victims(owners, requester, bar, picks)[k])
  {
    var init := picks[..|picks| - 1];
    VictimsCount(owners, requester, bar, picks);
    VictimsCount(owners, requester, bar, init);
    if k < |init| {
      EveryVictimIsFair(owners, requester, bar, init, k);
      assert init[..k] == picks[..k];
    }
  }

  lemma {:induction false} VictimsCount(owners: seq<Holder>, requester: string, bar: real, picks: seq<nat>)
    requires InTurn(owners, requester, bar, picks)
    ensures |Victims(owners, requester, bar, picks)| == |picks|
  {
    if picks != [] { VictimsCount(owners, requester, bar, picks[..|picks| - 1]); }
  }

  // The leases one owner loses, in the order it loses them.
  function LeasesOf(victims: seq<Victim>, i: nat): seq<Lease> {
    if victims == [] then []
    else LeasesOf(victims[..|victims| - 1], i) +
         if victims[|victims| - 1].owner == i then [victims[|victims| - 1].lease] else []
  }

  lemma LeasesOfNext(victims: seq<Victim>, v: Victim, i: nat)
    ensures LeasesOf(victims + [v], i) == LeasesOf(victims, i) + if v.owner == i then [v.lease] else []
  {
    assert (victims + [v])[..|victims|] == victims;
  }

  // Each owner loses the oldest of its unpinned leases, each at most once.
  lemma {:induction false} OwnersLoseTheirOldest(
    owners: seq<Holder>, requester: string, bar: real, picks: seq<nat>, i: nat)
    requires InTurn(owners, requester, bar, picks) && i < |owners|
    ensures Lost(picks, i) <= |owners[i].order|
    ensures LeasesOf(Victims(owners, requester, bar, picks), i) == owners[i].order[..Lost(picks, i)]
  {
    if picks != [] {
      var init, last := picks[..|picks| - 1], picks[|picks| - 1];
      OwnersLoseTheirOldest(owners, requester, bar, init, i);
      LeasesOfNext(Victims(owners, requester, bar, init), Take(owners, init, last), i);
    }
  }

  // Nothing from k on was paused before the k-th.
  ghost predicate NotBefore(leases: seq<Lease>, k: nat)
    requires k < |leases|
  {
    forall j :: k <= j < |leases| ==> leases[k].pausedAt <= leases[j].pausedAt
  }

  // Back to the owners' own lists: a victim is one of its owner's paused
  // leases, is not pinned, and every unpinned lease the owner keeps was
  // paused no earlier.
  lemma VictimsAreOldest(owners: seq<Owner>, requester: string, bar: real, picks: seq<nat>, k: nat)
    requires InTurn(AllHold(owners), requester, bar, picks) && k < |picks|
    ensures var holders := AllHold(owners);
            && |Victims(holders, requester, bar, picks)| == |picks|
            && var v := Victims(holders, requester, bar, picks)[k];
               && v.owner < |owners| && v.lease in owners[v.owner].paused && !v.lease.pinned
               && Lost(picks[..k], v.owner) < |Order(owners[v.owner])|
               && v.lease == Order(owners[v.owner])[Lost(picks[..k], v.owner)]
               && NotBefore(Order(owners[v.owner]), Lost(picks[..k], v.owner))
  {
    var holders := AllHold(owners);
    EveryVictimIsFair(holders, requester, bar, picks, k);
    var v := Victims(holders, requester, bar, picks)[k];
    VictimIsOldest(owners[v.owner], Lost(picks[..k], v.owner));
  }

  lemma SortedFrom(leases: seq<Lease>, k: nat)
    requires Sorted(leases) && k < |leases|
    ensures NotBefore(leases, k)
  {
  }

  lemma VictimIsOldest(o: Owner, lost: nat)
    requires lost < |Order(o)|
    ensures Order(o)[lost] in o.paused && !Order(o)[lost].pinned
    ensures NotBefore(Order(o), lost)
  {
    MemberIsHeld(Unpinned(o.paused), o.paused, Order(o)[lost]);
    OldestFirstIsStable(Unpinned(o.paused), 0);
    SortedFrom(Order(o), lost);
  }

  lemma MemberIsHeld(unpinned: seq<Lease>, paused: seq<Lease>, x: Lease)
    requires unpinned == Unpinned(paused) && x in OldestFirst(unpinned)
    ensures x in paused && !x.pinned
  {
    OldestFirstKeeps(unpinned, x);
    UnpinnedKeeps(paused, x);
  }

  // Every victim of an answer, whichever picks it came from.
  lemma AnswerIsFair(owners: seq<Owner>, requester: string, need: int, cover: int, victims: seq<Victim>)
    requires IsAnswer(owners, requester, need, cover, victims)
    ensures victims != [] && cover <= Freed(victims) && Freed(victims[..|victims| - 1]) < cover
    ensures forall k :: 0 <= k < |victims| ==>
              && victims[k].owner < |owners| && owners[victims[k].owner].name != requester
              && victims[k].lease in owners[victims[k].owner].paused && !victims[k].lease.pinned
  {
    var holders := AllHold(owners);
    var bar := Bar(holders, requester, need);
    var picks :|
      JustCovers(holders, requester, bar, picks, cover) && victims == Victims(holders, requester, bar, picks);
    VictimsCount(holders, requester, bar, picks);
    var init := picks[..|picks| - 1];
    assert victims[..|victims| - 1] == Victims(holders, requester, bar, init);
    forall k | 0 <= k < |victims|
      ensures && victims[k].owner < |owners| && owners[victims[k].owner].name != requester
              && victims[k].lease in owners[victims[k].owner].paused && !victims[k].lease.pinned
    {
      VictimsAreOldest(owners, requester, bar, picks, k);
      EveryVictimIsFair(holders, requester, bar, picks, k);
    }
  }
}
