/**
 The loop that releases paused leases until a request fits on the disk
 (api/disk_room.go, reclaimLeasesForRoom). Other requests run between its
 steps: they may change any lease and any build, but lease ids are never
 reused, so a lease this loop released stays released.
 */
module Reclaim {
  import opened Counting
  import opened Options
  import opened DiskVictims

  datatype Live = Live(suspended: bool, busy: bool, pinned: bool, released: bool, build: string)

  datatype Outcome = Fits | CapacityWait | BoxFull | Unknown

  // A lease released by the loop: the build checked for use beforehand, what
  // the lease was at that moment, and the room read that led to it.
  datatype Commit = Commit(id: string, checked: string, was: Live, usable: int)

  predicate Releasable(l: Live) { l.suspended && !l.busy && !l.pinned && !l.released }

  // A lease the loop set aside: what it was when it was given up, if it was
  // still there, the build checked, and whether that build was found kept.
  datatype Abandoned = Abandoned(id: string, found: Option<Live>, checked: string, kept: bool)

  predicate Excused(a: Abandoned) {
    a.kept || a.found.None? ||
    (var l := a.found.value; !l.suspended || l.busy || l.pinned || l.released || l.build != a.checked)
  }

  function Ids(abandoned: seq<Abandoned>): set<string> {
    if abandoned == [] then {} else Ids(abandoned[..|abandoned| - 1]) + {abandoned[|abandoned| - 1].id}
  }

  lemma IdsGrow(abandoned: seq<Abandoned>, a: Abandoned)
    ensures Ids(abandoned + [a]) == Ids(abandoned) + {a.id}
  {
    assert (abandoned + [a])[..|abandoned|] == abandoned;
  }

  function Keep(leases: seq<Lease>, wanted: string -> bool): seq<Lease> {
    if leases == [] then []
    else
      var l := leases[|leases| - 1];
      Keep(leases[..|leases| - 1], wanted) + if wanted(l.id) then [l] else []
  }

  // The owners as listed, with only some of their leases.
  function Only(owners: seq<Owner>, wanted: string -> bool): (r: seq<Owner>)
    ensures |r| == |owners|
    ensures forall i :: 0 <= i < |r| ==> r[i] == owners[i].(paused := Keep(owners[i].paused, wanted))
  {
    seq(|owners|, i requires 0 <= i < |owners| => owners[i].(paused := Keep(owners[i].paused, wanted)))
  }

  function In(ids: set<string>): string -> bool { (id: string) => id in ids }

  function NotIn(ids: set<string>): string -> bool { (id: string) => id !in ids }

  // What the selector is offered: the owners without the leases set aside.
  function Offered(owners: seq<Owner>, stale: set<string>): seq<Owner> { Only(owners, NotIn(stale)) }

  lemma {:induction false} KeptAreWanted(leases: seq<Lease>, wanted: string -> bool, l: Lease)
    requires l in Keep(leases, wanted)
    ensures wanted(l.id) && l in leases
  {
    var init, last := leases[..|leases| - 1], leases[|leases| - 1];
    if l in Keep(init, wanted) { KeptAreWanted(init, wanted, l); }
  }

  // A lease is offered as often as it is listed, or not at all if it was set
  // aside; the order is the listing's.
  lemma {:induction false} KeepHolds(leases: seq<Lease>, stale: set<string>, l: Lease)
    ensures multiset(Keep(leases, NotIn(stale)))[l] == if l.id in stale then 0 else multiset(leases)[l]
  {
    if leases != [] {
      KeepHolds(leases[..|leases| - 1], stale, l);
      assert leases == leases[..|leases| - 1] + [leases[|leases| - 1]];
    }
  }

  lemma {:induction false} KeepSplits(a: seq<Lease>, b: seq<Lease>, wanted: string -> bool)
    ensures Keep(a + b, wanted) == Keep(a, wanted) + Keep(b, wanted)
  {
    if b == [] {
      assert a + b == a;
    } else {
      assert (a + b)[..|a + b| - 1] == a + b[..|b| - 1];
      KeepSplits(a, b[..|b| - 1], wanted);
    }
  }

  lemma OfferedHolds(owners: seq<Owner>, stale: set<string>, i: nat, l: Lease)
    requires i < |owners|
    ensures var o := Offered(owners, stale)[i];
            && o.name == owners[i].name && o.used == owners[i].used && o.slice == owners[i].slice
            && multiset(o.paused)[l] == if l.id in stale then 0 else multiset(owners[i].paused)[l]
  {
    KeepHolds(owners[i].paused, stale, l);
  }

  // Every paused lease listed is named in the universe.
  ghost predicate Named(owners: seq<Owner>, universe: set<string>) {
    forall i, l :: 0 <= i < |owners| && l in owners[i].paused ==> l.id in universe
  }

  lemma OnlyNamed(owners: seq<Owner>, universe: set<string>)
    ensures Named(Only(owners, In(universe)), universe)
  {
    forall i, l | 0 <= i < |owners| && l in Keep(owners[i].paused, In(universe)) ensures l.id in universe {
      KeptAreWanted(owners[i].paused, In(universe), l);
    }
  }

  function DeletedBytes(deleted: seq<(string, nat)>): nat {
    if deleted == [] then 0 else DeletedBytes(deleted[..|deleted| - 1]) + deleted[|deleted| - 1].1
  }

  // What each answer says of the last room read and of the owners then listed.
  ghost predicate Justified(
    outcome: Outcome, freed: nat, usable: int, requester: string, need: int, view: seq<Owner>) {
    match outcome
    case Fits => usable >= need
    case Unknown => true
    case CapacityWait => usable < need && !CanCover(view, requester, need, need - usable)
    case BoxFull => usable < need && freed == 0 && !CanCover(view, requester, need, need - usable)
  }

  // What an answer says of the last reading of the room.
  ghost predicate ReadAs(reading: Option<int>, outcome: Outcome, usable: int) {
    if outcome.Unknown? then reading.None? else reading == Some(usable)
  }

  class Box {
    var leases: map<string, Live>
    var owners: seq<Owner>           // as the catalogue and the shares list them
    var room: Option<int>            // the usable room, where it can be read
    var sizes: map<string, nat>      // recorded sizes of the builds not yet deleted
    var retired: set<string>         // leases this loop released
    ghost var commits: seq<Commit>
    ghost var deleted: seq<(string, nat)>
    ghost var abandoned: seq<Abandoned>  // the leases the call in progress set aside
    ghost var reading: Option<int>       // the room when the loop last read it

    ghost predicate Valid(universe: set<string>)
      reads this
    {
      && Named(owners, universe)
      && (forall id :: id in retired && id in leases ==> leases[id].released)
      && (forall i :: 0 <= i < |commits| ==>
           && commits[i].id in retired && commits[i].was.build == commits[i].checked
           && commits[i].was.suspended && !commits[i].was.busy && !commits[i].was.pinned && !commits[i].was.released)
      && (forall i, j :: 0 <= i < j < |commits| ==> commits[i].id != commits[j].id)
      && (forall i :: 0 <= i < |abandoned| ==> Excused(abandoned[i]))
    }

    // Whatever other requests do between two steps.
    method Interfere(universe: set<string>)
      requires Valid(universe)
      modifies `leases, `owners, `room, `sizes
      ensures Valid(universe)
    {
      var now: map<string, Live> := *;
      leases := map id | id in now :: if id in retired then now[id].(released := true) else now[id];
      var listed: seq<Owner> := *;
      OnlyNamed(listed, universe);
      owners := Only(listed, In(universe));
      sizes, room := *, *;
    }

    // deleteReleasedPauseBuild: the bytes the build's row recorded if it was
    // deleted, and none when the build is unknown, still kept or not known not to
    // be, or could not be deleted.
    method DeleteReleasedBuild(
      universe: set<string>, build: string, kept: bool, deleteFails: bool, markFails: bool) returns (freed: nat)
      requires Valid(universe)
      modifies `sizes, `deleted
      ensures Valid(universe)
      ensures if build == "" || build !in old(sizes) || kept || deleteFails
              then freed == 0 && unchanged(`deleted, `sizes)
              else freed == old(sizes)[build] && deleted == old(deleted) + [(build, freed)] &&
                   sizes == if markFails then old(sizes) else old(sizes) - {build}
    {
      if build == "" || build !in sizes || kept || deleteFails { return 0; }
      freed := sizes[build];
      deleted := deleted + [(build, freed)];
      if !markFails { sizes := sizes - {build}; }
    }

    // A pick given up.
    ghost method Abandon(universe: set<string>, a: Abandoned)
      requires Valid(universe) && Excused(a)
      modifies `abandoned
      ensures Valid(universe) && abandoned == old(abandoned) + [a] && Ids(abandoned) == Ids(old(abandoned)) + {a.id}
    {
      IdsGrow(abandoned, a);
      abandoned := abandoned + [a];
    }

    // takeDiskVictim.
    method TakeVictim(universe: set<string>, v: Victim, ghost usable: int) returns (freed: nat, ok: bool)
      requires Valid(universe)
      modifies `leases, `owners, `room, `sizes, `retired, `commits, `deleted, `abandoned
      ensures Valid(universe)
      ensures !ok ==> freed == 0 && unchanged(`commits, `deleted, `retired)
      ensures !ok ==>
                |abandoned| == |old(abandoned)| + 1 && abandoned[..|old(abandoned)|] == old(abandoned) &&
                Ids(abandoned) == Ids(old(abandoned)) + {v.lease.id}
      ensures ok ==> v.lease.id !in old(retired) && retired == old(retired) + {v.lease.id} && unchanged(`abandoned)
      ensures ok ==> |commits| == |old(commits)| + 1 && commits[..|old(commits)|] == old(commits) &&
                     commits[|old(commits)|].id == v.lease.id && commits[|old(commits)|].usable == usable
      ensures ok ==> v.lease.id in old(leases) && commits[|old(commits)|].checked == old(leases)[v.lease.id].build
      ensures DeletedBytes(deleted) == DeletedBytes(old(deleted)) + freed
    {
      var id := v.lease.id;
      if id !in leases {
        Abandon(universe, Abandoned(id, None, "", false));
        return 0, false;
      }
      var want := leases[id].build;
      if want != "" {
        var keptUnknown, kept: bool := *, *;
        if keptUnknown || kept {
          Abandon(universe, Abandoned(id, Some(leases[id]), want, true));
          return 0, false;
        }
      }
      Interfere(universe);
      if id !in leases || !Releasable(leases[id]) || leases[id].build != want {
        Abandon(universe, Abandoned(id, if id in leases then Some(leases[id]) else None, want, false));
        return 0, false;
      }
      freed := Release(universe, id, want, usable);
      ok := true;
    }

    // releaseBecauseIf commits the release; the pause build is deleted after it.
    method Release(universe: set<string>, id: string, want: string, ghost usable: int) returns (freed: nat)
      requires Valid(universe) && id in leases && Releasable(leases[id]) && leases[id].build == want
      modifies `leases, `owners, `room, `sizes, `retired, `commits, `deleted
      ensures Valid(universe) && id !in old(retired) && retired == old(retired) + {id}
      ensures commits == old(commits) + [Commit(id, want, old(leases)[id], usable)]
      ensures DeletedBytes(deleted) == DeletedBytes(old(deleted)) + freed
    {
      commits := commits + [Commit(id, want, leases[id], usable)];
      leases, retired := leases[id := leases[id].(released := true)], retired + {id};
      Interfere(universe);
      ghost var before := deleted;
      var kept, deleteFails, markFails: bool := *, *, *;
      freed := DeleteReleasedBuild(universe, want, kept, deleteFails, markFails);
      assert (before + [(want, freed)])[..|before|] == before;
    }

    // One pass's choice among the owners as they are listed now: the first
    // victim, a lease not set aside, or none can cover the shortfall.
    method Choose(universe: set<string>, requester: string, need: int, usable: int, stale: set<string>)
      returns (v: Option<Victim>)
      requires Valid(universe)
      ensures v.None? ==> !CanCover(Offered(owners, stale), requester, need, need - usable)
      ensures v.Some? ==> v.value.lease.id in universe && v.value.lease.id !in stale && !v.value.lease.pinned
      ensures v.Some? ==> v.value.owner < |owners| && owners[v.value.owner].name != requester &&
                          v.value.lease in owners[v.value.owner].paused
    {
      var offered := Offered(owners, stale);
      var victims := ChooseVictims(offered, requester, need, need - usable);
      if !victims.Some? { return None; }
      AnswerIsFair(offered, requester, need, need - usable, victims.value);
      var first := victims.value[0];
      KeptAreWanted(owners[first.owner].paused, NotIn(stale), first.lease);
      v := Some(first);
    }

    // Short of room: a victim, or the answer that there is none.
    method Judge(universe: set<string>, requester: string, need: int, usable: int, stale: set<string>, freed: nat)
      returns (answer: Option<Outcome>, v: Option<Victim>)
      requires Valid(universe) && usable < need
      ensures answer.Some? ==> answer.value.CapacityWait? || answer.value.BoxFull?
      ensures answer.Some? ==> Justified(answer.value, freed, usable, requester, need, Offered(owners, stale))
      ensures answer.None? ==> v.Some? && v.value.lease.id in universe && v.value.lease.id !in stale
    {
      v := Choose(universe, requester, need, usable, stale);
      if v.Some? { return None, v; }
      var capacityKnown: bool := *;
      answer := Some(if freed > 0 || !capacityKnown then CapacityWait else BoxFull);
    }

    // diskRoomNow.
    method ReadRoom() returns (usable: Option<int>)
      modifies `reading
      ensures usable == room && reading == room
    {
      usable := room;
      reading := room;
    }

    // The first half of a pass: read the room and, when short, the choice.
    method Look(universe: set<string>, requester: string, need: int, stale: set<string>, freed: nat)
      returns (answer: Option<Outcome>, v: Option<Victim>, usable: int)
      requires Valid(universe)
      modifies `leases, `owners, `room, `sizes, `reading
      ensures Valid(universe)
      ensures answer.None? ==> reading == Some(usable)
      ensures answer.Some? ==> ReadAs(reading, answer.value, usable)
      ensures answer == Some(Fits) || answer == Some(Unknown) ==> room == reading
      ensures answer.Some? ==> Justified(answer.value, freed, usable, requester, need, Offered(owners, stale))
      ensures answer.None? ==>
                v.Some? && usable < need && v.value.lease.id in universe && v.value.lease.id !in stale
    {
      v, usable := None, 0;
      Interfere(universe);
      var found := ReadRoom();
      if !found.Some? { answer := Some(Unknown); return; }
      usable := found.value;
      if usable >= need { answer := Some(Fits); return; }
      Interfere(universe);
      answer, v := Judge(universe, requester, need, usable, stale, freed);
    }

    // The second half: the victim is released, or set aside.
    method Take(universe: set<string>, v: Victim, ghost need: int, ghost usable: int, stale: set<string>)
      returns (got: nat, stale': set<string>)
      requires Valid(universe) && stale == Ids(abandoned) && usable < need
      requires v.lease.id in universe && v.lease.id !in stale
      modifies `leases, `owners, `room, `sizes, `retired, `commits, `deleted, `abandoned
      ensures Valid(universe) && DeletedBytes(deleted) == DeletedBytes(old(deleted)) + got
      ensures Since(old(commits), commits, need, universe) && stale' == Ids(abandoned)
      ensures |universe - stale'| + |universe - retired| < |universe - stale| + |universe - old(retired)|
    {
      ghost var gone := retired;
      var ok;
      got, ok := TakeVictim(universe, v, usable);
      stale' := stale;
      if ok {
        OneFewerLeft(universe, gone, v.lease.id);
      } else {
        stale' := stale + {v.lease.id};
        OneFewerLeft(universe, stale, v.lease.id);
      }
    }

    // One time round: either the answer, or one lease released or set aside.
    method Pass(universe: set<string>, requester: string, need: int, stale: set<string>, freed: nat)
      returns (answer: Option<Outcome>, got: nat, usable: int, stale': set<string>)
      requires Valid(universe) && stale == Ids(abandoned)
      modifies this
      ensures Valid(universe) && DeletedBytes(deleted) == DeletedBytes(old(deleted)) + got
      ensures Since(old(commits), commits, need, universe) && stale' == Ids(abandoned)
      ensures answer.Some? ==> ReadAs(reading, answer.value, usable)
      ensures answer == Some(Fits) || answer == Some(Unknown) ==> room == reading
      ensures answer.Some? ==> got == 0 && unchanged(`commits, `abandoned)
      ensures answer.Some? ==> Justified(answer.value, freed, usable, requester, need, Offered(owners, stale'))
      ensures answer.None? ==>
                |universe - stale'| + |universe - retired| < |universe - stale| + |universe - old(retired)|
    {
      got, stale' := 0, stale;
      var v;
      answer, v, usable := Look(universe, requester, need, stale, freed);
      if answer.Some? { return; }
      got, stale' := Take(universe, v.value, need, usable, stale);
    }

    // reclaimLeasesForRoom. `universe` holds every lease id the catalogue can
    // name during the call. The loop ends; each lease is released at most
    // once, only while paused, idle and unpinned, and only after a room read
    // below the need; what is reported as freed is what was deleted. The answer
    // is justified by the last room read and the owners as listed after it,
    // without the leases given up during the call, each with its excuse.
    method ReclaimForRoom(universe: set<string>, requester: string, need: int)
      returns (freed: nat, outcome: Outcome, usable: int)
      requires Valid(universe)
      modifies this
      ensures Valid(universe) && Since(old(commits), commits, need, universe)
      ensures DeletedBytes(deleted) == DeletedBytes(old(deleted)) + freed
      ensures ReadAs(reading, outcome, usable) && (outcome.Fits? || outcome.Unknown? ==> room == reading)
      ensures Justified(outcome, freed, usable, requester, need, Offered(owners, Ids(abandoned)))
    {
      abandoned := [];
      freed, outcome, usable := PassUntilAnswered(universe, requester, need);
    }

    method PassUntilAnswered(universe: set<string>, requester: string, need: int)
      returns (freed: nat, outcome: Outcome, usable: int)
      requires Valid(universe) && abandoned == []
      modifies this
      ensures Valid(universe) && Since(old(commits), commits, need, universe)
      ensures DeletedBytes(deleted) == DeletedBytes(old(deleted)) + freed
      ensures ReadAs(reading, outcome, usable) && (outcome.Fits? || outcome.Unknown? ==> room == reading)
      ensures Justified(outcome, freed, usable, requester, need, Offered(owners, Ids(abandoned)))
    {
      ghost var log, bytes := commits, DeletedBytes(deleted);
      freed := 0;
      var stale: set<string> := {};
      while true
        invariant Valid(universe) && Since(log, commits, need, universe) && stale == Ids(abandoned)
        invariant DeletedBytes(deleted) == bytes + freed
        decreases |universe - stale| + |universe - retired|
      {
        ghost var before := commits;
        var answer, got;
        answer, got, usable, stale := Pass(universe, requester, need, stale, freed);
        SinceJoins(log, before, commits, need, universe);
        if answer.Some? { return freed, answer.value, usable; }
        freed := freed + got;
      }
    }
  }

  // The later log adds only releases made on a room read below the need.
  ghost predicate Since(before: seq<Commit>, now: seq<Commit>, need: int, universe: set<string>) {
    && |before| <= |now| && now[..|before|] == before
    && forall i :: |before| <= i < |now| ==> now[i].usable < need && now[i].id in universe
  }

  lemma SinceJoins(a: seq<Commit>, b: seq<Commit>, c: seq<Commit>, need: int, universe: set<string>)
    requires Since(a, b, need, universe) && Since(b, c, need, universe)
    ensures Since(a, c, need, universe)
  {
    assert c[..|a|] == c[..|b|][..|a|];
    forall i | |a| <= i < |c| ensures c[i].usable < need && c[i].id in universe {
      if i < |b| { assert c[i] == c[..|b|][i]; }
    }
  }
}
