/**
 The snapshot catalog and its garbage collector (api/gc.go).

 Builds name a parent build and, through their headers, other builds whose
 blocks they use. The collector keeps the closure of a root set and deletes
 what falls outside it, one pass at a time.
 */
module CatalogGC {
  import opened Counting
  import opened Options

  type Id = string

  datatype BuildState = Building | Ready | Failed | Deleted

  datatype Build = Build(state: BuildState, parent: Id, updatedAt: int, sizeBytes: nat)

  // A lease row. lostAt is None on a row lost before the column existed.
  datatype Lease = Lease(
    lost: bool, lostAt: Option<int>, grace: nat,
    resumeBuild: Id, checkpointBuild: Id, snapshotBuild: Id)

  datatype Catalog = Catalog(
    builds: map<Id, Build>,
    refs: map<Id, set<Id>>,       // header references by build
    images: set<Id>,              // current builds
    warm: set<Id>,                // warm size builds
    leases: map<Id, Lease>,
    pins: map<Id, set<Id>>,       // kept builds by lease
    named: set<Id>,               // named snapshot versions' builds
    starting: set<Id>,            // builds a lease start uses right now
    sandboxes: set<Id>)           // builds of sandbox rows

  const GC_AGE := 3600

  function Refs(c: Catalog, id: Id): set<Id> {
    if id in c.refs then c.refs[id] else {}
  }

  // parent[id] of a build the catalog does not know is "".
  function Parent(c: Catalog, id: Id): Id {
    if id in c.builds then c.builds[id].parent else ""
  }

  predicate IsDeleted(c: Catalog, id: Id) {
    id in c.builds && c.builds[id].state == Deleted
  }

  // The builds that keeping `id` keeps directly: its header references always,
  // its parent unless it is deleted. The empty id names no build.
  function Succ(c: Catalog, id: Id): set<Id> {
    (Refs(c, id) + if IsDeleted(c, id) then {} else {Parent(c, id)}) - {""}
  }

  ghost predicate Closed(c: Catalog, s: set<Id>) {
    forall x :: x in s ==> Succ(c, x) <= s
  }

  // Membership in the least closed set that contains the roots.
  ghost predicate Reached(c: Catalog, roots: set<Id>, x: Id) {
    forall s: set<Id> {:trigger Closed(c, s)} :: Closed(c, s) && roots <= s ==> x in s
  }

  // `s` is that least set.
  ghost predicate IsClosure(c: Catalog, roots: set<Id>, s: set<Id>) {
    && roots <= s
    && Closed(c, s)
    && forall x :: x in s ==> Reached(c, roots, x)
  }

  lemma ClosureIsUnique(c: Catalog, roots: set<Id>, s: set<Id>, s': set<Id>)
    requires IsClosure(c, roots, s) && IsClosure(c, roots, s')
    ensures s == s'
  {
    assert forall x :: x in s ==> Reached(c, roots, x);
    assert forall x :: x in s' ==> Reached(c, roots, x);
  }

  // --- Roots ---

  // A lost lease keeps its builds for its grace period after the loss; a row
  // without a loss time counts as lost now.
  predicate LeaseHolds(l: Lease, now: int) {
    !l.lost || now < (if l.lostAt.Some? then l.lostAt.value else now) + l.grace
  }

  function Pins(c: Catalog, lease: Id): set<Id> {
    if lease in c.pins then c.pins[lease] else {}
  }

  function LeaseRoots(c: Catalog, lease: Id): set<Id>
    requires lease in c.leases
  {
    var l := c.leases[lease];
    {l.resumeBuild, l.checkpointBuild, l.snapshotBuild} + Pins(c, lease)
  }

  function LiveBuilds(c: Catalog): set<Id> {
    set b | b in c.builds && c.builds[b].state != Deleted
  }

  // The roots rows name: images, warm sizes, live leases and their pins, named
  // snapshots, starting builds, sandboxes and builds in flight.
  function NamedRoots(c: Catalog, now: int, except: Option<Id>): set<Id> {
    (c.images + c.warm + c.named + c.starting + c.sandboxes
     + (set b | b in c.builds && c.builds[b].state == Building)
     + (set l, x | l in c.leases && Some(l) != except && LeaseHolds(c.leases[l], now) && x in LeaseRoots(c, l) :: x))
    - {""}
  }

  // The structural roots: whatever any non-deleted build has for parent or
  // header reference, whether or not a row names that build.
  function StructuralRoots(c: Catalog): set<Id> {
    set b, x | b in LiveBuilds(c) && x in Succ(c, b) :: x
  }

  function Roots(c: Catalog, now: int, except: Option<Id>): set<Id> {
    NamedRoots(c, now, except) + StructuralRoots(c)
  }

  // --- The closure exists and is finite ---

  function Universe(c: Catalog): set<Id> {
    (set b | b in c.builds :: c.builds[b].parent) + (set b, r | b in c.refs && r in c.refs[b] :: r)
  }

  lemma SuccInUniverse(c: Catalog, x: Id)
    ensures Succ(c, x) <= Universe(c)
  {
  }

  ghost function Closure(c: Catalog, roots: set<Id>): set<Id> {
    set x | x in Universe(c) + roots && Reached(c, roots, x)
  }

  lemma ClosureIsClosure(c: Catalog, roots: set<Id>)
    ensures IsClosure(c, roots, Closure(c, roots))
  {
    var k := Closure(c, roots);
    forall x, y | x in k && y in Succ(c, x) ensures y in k {
      SuccInUniverse(c, x);
      forall s: set<Id> | Closed(c, s) && roots <= s ensures y in s {
        assert x in s;
      }
    }
  }

  lemma ClosureIsLeast(c: Catalog, roots: set<Id>, s: set<Id>)
    requires Closed(c, s) && roots <= s
    ensures Closure(c, roots) <= s
  {
  }

  lemma ClosureMonotone(c: Catalog, roots: set<Id>, more: set<Id>)
    requires roots <= more
    ensures Closure(c, roots) <= Closure(c, more)
  {
    ClosureIsClosure(c, more);
    ClosureIsLeast(c, roots, Closure(c, more));
  }

  // Two catalogs that agree on a set closed in one of them reach the same
  // builds from roots inside it.
  lemma SameInside(c: Catalog, d: Catalog, k: set<Id>, roots: set<Id>, x: Id)
    requires Closed(c, k) && roots <= k
    requires forall y :: y in k ==> Succ(c, y) == Succ(d, y)
    ensures Reached(c, roots, x) <==> Reached(d, roots, x)
  {
    if Reached(c, roots, x) {
      forall s: set<Id> | Closed(d, s) && roots <= s ensures x in s {
        assert Closed(c, s * k);
      }
    }
    if Reached(d, roots, x) {
      assert Closed(d, k);
      forall s: set<Id> | Closed(c, s) && roots <= s ensures x in s {
        assert Closed(d, s * k);
      }
    }
  }

  // --- What is kept, row by row ---

  // Whatever a row names is kept: an image, a warm size, a named snapshot, a
  // starting lease, a sandbox, a build in flight.
  lemma RowKeeps(c: Catalog, now: int, except: Option<Id>, x: Id)
    requires x != ""
    requires || x in c.images || x in c.warm || x in c.named || x in c.starting || x in c.sandboxes
             || (x in c.builds && c.builds[x].state == Building)
    ensures x in Closure(c, Roots(c, now, except))
  {
    ClosureIsClosure(c, Roots(c, now, except));
  }

  // So is every build of a lease that is not set aside, if the lease is not
  // lost or its grace period has not ended.
  lemma LeaseKeeps(c: Catalog, now: int, except: Option<Id>, l: Id, x: Id)
    requires l in c.leases && Some(l) != except && x != ""
    requires || !c.leases[l].lost
             || (c.leases[l].lostAt.Some? && now < c.leases[l].lostAt.value + c.leases[l].grace)
             || (c.leases[l].lostAt.None? && 0 < c.leases[l].grace)
    requires || x in {c.leases[l].resumeBuild, c.leases[l].checkpointBuild, c.leases[l].snapshotBuild}
             || (l in c.pins && x in c.pins[l])
    ensures x in Closure(c, Roots(c, now, except))
  {
    ClosureIsClosure(c, Roots(c, now, except));
    assert x in LeaseRoots(c, l) && LeaseHolds(c.leases[l], now);
  }

  // And a lost lease past its grace period keeps nothing: the kept set is that
  // of the catalog without its rows.
  lemma LapsedKeepsNothing(c: Catalog, now: int, except: Option<Id>, l: Id)
    requires l in c.leases && c.leases[l].lost
    requires if c.leases[l].lostAt.Some? then c.leases[l].lostAt.value + c.leases[l].grace <= now
             else c.leases[l].grace == 0
    ensures var d := c.(leases := c.leases - {l}, pins := c.pins - {l});
            Closure(c, Roots(c, now, except)) == Closure(d, Roots(d, now, except))
  {
    var d := c.(leases := c.leases - {l}, pins := c.pins - {l});
    assert forall k :: k in d.leases ==> LeaseRoots(d, k) == LeaseRoots(c, k);
    assert NamedRoots(c, now, except) == NamedRoots(d, now, except);
    assert forall x :: Succ(d, x) == Succ(c, x);
    assert LiveBuilds(d) == LiveBuilds(c);
    assert StructuralRoots(d) == StructuralRoots(c);
    SameLinks(c, d, Roots(c, now, except));
  }

  // The parent and the header references of a build that is not deleted are
  // kept, whether or not the build is; of a kept build that is deleted, the
  // references only.
  lemma LinksAreKept(c: Catalog, now: int, except: Option<Id>, b: Id, x: Id)
    requires x != "" && (b in Closure(c, Roots(c, now, except)) || (b in c.builds && c.builds[b].state != Deleted))
    requires || (b in c.refs && x in c.refs[b])
             || (b in c.builds && c.builds[b].state != Deleted && c.builds[b].parent == x)
    ensures x in Closure(c, Roots(c, now, except))
  {
    ClosureIsClosure(c, Roots(c, now, except));
    assert x in Succ(c, b);
    if b in LiveBuilds(c) { assert x in StructuralRoots(c); }
  }

  // A lease's row keeps a build, on its fields.
  ghost predicate KeptByLease(c: Catalog, now: int, l: Id, x: Id) {
    && l in c.leases
    && (c.leases[l].lost && c.leases[l].lostAt.None? ==> 0 < c.leases[l].grace)
    && (c.leases[l].lost && c.leases[l].lostAt.Some? ==> now < c.leases[l].lostAt.value + c.leases[l].grace)
    && (x == c.leases[l].resumeBuild || x == c.leases[l].checkpointBuild || x == c.leases[l].snapshotBuild ||
        (l in c.pins && x in c.pins[l]))
  }

  // What a closure holds beside its roots, a link leads to.
  lemma LinkedInto(c: Catalog, roots: set<Id>, x: Id)
    requires x in Closure(c, roots) && x !in roots
    ensures exists y :: y in Closure(c, roots) && x in Succ(c, y)
  {
    var k := Closure(c, roots);
    ClosureIsClosure(c, roots);
    var linked := set z | z in k && (z in roots || exists y :: y in k && z in Succ(c, y));
    forall z | z in linked ensures Succ(c, z) <= linked { assert Succ(c, z) <= k; }
    ClosureIsLeast(c, roots, linked);
  }

  // Nothing is kept without a reason: a row names it, or a build that is kept or
  // not deleted leads to it.
  lemma KeptHasAReason(c: Catalog, now: int, except: Option<Id>, x: Id)
    requires x in Closure(c, Roots(c, now, except))
    ensures x != ""
    ensures || x in c.images || x in c.warm || x in c.named || x in c.starting || x in c.sandboxes
            || (x in c.builds && c.builds[x].state == Building)
            || (exists l :: Some(l) != except && KeptByLease(c, now, l, x))
            || (exists b :: b in c.builds && c.builds[b].state != Deleted && c.builds[b].parent == x)
            || (exists b :: b in c.refs && x in c.refs[b] &&
                            (b in Closure(c, Roots(c, now, except)) ||
                             (b in c.builds && c.builds[b].state != Deleted)))
  {
    if x !in Roots(c, now, except) {
      LinkedInto(c, Roots(c, now, except), x);
      var y :| y in Closure(c, Roots(c, now, except)) && x in Succ(c, y);
      SuccIsALink(c, y, x);
    } else if x in StructuralRoots(c) {
      var y :| y in LiveBuilds(c) && x in Succ(c, y);
      SuccIsALink(c, y, x);
    } else if x !in c.images + c.warm + c.named + c.starting + c.sandboxes &&
              !(x in c.builds && c.builds[x].state == Building) {
      var l :| l in c.leases && Some(l) != except && LeaseHolds(c.leases[l], now) && x in LeaseRoots(c, l);
      assert KeptByLease(c, now, l, x);
    }
  }

  lemma SuccIsALink(c: Catalog, b: Id, x: Id)
    requires x in Succ(c, b)
    ensures x != ""
    ensures || (b in c.refs && x in c.refs[b])
            || (b in c.builds && c.builds[b].state != Deleted && c.builds[b].parent == x)
  {
  }

  // --- One pass ---

  predicate Candidate(c: Catalog, kept: set<Id>, now: int, b: Id) {
    && b in c.builds && (c.builds[b].state == Ready || c.builds[b].state == Failed)
    && b !in kept && c.builds[b].updatedAt <= now - GC_AGE
  }

  // gcCandidates: `fails` are the builds whose delete or row update fails.
  function Sweep(c: Catalog, kept: set<Id>, now: int, fails: set<Id>): Catalog {
    c.(builds := map b | b in c.builds :: SweptRow(c, kept, now, fails, b))
  }

  function SweptRow(c: Catalog, kept: set<Id>, now: int, fails: set<Id>, b: Id): Build
    requires b in c.builds
  {
    if Candidate(c, kept, now, b) && b !in fails
    then c.builds[b].(state := Deleted, updatedAt := now) else c.builds[b]
  }

  // A build is deleted by the sweep if and only if it is ready or failed, not
  // kept, untouched for an hour and its delete succeeds; nothing else changes.
  lemma SweepDeletesIff(c: Catalog, kept: set<Id>, now: int, fails: set<Id>, b: Id)
    requires b in c.builds
    ensures var was, n := c.builds[b], Sweep(c, kept, now, fails);
            && n == c.(builds := n.builds) && n.builds.Keys == c.builds.Keys
            && (n.builds[b] != was ==> n.builds[b] == was.(state := Deleted, updatedAt := now))
            && (was.state != Deleted ==>
                (n.builds[b].state == Deleted <==>
                 was.state != Building && b !in kept && now - was.updatedAt >= 3600 && b !in fails))
            && (was.state == Deleted ==> n.builds[b] == was)
  {
  }

  ghost function Pass(c: Catalog, now: int, fails: set<Id>): Catalog {
    Sweep(c, Closure(c, Roots(c, now, None)), now, fails)
  }

  // Every row has a build id.
  predicate WellFormed(c: Catalog) {
    "" !in c.builds
  }

  // No pass deletes a build that a non-deleted build has for parent or header
  // reference, nor one any row names, whatever fails and however old the rows.
  lemma PassIsSafe(c: Catalog, now: int, fails: set<Id>, b: Id, d: Id)
    requires WellFormed(c) && b in LiveBuilds(c)
    requires d in LiveBuilds(c) && d !in LiveBuilds(Pass(c, now, fails))
    ensures d != c.builds[b].parent && d !in Refs(c, b)
    ensures d !in NamedRoots(c, now, None)
  {
    var kept := Closure(c, Roots(c, now, None));
    ClosureIsClosure(c, Roots(c, now, None));
    assert Succ(c, b) <= StructuralRoots(c) <= kept;
    assert d !in kept;
  }

  // A sweep changes no successor of a build it keeps.
  lemma SweepKeepsInside(c: Catalog, kept: set<Id>, now: int, fails: set<Id>, x: Id)
    requires x in kept
    ensures Succ(Sweep(c, kept, now, fails), x) == Succ(c, x)
  {
  }

  // What the named roots reach: the builds the collector exists to protect.
  ghost function Wanted(c: Catalog, now: int): set<Id> {
    Closure(c, NamedRoots(c, now, None))
  }

  lemma SweepKeepsNamedRoots(c: Catalog, kept: set<Id>, now: int, fails: set<Id>, at: int)
    ensures NamedRoots(Sweep(c, kept, now, fails), at, None) == NamedRoots(c, at, None)
  {
    var n := Sweep(c, kept, now, fails);
    assert forall b :: b in c.builds ==> (n.builds[b].state == Building <==> c.builds[b].state == Building);
    assert (set b | b in n.builds && n.builds[b].state == Building) ==
           (set b | b in c.builds && c.builds[b].state == Building);
    assert forall l :: l in c.leases ==> LeaseRoots(n, l) == LeaseRoots(c, l);
  }

  lemma SweepKeepsUniverse(c: Catalog, kept: set<Id>, now: int, fails: set<Id>)
    ensures Universe(Sweep(c, kept, now, fails)) == Universe(c)
  {
    var n := Sweep(c, kept, now, fails);
    assert forall b :: b in c.builds ==> n.builds[b].parent == c.builds[b].parent;
    assert (set b | b in n.builds :: n.builds[b].parent) == (set b | b in c.builds :: c.builds[b].parent);
  }

  lemma SweepKeepsClosure(c: Catalog, kept: set<Id>, now: int, fails: set<Id>, roots: set<Id>)
    requires Closed(c, kept) && roots <= kept
    ensures Closure(Sweep(c, kept, now, fails), roots) == Closure(c, roots)
    ensures forall x :: Reached(Sweep(c, kept, now, fails), roots, x) <==> Reached(c, roots, x)
  {
    var n := Sweep(c, kept, now, fails);
    SweepKeepsUniverse(c, kept, now, fails);
    forall y | y in kept ensures Succ(c, y) == Succ(n, y) {
      SweepKeepsInside(c, kept, now, fails, y);
    }
    forall x ensures Reached(c, roots, x) <==> Reached(n, roots, x) {
      SameInside(c, n, kept, roots, x);
    }
  }

  lemma KeptIsClosed(c: Catalog, now: int)
    ensures Closed(c, Closure(c, Roots(c, now, None)))
    ensures Roots(c, now, None) <= Closure(c, Roots(c, now, None))
    ensures Wanted(c, now) <= Closure(c, Roots(c, now, None))
  {
    ClosureIsClosure(c, Roots(c, now, None));
    ClosureMonotone(c, NamedRoots(c, now, None), Roots(c, now, None));
  }

  // A pass leaves the wanted set, and every non-deleted build in it, as it was.
  lemma PassKeepsWanted(c: Catalog, now: int, fails: set<Id>)
    ensures Wanted(Pass(c, now, fails), now) == Wanted(c, now)
    ensures LiveBuilds(Pass(c, now, fails)) * Wanted(c, now) == LiveBuilds(c) * Wanted(c, now)
  {
    var kept := Closure(c, Roots(c, now, None));
    KeptIsClosed(c, now);
    SweepKeepsNamedRoots(c, kept, now, fails, now);
    SweepKeepsClosure(c, kept, now, fails, NamedRoots(c, now, None));
    SweepSparesKept(c, kept, now, fails, Wanted(c, now));
  }

  lemma SweepSparesKept(c: Catalog, kept: set<Id>, now: int, fails: set<Id>, s: set<Id>)
    requires s <= kept
    ensures LiveBuilds(Sweep(c, kept, now, fails)) * s == LiveBuilds(c) * s
  {
  }

  // --- Convergence ---

  // The non-deleted builds no row leads to.
  ghost function Garbage(c: Catalog, now: int): set<Id> {
    LiveBuilds(c) - Wanted(c, now)
  }

  // A non-empty chain of parent and header links leads from a to b.
  ghost predicate Leads(c: Catalog, a: Id, b: Id) {
    Reached(c, Succ(c, a), b)
  }

  lemma LeadsOn(c: Catalog, a: Id, b: Id, d: Id)
    requires Leads(c, a, b) && Leads(c, b, d)
    ensures Leads(c, a, d)
  {
    forall s: set<Id> | Closed(c, s) && Succ(c, a) <= s ensures d in s {
      assert b in s;
    }
  }

  ghost predicate Acyclic(c: Catalog, s: set<Id>) {
    forall x :: x in s ==> !Leads(c, x, x)
  }

  // A finite acyclic set has a member nothing else in it leads to.
  lemma {:induction false} TopMember(c: Catalog, s: set<Id>) returns (top: Id)
    requires s != {} && Acyclic(c, s)
    ensures top in s && forall a :: a in s ==> !Leads(c, a, top)
    decreases |s|
  {
    top :| top in s;
    if s != {top} {
      var m := TopMember(c, s - {top});
      if !Leads(c, top, m) {
        top := m;
      } else {
        forall a | a in s ensures !Leads(c, a, top) {
          if Leads(c, a, top) {
            LeadsOn(c, a, top, m);
          }
        }
      }
    }
  }

  // Everything kept beyond the wanted set is kept because some non-deleted
  // build leads to it.
  lemma KeptBeyondWanted(c: Catalog, now: int, y: Id)
    requires y in Closure(c, Roots(c, now, None)) && y !in Wanted(c, now)
    ensures exists b :: b in Garbage(c, now) && Leads(c, b, y)
  {
    var w := Wanted(c, now);
    var k := w + set x | x in Universe(c) && exists b :: b in LiveBuilds(c) && Leads(c, b, x);
    ClosureIsClosure(c, NamedRoots(c, now, None));
    forall x, z | x in k && z in Succ(c, x) ensures z in k {
      SuccInUniverse(c, x);
      if x !in w {
        var b :| b in LiveBuilds(c) && Leads(c, b, x);
        assert Leads(c, x, z);
        LeadsOn(c, b, x, z);
      }
    }
    forall x | x in StructuralRoots(c) ensures x in k {
      var b :| b in LiveBuilds(c) && x in Succ(c, b);
      SuccInUniverse(c, b);
      assert Leads(c, b, x);
    }
    assert Closed(c, k);
    ClosureIsLeast(c, Roots(c, now, None), k);
    var b :| b in LiveBuilds(c) && Leads(c, b, y);
    assert b in w ==> Succ(c, b) <= w;
  }

  predicate Aged(c: Catalog, now: int) {
    forall b :: b in LiveBuilds(c) ==> c.builds[b].updatedAt <= now - GC_AGE
  }

  lemma TopIsSwept(c: Catalog, now: int, top: Id)
    requires WellFormed(c) && Aged(c, now) && top in Garbage(c, now)
    requires forall a :: a in Garbage(c, now) ==> !Leads(c, a, top)
    ensures top !in LiveBuilds(Pass(c, now, {}))
  {
    if top in Closure(c, Roots(c, now, None)) {
      KeptBeyondWanted(c, now, top);
    }
    ClosureIsClosure(c, NamedRoots(c, now, None));
    assert top !in NamedRoots(c, now, None);
  }

  // While unreachable builds remain and no links run in a circle among them,
  // every pass removes at least one, and never adds any.
  lemma PassMakesProgress(c: Catalog, now: int)
    requires WellFormed(c) && Aged(c, now)
    ensures Garbage(Pass(c, now, {}), now) <= Garbage(c, now)
    ensures WellFormed(Pass(c, now, {})) && Aged(Pass(c, now, {}), now)
    ensures Garbage(c, now) != {} && Acyclic(c, Garbage(c, now)) ==>
              Garbage(Pass(c, now, {}), now) < Garbage(c, now)
  {
    PassKeepsWanted(c, now, {});
    assert LiveBuilds(Pass(c, now, {})) <= LiveBuilds(c);
    if Garbage(c, now) != {} && Acyclic(c, Garbage(c, now)) {
      var top := TopMember(c, Garbage(c, now));
      TopIsSwept(c, now, top);
    }
  }

  // A run of passes, nothing else touching the catalog and no delete failing.
  ghost predicate IsRun(run: seq<Catalog>, now: int) {
    run != [] && forall i :: 0 < i < |run| ==> run[i] == Pass(run[i - 1], now, {})
  }

  lemma FewerLinksReachLess(c: Catalog, d: Catalog, roots: set<Id>, x: Id)
    requires forall y :: Succ(d, y) <= Succ(c, y)
    requires Reached(d, roots, x)
    ensures Reached(c, roots, x)
  {
    assert forall s: set<Id> :: Closed(c, s) ==> Closed(d, s);
  }

  lemma PassRemovesLinks(c: Catalog, now: int, x: Id)
    ensures Succ(Pass(c, now, {}), x) <= Succ(c, x)
    ensures x in LiveBuilds(Pass(c, now, {})) ==> x in LiveBuilds(c) && Succ(Pass(c, now, {}), x) == Succ(c, x)
  {
  }

  // A pass only removes links, so a circle found after it was there before it.
  lemma CircleWasThere(c: Catalog, now: int, y: Id)
    requires y in Garbage(Pass(c, now, {}), now) && Leads(Pass(c, now, {}), y, y)
    ensures y in Garbage(c, now) && Leads(c, y, y)
  {
    var n := Pass(c, now, {});
    assert Wanted(n, now) == Wanted(c, now) by { PassKeepsWanted(c, now, {}); }
    forall x ensures Succ(n, x) <= Succ(c, x) {
      PassRemovesLinks(c, now, x);
    }
    PassRemovesLinks(c, now, y);
    FewerLinksReachLess(c, n, Succ(n, y), y);
  }

  lemma NoNewCircle(c: Catalog, now: int)
    requires Acyclic(c, Garbage(c, now))
    ensures Acyclic(Pass(c, now, {}), Garbage(Pass(c, now, {}), now))
  {
    forall y | y in Garbage(Pass(c, now, {}), now) && Leads(Pass(c, now, {}), y, y) ensures false {
      CircleWasThere(c, now, y);
    }
  }

  // A circle of unreachable builds keeps itself.
  lemma CircleStays(c: Catalog, now: int, y: Id)
    requires y in Garbage(c, now) && Leads(c, y, y)
    ensures y in Garbage(Pass(c, now, {}), now) && Leads(Pass(c, now, {}), y, y)
  {
    var kept := Closure(c, Roots(c, now, None));
    KeptIsClosed(c, now);
    assert Succ(c, y) <= StructuralRoots(c) <= kept;
    assert y in kept;
    SweepKeepsInside(c, kept, now, {}, y);
    SweepKeepsClosure(c, kept, now, {}, Succ(c, y));
    PassKeepsWanted(c, now, {});
  }

  lemma {:induction false} CirclesStay(run: seq<Catalog>, now: int, i: nat, y: Id)
    requires IsRun(run, now) && i < |run|
    requires y in Garbage(run[0], now) && Leads(run[0], y, y)
    ensures y in Garbage(run[i], now) && Leads(run[i], y, y)
  {
    if i > 0 {
      CirclesStay(run, now, i - 1, y);
      CircleStays(run[i - 1], now, y);
    }
  }

  // The wanted builds and the non-deleted ones among them.
  ghost function Protected(c: Catalog, now: int): (set<Id>, set<Id>) {
    (Wanted(c, now), LiveBuilds(c) * Wanted(c, now))
  }

  // No run of passes touches a protected build.
  lemma {:induction false} RunKeepsWanted(run: seq<Catalog>, now: int, i: nat)
    requires IsRun(run, now) && i < |run|
    ensures Protected(run[i], now) == Protected(run[0], now)
  {
    if i > 0 {
      RunKeepsWanted(run, now, i - 1);
      PassKeepsWanted(run[i - 1], now, {});
    }
  }

  // Every pass over circle-free garbage takes at least one build of it.
  lemma {:induction false} GarbageShrinks(run: seq<Catalog>, now: int, i: nat)
    requires IsRun(run, now) && i < |run|
    requires WellFormed(run[0]) && Aged(run[0], now) && Acyclic(run[0], Garbage(run[0], now))
    ensures WellFormed(run[i]) && Aged(run[i], now) && Acyclic(run[i], Garbage(run[i], now))
    ensures Garbage(run[i], now) == {} || |Garbage(run[i], now)| + i <= |Garbage(run[0], now)|
  {
    if i > 0 {
      GarbageShrinks(run, now, i - 1);
      PassMakesProgress(run[i - 1], now);
      NoNewCircle(run[i - 1], now);
      SmallerSet(Garbage(run[i], now), Garbage(run[i - 1], now));
    }
  }

  lemma LeftIsWantedOrGarbage(c: Catalog, now: int)
    ensures LiveBuilds(c) == Protected(c, now).1 <==> Garbage(c, now) == {}
  {
    assert LiveBuilds(c) == LiveBuilds(c) * Wanted(c, now) + Garbage(c, now);
  }

  // Repeated passes leave exactly the non-deleted builds the rows lead to if
  // and only if no links run in a circle among the unreachable ones; as many
  // passes as there are unreachable builds are enough.
  lemma CollectsExactly(run: seq<Catalog>, now: int, n: nat)
    requires IsRun(run, now) && n < |run|
    requires WellFormed(run[0]) && Aged(run[0], now) && |Garbage(run[0], now)| <= n
    ensures LiveBuilds(run[n]) == Protected(run[0], now).1 <==> Acyclic(run[0], Garbage(run[0], now))
  {
    RunKeepsWanted(run, now, n);
    LeftIsWantedOrGarbage(run[n], now);
    if Acyclic(run[0], Garbage(run[0], now)) {
      GarbageShrinks(run, now, n);
    } else {
      var y :| y in Garbage(run[0], now) && Leads(run[0], y, y);
      CirclesStay(run, now, n, y);
    }
  }

  // The failing case: two builds that name each other as parent are never
  // collected, though nothing else names them.
  lemma CircleExample(run: seq<Catalog>, n: nat)
    requires IsRun(run, GC_AGE) && n < |run|
    requires run[0] == Catalog(map["a" := Build(Ready, "b", 0, 1), "b" := Build(Ready, "a", 0, 1)],
                               map[], {}, {}, map[], map[], {}, {}, {})
    ensures Wanted(run[0], GC_AGE) == {} && "a" in LiveBuilds(run[n]) && "b" in LiveBuilds(run[n])
  {
    var c := run[0];
    assert Closed(c, {});
    ClosureIsLeast(c, NamedRoots(c, GC_AGE, None), {});
    assert Succ(c, "a") == {"b"} && Succ(c, "b") == {"a"};
    assert Leads(c, "a", "a") && Leads(c, "b", "b");
    CirclesStay(run, GC_AGE, n, "a");
    CirclesStay(run, GC_AGE, n, "b");
  }

  // --- Taking a lease out of the picture ---

  function WithoutLease(c: Catalog, lease: Id): Catalog {
    c.(leases := c.leases - {lease}, pins := c.pins - {lease})
  }

  // keptBuildsExcept(l) is keptBuilds of the catalog once l's rows are gone.
  lemma ExceptIsRemoval(c: Catalog, now: int, lease: Id)
    ensures Roots(c, now, Some(lease)) == Roots(WithoutLease(c, lease), now, None)
    ensures Closure(c, Roots(c, now, Some(lease))) ==
            Closure(WithoutLease(c, lease), Roots(WithoutLease(c, lease), now, None))
  {
    var d := WithoutLease(c, lease);
    assert forall l :: l in d.leases ==> l in c.leases && LeaseRoots(d, l) == LeaseRoots(c, l);
    assert (set l, x | l in d.leases && Some(l) != None && LeaseHolds(d.leases[l], now) && x in LeaseRoots(d, l) :: x)
        == (set l, x | l in c.leases && Some(l) != Some(lease) && LeaseHolds(c.leases[l], now) &&
                       x in LeaseRoots(c, l) :: x);
    assert forall x :: Succ(d, x) == Succ(c, x);
    assert LiveBuilds(d) == LiveBuilds(c);
    assert StructuralRoots(d) == StructuralRoots(c);
    SameLinks(c, d, Roots(c, now, Some(lease)));
  }

  lemma SameLinks(c: Catalog, d: Catalog, roots: set<Id>)
    requires c.builds == d.builds && c.refs == d.refs
    ensures Closure(c, roots) == Closure(d, roots)
  {
    assert forall s: set<Id> :: Closed(c, s) <==> Closed(d, s);
    assert Universe(c) == Universe(d);
  }

  // A lease row that holds no more than before: its builds are the same or gone
  // from it, and it may have been lost since, or its loss time filled in.
  predicate Fades(had: Lease, has: Lease, later: int) {
    && has.resumeBuild in {had.resumeBuild, ""}
    && has.checkpointBuild in {had.checkpointBuild, ""}
    && has.snapshotBuild in {had.snapshotBuild, ""}
    && (had.lost ==> has.lost && has.grace == had.grace &&
                     (has.lostAt == had.lostAt || (had.lostAt.None? && has.lostAt.Some? && has.lostAt.value <= later)))
  }

  predicate Ages(had: BuildState, has: BuildState) { has == had || has == Deleted || had == Building }

  // Rows have only gone: builds are the same, finished, deleted or pruned since,
  // and nothing names a build it did not name before.
  ghost predicate OnlyLess(c: Catalog, d: Catalog, lease: Id, later: int) {
    && (forall b :: b in d.builds ==> b in c.builds && d.builds[b].parent == c.builds[b].parent &&
                                      Ages(c.builds[b].state, d.builds[b].state))
    && (forall b :: Refs(d, b) <= Refs(c, b))
    && d.images <= c.images && d.warm <= c.warm && d.named <= c.named
    && d.starting <= c.starting && d.sandboxes <= c.sandboxes
    && (forall l :: l in d.leases ==> l in c.leases && l != lease && Fades(c.leases[l], d.leases[l], later) &&
                                      Pins(d, l) <= Pins(c, l))
  }

  lemma LessLinks(c: Catalog, d: Catalog, lease: Id, later: int)
    requires OnlyLess(c, d, lease, later)
    ensures forall x :: Succ(d, x) <= Succ(c, x)
    ensures StructuralRoots(d) <= StructuralRoots(c)
  {
    assert LiveBuilds(d) <= LiveBuilds(c);
  }

  lemma LessNamed(c: Catalog, d: Catalog, now: int, later: int, lease: Id)
    requires OnlyLess(c, d, lease, later) && now <= later
    ensures NamedRoots(d, later, None) <= NamedRoots(c, now, Some(lease))
  {
    forall l | l in d.leases && LeaseHolds(d.leases[l], later)
      ensures LeaseHolds(c.leases[l], now) && LeaseRoots(d, l) <= LeaseRoots(c, l) + {""}
    {
      assert Fades(c.leases[l], d.leases[l], later);
    }
  }

  // A disk take-back whose pre-check found the pause build unkept finds it
  // unkept after the release too, however many other rows have gone meanwhile
  // and whatever time has passed.
  lemma CheckedBuildStaysFree(c: Catalog, d: Catalog, now: int, later: int, lease: Id, build: Id)
    requires build !in Closure(c, Roots(c, now, Some(lease)))
    requires OnlyLess(c, d, lease, later) && now <= later
    ensures build !in Closure(d, Roots(d, later, None))
  {
    var kept := Closure(c, Roots(c, now, Some(lease)));
    ClosureIsClosure(c, Roots(c, now, Some(lease)));
    LessLinks(c, d, lease, later);
    LessNamed(c, d, now, later, lease);
    ClosureIsLeast(d, Roots(d, later, None), kept);
  }

  // A row added meanwhile can change that: a live child build keeps it.
  lemma NewChildKeeps(d: Catalog, later: int, child: Id, build: Id)
    requires child in LiveBuilds(d) && d.builds[child].parent == build != ""
    ensures build in Closure(d, Roots(d, later, None))
  {
    ClosureIsClosure(d, Roots(d, later, None));
    assert build in Succ(d, child);
  }

  // --- The collector itself ---

  // Closed apart from the builds in `grey`, whose links are still being walked.
  ghost predicate ClosedExcept(c: Catalog, s: set<Id>, grey: set<Id>) {
    forall x :: x in s && x !in grey ==> Succ(c, x) <= s
  }

  class Collector {
    var cat: Catalog
    var kept: set<Id>

    constructor (c: Catalog)
      ensures cat == c && kept == {}
    {
      cat, kept := c, {};
    }

    // keep: adds start, its header references recursively and its ancestors up
    // to the first deleted or unknown build. A build already kept stops the
    // walk, so a circle of links ends it. `bound` is any closed set the walk
    // starts inside: it never leaves it. `grey` are the builds the callers are
    // still working on.
    method Keep(start: Id, ghost bound: set<Id>, ghost grey: set<Id>)
      requires Closed(cat, bound) && kept <= bound && (start == "" || start in bound)
      requires ClosedExcept(cat, kept, grey)
      modifies this`kept
      ensures old(kept) <= kept <= bound && (start == "" || start in kept)
      ensures ClosedExcept(cat, kept, grey)
      decreases bound - kept, 0
    {
      var id := start;
      ghost var last: set<Id> := {};
      while id != "" && id !in kept
        invariant old(kept) <= kept <= bound && (id == "" || id in bound)
        invariant start == "" || start == id || start in kept
        invariant ClosedExcept(cat, kept, grey + last)
        invariant forall x :: x in last ==> Succ(cat, x) <= kept + ({id} - {""})
        decreases bound - kept
      {
        kept := kept + {id};
        KeepRefs(id, bound, grey);
        if IsDeleted(cat, id) {
          return;
        }
        last := {id};
        id := Parent(cat, id);
      }
    }

    // The references of one build, each kept with the same treatment.
    method KeepRefs(id: Id, ghost bound: set<Id>, ghost grey: set<Id>)
      requires Closed(cat, bound) && kept <= bound && id in kept
      requires ClosedExcept(cat, kept, grey + {id})
      modifies this`kept
      ensures old(kept) <= kept <= bound
      ensures ClosedExcept(cat, kept, grey + {id})
      ensures Refs(cat, id) - {""} <= kept
      decreases bound - kept, 1
    {
      var todo := Refs(cat, id);
      while todo != {}
        invariant old(kept) <= kept <= bound && todo <= Refs(cat, id)
        invariant ClosedExcept(cat, kept, grey + {id})
        invariant Refs(cat, id) - {""} - todo <= kept
        decreases todo
      {
        var ref :| ref in todo;
        assert ref == "" || ref in Succ(cat, id);
        assert bound - kept < bound - old(kept) || bound - kept == bound - old(kept);
        Keep(ref, bound, grey + {id});
        todo := todo - {ref};
      }
    }

    method KeepEach(ids: set<Id>, ghost bound: set<Id>)
      requires Closed(cat, bound) && Closed(cat, kept) && kept <= bound && ids - {""} <= bound
      modifies this`kept
      ensures Closed(cat, kept) && old(kept) + (ids - {""}) <= kept <= bound
    {
      var todo := ids;
      while todo != {}
        invariant todo <= ids && Closed(cat, kept) && old(kept) <= kept <= bound
        invariant ids - {""} - todo <= kept
        decreases todo
      {
        var id :| id in todo;
        Keep(id, bound, {});
        todo := todo - {id};
      }
    }

    // The roots a catalog's build rows give: builds in flight, and whatever a
    // non-deleted build has for parent or reference.
    method KeepStructure(ghost bound: set<Id>)
      requires Closed(cat, bound) && Closed(cat, kept) && kept <= bound && StructuralRoots(cat) <= bound
      requires (set b | b in cat.builds && cat.builds[b].state == Building) - {""} <= bound
      modifies this`kept
      ensures Closed(cat, kept) && old(kept) <= kept <= bound && StructuralRoots(cat) <= kept
      ensures (set b | b in cat.builds && cat.builds[b].state == Building) - {""} <= kept
    {
      var todo := cat.builds.Keys;
      while todo != {}
        invariant todo <= cat.builds.Keys && Closed(cat, kept) && old(kept) <= kept <= bound
        invariant forall b :: b in cat.builds && b !in todo && b != "" && cat.builds[b].state == Building ==> b in kept
        invariant forall b :: b in LiveBuilds(cat) && b !in todo ==> Succ(cat, b) <= kept
        decreases todo
      {
        var b :| b in todo;
        if cat.builds[b].state == Building {
          Keep(b, bound, {});
        }
        if cat.builds[b].state != Deleted {
          assert b in LiveBuilds(cat);
          assert Succ(cat, b) <= StructuralRoots(cat);
          Keep(cat.builds[b].parent, bound, {});
          KeepEach(Refs(cat, b), bound);
        }
        todo := todo - {b};
      }
    }

    method KeepLeases(now: int, except: Option<Id>, ghost bound: set<Id>)
      requires Closed(cat, bound) && Closed(cat, kept) && kept <= bound
      requires forall l :: l in cat.leases && Some(l) != except && LeaseHolds(cat.leases[l], now) ==>
                 LeaseRoots(cat, l) - {""} <= bound
      modifies this`kept
      ensures Closed(cat, kept) && old(kept) <= kept <= bound
      ensures forall l :: l in cat.leases && Some(l) != except && LeaseHolds(cat.leases[l], now) ==>
                LeaseRoots(cat, l) - {""} <= kept
    {
      var todo := cat.leases.Keys;
      while todo != {}
        invariant todo <= cat.leases.Keys && Closed(cat, kept) && old(kept) <= kept <= bound
        invariant forall l :: l in cat.leases && l !in todo && Some(l) != except && LeaseHolds(cat.leases[l], now) ==>
                    LeaseRoots(cat, l) - {""} <= kept
        decreases todo
      {
        var l :| l in todo;
        if Some(l) != except && LeaseHolds(cat.leases[l], now) {
          assert LeaseRoots(cat, l) - {""} <= bound;
          Keep(cat.leases[l].resumeBuild, bound, {});
          Keep(cat.leases[l].checkpointBuild, bound, {});
          Keep(cat.leases[l].snapshotBuild, bound, {});
          KeepEach(Pins(cat, l), bound);
        }
        todo := todo - {l};
      }
    }

    // keptBuildsExcept computes exactly the least set that contains the roots
    // and is closed under header references always and under parents unless
    // the build is deleted, on circular links too.
    method KeptBuildsExcept(now: int, except: Option<Id>)
      modifies this`kept
      ensures kept == Closure(cat, Roots(cat, now, except))
    {
      ghost var bound := Closure(cat, Roots(cat, now, except));
      ClosureIsClosure(cat, Roots(cat, now, except));
      RootsAreRows(cat, now, except, bound);
      kept := {};
      KeepStructure(bound);
      KeepEach(cat.images, bound);
      KeepEach(cat.warm, bound);
      KeepLeases(now, except, bound);
      KeepEach(cat.named, bound);
      KeepEach(cat.starting, bound);
      KeepEach(cat.sandboxes, bound);
      RootsAreRows(cat, now, except, kept);
      ClosureIsLeast(cat, Roots(cat, now, except), kept);
    }

    // gcCandidates: marks every aged ready or failed build outside the kept set
    // deleted, and counts what it deleted and the bytes those rows recorded.
    method GcCandidates(now: int, order: seq<Id>, fails: set<Id>) returns (deleted: nat, freed: nat)
      requires Lists(order, cat.builds.Keys)
      modifies this`cat
      ensures cat == Sweep(old(cat), kept, now, fails)
      ensures deleted == |Swept(old(cat), kept, now, fails, order)|
      ensures freed == Bytes(old(cat), Swept(old(cat), kept, now, fails, order))
    {
      ghost var before := cat;
      deleted, freed := 0, 0;
      for i := 0 to |order|
        invariant cat == SweptUpTo(before, kept, now, fails, order[..i])
        invariant deleted == |Swept(before, kept, now, fails, order[..i])|
        invariant freed == Bytes(before, Swept(before, kept, now, fails, order[..i]))
      {
        var b := order[i];
        assert order[..i + 1][..i] == order[..i] && b !in order[..i];
        SweptUpToIs(before, kept, now, fails, order[..i]);
        SweptGrows(before, kept, now, fails, order, i);
        var row := cat.builds[b];
        if (row.state == Ready || row.state == Failed) && b !in kept && row.updatedAt <= now - GC_AGE && b !in fails {
          cat := cat.(builds := cat.builds[b := row.(state := Deleted, updatedAt := now)]);
          deleted, freed := deleted + 1, freed + row.sizeBytes;
        }
      }
      assert order[..|order|] == order;
      SweptUpToIs(before, kept, now, fails, order);
    }

    // One pass: the kept set, then the deletes.
    method GcPass(now: int, order: seq<Id>, fails: set<Id>) returns (deleted: nat, freed: nat)
      requires Lists(order, cat.builds.Keys)
      modifies this
      ensures cat == Pass(old(cat), now, fails)
    {
      KeptBuildsExcept(now, None);
      deleted, freed := GcCandidates(now, order, fails);
    }
  }

  // A listing of the rows: each once, none missing.
  ghost predicate Lists(order: seq<Id>, keys: set<Id>) {
    && (forall b :: b in keys <==> b in order)
    && (forall i, j :: 0 <= i < j < |order| ==> order[i] != order[j])
  }

  // The catalog once the rows of a listing's front have been swept.
  function SweptUpTo(c: Catalog, kept: set<Id>, now: int, fails: set<Id>, order: seq<Id>): Catalog {
    if order == [] then c
    else
      var d, b := SweptUpTo(c, kept, now, fails, order[..|order| - 1]), order[|order| - 1];
      if Candidate(c, kept, now, b) && b !in fails
      then d.(builds := d.builds[b := SweptRow(c, kept, now, fails, b)]) else d
  }

  lemma {:induction false} SweptUpToIs(c: Catalog, kept: set<Id>, now: int, fails: set<Id>, order: seq<Id>)
    ensures var d := SweptUpTo(c, kept, now, fails, order);
            && d == c.(builds := d.builds) && d.builds.Keys == c.builds.Keys
            && forall b :: b in c.builds ==>
                 d.builds[b] == if b in order then SweptRow(c, kept, now, fails, b) else c.builds[b]
  {
    if order != [] {
      SweptUpToIs(c, kept, now, fails, order[..|order| - 1]);
      assert order == order[..|order| - 1] + [order[|order| - 1]];
    }
  }

  // The builds a sweep deletes, in listing order, and their recorded bytes.
  function Swept(c: Catalog, kept: set<Id>, now: int, fails: set<Id>, order: seq<Id>): seq<Id> {
    if order == [] then []
    else
      var rest := Swept(c, kept, now, fails, order[..|order| - 1]);
      var b := order[|order| - 1];
      if Candidate(c, kept, now, b) && b !in fails then rest + [b] else rest
  }

  function Bytes(c: Catalog, ids: seq<Id>): nat {
    if ids == [] then 0
    else Bytes(c, ids[..|ids| - 1]) + (if ids[|ids| - 1] in c.builds then c.builds[ids[|ids| - 1]].sizeBytes else 0)
  }

  lemma SweptGrows(c: Catalog, kept: set<Id>, now: int, fails: set<Id>, order: seq<Id>, i: nat)
    requires i < |order|
    ensures var done, next := Swept(c, kept, now, fails, order[..i]), Swept(c, kept, now, fails, order[..i + 1]);
            if Candidate(c, kept, now, order[i]) && order[i] !in fails
            then |next| == |done| + 1 && Bytes(c, next) == Bytes(c, done) + c.builds[order[i]].sizeBytes
            else next == done
  {
    assert order[..i + 1][..i] == order[..i];
    var done := Swept(c, kept, now, fails, order[..i]);
    assert (done + [order[i]])[..|done|] == done;
  }

  // The rows the root set is made of.
  lemma RootsAreRows(c: Catalog, now: int, except: Option<Id>, k: set<Id>)
    ensures Roots(c, now, except) <= k <==>
            && StructuralRoots(c) <= k
            && (set b | b in c.builds && c.builds[b].state == Building) - {""} <= k
            && c.images - {""} <= k && c.warm - {""} <= k && c.named - {""} <= k
            && c.starting - {""} <= k && c.sandboxes - {""} <= k
            && forall l :: l in c.leases && Some(l) != except && LeaseHolds(c.leases[l], now) ==>
                 LeaseRoots(c, l) - {""} <= k
  {
    if Roots(c, now, except) <= k {
      assert NamedRoots(c, now, except) <= k;
      assert forall l :: l in c.leases && Some(l) != except && LeaseHolds(c.leases[l], now) ==>
        LeaseRoots(c, l) - {""} <= NamedRoots(c, now, except);
    }
  }
}
