/**
 What diskVictims (api/disk_room.go) chooses, in the bytes of the owners and
 their leases: who may lose a lease, and whose turn it is. Module DiskVictims has
 the selector itself, over ratios.
 */
module DiskFairness {
  import opened DiskVictims

  // --- Ratios are comparisons of products ---

  lemma RatioOver(used: int, slice: int, w: int, b: int)
    requires slice > 0 && b > 0
    ensures Ratio(used, slice) > Ratio(w, b) <==> used * b > w * slice
  {
    var x, y := Ratio(used, slice), Ratio(w, b);
    Product(used, slice, b);
    Product(w, b, slice);
    var d := slice as real * b as real;
    assert x * d == (used * b) as real && y * d == (w * slice) as real;
    if x > y { Larger(y, x, d); }
    if x < y { Larger(x, y, d); }
  }

  lemma Product(used: int, slice: int, b: int)
    requires slice > 0
    ensures Ratio(used, slice) * (slice as real * b as real) == (used * b) as real
    ensures Ratio(used, slice) * (b as real * slice as real) == (used * b) as real
  {
    var x := Ratio(used, slice);
    assert x * slice as real == used as real;
    assert x * (slice as real * b as real) == (x * slice as real) * b as real;
    assert used as real * b as real == (used * b) as real;
  }

  lemma Larger(x: real, y: real, d: real)
    requires x < y && d > 0.0
    ensures x * d < y * d
  {
    assert (y - x) * d > 0.0;
  }

  // --- Who may lose a lease ---

  // The row that says what the requester holds: the last that names them.
  predicate IsRequester(owners: seq<Owner>, requester: string, q: nat) {
    q < |owners| && owners[q].name == requester && forall j :: q < j < |owners| ==> owners[j].name != requester
  }

  // There is exactly one such row whenever the requester is listed at all.
  lemma {:induction false} RequesterIsListed(owners: seq<Owner>, requester: string, i: nat) returns (q: nat)
    requires i < |owners| && owners[i].name == requester
    ensures IsRequester(owners, requester, q) && forall p :: IsRequester(owners, requester, p) ==> p == q
  {
    if owners[|owners| - 1].name == requester {
      q := |owners| - 1;
    } else {
      q := RequesterIsListed(owners[..|owners| - 1], requester, i);
      assert owners[q].name == requester;
    }
  }

  // A use of a slice is further over than the requester's would be with the
  // request granted; a requester without a slice counts as using nothing.
  predicate Over(used: int, slice: int, q: Owner, need: int) {
    if q.slice > 0 then used * q.slice > (q.used + need) * slice else used > 0
  }

  // An owner may lose its next lease: not the requester, over its own slice, and
  // further over than the requester with that lease and without it.
  predicate MayGive(o: Owner, used: int, next: Lease, q: Owner, need: int) {
    && o.name != q.name && o.slice > 0 && used > o.slice
    && Over(used, o.slice, q, need) && Over(used - next.bytes, o.slice, q, need)
  }

  lemma {:induction false} BarIs(owners: seq<Holder>, requester: string, need: int, q: nat)
    requires q < |owners| && owners[q].name == requester
    requires forall j :: q < j < |owners| ==> owners[j].name != requester
    ensures Bar(owners, requester, need) == Ratio(owners[q].used + need, owners[q].slice)
  {
    if q < |owners| - 1 { BarIs(owners[..|owners| - 1], requester, need, q); }
  }

  lemma AboveBarIff(used: int, slice: int, q: Owner, need: int)
    requires slice > 0
    ensures Ratio(used, slice) > Ratio(q.used + need, q.slice) <==> Over(used, slice, q, need)
  {
    if q.slice > 0 { RatioOver(used, slice, q.used + need, q.slice); } else { RatioOver(used, slice, 0, 1); }
  }

  // The selector's test is that one.
  lemma MayLoseIff(o: Owner, requester: string, bar: real, lost: nat, q: Owner, need: int)
    requires q.name == requester && bar == Ratio(q.used + need, q.slice) && lost < |Order(o)|
    ensures MayLose(Holds(o), requester, bar, lost) <==>
            MayGive(o, o.used - Bytes(Order(o)[..lost]), Order(o)[lost], q, need)
  {
    var h := Holds(o);
    UsedShrinks(h, lost);
    if o.slice > 0 {
      AboveBarIff(UsedAfter(h, lost), o.slice, q, need);
      AboveBarIff(UsedAfter(h, lost + 1), o.slice, q, need);
    }
  }

  // --- Whose turn it is ---

  // What an owner has given up to the victims so far, and how often.
  function Given(victims: seq<Victim>, i: nat): int {
    if victims == [] then 0
    else Given(victims[..|victims| - 1], i) +
         if victims[|victims| - 1].owner == i then victims[|victims| - 1].lease.bytes else 0
  }

  function Times(victims: seq<Victim>, i: nat): nat {
    if victims == [] then 0
    else Times(victims[..|victims| - 1], i) + if victims[|victims| - 1].owner == i then 1 else 0
  }

  // Owner i may lose a lease after the victims so far.
  ghost predicate Open(owners: seq<Owner>, need: int, q: nat, before: seq<Victim>, i: nat)
    requires q < |owners|
  {
    && i < |owners| && Times(before, i) < |Order(owners[i])|
    && MayGive(owners[i], owners[i].used - Given(before, i), Order(owners[i])[Times(before, i)], owners[q], need)
  }

  // A use u of one slice is a larger part than a use w of another, or as large
  // and listed first.
  predicate Ahead(u: int, slice: int, i: nat, w: int, other: int, j: nat) {
    u * other > w * slice || (u * other == w * slice && i <= j)
  }

  ghost predicate Precedes(owners: seq<Owner>, before: seq<Victim>, i: nat, j: nat)
    requires i < |owners| && j < |owners|
  {
    Ahead(owners[i].used - Given(before, i), owners[i].slice, i,
          owners[j].used - Given(before, j), owners[j].slice, j)
  }

  // The next victim is the oldest unpinned lease its owner has left, and of all
  // owners that may lose one its owner uses the most of its slice; of equals it
  // is listed first.
  ghost predicate Due(owners: seq<Owner>, need: int, q: nat, before: seq<Victim>, v: Victim)
    requires q < |owners|
  {
    && Open(owners, need, q, before, v.owner) && v.lease == Order(owners[v.owner])[Times(before, v.owner)]
    && forall j: nat :: j < |owners| && Open(owners, need, q, before, j) ==> Precedes(owners, before, v.owner, j)
  }

  ghost predicate AllDue(owners: seq<Owner>, need: int, q: nat, victims: seq<Victim>)
    requires q < |owners|
  {
    victims == [] ||
    (Due(owners, need, q, victims[..|victims| - 1], victims[|victims| - 1]) &&
     AllDue(owners, need, q, victims[..|victims| - 1]))
  }

  // --- The picks and the victims tell the same ---

  lemma BytesGrow(leases: seq<Lease>, n: nat)
    requires n < |leases|
    ensures Bytes(leases[..n + 1]) == Bytes(leases[..n]) + leases[n].bytes
  {
    assert leases[..n + 1][..n] == leases[..n];
  }

  lemma {:induction false} SameTally(owners: seq<Holder>, requester: string, bar: real, picks: seq<nat>, i: nat)
    requires InTurn(owners, requester, bar, picks) && i < |owners|
    ensures Lost(picks, i) <= |owners[i].order|
    ensures var victims := Victims(owners, requester, bar, picks);
            Times(victims, i) == Lost(picks, i) && Given(victims, i) == Bytes(owners[i].order[..Lost(picks, i)])
  {
    if picks != [] {
      var init, last := picks[..|picks| - 1], picks[|picks| - 1];
      SameTally(owners, requester, bar, init, i);
      var all := Victims(owners, requester, bar, picks);
      assert all[..|all| - 1] == Victims(owners, requester, bar, init);
      if last == i { BytesGrow(owners[i].order, Lost(init, i)); }
    }
  }

  // What the victims so far have taken from an owner is what the picks have.
  ghost predicate Tallied(o: Owner, before: seq<Victim>, i: nat, lost: nat) {
    lost <= |Order(o)| && Times(before, i) == lost && Given(before, i) == Bytes(Order(o)[..lost])
  }

  lemma OpenIff(owners: seq<Owner>, requester: string, need: int, q: nat, before: seq<Victim>, i: nat, lost: nat)
    requires IsRequester(owners, requester, q) && i < |owners| && Tallied(owners[i], before, i, lost)
    ensures Open(owners, need, q, before, i) <==>
            Score(Holds(owners[i]), requester, Ratio(owners[q].used + need, owners[q].slice), lost).Some?
  {
    if lost < |Order(owners[i])| {
      MayLoseIff(owners[i], requester, Ratio(owners[q].used + need, owners[q].slice), lost, owners[q], need);
    }
  }

  // Of two owners that may lose a lease, the higher ratio is the larger product.
  lemma ScoresCompare(o: Owner, x: Owner, requester: string, bar: real, lost: nat, gone: nat)
    requires Score(Holds(o), requester, bar, lost).Some? && Score(Holds(x), requester, bar, gone).Some?
    ensures var u, w := o.used - Bytes(Order(o)[..lost]), x.used - Bytes(Order(x)[..gone]);
            Score(Holds(o), requester, bar, lost).value > Score(Holds(x), requester, bar, gone).value <==>
            u * x.slice > w * o.slice
  {
    RatioOver(UsedAfter(Holds(o), lost), o.slice, UsedAfter(Holds(x), gone), x.slice);
  }

  lemma AheadOf(o: Owner, x: Owner, requester: string, bar: real, lost: nat, gone: nat,
                i: nat, j: nat, u: int, w: int)
    requires Score(Holds(o), requester, bar, lost).Some? && Score(Holds(x), requester, bar, gone).Some?
    requires u == o.used - Bytes(Order(o)[..lost]) && w == x.used - Bytes(Order(x)[..gone])
    requires var r, t := Score(Holds(o), requester, bar, lost).value, Score(Holds(x), requester, bar, gone).value;
             t < r || (t == r && i <= j)
    ensures Ahead(u, o.slice, i, w, x.slice, j)
  {
    ScoresCompare(o, x, requester, bar, lost, gone);
    ScoresCompare(x, o, requester, bar, gone, lost);
  }

  lemma Tally(owners: seq<Owner>, requester: string, bar: real, picks: seq<nat>, i: nat)
    requires InTurn(AllHold(owners), requester, bar, picks) && i < |owners|
    ensures Tallied(owners[i], Victims(AllHold(owners), requester, bar, picks), i, Lost(picks, i))
  {
    SameTally(AllHold(owners), requester, bar, picks, i);
  }

  // Which owners may lose a lease after picks in turn.
  lemma OpenAfter(owners: seq<Owner>, requester: string, need: int, bar: real, q: nat, picks: seq<nat>, i: nat)
    requires IsRequester(owners, requester, q) && i < |owners|
    requires bar == Bar(AllHold(owners), requester, need) && InTurn(AllHold(owners), requester, bar, picks)
    ensures Open(owners, need, q, Victims(AllHold(owners), requester, bar, picks), i) <==>
            Score(AllHold(owners)[i], requester, bar, Lost(picks, i)).Some?
  {
    BarIs(AllHold(owners), requester, need, q);
    Tally(owners, requester, bar, picks, i);
    OpenIff(owners, requester, need, q, Victims(AllHold(owners), requester, bar, picks), i, Lost(picks, i));
  }

  lemma NextIsAhead(owners: seq<Owner>, requester: string, bar: real, picks: seq<nat>, i: nat, j: nat)
    requires InTurn(AllHold(owners), requester, bar, picks) && IsNext(AllHold(owners), requester, bar, picks, i)
    requires j < |owners| && Score(AllHold(owners)[j], requester, bar, Lost(picks, j)).Some?
    ensures Precedes(owners, Victims(AllHold(owners), requester, bar, picks), i, j)
  {
    Tally(owners, requester, bar, picks, i);
    Tally(owners, requester, bar, picks, j);
    var before := Victims(AllHold(owners), requester, bar, picks);
    AheadOf(owners[i], owners[j], requester, bar, Lost(picks, i), Lost(picks, j), i, j,
            owners[i].used - Given(before, i), owners[j].used - Given(before, j));
  }

  lemma NextIsDue(owners: seq<Owner>, requester: string, need: int, bar: real, q: nat, picks: seq<nat>, i: nat)
    requires IsRequester(owners, requester, q) && bar == Bar(AllHold(owners), requester, need)
    requires InTurn(AllHold(owners), requester, bar, picks) && IsNext(AllHold(owners), requester, bar, picks, i)
    ensures Due(owners, need, q, Victims(AllHold(owners), requester, bar, picks), Take(AllHold(owners), picks, i))
  {
    var before := Victims(AllHold(owners), requester, bar, picks);
    Tally(owners, requester, bar, picks, i);
    OpenAfter(owners, requester, need, bar, q, picks, i);
    forall j: nat | j < |owners| && Open(owners, need, q, before, j)
      ensures Precedes(owners, before, i, j)
    {
      OpenAfter(owners, requester, need, bar, q, picks, j);
      NextIsAhead(owners, requester, bar, picks, i, j);
    }
  }

  lemma {:induction false} TurnsAreDue(owners: seq<Owner>, requester: string, need: int, q: nat, picks: seq<nat>)
    requires IsRequester(owners, requester, q)
    requires InTurn(AllHold(owners), requester, Bar(AllHold(owners), requester, need), picks)
    ensures var holders := AllHold(owners);
            AllDue(owners, need, q, Victims(holders, requester, Bar(holders, requester, need), picks))
  {
    if picks != [] {
      var holders := AllHold(owners);
      var bar := Bar(holders, requester, need);
      var init := picks[..|picks| - 1];
      TurnsAreDue(owners, requester, need, q, init);
      NextIsDue(owners, requester, need, bar, q, init, picks[|picks| - 1]);
      var all := Victims(holders, requester, bar, picks);
      assert all[..|all| - 1] == Victims(holders, requester, bar, init);
    }
  }

  // --- The choice, in bytes ---

  // The leases given up, in order, were each due, and together they cover the
  // bytes asked for where without the last they did not.
  lemma AnswerIsDue(owners: seq<Owner>, requester: string, need: int, cover: int, victims: seq<Victim>, q: nat)
    requires IsAnswer(owners, requester, need, cover, victims) && IsRequester(owners, requester, q)
    ensures AllDue(owners, need, q, victims)
    ensures victims != [] && Freed(victims[..|victims| - 1]) < cover <= Freed(victims)
  {
    var holders := AllHold(owners);
    var bar := Bar(holders, requester, need);
    var picks :|
      JustCovers(holders, requester, bar, picks, cover) && victims == Victims(holders, requester, bar, picks);
    TurnsAreDue(owners, requester, need, q, picks);
    AnswerIsFair(owners, requester, need, cover, victims);
  }

  // And there is no answer when leases each given up in turn fall short of the
  // bytes and no owner is left who may lose one.
  lemma ShortIsExhausted(owners: seq<Owner>, requester: string, need: int, cover: int, q: nat)
    returns (victims: seq<Victim>)
    requires IsShort(owners, requester, need, cover) && IsRequester(owners, requester, q)
    ensures AllDue(owners, need, q, victims) && Freed(victims) < cover
    ensures forall i: nat :: i < |owners| ==> !Open(owners, need, q, victims, i)
  {
    var holders := AllHold(owners);
    var bar := Bar(holders, requester, need);
    var picks :| FallsShort(holders, requester, bar, picks, cover);
    victims := Victims(holders, requester, bar, picks);
    TurnsAreDue(owners, requester, need, q, picks);
    forall i: nat | i < |owners| ensures !Open(owners, need, q, victims, i) {
      OpenAfter(owners, requester, need, bar, q, picks, i);
    }
  }
}
