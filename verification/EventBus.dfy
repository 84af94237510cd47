/**
 The lease event bus (api/events.go): one sequence, the ring of recent events
 and the fan-out to subscribers. What becomes of an event once it has been
 handed to a subscriber's queue is the subject of module Subscriber.
 */
module EventBus {
  import opened Options
  import opened EventIds

  const RING_SIZE := 10000

  // `payload` stands for the fields the bus only carries along.
  datatype Event = Event(seqNo: nat, epoch: string, leaseId: string, owner: string, payload: string)

  datatype Filter = Filter(owner: string, leaseId: string)

  datatype Position = Position(epoch: string, seqNo: nat)

  predicate Matches(f: Filter, ev: Event) {
    && (f.leaseId != "" ==> ev.leaseId == f.leaseId)
    && (f.owner != "" ==> ev.owner == f.owner)
  }

  function Select(keep: Event -> bool, events: seq<Event>): seq<Event> {
    if events == [] then []
    else
      var ev := events[|events| - 1];
      Select(keep, events[..|events| - 1]) + if keep(ev) then [ev] else []
  }

  function Wants(f: Filter): Event -> bool {
    (ev: Event) => Matches(f, ev)
  }

  function Matching(f: Filter, events: seq<Event>): seq<Event> {
    Select(Wants(f), events)
  }

  // A subscriber, with the position it subscribed at and what it was handed.
  datatype Sub = Sub(filter: Filter, from: nat, handed: seq<Event>)

  // A remembered position can be resumed: it is this run's, it exists, and no
  // event after it has left the ring.
  predicate Continuable(epoch: string, total: nat, p: Position) {
    p.epoch == epoch && p.seqNo <= total <= p.seqNo + RING_SIZE
  }

  // --- Selection ---

  lemma {:induction false} SelectSplits(keep: Event -> bool, a: seq<Event>, b: seq<Event>)
    ensures Select(keep, a + b) == Select(keep, a) + Select(keep, b)
  {
    if b == [] {
      assert a + b == a;
    } else {
      assert (a + b)[..|a + b| - 1] == a + b[..|b| - 1];
      SelectSplits(keep, a, b[..|b| - 1]);
    }
  }

  lemma MatchingSplits(f: Filter, events: seq<Event>, i: nat, j: nat)
    requires i <= j <= |events|
    ensures Matching(f, events[i..]) == Matching(f, events[i..j]) + Matching(f, events[j..])
  {
    SelectSplits(Wants(f), events[i..j], events[j..]);
    assert events[i..j] + events[j..] == events[i..];
  }

  lemma SelectSnoc(keep: Event -> bool, events: seq<Event>, ev: Event)
    ensures Select(keep, events + [ev]) == Select(keep, events) + if keep(ev) then [ev] else []
  {
    assert (events + [ev])[..|events|] == events;
  }

  lemma {:induction false} SelectMembers(keep: Event -> bool, events: seq<Event>, ev: Event)
    ensures ev in Select(keep, events) <==> keep(ev) && ev in events
  {
    if events != [] {
      var rest := events[..|events| - 1];
      SelectMembers(keep, rest, ev);
      assert events == rest + [events[|events| - 1]];
    }
  }

  // --- The ring ---

  // The place of slot k among the buffered events, counted from the oldest.
  function Age(start: nat, size: nat, k: nat): int {
    if k >= start then k - start else k - start + size
  }

  ghost predicate RingHolds(ring: seq<Event>, start: nat, history: seq<Event>) {
    && |ring| == (if |history| < RING_SIZE then |history| else RING_SIZE)
    && start < RING_SIZE && (|ring| < RING_SIZE ==> start == 0)
    && forall k :: 0 <= k < |ring| ==>
         0 <= |history| - |ring| + Age(start, |ring|, k) < |history| &&
         ring[k] == history[|history| - |ring| + Age(start, |ring|, k)]
  }

  lemma Wraps(start: nat, size: nat, i: nat)
    requires start < size && i < size
    ensures (start + i) % size == if start + i < size then start + i else start + i - size
  {
    if start + i >= size { assert (start + i - size) % size == (start + i) % size; }
  }

  lemma SlotHolds(ring: seq<Event>, start: nat, history: seq<Event>, i: nat)
    requires RingHolds(ring, start, history) && i < |ring|
    ensures ring[(start + i) % |ring|] == history[|history| - |ring| + i]
  {
    Wraps(start, |ring|, i);
  }

  lemma RingAdvances(ring: seq<Event>, start: nat, history: seq<Event>, ev: Event)
    requires RingHolds(ring, start, history)
    ensures |ring| < RING_SIZE ==> RingHolds(ring + [ev], start, history + [ev])
    ensures |ring| == RING_SIZE ==> RingHolds(ring[start := ev], (start + 1) % RING_SIZE, history + [ev])
  {
  }

  // --- The bus ---

  ghost predicate Stamped(epoch: string, history: seq<Event>) {
    forall i :: 0 <= i < |history| ==> history[i].seqNo == i + 1 && history[i].epoch == epoch
  }

  lemma StampedGrows(epoch: string, history: seq<Event>, ev: Event)
    requires Stamped(epoch, history) && ev.seqNo == |history| + 1 && ev.epoch == epoch
    ensures Stamped(epoch, history + [ev])
  {
  }

  // A subscriber has been handed every matching event since it subscribed.
  ghost predicate Caught(sub: Sub, history: seq<Event>) {
    sub.from <= |history| && sub.handed == Matching(sub.filter, history[sub.from..])
  }

  function HandOver(sub: Sub, ev: Event): Sub {
    if Matches(sub.filter, ev) then sub.(handed := sub.handed + [ev]) else sub
  }

  lemma CatchesUp(sub: Sub, history: seq<Event>, ev: Event)
    requires Caught(sub, history)
    ensures Caught(HandOver(sub, ev), history + [ev])
  {
    assert (history + [ev])[sub.from..] == history[sub.from..] + [ev];
    SelectSnoc(Wants(sub.filter), history[sub.from..], ev);
  }

  ghost predicate AllCaught(subs: map<nat, Sub>, bound: nat, history: seq<Event>) {
    forall id :: id in subs ==> id < bound && Caught(subs[id], history)
  }

  ghost predicate AllHanded(was: map<nat, Sub>, now: map<nat, Sub>, ev: Event) {
    now.Keys == was.Keys && forall id :: id in now ==> now[id] == HandOver(was[id], ev)
  }

  lemma AllCatchUp(was: map<nat, Sub>, now: map<nat, Sub>, bound: nat, history: seq<Event>, ev: Event)
    requires AllCaught(was, bound, history) && AllHanded(was, now, ev)
    ensures AllCaught(now, bound, history + [ev])
  {
    forall id | id in now ensures Caught(now[id], history + [ev]) { CatchesUp(was[id], history, ev); }
  }

  ghost predicate BusOk(epoch: string, ring: seq<Event>, start: nat, total: nat,
                        subs: map<nat, Sub>, bound: nat, history: seq<Event>) {
    && RingHolds(ring, start, history)
    && total == |history| && Stamped(epoch, history)
    && AllCaught(subs, bound, history)
  }

  lemma BusGrows(epoch: string, ring: seq<Event>, start: nat, subs: map<nat, Sub>, bound: nat, history: seq<Event>,
                 ring': seq<Event>, start': nat, subs': map<nat, Sub>, ev: Event)
    requires BusOk(epoch, ring, start, |history|, subs, bound, history)
    requires RingHolds(ring', start', history + [ev]) && AllHanded(subs, subs', ev)
    requires ev.seqNo == |history| + 1 && ev.epoch == epoch
    ensures BusOk(epoch, ring', start', |history| + 1, subs', bound, history + [ev])
  {
    AllCatchUp(subs, subs', bound, history, ev);
    StampedGrows(epoch, history, ev);
  }

  // The matching events of history[from..to], none when that range is empty.
  ghost function Between(keep: Event -> bool, history: seq<Event>, from: nat, to: nat): seq<Event>
    requires to <= |history|
  {
    if to <= from then [] else Select(keep, history[from..to])
  }

  lemma BetweenGrows(keep: Event -> bool, history: seq<Event>, from: nat, to: nat)
    requires to < |history|
    ensures Between(keep, history, from, to + 1) ==
            Between(keep, history, from, to) + if from <= to && keep(history[to]) then [history[to]] else []
  {
    if from < to {
      assert history[from..to + 1] == history[from..to] + [history[to]];
      SelectSnoc(keep, history[from..to], history[to]);
    } else if from == to {
      assert history[from..to + 1] == [] + [history[to]];
      SelectSnoc(keep, [], history[to]);
    }
  }

  lemma NumberAt(epoch: string, history: seq<Event>, i: nat)
    requires Stamped(epoch, history) && i < |history|
    ensures history[i].seqNo == i + 1
  {
  }

  lemma ScanStep(f: Filter, epoch: string, history: seq<Event>, after: nat, i: nat)
    requires Stamped(epoch, history) && i < |history|
    ensures var ev := history[i];
            Between(Wants(f), history, after, i + 1) ==
            Between(Wants(f), history, after, i) + if ev.seqNo > after && Matches(f, ev) then [ev] else []
  {
    BetweenGrows(Wants(f), history, after, i);
    NumberAt(epoch, history, i);
  }

  // An event after a position has left the ring.
  ghost predicate Aged(ring: seq<Event>, history: seq<Event>, p: nat) {
    exists i :: p <= i < |history| && history[i] !in ring
  }

  // The ring holds the newest events, so one after a position has left it if
  // and only if more than a ring of events followed the position.
  lemma AgedIff(epoch: string, ring: seq<Event>, start: nat, history: seq<Event>, p: nat)
    requires RingHolds(ring, start, history) && Stamped(epoch, history)
    ensures Aged(ring, history, p) <==> p + RING_SIZE < |history|
  {
    if p + RING_SIZE < |history| {
      forall k | 0 <= k < |ring| ensures ring[k].seqNo > p + 1 {}
      assert history[p] !in ring;
    } else {
      forall i | p <= i < |history| ensures history[i] in ring {
        SlotHolds(ring, start, history, i - (|history| - |ring|));
      }
    }
  }

  // The i-th oldest buffered event.
  method Buffered(ring: seq<Event>, start: nat, ghost history: seq<Event>, i: nat) returns (ev: Event)
    requires RingHolds(ring, start, history) && i < |ring|
    ensures ev == history[|history| - |ring| + i]
  {
    SlotHolds(ring, start, history, i);
    ev := ring[(start + i) % |ring|];
  }

  // The matching events after a position, field by field.
  lemma Later(f: Filter, epoch: string, history: seq<Event>, p: nat)
    requires Stamped(epoch, history)
    ensures p <= |history| ==>
              forall ev :: ev in Matching(f, history[p..]) <==>
                ev in history && ev.seqNo > p &&
                (f.leaseId == "" || ev.leaseId == f.leaseId) && (f.owner == "" || ev.owner == f.owner)
  {
    if p <= |history| {
      forall ev ensures ev in Matching(f, history[p..]) <==> Matches(f, ev) && ev in history && ev.seqNo > p {
        SelectMembers(Wants(f), history[p..], ev);
        if ev in history && ev.seqNo > p { assert history[p..][ev.seqNo - 1 - p] == ev; }
      }
    }
  }

  // What a scan has collected after each event of the history.
  ghost predicate Collects(f: Filter, history: seq<Event>, after: nat, upto: seq<seq<Event>>) {
    && |upto| == |history| + 1
    && forall i :: 0 <= i < |history| ==>
         upto[i + 1] == upto[i] + if history[i].seqNo > after && Matches(f, history[i]) then [history[i]] else []
  }

  lemma Collected(f: Filter, epoch: string, history: seq<Event>, after: nat) returns (upto: seq<seq<Event>>)
    requires Stamped(epoch, history)
    ensures Collects(f, history, after, upto)
    ensures forall i :: 0 <= i <= |history| && i <= after ==> upto[i] == []
    ensures upto[|history|] == Between(Wants(f), history, after, |history|)
  {
    upto := seq(|history| + 1, i requires 0 <= i <= |history| => Between(Wants(f), history, after, i));
    forall i | 0 <= i < |history|
      ensures upto[i + 1] == upto[i] + if history[i].seqNo > after && Matches(f, history[i]) then [history[i]] else []
    {
      ScanStep(f, epoch, history, after, i);
    }
  }

  // The matching buffered events after a position.
  method Scan(ring: seq<Event>, start: nat, ghost history: seq<Event>, f: Filter, after: nat,
              ghost upto: seq<seq<Event>>) returns (events: seq<Event>)
    requires RingHolds(ring, start, history) && Collects(f, history, after, upto)
    requires upto[|history| - |ring|] == []
    ensures events == upto[|history|]
  {
    events := [];
    ghost var base := |history| - |ring|;
    for i := 0 to |ring|
      invariant events == upto[base + i]
    {
      var ev := Buffered(ring, start, history, i);
      if ev.seqNo > after && Matches(f, ev) { events := events + [ev]; }
    }
  }

  class Bus {
    const epoch: string
    var ring: seq<Event>
    var start: nat
    var total: nat
    var subs: map<nat, Sub>
    var nextSub: nat
    ghost var history: seq<Event>

    ghost predicate Valid()
      reads this
    {
      BusOk(epoch, ring, start, total, subs, nextSub, history)
    }

    constructor (epoch: string)
      ensures Valid() && this.epoch == epoch && history == [] && subs == map[]
    {
      this.epoch, ring, start, total, subs, nextSub, history := epoch, [], 0, 0, map[], 0, [];
    }

    method Emit(leaseId: string, owner: string, payload: string) returns (ev: Event)
      requires Valid()
      modifies this
      ensures Valid()
      ensures ev == Event(old(total) + 1, epoch, leaseId, owner, payload)
      ensures history == old(history) + [ev]
      ensures nextSub == old(nextSub) && AllHanded(old(subs), subs, ev)
      ensures forall id :: id in subs ==>
                var sub := old(subs)[id];
                subs[id] == if (sub.filter.leaseId == "" || sub.filter.leaseId == leaseId) &&
                               (sub.filter.owner == "" || sub.filter.owner == owner)
                            then sub.(handed := sub.handed + [ev]) else sub
    {
      ghost var ring0, start0, subs0, history0 := ring, start, subs, history;
      assert BusOk(epoch, ring0, start0, |history0|, subs0, nextSub, history0);
      total := total + 1;
      ev := Event(total, epoch, leaseId, owner, payload);
      Remember(ev);
      FanOut(ev);
      BusGrows(epoch, ring0, start0, subs0, nextSub, history0, ring, start, subs, ev);
    }

    method Remember(ev: Event)
      requires RingHolds(ring, start, history)
      modifies `ring, `start, `history
      ensures history == old(history) + [ev] && RingHolds(ring, start, history)
    {
      RingAdvances(ring, start, history, ev);
      if |ring| < RING_SIZE {
        ring := ring + [ev];
      } else {
        ring := ring[start := ev];
        start := (start + 1) % RING_SIZE;
      }
      history := history + [ev];
    }

    method FanOut(ev: Event)
      modifies `subs
      ensures AllHanded(old(subs), subs, ev)
    {
      var todo, was := subs.Keys, subs;
      while todo != {}
        invariant subs.Keys == was.Keys && todo <= was.Keys
        invariant forall id :: id in was ==> subs[id] == if id in todo then was[id] else HandOver(was[id], ev)
        decreases |todo|
      {
        var id :| id in todo;
        if Matches(subs[id].filter, ev) {
          subs := subs[id := subs[id].(handed := subs[id].handed + [ev])];
        }
        todo := todo - {id};
      }
    }

    // replayAfterLocked: a gap if and only if the position cannot be resumed,
    // and otherwise exactly the matching events after it.
    method ReplayAfter(f: Filter, p: Position) returns (events: seq<Event>, gap: bool)
      requires Valid()
      ensures gap <==> !Continuable(epoch, total, p)
      ensures gap <==> p.epoch != epoch || p.seqNo > |history| || Aged(ring, history, p.seqNo)
      ensures gap ==> events == []
      ensures !gap ==> p.seqNo <= |history| && events == Matching(f, history[p.seqNo..])
      ensures !gap ==>
                forall ev :: ev in events <==>
                  ev in history && ev.seqNo > p.seqNo &&
                  (f.leaseId == "" || ev.leaseId == f.leaseId) && (f.owner == "" || ev.owner == f.owner)
    {
      AgedIff(epoch, ring, start, history, p.seqNo);
      Later(f, epoch, history, p.seqNo);
      events, gap := Resolve(f, p);
    }

    method Resolve(f: Filter, p: Position) returns (events: seq<Event>, gap: bool)
      requires Valid()
      ensures gap <==> !Continuable(epoch, total, p)
      ensures gap ==> events == []
      ensures !gap ==> p.seqNo <= |history| && events == Matching(f, history[p.seqNo..])
    {
      if p.epoch != epoch { return [], true; }
      if p.seqNo > total { return [], true; }
      var n := |ring|;
      if n == 0 {
        assert history[p.seqNo..] == [];
        return [], false;
      }
      var oldest := ring[0];
      if n == RING_SIZE { oldest := ring[start]; }
      assert oldest == history[total - n];
      var newest := Buffered(ring, start, history, n - 1);
      if p.seqNo > newest.seqNo { return [], true; }
      if p.seqNo == newest.seqNo {
        assert history[p.seqNo..] == [];
        return [], false;
      }
      if p.seqNo + 1 < oldest.seqNo { return [], true; }
      gap := false;
      ghost var upto := Collected(f, epoch, history, p.seqNo);
      events := Scan(ring, start, history, f, p.seqNo, upto);
      assert history[p.seqNo..|history|] == history[p.seqNo..];
    }

    // subscribeWithReplay: `at` is the position of a connect-time gap marker.
    method SubscribeWithReplay(f: Filter, pos: Option<Position>)
      returns (id: nat, replay: seq<Event>, gap: bool, at: nat)
      requires Valid()
      modifies this
      ensures Valid() && history == old(history) && total == old(total) && ring == old(ring)
      ensures id !in old(subs) && subs == old(subs)[id := Sub(f, at, [])] && at == total
      ensures pos.None? ==> replay == [] && !gap
      ensures pos.Some? ==> (gap <==> !Continuable(epoch, total, pos.value))
      ensures pos.Some? ==>
                (gap <==> pos.value.epoch != epoch || pos.value.seqNo > |history| ||
                          Aged(ring, history, pos.value.seqNo))
      ensures pos.Some? && !gap ==>
                pos.value.seqNo <= |history| && replay == Matching(f, history[pos.value.seqNo..])
      ensures gap ==> replay == []
    {
      id, at := nextSub, total;
      replay, gap := [], false;
      if pos.Some? { replay, gap := ReplayAfter(f, pos.value); }
      assert history[total..] == [];
      subs, nextSub := subs[id := Sub(f, total, [])], nextSub + 1;
    }

    method Unsubscribe(id: nat)
      requires Valid()
      modifies this
      ensures Valid() && history == old(history) && subs == old(subs) - {id} && nextSub == old(nextSub)
    {
      subs := subs - {id};
    }
  }

  // --- What a consumer receives ---

  // The replay and everything handed over afterwards, together, are the
  // matching events after the position: none lost, none twice, in order.
  lemma ReplayThenLive(f: Filter, before: seq<Event>, now: seq<Event>, p: nat, sub: Sub)
    requires p <= |before| && before <= now
    requires sub.filter == f && sub.from == |before| && Caught(sub, now)
    ensures Matching(f, before[p..]) + sub.handed == Matching(f, now[p..])
  {
    MatchingSplits(f, now, p, |before|);
    assert now[p..|before|] == before[p..];
  }

  lemma FrontOfJoin(a: seq<Event>, b: seq<Event>, k: nat)
    requires k <= |a|
    ensures (a + b)[..k] == a[..k]
  {
  }

  // Where the k-th event of a stream sits in the history: the stream's first k
  // events are exactly the matching ones up to there.
  lemma {:induction false} TakenUpTo(f: Filter, epoch: string, history: seq<Event>, p: nat, end: nat, k: nat)
    requires Stamped(epoch, history) && p <= end <= |history|
    requires 0 < k <= |Between(Wants(f), history, p, end)|
    ensures var got := Between(Wants(f), history, p, end)[..k];
            var q := got[k - 1].seqNo;
            p < q <= end && got == Between(Wants(f), history, p, q)
    decreases end
  {
    var keep := Wants(f);
    var all, shorter := Between(keep, history, p, end), Between(keep, history, p, end - 1);
    BetweenGrows(keep, history, p, end - 1);
    if k <= |shorter| {
      assert p <= end - 1;
      TakenUpTo(f, epoch, history, p, end - 1, k);
      FrontOfJoin(shorter, all[|shorter|..], k);
    } else {
      NumberAt(epoch, history, end - 1);
      assert all[..k] == all == shorter + [history[end - 1]];
    }
  }

  // A consumer that reconnects with the id of the last item it was sent, none
  // if it never had one; where its stream begins once it has one, what it has
  // received, and the stretches it was told it missed.
  datatype Consumer = Consumer(position: Option<nat>, start: nat, received: seq<Event>, gaps: seq<(nat, nat)>)

  // One connection: how many events existed when it was taken and when it
  // ended, and how many items, a gap marker included, the consumer was sent.
  datatype Visit = Visit(connected: nat, ended: nat, taken: nat)

  ghost function FirstOf(stream: seq<Event>, n: nat): seq<Event> { if n < |stream| then stream[..n] else stream }

  // What a connection carries: the replay its subscription was given, and what
  // the subscriber has been handed by the time it ends.
  ghost function Sent(f: Filter, history: seq<Event>, from: nat, connected: nat, ended: nat): seq<Event>
    requires from <= connected <= ended <= |history|
  {
    Matching(f, history[..connected][from..]) + Matching(f, history[..ended][connected..])
  }

  lemma SentIsBetween(f: Filter, history: seq<Event>, from: nat, connected: nat, ended: nat)
    requires from <= connected <= ended <= |history|
    ensures Sent(f, history, from, connected, ended) == Between(Wants(f), history, from, ended)
  {
    var now := history[..ended];
    ReplayThenLive(f, history[..connected], now, from, Sub(f, connected, Matching(f, now[connected..])));
    assert now[from..] == history[from..ended];
  }

  lemma Carried(f: Filter, before: seq<Event>, now: seq<Event>, from: nat, replay: seq<Event>, sub: Sub)
    requires from <= |before| && before <= now && replay == Matching(f, before[from..])
    requires sub.filter == f && sub.from == |before| && Caught(sub, now)
    ensures replay + sub.handed == Sent(f, now, from, |before|, |now|)
  {
    assert now[..|before|] == before && now[..|now|] == now;
  }

  // Whatever others emit meanwhile.
  method EmitEach(bus: Bus, id: nat, work: seq<(string, string, string)>)
    requires bus.Valid() && id in bus.subs
    modifies bus
    ensures bus.Valid() && bus.subs.Keys == old(bus.subs.Keys)
    ensures bus.subs[id].filter == old(bus.subs[id]).filter && bus.subs[id].from == old(bus.subs[id]).from
    ensures old(bus.history) <= bus.history && |bus.history| == |old(bus.history)| + |work|
  {
    for i := 0 to |work|
      invariant bus.Valid() && bus.subs.Keys == old(bus.subs.Keys)
      invariant bus.subs[id].filter == old(bus.subs[id]).filter && bus.subs[id].from == old(bus.subs[id]).from
      invariant old(bus.history) <= bus.history && |bus.history| == |old(bus.history)| + i
    {
      var _ := bus.Emit(work[i].0, work[i].1, work[i].2);
    }
  }

  // The rest of a connection once it has subscribed.
  method Follow(bus: Bus, id: nat, ghost before: seq<Event>, f: Filter, ghost from: nat, ghost replay: seq<Event>,
                work: seq<(string, string, string)>) returns (handed: seq<Event>)
    requires bus.Valid() && id in bus.subs && bus.subs[id] == Sub(f, |before|, []) && bus.history == before
    requires from <= |before| && replay == Matching(f, before[from..])
    modifies bus
    ensures bus.Valid() && bus.subs.Keys == old(bus.subs.Keys) - {id}
    ensures before <= bus.history && |bus.history| == |before| + |work|
    ensures replay + handed == Sent(f, bus.history, from, |before|, |bus.history|)
  {
    EmitEach(bus, id, work);
    ghost var sub := bus.subs[id];
    handed := bus.subs[id].handed;
    assert Caught(sub, bus.history);
    Carried(f, before, bus.history, from, replay, sub);
    bus.Unsubscribe(id);
  }

  // A connection from its subscription to its end, while others emit: the
  // replay and what the subscriber was handed are what it carries.
  method Stream(bus: Bus, f: Filter, pos: Option<Position>, work: seq<(string, string, string)>)
    returns (replay: seq<Event>, gap: bool, connected: nat, handed: seq<Event>)
    requires bus.Valid()
    modifies bus
    ensures bus.Valid() && old(bus.history) <= bus.history && bus.subs.Keys == old(bus.subs.Keys)
    ensures connected == |old(bus.history)| && |bus.history| == connected + |work|
    ensures gap <==>
            pos.Some? && (pos.value.epoch != bus.epoch || pos.value.seqNo > connected ||
                          Aged(old(bus.ring), old(bus.history), pos.value.seqNo))
    ensures var from := if pos.Some? && !gap then pos.value.seqNo else connected;
            from <= connected && replay + handed == Sent(f, bus.history, from, connected, |bus.history|)
  {
    ghost var before, keys := bus.history, bus.subs.Keys;
    var id;
    id, replay, gap, connected := bus.SubscribeWithReplay(f, pos);
    ghost var from := if pos.Some? && !gap then pos.value.seqNo else connected;
    assert connected == |before| && before[connected..] == [];
    assert from <= connected && replay == Matching(f, before[from..]);
    handed := Follow(bus, id, before, f, from, replay, work);
    assert bus.subs.Keys == keys;
  }

  ghost function Continue(
    f: Filter, history: seq<Event>, c: Consumer, from: nat, connected: nat, ended: nat, taken: nat): Consumer
    requires from <= connected <= ended <= |history|
  {
    var got := FirstOf(Sent(f, history, from, connected, ended), taken);
    if got == [] then c else c.(position := Some(got[|got| - 1].seqNo), received := c.received + got)
  }

  ghost function AfterGap(c: Consumer, at: nat): Consumer
    requires c.position.Some?
  {
    c.(position := Some(at), gaps := c.gaps + [(c.position.value, at)])
  }

  // Without an id the live flow starts at the newest position, with no replay
  // and no marker. A position that cannot be resumed is answered with a gap
  // marker at the newest position, and the live flow follows.
  ghost function Session(f: Filter, epoch: string, history: seq<Event>, c: Consumer, v: Visit): Consumer
    requires v.connected <= v.ended <= |history|
  {
    if c.position.None?
    then Continue(f, history, c.(start := v.connected), v.connected, v.connected, v.ended, v.taken)
    else if Continuable(epoch, v.connected, Position(epoch, c.position.value))
    then Continue(f, history, c, c.position.value, v.connected, v.ended, v.taken)
    else if v.taken == 0 then c
    else
      Continue(f, history, AfterGap(c, v.connected), v.connected, v.connected, v.ended, v.taken - 1)
  }

  ghost predicate InTurn(history: seq<Event>, from: nat, visits: seq<Visit>) {
    && (forall i :: 0 <= i < |visits| ==> from <= visits[i].connected <= visits[i].ended <= |history|)
    && (forall i, j :: 0 <= i < j < |visits| ==> visits[i].ended <= visits[j].connected)
  }

  function Earliest(first: Option<nat>): nat { if first.Some? then first.value else 0 }

  ghost function Reconnecting(
    f: Filter, epoch: string, history: seq<Event>, first: Option<nat>, visits: seq<Visit>): Consumer
    requires InTurn(history, 0, visits)
  {
    if visits == [] then Consumer(first, Earliest(first), [], [])
    else
      Session(f, epoch, history, Reconnecting(f, epoch, history, first, visits[..|visits| - 1]), visits[|visits| - 1])
  }

  // Every matching event from one position to another that lies in no gap.
  ghost function Outside(f: Filter, history: seq<Event>, from: nat, gaps: seq<(nat, nat)>, end: nat): seq<Event>
    requires end <= |history| && forall g :: g in gaps ==> g.0 <= |history|
    decreases |gaps|
  {
    if gaps == [] then Between(Wants(f), history, from, end)
    else
      var last := gaps[|gaps| - 1];
      Outside(f, history, from, gaps[..|gaps| - 1], last.0) + Between(Wants(f), history, last.1, end)
  }

  // The gaps lie in order between two positions, each of more than a ring.
  ghost predicate GapsOk(gaps: seq<(nat, nat)>, from: nat, end: nat) {
    && (forall i :: 0 <= i < |gaps| ==> from <= gaps[i].0 && gaps[i].0 + RING_SIZE < gaps[i].1 <= end)
    && (forall i, j :: 0 <= i < j < |gaps| ==> gaps[i].1 <= gaps[j].0)
  }

  ghost predicate Accounted(f: Filter, history: seq<Event>, c: Consumer) {
    if c.position.None? then c.received == [] && c.gaps == []
    else
      && c.start <= c.position.value <= |history| && GapsOk(c.gaps, c.start, c.position.value)
      && c.received == Outside(f, history, c.start, c.gaps, c.position.value)
  }

  // The consumer's position when it has been through the visits.
  ghost predicate Bounded(c: Consumer, first: Option<nat>, visits: seq<Visit>) {
    && (c.position.Some? ==> c.position.value <= if visits == [] then Earliest(first) else visits[|visits| - 1].ended)
    && (first.Some? ==> c.position.Some? && c.start == first.value)
  }

  ghost predicate SentNothing(f: Filter, history: seq<Event>, v: Visit)
    requires v.connected <= v.ended <= |history|
  {
    v.taken == 0 || Sent(f, history, v.connected, v.connected, v.ended) == []
  }

  // A consumer that came without an id begins where it was first sent something.
  ghost predicate BeginsAt(f: Filter, history: seq<Event>, visits: seq<Visit>, i: nat)
    requires InTurn(history, 0, visits)
  {
    i < |visits| && !SentNothing(f, history, visits[i]) &&
    forall j :: 0 <= j < i ==> SentNothing(f, history, visits[j])
  }

  ghost predicate BeginsRight(f: Filter, history: seq<Event>, c: Consumer, visits: seq<Visit>)
    requires InTurn(history, 0, visits)
  {
    if c.position.None? then forall j :: 0 <= j < |visits| ==> SentNothing(f, history, visits[j])
    else exists i: nat :: BeginsAt(f, history, visits, i) && c.start == visits[i].connected
  }

  // Over any number of reconnects, wherever each connection breaks off, the
  // consumer has received every matching event from its start to its position
  // exactly once and in order, except in the stretches it was told it missed,
  // each of more than a ring of events. It starts at the id it came with or,
  // having come without one, where it was first sent something.
  lemma {:induction false} ExactlyOnce(
    f: Filter, epoch: string, history: seq<Event>, first: Option<nat>, visits: seq<Visit>)
    requires Stamped(epoch, history) && Earliest(first) <= |history| && InTurn(history, Earliest(first), visits)
    ensures var c := Reconnecting(f, epoch, history, first, visits);
            && Accounted(f, history, c) && Bounded(c, first, visits)
            && (first.None? ==> BeginsRight(f, history, c, visits))
  {
    if visits != [] {
      var rest, v := visits[..|visits| - 1], visits[|visits| - 1];
      ExactlyOnce(f, epoch, history, first, rest);
      var c := Reconnecting(f, epoch, history, first, rest);
      SessionAdvances(f, epoch, history, c, v);
      if first.None? { BeginningStays(f, epoch, history, c, visits); }
    }
  }

  lemma BeginningStays(f: Filter, epoch: string, history: seq<Event>, c: Consumer, visits: seq<Visit>)
    requires visits != [] && InTurn(history, 0, visits) && BeginsRight(f, history, c, visits[..|visits| - 1])
    ensures BeginsRight(f, history, Session(f, epoch, history, c, visits[|visits| - 1]), visits)
  {
    var rest, v := visits[..|visits| - 1], visits[|visits| - 1];
    if c.position.Some? {
      StartStays(f, epoch, history, c, v);
      var i: nat :| BeginsAt(f, history, rest, i) && c.start == rest[i].connected;
      StillBegins(f, history, visits, i);
    } else {
      FirstSent(f, epoch, history, c, v);
      BeginsNow(f, history, rest, visits);
    }
  }

  lemma BeginsNow(f: Filter, history: seq<Event>, rest: seq<Visit>, visits: seq<Visit>)
    requires visits != [] && InTurn(history, 0, visits) && rest == visits[..|visits| - 1]
    requires forall j :: 0 <= j < |rest| ==> SentNothing(f, history, rest[j])
    ensures var v := visits[|visits| - 1];
            if SentNothing(f, history, v) then forall j :: 0 <= j < |visits| ==> SentNothing(f, history, visits[j])
            else BeginsAt(f, history, visits, |visits| - 1)
  {
    forall j | 0 <= j < |rest| ensures SentNothing(f, history, visits[j]) { assert rest[j] == visits[j]; }
  }

  lemma StillBegins(f: Filter, history: seq<Event>, visits: seq<Visit>, i: nat)
    requires visits != [] && InTurn(history, 0, visits) && BeginsAt(f, history, visits[..|visits| - 1], i)
    ensures BeginsAt(f, history, visits, i)
  {
  }

  lemma StartStays(f: Filter, epoch: string, history: seq<Event>, c: Consumer, v: Visit)
    requires v.connected <= v.ended <= |history| && c.position.Some?
    ensures var n := Session(f, epoch, history, c, v); n.position.Some? && n.start == c.start
  {
  }

  lemma FirstSent(f: Filter, epoch: string, history: seq<Event>, c: Consumer, v: Visit)
    requires v.connected <= v.ended <= |history| && c.position.None?
    ensures var n := Session(f, epoch, history, c, v);
            n.start == v.connected && (n.position.None? <==> SentNothing(f, history, v))
  {
  }

  lemma SessionAdvances(f: Filter, epoch: string, history: seq<Event>, c: Consumer, v: Visit)
    requires Stamped(epoch, history) && Accounted(f, history, c)
    requires v.connected <= v.ended <= |history| && (c.position.Some? ==> c.position.value <= v.connected)
    ensures var n := Session(f, epoch, history, c, v);
            && Accounted(f, history, n) && (n.position.Some? ==> n.position.value <= v.ended)
            && (c.position.Some? ==> n.position.Some? && n.start == c.start)
  {
    if c.position.None? {
      Joins(f, epoch, history, c, v);
    } else if Continuable(epoch, v.connected, Position(epoch, c.position.value)) {
      ContinueAdvances(f, epoch, history, c, v.connected, v.ended, v.taken);
    } else if v.taken > 0 {
      ToldGoesOn(f, epoch, history, c, v);
    }
    if c.position.Some? { StartStays(f, epoch, history, c, v); }
  }

  // A consumer whose position has left the ring is told, and sent live events.
  lemma ToldGoesOn(f: Filter, epoch: string, history: seq<Event>, c: Consumer, v: Visit)
    requires Stamped(epoch, history) && Accounted(f, history, c) && c.position.Some? && v.taken > 0
    requires c.position.value + RING_SIZE < v.connected <= v.ended <= |history|
    ensures var n := Continue(f, history, AfterGap(c, v.connected), v.connected, v.connected, v.ended, v.taken - 1);
            Accounted(f, history, n) && n.position.Some? && n.position.value <= v.ended
  {
    ToldIsAccounted(f, history, c, v.connected);
    ContinueAdvances(f, epoch, history, AfterGap(c, v.connected), v.connected, v.ended, v.taken - 1);
  }

  // A consumer without an id is sent live events, or still has none.
  lemma Joins(f: Filter, epoch: string, history: seq<Event>, c: Consumer, v: Visit)
    requires Stamped(epoch, history) && Accounted(f, history, c) && c.position.None?
    requires v.connected <= v.ended <= |history|
    ensures var n := Session(f, epoch, history, c, v);
            Accounted(f, history, n) && (n.position.Some? ==> n.position.value <= v.ended)
  {
    var at := c.(position := Some(v.connected), start := v.connected);
    assert Between(Wants(f), history, v.connected, v.connected) == [];
    ContinueAdvances(f, epoch, history, at, v.connected, v.ended, v.taken);
  }

  lemma ToldIsAccounted(f: Filter, history: seq<Event>, c: Consumer, at: nat)
    requires Accounted(f, history, c) && c.position.Some? && c.position.value + RING_SIZE < at <= |history|
    ensures Accounted(f, history, AfterGap(c, at))
  {
    var gaps := c.gaps + [(c.position.value, at)];
    assert gaps[..|gaps| - 1] == c.gaps;
    assert Between(Wants(f), history, at, at) == [];
    assert c.received + [] == c.received;
  }

  lemma ContinueAdvances(
    f: Filter, epoch: string, history: seq<Event>, c: Consumer, connected: nat, ended: nat, taken: nat)
    requires Stamped(epoch, history) && Accounted(f, history, c) && c.position.Some?
    requires c.position.value <= connected <= ended <= |history|
    ensures var n := Continue(f, history, c, c.position.value, connected, ended, taken);
            Accounted(f, history, n) && n.position.Some? && c.position.value <= n.position.value <= ended
  {
    var from := c.position.value;
    SentIsBetween(f, history, from, connected, ended);
    var stream := Between(Wants(f), history, from, ended);
    var k := if taken < |stream| then taken else |stream|;
    assert stream[..k] == FirstOf(stream, taken);
    if k > 0 { TakesOn(f, epoch, history, c, ended, k); }
  }

  // Taking the stream's first k events brings the position to the last of them.
  lemma TakesOn(f: Filter, epoch: string, history: seq<Event>, c: Consumer, ended: nat, k: nat)
    requires Stamped(epoch, history) && Accounted(f, history, c) && c.position.Some?
    requires c.position.value <= ended <= |history|
    requires 0 < k <= |Between(Wants(f), history, c.position.value, ended)|
    ensures var got := Between(Wants(f), history, c.position.value, ended)[..k];
            var q := got[k - 1].seqNo;
            && c.position.value <= q <= ended
            && Accounted(f, history, c.(position := Some(q), received := c.received + got))
  {
    var from := c.position.value;
    TakenUpTo(f, epoch, history, from, ended, k);
    var q := Between(Wants(f), history, from, ended)[k - 1].seqNo;
    OutsideJoins(f, history, c.start, c.gaps, from, q);
  }

  lemma OutsideJoins(f: Filter, history: seq<Event>, from: nat, gaps: seq<(nat, nat)>, mid: nat, end: nat)
    requires from <= mid <= end <= |history| && forall g :: g in gaps ==> g.0 <= |history|
    requires gaps != [] ==> gaps[|gaps| - 1].1 <= mid
    ensures Outside(f, history, from, gaps, end) ==
            Outside(f, history, from, gaps, mid) + Between(Wants(f), history, mid, end)
  {
    BetweenJoins(f, history, if gaps == [] then from else gaps[|gaps| - 1].1, mid, end);
  }

  lemma BetweenJoins(f: Filter, history: seq<Event>, a: nat, b: nat, c: nat)
    requires a <= b <= c <= |history|
    ensures Between(Wants(f), history, a, c) == Between(Wants(f), history, a, b) + Between(Wants(f), history, b, c)
  {
    SelectSplits(Wants(f), history[a..b], history[b..c]);
    assert history[a..b] + history[b..c] == history[a..c];
  }

  // --- Which events those are ---

  lemma BetweenMembers(f: Filter, epoch: string, history: seq<Event>, from: nat, end: nat, ev: Event)
    requires Stamped(epoch, history) && end <= |history|
    ensures ev in Between(Wants(f), history, from, end) <==>
            Matches(f, ev) && ev in history && from < ev.seqNo <= end
  {
    if from < end {
      SelectMembers(Wants(f), history[from..end], ev);
      if ev in history && from < ev.seqNo <= end { assert history[from..end][ev.seqNo - 1 - from] == ev; }
    }
  }

  ghost predicate InGap(gaps: seq<(nat, nat)>, q: nat) { exists i :: 0 <= i < |gaps| && gaps[i].0 < q <= gaps[i].1 }

  lemma InGapSplits(gaps: seq<(nat, nat)>, q: nat)
    requires gaps != []
    ensures var last := gaps[|gaps| - 1];
            InGap(gaps, q) <==> InGap(gaps[..|gaps| - 1], q) || last.0 < q <= last.1
  {
    var rest := gaps[..|gaps| - 1];
    if InGap(rest, q) {
      var i :| 0 <= i < |rest| && rest[i].0 < q <= rest[i].1;
      assert gaps[i].0 < q <= gaps[i].1;
    }
  }

  lemma {:induction false} OutsideMembers(
    f: Filter, epoch: string, history: seq<Event>, from: nat, gaps: seq<(nat, nat)>, end: nat, ev: Event)
    requires Stamped(epoch, history) && end <= |history| && GapsOk(gaps, from, end)
    ensures ev in Outside(f, history, from, gaps, end) <==>
            Matches(f, ev) && ev in history && from < ev.seqNo <= end && !InGap(gaps, ev.seqNo)
    decreases |gaps|
  {
    if gaps == [] {
      BetweenMembers(f, epoch, history, from, end, ev);
    } else {
      var rest, last := gaps[..|gaps| - 1], gaps[|gaps| - 1];
      OutsideMembers(f, epoch, history, from, rest, last.0, ev);
      BetweenMembers(f, epoch, history, last.1, end, ev);
      InGapSplits(gaps, ev.seqNo);
    }
  }

  // So a matching event no newer than the consumer's position was received if
  // and only if it is after the start and in none of the gaps.
  lemma ReceivedIff(
    f: Filter, epoch: string, history: seq<Event>, first: Option<nat>, visits: seq<Visit>, ev: Event)
    requires Stamped(epoch, history) && Earliest(first) <= |history| && InTurn(history, Earliest(first), visits)
    requires Matches(f, ev) && ev in history
    ensures var c := Reconnecting(f, epoch, history, first, visits);
            ev in c.received <==>
            c.position.Some? && c.start < ev.seqNo <= c.position.value && !InGap(c.gaps, ev.seqNo)
  {
    ExactlyOnce(f, epoch, history, first, visits);
    var c := Reconnecting(f, epoch, history, first, visits);
    if c.position.Some? { OutsideMembers(f, epoch, history, c.start, c.gaps, c.position.value, ev); }
  }

  // A connect-time gap marker carries the newest position, as text. A
  // reconnect from that text resumes, and gets everything emitted since, if
  // and only if at most a ring of events followed it.
  lemma GapMarkerResumes(epoch: string, at: nat, total: nat)
    requires at <= total < UINT64 && '-' !in epoch && !Blank(epoch)
    ensures ParseId(EventId(epoch, at)) == Some((epoch, at))
    ensures Continuable(epoch, total, Position(epoch, at)) <==> total - at <= RING_SIZE
  {
    IdRoundTrip(epoch, at);
  }
}
