/**
 A stream that breaks off (api/events.go, api/events_sse.go): what the
 subscriber's queue sheds, and what a reconnect from the last id replays.

 The n-th event handed to a subscriber is number n of its queue. Only events
 carry an id, so the position a client reconnects from is that of the last
 event it was sent; a shed marker leaves it where it was, and a client that came
 without an id and was sent no event has none.
 */
module StreamLoss {
  import opened Options
  import Bus = EventBus
  import Queue = Subscriber

  // The place of the latest event, or of the latest gap marker, the client was sent.
  function LastSent(gap: bool, items: seq<Queue.Item>, fates: seq<Queue.Fate>): (r: Option<nat>)
    requires |fates| <= |items|
    ensures r.Some? ==> r.value < |fates| && fates[r.value] == Queue.Read && items[r.value].Gap? == gap
    ensures forall i :: 0 <= i < |fates| && fates[i] == Queue.Read && items[i].Gap? == gap ==> r.Some? && i <= r.value
    decreases |fates|
  {
    if fates == [] then None
    else
      var i := |fates| - 1;
      if fates[i] == Queue.Read && items[i].Gap? == gap then Some(i) else LastSent(gap, items, fates[..i])
  }

  ghost predicate WasRead(s: Queue.State, i: nat) { i < |s.fates| && s.fates[i] == Queue.Read }

  ghost predicate At(s: Queue.State, i: nat, n: nat) { i < |s.pushed| && s.pushed[i] == Queue.Event(n) }

  ghost predicate ReadHere(s: Queue.State, n: nat) { exists i: nat :: At(s, i, n) && WasRead(s, i) }

  ghost predicate Placed(s: Queue.State, n: nat) { exists i: nat :: At(s, i, n) }

  // The client has been sent an event queued after place i.
  ghost predicate ReadPast(s: Queue.State, i: nat) {
    && |s.fates| <= |s.pushed|
    && var last := LastSent(false, s.pushed, s.fates); last.Some? && i < last.value
  }

  // Event n was shed and the client has read past it.
  ghost predicate Skipped(s: Queue.State, n: nat) {
    exists i: nat :: At(s, i, n) && Queue.WasShed(s, i) && ReadPast(s, i)
  }

  // The client has been sent a gap marker queued after place i.
  ghost predicate Told(s: Queue.State, i: nat) {
    exists k: nat :: i < k < |s.pushed| && WasRead(s, k) && s.pushed[k].Gap?
  }

  // --- Every delivered event is queued ---

  ghost predicate Dense(s: Queue.State) {
    forall n: nat :: n < s.delivered ==> Placed(s, n) || (!s.pc.Idle? && s.pc.item == Queue.Event(n))
  }

  lemma DenseIsKept(capacity: nat, s: Queue.State, step: Queue.Step)
    requires Queue.Inv(capacity, s) && Dense(s) && Queue.Enabled(capacity, s, step)
    ensures Dense(Queue.Next(capacity, s, step))
  {
    var t := Queue.Next(capacity, s, step);
    forall n: nat | n < t.delivered ensures Placed(t, n) || (!t.pc.Idle? && t.pc.item == Queue.Event(n)) {
      if n < s.delivered && Placed(s, n) {
        var i: nat :| At(s, i, n);
        assert At(t, i, n);
      } else if |t.pushed| > |s.pushed| {
        assert At(t, |s.pushed|, n);
      }
    }
  }

  lemma {:induction false} DenseHolds(capacity: nat, steps: seq<Queue.Step>)
    requires Queue.After(capacity, steps).Some?
    ensures Dense(Queue.After(capacity, steps).value)
  {
    if steps != [] {
      var rest := steps[..|steps| - 1];
      DenseHolds(capacity, rest);
      Queue.InvHolds(capacity, rest);
      DenseIsKept(capacity, Queue.After(capacity, rest).value, steps[|steps| - 1]);
    }
  }

  // An event no newer than the last one sent has left the queue, read or shed.
  lemma SettledBehind(capacity: nat, s: Queue.State, n: nat, last: nat)
    requires Queue.Inv(capacity, s) && Dense(s)
    requires last < |s.fates| && s.pushed[last].Event? && n <= s.pushed[last].number
    ensures exists i: nat :: At(s, i, n) && i <= last
  {
    assert Placed(s, n);
    var i: nat :| At(s, i, n);
    assert s.pushed[i] == Queue.Event(n);
  }

  // --- What the history holds ---

  ghost predicate Rising(events: seq<Bus.Event>) {
    forall i, j :: 0 <= i < j < |events| ==> events[i].seqNo < events[j].seqNo
  }

  lemma {:induction false} SelectRises(keep: Bus.Event -> bool, events: seq<Bus.Event>)
    requires Rising(events)
    ensures Rising(Bus.Select(keep, events))
  {
    if events != [] {
      var rest, ev := events[..|events| - 1], events[|events| - 1];
      SelectRises(keep, rest);
      forall i | 0 <= i < |Bus.Select(keep, rest)| ensures Bus.Select(keep, rest)[i].seqNo < ev.seqNo {
        Bus.SelectMembers(keep, rest, Bus.Select(keep, rest)[i]);
      }
    }
  }

  // --- Where a client resumes ---

  // What the subscriber has been handed since it connected.
  ghost function Handed(f: Bus.Filter, history: seq<Bus.Event>, connected: nat): seq<Bus.Event>
    requires connected <= |history|
  {
    Bus.Matching(f, history[connected..])
  }

  // The client's last id: that of the latest event it was sent, or the one it
  // had when the live flow began, if it had one.
  ghost function Resumed(s: Queue.State, handed: seq<Bus.Event>, had: Option<nat>): Option<nat> {
    if |s.fates| > |s.pushed| then had
    else
      var last := LastSent(false, s.pushed, s.fates);
      if last.None? || s.pushed[last.value].number >= |handed| then had
      else Some(handed[s.pushed[last.value].number].seqNo)
  }

  lemma HandedIsNumbered(f: Bus.Filter, epoch: string, history: seq<Bus.Event>, connected: nat, n: nat)
    requires Bus.Stamped(epoch, history) && connected <= |history| && n < |Handed(f, history, connected)|
    ensures var handed := Handed(f, history, connected);
            && Rising(handed) && connected < handed[n].seqNo <= |history|
            && Bus.Matches(f, handed[n]) && handed[n] in history
  {
    var handed := Handed(f, history, connected);
    SelectRises(Bus.Wants(f), history[connected..]);
    assert handed[n] in handed;
    Bus.SelectMembers(Bus.Wants(f), history[connected..], handed[n]);
  }

  // A connection as it breaks off: its queue has taken every event handed over,
  // and the id the client had before was one the bus had given out.
  ghost predicate Connection(
    capacity: nat, steps: seq<Queue.Step>, f: Bus.Filter, epoch: string, history: seq<Bus.Event>,
    had: Option<nat>, connected: nat)
  {
    && Queue.After(capacity, steps).Some? && Bus.Stamped(epoch, history)
    && Bus.Earliest(had) <= connected <= |history|
    && |Handed(f, history, connected)| == Queue.After(capacity, steps).value.delivered
  }

  // Event n is behind the client's position if and only if an event at least
  // as new was sent.
  lemma BehindIff(
    capacity: nat, steps: seq<Queue.Step>, f: Bus.Filter, epoch: string, history: seq<Bus.Event>,
    had: Option<nat>, connected: nat, n: nat)
    requires Connection(capacity, steps, f, epoch, history, had, connected) && n < |Handed(f, history, connected)|
    ensures var s, handed := Queue.After(capacity, steps).value, Handed(f, history, connected);
            && |s.fates| <= |s.pushed|
            && var from, last := Resumed(s, handed, had), LastSent(false, s.pushed, s.fates);
               from.Some? && handed[n].seqNo <= from.value <==> last.Some? && n <= s.pushed[last.value].number
  {
    Queue.InvHolds(capacity, steps);
    HandedIsNumbered(f, epoch, history, connected, n);
  }

  lemma NothingRead(s: Queue.State, n: nat)
    requires |s.fates| <= |s.pushed| && LastSent(false, s.pushed, s.fates).None?
    ensures !ReadHere(s, n)
  {
    forall i: nat | At(s, i, n) ensures !WasRead(s, i) {}
  }

  // The position is one the bus has given out, and a client without one has
  // been sent no event.
  lemma ResumedExists(
    capacity: nat, steps: seq<Queue.Step>, f: Bus.Filter, epoch: string, history: seq<Bus.Event>,
    had: Option<nat>, connected: nat)
    requires Connection(capacity, steps, f, epoch, history, had, connected)
    ensures var s := Queue.After(capacity, steps).value;
            var from := Resumed(s, Handed(f, history, connected), had);
            Bus.Earliest(from) <= |history| && (from.None? ==> forall n: nat :: !ReadHere(s, n))
  {
    Queue.InvHolds(capacity, steps);
    var s := Queue.After(capacity, steps).value;
    var last := LastSent(false, s.pushed, s.fates);
    if last.Some? {
      HandedIsNumbered(f, epoch, history, connected, s.pushed[last.value].number);
    } else {
      forall n: nat ensures !ReadHere(s, n) { NothingRead(s, n); }
    }
  }

  // --- What it never gets ---

  lemma OnePlace(s: Queue.State, i: nat, j: nat, n: nat)
    requires Queue.InOrder(s) && At(s, i, n) && At(s, j, n)
    ensures i == j
  {
  }

  lemma SkippedIff(capacity: nat, s: Queue.State, n: nat)
    requires Queue.Inv(capacity, s) && Dense(s)
    ensures var last := LastSent(false, s.pushed, s.fates);
            Skipped(s, n) <==> !ReadHere(s, n) && last.Some? && n <= s.pushed[last.value].number
  {
    var last := LastSent(false, s.pushed, s.fates);
    if Skipped(s, n) {
      var i: nat :| At(s, i, n) && Queue.WasShed(s, i) && ReadPast(s, i);
      assert s.pushed[i].number < s.pushed[last.value].number;
      forall j: nat | At(s, j, n) ensures j == i { OnePlace(s, i, j, n); }
    }
    if !ReadHere(s, n) && last.Some? && n <= s.pushed[last.value].number {
      SettledBehind(capacity, s, n, last.value);
      var i: nat :| At(s, i, n) && i <= last.value;
      assert At(s, i, n) && !WasRead(s, i);
      assert Queue.WasShed(s, i) && ReadPast(s, i);
    }
  }

  // The client never gets event n: it was not sent it on the connection that
  // broke off nor on a later one, and no later connection's marker covers it.
  ghost predicate Missed(s: Queue.State, ev: Bus.Event, n: nat, later: Bus.Consumer) {
    !ReadHere(s, n) && ev !in later.received && !Bus.InGap(later.gaps, ev.seqNo)
  }

  // Without an id, whatever was emitted before the next connection is gone and
  // no marker tells of it.
  lemma NoIdMisses(
    f: Bus.Filter, epoch: string, now: seq<Bus.Event>, visits: seq<Bus.Visit>, ev: Bus.Event, before: nat)
    requires Bus.Stamped(epoch, now) && Bus.InTurn(now, before, visits) && ev.seqNo <= before
    requires Bus.Matches(f, ev) && ev in now
    ensures var c := Bus.Reconnecting(f, epoch, now, None, visits);
            ev !in c.received && !Bus.InGap(c.gaps, ev.seqNo)
  {
    Bus.ReceivedIff(f, epoch, now, None, visits, ev);
    Bus.ExactlyOnce(f, epoch, now, None, visits);
    var c := Bus.Reconnecting(f, epoch, now, None, visits);
    if c.position.Some? {
      var i: nat :| Bus.BeginsAt(f, now, visits, i) && c.start == visits[i].connected;
      assert before <= visits[i].connected;
    }
  }

  // With one, an event no newer than the position it ends at is neither sent
  // nor covered by a marker if and only if it is behind the id.
  lemma IdMissesIff(
    f: Bus.Filter, epoch: string, now: seq<Bus.Event>, from: nat, visits: seq<Bus.Visit>, ev: Bus.Event)
    requires Bus.Stamped(epoch, now) && from <= |now| && Bus.InTurn(now, from, visits)
    requires Bus.Matches(f, ev) && ev in now
    ensures var c := Bus.Reconnecting(f, epoch, now, Some(from), visits);
            && c.position.Some? && from <= c.position.value
            && (ev.seqNo <= c.position.value ==>
                (ev !in c.received && !Bus.InGap(c.gaps, ev.seqNo) <==> ev.seqNo <= from))
  {
    Bus.ReceivedIff(f, epoch, now, Some(from), visits, ev);
    Bus.ExactlyOnce(f, epoch, now, Some(from), visits);
  }

  // Nothing at all behind the id is sent again.
  lemma NeverBehind(
    f: Bus.Filter, epoch: string, now: seq<Bus.Event>, from: nat, visits: seq<Bus.Visit>, ev: Bus.Event)
    requires Bus.Stamped(epoch, now) && from <= |now| && Bus.InTurn(now, from, visits) && ev.seqNo <= from
    ensures ev !in Bus.Reconnecting(f, epoch, now, Some(from), visits).received
  {
    Bus.ExactlyOnce(f, epoch, now, Some(from), visits);
    var c := Bus.Reconnecting(f, epoch, now, Some(from), visits);
    Bus.OutsideMembers(f, epoch, now, c.start, c.gaps, c.position.value, ev);
  }

  // A client breaks off at any moment and comes back any number of times. An
  // event no newer than its position by then is missed if and only if it was
  // shed and a later one had been sent, or the client broke off without an id.
  lemma MissedIff(
    capacity: nat, steps: seq<Queue.Step>, f: Bus.Filter, epoch: string, history: seq<Bus.Event>,
    had: Option<nat>, connected: nat, now: seq<Bus.Event>, visits: seq<Bus.Visit>, n: nat)
    requires Connection(capacity, steps, f, epoch, history, had, connected) && n < |Handed(f, history, connected)|
    requires Bus.Stamped(epoch, now) && history <= now && Bus.InTurn(now, |history|, visits)
    requires var s, handed := Queue.After(capacity, steps).value, Handed(f, history, connected);
             var c := Bus.Reconnecting(f, epoch, now, Resumed(s, handed, had), visits);
             c.position.Some? ==> handed[n].seqNo <= c.position.value
    ensures var s, handed := Queue.After(capacity, steps).value, Handed(f, history, connected);
            var from := Resumed(s, handed, had);
            Missed(s, handed[n], n, Bus.Reconnecting(f, epoch, now, from, visits)) <==> Skipped(s, n) || from.None?
  {
    var s, handed := Queue.After(capacity, steps).value, Handed(f, history, connected);
    var from := Resumed(s, handed, had);
    ResumedExists(capacity, steps, f, epoch, history, had, connected);
    HandedIsNumbered(f, epoch, history, connected, n);
    assert handed[n] in now;
    if from.None? {
      NoIdMisses(f, epoch, now, visits, handed[n], |history|);
    } else {
      IdMissesIff(f, epoch, now, from.value, visits, handed[n]);
      Queue.InvHolds(capacity, steps);
      DenseHolds(capacity, steps);
      BehindIff(capacity, steps, f, epoch, history, had, connected, n);
      SkippedIff(capacity, s, n);
    }
  }

  // --- Whether the client knows ---

  // The client was told of the loss at place i if and only if the last marker
  // it was sent was queued after it; between deliveries, reading the latest
  // marker is enough.
  lemma ToldIff(capacity: nat, steps: seq<Queue.Step>, i: nat)
    requires Queue.After(capacity, steps).Some? && Queue.WasShed(Queue.After(capacity, steps).value, i)
    ensures var s := Queue.After(capacity, steps).value;
            && |s.fates| <= |s.pushed|
            && (var last := LastSent(true, s.pushed, s.fates); Told(s, i) <==> last.Some? && i < last.value)
            && (s.pc.Idle? && s.marker.Some? && s.marker.value < |s.fates| ==> Told(s, i))
  {
    Queue.InvHolds(capacity, steps);
    var s := Queue.After(capacity, steps).value;
    var last := LastSent(true, s.pushed, s.fates);
    if last.Some? && i < last.value { assert WasRead(s, last.value); }
    if s.pc.Idle? && s.marker.Some? && s.marker.value < |s.fates| {
      Queue.LossIsAnnounced(capacity, steps, i);
      assert WasRead(s, s.marker.value);
    }
  }

  // --- The runs that fall short ---

  // A silent loss, whatever the buffer: one event too many sheds the oldest,
  // the client is sent the next one, and breaks off with the marker queued.
  lemma SilentLoss(capacity: nat) returns (steps: seq<Queue.Step>)
    requires capacity > 0
    ensures var r := Queue.After(capacity, steps);
            && r.Some? && r.value.pc.Idle? && r.value.delivered == capacity + 1
            && Skipped(r.value, 0) && !Told(r.value, 0) && r.value.marker == Some(capacity + 1)
  {
    steps := Queue.ReachOverrun(capacity);
    var s0, s1 := Queue.Overrun(capacity, 0), Queue.Overrun(capacity, 1);
    assert s0.fates + [Queue.Read] == s1.fates;
    Queue.Extend(capacity, steps, s0, Queue.Consume, s1);
    var s2 := Queue.Next(capacity, s1, Queue.MakeRoom);
    Queue.Extend(capacity, steps + [Queue.Consume], s1, Queue.MakeRoom, s2);
    var s3 := Queue.Next(capacity, s2, Queue.Offer);
    Queue.Extend(capacity, steps + [Queue.Consume] + [Queue.MakeRoom], s2, Queue.Offer, s3);
    steps := steps + [Queue.Consume] + [Queue.MakeRoom] + [Queue.Offer];
    assert s3.pushed[0] == Queue.Event(0) && s3.pushed[1] == Queue.Event(1) && s3.fates[0] == Queue.Shed;
    assert At(s3, 0, 0) && Queue.WasShed(s3, 0);
    assert s3.fates[1] == Queue.Read;
  }

  // Nothing brings that event back and nothing tells of it, however often the
  // client reconnects.
  lemma SilentLossIsFinal(
    capacity: nat, f: Bus.Filter, epoch: string, history: seq<Bus.Event>, had: Option<nat>, connected: nat,
    now: seq<Bus.Event>, visits: seq<Bus.Visit>) returns (steps: seq<Queue.Step>)
    requires capacity > 0 && Bus.Stamped(epoch, now) && history <= now
    requires Bus.Earliest(had) <= connected <= |history| && |Handed(f, history, connected)| == capacity + 1
    requires Bus.InTurn(now, |history|, visits)
    ensures Connection(capacity, steps, f, epoch, history, had, connected)
    ensures var s, handed := Queue.After(capacity, steps).value, Handed(f, history, connected);
            && s.pc.Idle? && !Told(s, 0)
            && Missed(s, handed[0], 0, Bus.Reconnecting(f, epoch, now, Resumed(s, handed, had), visits))
  {
    steps := SilentLoss(capacity);
    assert Bus.Stamped(epoch, history);
    var s, handed := Queue.After(capacity, steps).value, Handed(f, history, connected);
    ResumedExists(capacity, steps, f, epoch, history, had, connected);
    HandedIsNumbered(f, epoch, history, connected, 0);
    assert handed[0] in now;
    Queue.InvHolds(capacity, steps);
    DenseHolds(capacity, steps);
    SkippedIff(capacity, s, 0);
    BehindIff(capacity, steps, f, epoch, history, had, connected, 0);
    IdMissesIff(f, epoch, now, Resumed(s, handed, had).value, visits, handed[0]);
  }

  // The same without any shedding, when the client came without an id: one
  // event is queued, and the client breaks off before it is sent it.
  lemma NoIdLoss(
    capacity: nat, f: Bus.Filter, epoch: string, history: seq<Bus.Event>, connected: nat,
    now: seq<Bus.Event>, visits: seq<Bus.Visit>) returns (steps: seq<Queue.Step>)
    requires capacity > 0 && Bus.Stamped(epoch, now) && history <= now
    requires connected <= |history| && |Handed(f, history, connected)| == 1 && Bus.InTurn(now, |history|, visits)
    ensures Connection(capacity, steps, f, epoch, history, None, connected)
    ensures var s, handed := Queue.After(capacity, steps).value, Handed(f, history, connected);
            && s.pc.Idle? && s.fates == [] && s.marker.None?
            && Missed(s, handed[0], 0, Bus.Reconnecting(f, epoch, now, Resumed(s, handed, None), visits))
  {
    steps := Queue.Fill(capacity, 1);
    assert Bus.Stamped(epoch, history);
    var s, handed := Queue.After(capacity, steps).value, Handed(f, history, connected);
    HandedIsNumbered(f, epoch, history, connected, 0);
    assert handed[0] in now;
    NothingRead(s, 0);
    NoIdMisses(f, epoch, now, visits, handed[0], |history|);
  }
}
