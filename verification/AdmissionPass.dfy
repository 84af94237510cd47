/**
 One pass over the waiting creates (api/admitqueue.go, tryAdmitQueued and
 orderedTickets). Other requests run between its steps: they park tickets, settle
 them and free room.

 Module AdmissionQueue has the tickets as objects that one caller updates. A pass
 only lists and compares them, so here a ticket is the value it sees, the owner
 and the number; `done` holds the numbers of the tickets that are marked done
 there, and `seqNo` is the same counter.
 */
module AdmissionPass {
  import opened Counting
  import opened Options

  datatype Ticket = Ticket(seqNo: nat, owner: string)

  // The fair-share ratio of every owner the view knows.
  type View = map<string, real>

  datatype Outcome = Granted | NoRoom | OwnerGone | Draining

  // --- The order ---

  // A known owner goes ahead of an unknown one, a lower ratio ahead of a higher
  // one, and otherwise the earlier ticket goes first.
  predicate Before(v: View, a: Ticket, b: Ticket) {
    if (a.owner in v) != (b.owner in v) then a.owner in v
    else if a.owner in v && v[a.owner] != v[b.owner] then v[a.owner] < v[b.owner]
    else a.seqNo < b.seqNo
  }

  ghost predicate InOrder(v: View, list: seq<Ticket>) {
    forall i, j :: 0 <= i < j < |list| ==> !Before(v, list[j], list[i])
  }

  function Insert(v: View, t: Ticket, list: seq<Ticket>): seq<Ticket> {
    if list == [] || !Before(v, t, list[|list| - 1]) then list + [t]
    else Insert(v, t, list[..|list| - 1]) + [list[|list| - 1]]
  }

  lemma {:induction false} InsertHolds(v: View, t: Ticket, list: seq<Ticket>)
    ensures multiset(Insert(v, t, list)) == multiset(list) + multiset{t}
  {
    if list != [] && Before(v, t, list[|list| - 1]) {
      InsertHolds(v, t, list[..|list| - 1]);
      assert list == list[..|list| - 1] + [list[|list| - 1]];
    }
  }

  lemma {:induction false} InsertKeepsOrder(v: View, t: Ticket, list: seq<Ticket>)
    requires InOrder(v, list)
    ensures InOrder(v, Insert(v, t, list))
  {
    if list != [] && Before(v, t, list[|list| - 1]) {
      var rest, last := list[..|list| - 1], list[|list| - 1];
      InsertKeepsOrder(v, t, rest);
      InsertHolds(v, t, rest);
      LastStays(v, t, rest, Insert(v, t, rest), last);
    }
  }

  lemma LastStays(v: View, t: Ticket, rest: seq<Ticket>, front: seq<Ticket>, last: Ticket)
    requires multiset(front) == multiset(rest) + multiset{t} && InOrder(v, front) && Before(v, t, last)
    requires forall i :: 0 <= i < |rest| ==> !Before(v, last, rest[i])
    ensures InOrder(v, front + [last])
  {
    forall i | 0 <= i < |front| ensures !Before(v, last, front[i]) {
      assert front[i] in multiset(front);
    }
  }

  method SortTickets(v: View, tickets: seq<Ticket>) returns (list: seq<Ticket>)
    ensures InOrder(v, list) && multiset(list) == multiset(tickets)
  {
    list := [];
    for i := 0 to |tickets|
      invariant InOrder(v, list) && multiset(list) == multiset(tickets[..i])
    {
      InsertKeepsOrder(v, tickets[i], list);
      InsertHolds(v, tickets[i], list);
      list := Insert(v, tickets[i], list);
      assert tickets[..i + 1] == tickets[..i] + [tickets[i]];
    }
    assert tickets[..|tickets|] == tickets;
  }

  // --- The pass ---

  // One attempt: the ticket, the queue as it was listed, the view that ordered
  // the list, what had been tried since the last restart, whether any of it had
  // been turned away, what was settled, and what came of it.
  datatype Attempt = Attempt(
    ticket: Ticket, queue: seq<Ticket>, view: View, tried: set<nat>, refused: bool, settled: set<nat>,
    outcome: Outcome)

  const MAX_RESTARTS := 3

  // Nobody ranked ahead was passed over.
  ghost predicate Fair(a: Attempt) {
    && a.ticket in a.queue && a.ticket.seqNo !in a.tried && a.ticket.seqNo !in a.settled
    && forall x :: x in a.queue && Before(a.view, x, a.ticket) ==> x.seqNo in a.tried || x.seqNo in a.settled
  }

  // So an open ticket left for later has no better claim: its owner is not known
  // where the other's is not, has no lower ratio, and of equals it came later.
  lemma FirstInRank(a: Attempt, x: Ticket)
    requires Fair(a) && x in a.queue && x.seqNo !in a.tried && x.seqNo !in a.settled
    ensures x.owner in a.view ==> a.ticket.owner in a.view && a.view[a.ticket.owner] <= a.view[x.owner]
    ensures x.owner in a.view && a.view[a.ticket.owner] == a.view[x.owner] ==> a.ticket.seqNo <= x.seqNo
    ensures x.owner !in a.view && a.ticket.owner !in a.view ==> a.ticket.seqNo <= x.seqNo
  {
  }

  // The tickets tried, each once.
  ghost function Tried(attempts: seq<Attempt>): set<nat> {
    if attempts == [] then {} else Tried(attempts[..|attempts| - 1]) + {attempts[|attempts| - 1].ticket.seqNo}
  }

  ghost predicate Once(attempts: seq<Attempt>) {
    attempts == [] ||
    (attempts[|attempts| - 1].ticket.seqNo !in Tried(attempts[..|attempts| - 1]) && Once(attempts[..|attempts| - 1]))
  }

  // Some attempt found no room.
  ghost predicate TurnedAway(attempts: seq<Attempt>) {
    attempts != [] && (attempts[|attempts| - 1].outcome.NoRoom? || TurnedAway(attempts[..|attempts| - 1]))
  }

  ghost predicate AllFair(attempts: seq<Attempt>) { forall k :: 0 <= k < |attempts| ==> Fair(attempts[k]) }

  // Where a pass stands: the tickets tried since its last restart, the count of
  // freed room then, whether it has turned a ticket away since, and how often it
  // restarted.
  datatype Run = Run(tried: set<nat>, gen: nat, refused: bool, restarts: nat)

  // Whether it goes round again, has nothing left to try, or stops to drain.
  datatype Verdict = Goes | Ends | Drains

  // The attempts since the last restart bear out what the pass knows of them:
  // each was fair, and on a ticket not tried before it.
  ghost predicate Tells(recent: seq<Attempt>, run: Run)
    decreases |recent|, 1
  {
    if recent == [] then run.tried == {} && !run.refused else TellsLast(recent, run)
  }

  ghost predicate TellsLast(recent: seq<Attempt>, run: Run)
    requires recent != []
    decreases |recent|, 0
  {
    var a := recent[|recent| - 1];
    && Fair(a) && run.tried == a.tried + {a.ticket.seqNo} && (run.refused <==> a.refused || a.outcome.NoRoom?)
    && Tells(recent[..|recent| - 1], run.(tried := a.tried, refused := a.refused))
  }

  lemma {:induction false} TellsAll(recent: seq<Attempt>, run: Run)
    requires Tells(recent, run)
    ensures run.tried == Tried(recent) && Once(recent) && (run.refused <==> TurnedAway(recent)) && AllFair(recent)
  {
    if recent != [] {
      var a := recent[|recent| - 1];
      TellsAll(recent[..|recent| - 1], run.(tried := a.tried, refused := a.refused));
    }
  }

  lemma {:induction false} RunAside(recent: seq<Attempt>, run: Run, now: Run)
    requires Tells(recent, run) && now.tried == run.tried && now.refused == run.refused
    ensures Tells(recent, now)
  {
    if recent != [] {
      var a := recent[|recent| - 1];
      RunAside(recent[..|recent| - 1], run.(tried := a.tried, refused := a.refused),
               now.(tried := a.tried, refused := a.refused));
    }
  }

  function With(run: Run, a: Attempt): Run {
    run.(tried := run.tried + {a.ticket.seqNo}, refused := run.refused || a.outcome.NoRoom?)
  }

  lemma TellsWith(recent: seq<Attempt>, run: Run, a: Attempt)
    requires Tells(recent, run) && Fair(a) && a.tried == run.tried && a.refused == run.refused
    ensures Tells(recent + [a], With(run, a))
  {
    assert (recent + [a])[..|recent|] == recent;
    RunAside(recent, run, With(run, a).(tried := a.tried, refused := a.refused));
  }

  // The tickets that may be queued once more have been parked and some settled.
  function Queued(
    tickets: seq<Ticket>, before: seq<Ticket>, seqNo: nat, done: set<nat>, universe: set<nat>): seq<Ticket>
  {
    if tickets == [] then []
    else
      var t := tickets[|tickets| - 1];
      Queued(tickets[..|tickets| - 1], before, seqNo, done, universe) +
      if t.seqNo in universe && t.seqNo !in done && (t in before || t.seqNo > seqNo) then [t] else []
  }

  lemma {:induction false} QueuedHolds(
    tickets: seq<Ticket>, before: seq<Ticket>, seqNo: nat, done: set<nat>, universe: set<nat>)
    ensures forall t :: t in Queued(tickets, before, seqNo, done, universe) ==>
              t in tickets && t.seqNo in universe && t.seqNo !in done && (t in before || t.seqNo > seqNo)
  {
    if tickets != [] { QueuedHolds(tickets[..|tickets| - 1], before, seqNo, done, universe); }
  }

  // The highest number of a list and a counter.
  function Highest(tickets: seq<Ticket>, seqNo: nat): (r: nat)
    ensures seqNo <= r && forall t :: t in tickets ==> t.seqNo <= r
  {
    if tickets == [] then seqNo
    else
      var r := Highest(tickets[..|tickets| - 1], seqNo);
      assert tickets == tickets[..|tickets| - 1] + [tickets[|tickets| - 1]];
      if tickets[|tickets| - 1].seqNo > r then tickets[|tickets| - 1].seqNo else r
  }

  // A ticket queued later was queued before, or has been parked since: none
  // comes back.
  ghost predicate NoneReturns(before: seq<Ticket>, seqNo: nat, now: seq<Ticket>) {
    forall t :: t in now ==> t in before || t.seqNo > seqNo
  }

  // Every ticket queued at both moments has been tried.
  ghost predicate BothTried(before: seq<Ticket>, now: seq<Ticket>, tried: set<nat>) {
    forall t :: t in now && t in before ==> t.seqNo in tried
  }

  ghost predicate Upto(tickets: seq<Ticket>, number: nat) { forall t :: t in tickets ==> t.seqNo <= number }

  // A ticket queued at two moments was queued in between.
  lemma StillTried(first: seq<Ticket>, number: nat, listed: seq<Ticket>, high: nat, now: seq<Ticket>, tried: set<nat>)
    requires Upto(first, number) && number <= high && NoneReturns(listed, high, now) && BothTried(listed, now, tried)
    ensures BothTried(first, now, tried)
  {
  }

  class Queue {
    var tickets: seq<Ticket>
    var seqNo: nat
    var done: set<nat>
    var capacityGen: nat
    ghost var recent: seq<Attempt>  // the attempts since the last start or restart of a pass
    ghost var look: seq<Ticket>     // the queue when a pass last listed it
    ghost var reading: nat          // the count of freed room when a pass last read it

    ghost predicate Valid(universe: set<nat>)
      reads this
    {
      Upto(tickets, seqNo) && forall t :: t in tickets ==> t.seqNo in universe && t.seqNo !in done
    }

    // The queue and the counters have moved on from an earlier state.
    twostate predicate MovedOn()
      reads this
    {
      && old(seqNo) <= seqNo && old(done) <= done && old(capacityGen) <= capacityGen
      && NoneReturns(old(tickets), old(seqNo), tickets)
    }

    // Whatever other requests do between two steps.
    method Interfere(universe: set<nat>)
      requires Valid(universe)
      modifies `tickets, `seqNo, `done, `capacityGen
      ensures Valid(universe) && MovedOn()
    {
      var parked: seq<Ticket> := *;
      var settled: set<nat> := *;
      var freed: int := *;
      done := done + settled;
      if freed > 0 { capacityGen := capacityGen + freed; }
      QueuedHolds(parked, tickets, seqNo, done, universe);
      tickets := Queued(parked, tickets, seqNo, done, universe);
      seqNo := Highest(tickets, seqNo);
    }

    // finishTicket.
    method Finish(universe: set<nat>, t: Ticket)
      requires Valid(universe)
      modifies `tickets, `done
      ensures Valid(universe) && MovedOn() && done == old(done) + {t.seqNo}
    {
      if t.seqNo in done {
        assert done == done + {t.seqNo};
        return;
      }
      done := done + {t.seqNo};
      QueuedHolds(tickets, tickets, seqNo, done, universe);
      tickets := Queued(tickets, tickets, seqNo, done, universe);
    }

    // The first ticket of an ordered list that is neither tried nor settled.
    method FirstOpen(universe: set<nat>, list: seq<Ticket>, tried: set<nat>) returns (t: Option<Ticket>, ghost at: nat)
      requires Valid(universe)
      modifies `tickets, `seqNo, `done, `capacityGen
      ensures Valid(universe) && MovedOn() && at <= |list|
      ensures forall k :: 0 <= k < at ==> list[k].seqNo in tried || list[k].seqNo in done
      ensures t.None? ==> at == |list|
      ensures t.Some? ==> at < |list| && t.value == list[at] && t.value.seqNo !in tried && t.value.seqNo !in done
    {
      at := 0;
      for k := 0 to |list|
        invariant Valid(universe) && MovedOn() && at == k
        invariant forall i :: 0 <= i < k ==> list[i].seqNo in tried || list[i].seqNo in done
      {
        Interfere(universe);
        if list[k].seqNo !in tried && list[k].seqNo !in done { return Some(list[k]), k; }
        at := k + 1;
      }
      t := None;
    }

    // The count of freed room is read, with others at work before and after.
    method Reread(universe: set<nat>) returns (gen: nat)
      requires Valid(universe)
      modifies `tickets, `seqNo, `done, `capacityGen, `reading
      ensures Valid(universe) && MovedOn()
      ensures gen == reading && old(capacityGen) <= reading <= capacityGen
    {
      Interfere(universe);
      gen, reading := capacityGen, capacityGen;
      Interfere(universe);
    }

    // The top of the loop: a pass that has turned a ticket away starts over when
    // room was freed since its last restart, three times at most.
    method Renew(universe: set<nat>, run: Run) returns (now: Run)
      requires Valid(universe) && Tells(recent, run) && run.restarts <= MAX_RESTARTS && run.gen <= capacityGen
      modifies `tickets, `seqNo, `done, `capacityGen, `reading, `recent
      ensures Valid(universe) && MovedOn() && Tells(recent, now)
      ensures run.gen <= now.gen <= reading <= capacityGen && old(capacityGen) <= reading
      ensures if run.refused && run.restarts < MAX_RESTARTS && run.gen < reading
              then now == Run({}, reading, false, run.restarts + 1) && recent == []
              else now == run && recent == old(recent)
    {
      now := run;
      var gen := Reread(universe);
      if run.refused && run.restarts < MAX_RESTARTS && gen != run.gen {
        now := Run({}, gen, false, run.restarts + 1);
        recent := [];
      }
    }

    // The queue is listed and the first open ticket picked.
    method Pick(universe: set<nat>, tried: set<nat>)
      returns (picked: Option<Ticket>, ghost view: View, ghost settled: set<nat>)
      requires Valid(universe)
      modifies `tickets, `seqNo, `done, `capacityGen, `look
      ensures Valid(universe) && MovedOn() && look == old(tickets) && settled == done
      ensures picked.None? ==> BothTried(look, tickets, tried)
      ensures picked.Some? ==>
                picked.value in look && picked.value.seqNo !in tried && picked.value.seqNo !in settled
      ensures picked.Some? ==>
                forall x :: x in look && Before(view, x, picked.value) ==> x.seqNo in tried || x.seqNo in settled
    {
      var order: View := *;
      view := order;
      var list := SortTickets(order, tickets);
      look := tickets;
      ghost var at;
      picked, at := FirstOpen(universe, list, tried);
      settled := done;
      forall t | t in look ensures t in list { assert t in multiset(look); }
      if picked.Some? { assert picked.value in multiset(list); }
    }

    // One pick and its attempt. A draining answer empties the queue.
    method Step(universe: set<nat>, run: Run) returns (picked: Option<Ticket>, outcome: Outcome, now: Run)
      requires Valid(universe) && Tells(recent, run) && run.tried <= universe
      modifies `tickets, `seqNo, `done, `capacityGen, `look, `recent
      ensures Valid(universe) && old(seqNo) <= seqNo && old(capacityGen) <= capacityGen && look == old(tickets)
      ensures Tells(recent, now) && now.tried <= universe
      ensures picked.None? ==> recent == old(recent) && now == run && MovedOn()
      ensures picked.None? ==> BothTried(look, tickets, run.tried)
      ensures picked.Some? ==> |recent| == |old(recent)| + 1 && recent[..|old(recent)|] == old(recent)
      ensures picked.Some? ==>
                var a := recent[|old(recent)|];
                && a.ticket == picked.value && a.queue == look && a.tried == run.tried
                && a.outcome == outcome && now == With(run, a)
      ensures picked.Some? ==> |universe - now.tried| < |universe - run.tried|
      ensures picked.Some? && !outcome.NoRoom? ==> picked.value.seqNo in done
    {
      ghost var log := recent;
      ghost var view, settled;
      picked, view, settled := Pick(universe, run.tried);
      outcome, now := NoRoom, run;
      if !picked.Some? { return; }
      outcome := *;
      now := run.(tried := run.tried + {picked.value.seqNo}, refused := run.refused || outcome.NoRoom?);
      OneFewerLeft(universe, run.tried, picked.value.seqNo);
      ghost var attempt := Attempt(picked.value, look, view, run.tried, run.refused, settled, outcome);
      TellsWith(log, run, attempt);
      recent := log + [attempt];
      Settled(universe, picked.value, outcome);
    }

    // What the attempt does to the ticket, with others at work meanwhile.
    method Settled(universe: set<nat>, t: Ticket, outcome: Outcome)
      requires Valid(universe)
      modifies `tickets, `seqNo, `done, `capacityGen
      ensures Valid(universe) && old(seqNo) <= seqNo && old(capacityGen) <= capacityGen
      ensures !outcome.NoRoom? ==> t.seqNo in done
      ensures outcome.Draining? ==> tickets == []
    {
      Interfere(universe);
      if !outcome.NoRoom? { Finish(universe, t); }
      Interfere(universe);
      if outcome.Draining? { tickets := []; }
    }

    // Once round the loop.
    method Round(universe: set<nat>, run: Run, ghost first: seq<Ticket>, ghost number: nat)
      returns (verdict: Verdict, now: Run)
      requires Valid(universe) && Tells(recent, run) && run.tried <= universe
      requires run.restarts <= MAX_RESTARTS && run.gen <= capacityGen && Upto(first, number) && number <= seqNo
      modifies this
      ensures Valid(universe) && Tells(recent, now) && now.tried <= universe
      ensures now.restarts <= MAX_RESTARTS && run.gen <= now.gen <= reading <= capacityGen && number <= seqNo
      ensures now.restarts == 0 ==> now.gen == run.gen && run.restarts == 0
      ensures verdict.Ends? ==> BothTried(first, tickets, now.tried) && BothTried(look, tickets, now.tried)
      ensures verdict.Ends? && now.refused && now.restarts < MAX_RESTARTS ==> reading == now.gen
      ensures verdict.Ends? ==> recent == [] || recent == old(recent)
      ensures !verdict.Ends? ==> recent != [] && (recent[|recent| - 1].outcome.Draining? <==> verdict.Drains?)
      ensures verdict.Goes? ==>
                now.restarts > run.restarts ||
                (now.restarts == run.restarts && |universe - now.tried| < |universe - run.tried|)
    {
      var again := Renew(universe, run);
      ghost var high := seqNo;
      var picked, outcome;
      picked, outcome, now := Step(universe, again);
      verdict := if !picked.Some? then Ends else if outcome.Draining? then Drains else Goes;
      if verdict.Ends? { StillTried(first, number, look, high, tickets, now.tried); }
    }

    // tryAdmitQueued. `universe` holds every ticket that can be queued during
    // the call. The pass ends after at most three restarts. Unless it stopped to
    // drain, every ticket queued when it began or when it last looked and still
    // queued has been tried since the last restart, each at most once; and if it
    // has turned a ticket away since and could have restarted, no room was freed
    // from the last restart until it last read the count.
    method TryAdmit(universe: set<nat>) returns (drained: bool, end: Run)
      requires Valid(universe)
      modifies this
      ensures Valid(universe) && end.restarts <= MAX_RESTARTS
      ensures AllFair(recent) && Once(recent) && end.tried == Tried(recent) && (end.refused <==> TurnedAway(recent))
      ensures old(capacityGen) <= end.gen <= reading <= capacityGen
      ensures end.restarts == 0 ==> end.gen == old(capacityGen)
      ensures drained <==> recent != [] && recent[|recent| - 1].outcome.Draining?
      ensures !drained ==> BothTried(old(tickets), tickets, end.tried) && BothTried(look, tickets, end.tried)
      ensures !drained && end.refused && end.restarts < MAX_RESTARTS ==> reading == end.gen
    {
      recent := [];
      drained, end := GoRound(universe);
      TellsAll(recent, end);
    }

    method GoRound(universe: set<nat>) returns (drained: bool, end: Run)
      requires Valid(universe) && recent == []
      modifies this
      ensures Valid(universe) && end.restarts <= MAX_RESTARTS && Tells(recent, end)
      ensures old(capacityGen) <= end.gen <= reading <= capacityGen
      ensures end.restarts == 0 ==> end.gen == old(capacityGen)
      ensures drained <==> recent != [] && recent[|recent| - 1].outcome.Draining?
      ensures !drained ==> BothTried(old(tickets), tickets, end.tried) && BothTried(look, tickets, end.tried)
      ensures !drained && end.refused && end.restarts < MAX_RESTARTS ==> reading == end.gen
    {
      ghost var queue, number, gen := tickets, seqNo, capacityGen;
      end := Run({}, capacityGen, false, 0);
      while true
        invariant Valid(universe) && Tells(recent, end) && end.tried <= universe && end.restarts <= MAX_RESTARTS
        invariant gen <= end.gen <= capacityGen && (end.restarts == 0 ==> end.gen == gen) && number <= seqNo
        invariant recent != [] ==> !recent[|recent| - 1].outcome.Draining?
        decreases MAX_RESTARTS - end.restarts, |universe - end.tried|
      {
        var verdict;
        verdict, end := Round(universe, end, queue, number);
        if !verdict.Goes? { return verdict.Drains?, end; }
      }
    }
  }
}
