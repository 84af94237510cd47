/**
 The admission queue's tickets, updated in place (api/admitqueue.go). What
 concurrent passes, waiters and refusals do with them is the subject of module
 Tickets; here each method is one caller's work with the queue lock held where
 the source holds it.
 */
module AdmissionQueue {
  import opened Options

  datatype Outcome = Granted(lease: string) | OwnerGone | Draining

  // `id` is the lease the create will make, `seqNo` its place in the order of
  // arrival.
  class Ticket {
    const id: string
    const owner: string
    const queuedAt: int
    const deadline: int
    const seqNo: nat
    var done: bool
    var answer: Option<Outcome>  // a channel of one place

    constructor (id: string, owner: string, queuedAt: int, wait: nat, seqNo: nat)
      ensures this.id == id && this.owner == owner && this.seqNo == seqNo
      ensures this.queuedAt == queuedAt && deadline == queuedAt + wait
      ensures !done && answer == None
    {
      this.id, this.owner, this.queuedAt, deadline, this.seqNo := id, owner, queuedAt, queuedAt + wait, seqNo;
      done, answer := false, None;
    }

    // The first answer stays; a later one is dropped.
    method Send(o: Outcome)
      modifies this
      ensures done == old(done) && answer == if old(answer).None? then Some(o) else old(answer)
    {
      if !answer.Some? { answer := Some(o); }
    }
  }

  function Without(tickets: seq<Ticket>, t: Ticket): seq<Ticket> {
    if tickets == [] then []
    else Without(tickets[..|tickets| - 1], t) + if tickets[|tickets| - 1] == t then [] else [tickets[|tickets| - 1]]
  }

  function NotOf(tickets: seq<Ticket>, owner: string): seq<Ticket> {
    if tickets == [] then []
    else NotOf(tickets[..|tickets| - 1], owner) +
         if tickets[|tickets| - 1].owner == owner then [] else [tickets[|tickets| - 1]]
  }

  lemma {:induction false} WithoutHolds(tickets: seq<Ticket>, t: Ticket, x: Ticket)
    ensures x in Without(tickets, t) <==> x in tickets && x != t
  {
    if tickets != [] {
      WithoutHolds(tickets[..|tickets| - 1], t, x);
      assert tickets == tickets[..|tickets| - 1] + [tickets[|tickets| - 1]];
    }
  }

  lemma {:induction false} NotOfHolds(tickets: seq<Ticket>, owner: string, x: Ticket)
    ensures x in NotOf(tickets, owner) <==> x in tickets && x.owner != owner
  {
    if tickets != [] {
      NotOfHolds(tickets[..|tickets| - 1], owner, x);
      assert tickets == tickets[..|tickets| - 1] + [tickets[|tickets| - 1]];
    }
  }

  // In the order of arrival, so each ticket once.
  ghost predicate FirstComeFirst(tickets: seq<Ticket>) {
    forall i, j :: 0 <= i < j < |tickets| ==> tickets[i].seqNo < tickets[j].seqNo
  }

  ghost predicate Fresh(tickets: seq<Ticket>)
    reads tickets
  {
    forall i :: 0 <= i < |tickets| ==> !tickets[i].done && tickets[i].answer.None?
  }

  // The part of a list that is to be refused has been, the rest is untouched.
  ghost predicate Refused(pending: seq<Ticket>, n: nat, chosen: set<Ticket>, o: Outcome)
    reads pending
  {
    && n <= |pending|
    && (forall i :: 0 <= i < n && pending[i] in chosen ==> pending[i].done && pending[i].answer == Some(o))
    && (forall i :: 0 <= i < |pending| && (n <= i || pending[i] !in chosen) ==>
          !pending[i].done && pending[i].answer.None?)
  }

  ghost function OfOwner(tickets: seq<Ticket>, owner: string): set<Ticket> {
    set t | t in tickets && t.owner == owner
  }

  lemma OthersStayFresh(pending: seq<Ticket>, owner: string)
    requires Refused(pending, |pending|, OfOwner(pending, owner), OwnerGone)
    ensures Fresh(NotOf(pending, owner))
  {
    var kept := NotOf(pending, owner);
    forall i | 0 <= i < |kept| ensures !kept[i].done && kept[i].answer.None? {
      NotOfHolds(pending, owner, kept[i]);
      var j :| 0 <= j < |pending| && pending[j] == kept[i];
      assert pending[j] !in OfOwner(pending, owner);
    }
  }

  lemma {:induction false} AlreadyOut(tickets: seq<Ticket>, t: Ticket)
    requires t !in tickets
    ensures Without(tickets, t) == tickets
  {
    if tickets != [] {
      AlreadyOut(tickets[..|tickets| - 1], t);
      assert tickets == tickets[..|tickets| - 1] + [tickets[|tickets| - 1]];
    }
  }

  lemma {:induction false} NotOfKeepsOrder(tickets: seq<Ticket>, owner: string)
    requires FirstComeFirst(tickets)
    ensures FirstComeFirst(NotOf(tickets, owner))
  {
    if tickets != [] {
      var rest := tickets[..|tickets| - 1];
      NotOfKeepsOrder(rest, owner);
      var kept := NotOf(rest, owner);
      forall i | 0 <= i < |kept| ensures kept[i] in rest { NotOfHolds(rest, owner, kept[i]); }
    }
  }

  lemma {:induction false} WithoutKeepsOrder(tickets: seq<Ticket>, t: Ticket)
    requires FirstComeFirst(tickets)
    ensures FirstComeFirst(Without(tickets, t))
  {
    if tickets != [] {
      var rest := tickets[..|tickets| - 1];
      WithoutKeepsOrder(rest, t);
      var kept := Without(rest, t);
      forall i | 0 <= i < |kept| ensures kept[i] in rest { WithoutHolds(rest, t, kept[i]); }
    }
  }

  lemma WithoutStaysFresh(tickets: seq<Ticket>, t: Ticket)
    requires forall i :: 0 <= i < |tickets| && tickets[i] != t ==> !tickets[i].done && tickets[i].answer.None?
    ensures Fresh(Without(tickets, t))
  {
    var kept := Without(tickets, t);
    forall i | 0 <= i < |kept| ensures !kept[i].done && kept[i].answer.None? { WithoutHolds(tickets, t, kept[i]); }
  }

  class Queue {
    var tickets: seq<Ticket>
    var seqNo: nat

    // Tickets wait in the order of arrival, unsettled and unanswered.
    ghost predicate Valid()
      reads this, tickets
    {
      && FirstComeFirst(tickets) && Fresh(tickets)
      && forall i :: 0 <= i < |tickets| ==> tickets[i].seqNo <= seqNo
    }

    constructor ()
      ensures Valid() && tickets == [] && seqNo == 0
    {
      tickets, seqNo := [], 0;
    }

    // newAdmissionTicket: none for an owner already deleted.
    method Park(id: string, owner: string, deleted: bool, now: int, wait: nat) returns (t: Option<Ticket>)
      requires Valid()
      modifies this
      ensures Valid()
      ensures t.None? <==> deleted
      ensures tickets == if deleted then old(tickets) else old(tickets) + [t.value]
      ensures seqNo == if deleted then old(seqNo) else old(seqNo) + 1
      ensures t.Some? ==> fresh(t.value) && t.value.id == id && t.value.owner == owner && t.value.seqNo == seqNo
      ensures t.Some? ==> t.value.queuedAt == now && t.value.deadline == now + wait
    {
      if deleted { return None; }
      seqNo := seqNo + 1;
      var ticket := new Ticket(id, owner, now, wait, seqNo);
      tickets := tickets + [ticket];
      t := Some(ticket);
    }

    // finishTicket: the caller wins exactly when the ticket was not done, and
    // it is then gone from the queue, which keeps its order.
    method Finish(t: Ticket) returns (won: bool)
      modifies `tickets, t`done
      ensures old(Valid()) ==> Valid()
      ensures won <==> !old(t.done)
      ensures t.done
      ensures tickets == if won then Without(old(tickets), t) else old(tickets)
    {
      if t.done { return false; }
      t.done := true;
      var kept := [];
      for i := 0 to |tickets|
        invariant tickets == old(tickets) && t.done
        invariant kept == Without(tickets[..i], t)
      {
        assert tickets[..i + 1][..i] == tickets[..i];
        if tickets[i] != t { kept := kept + [tickets[i]]; }
      }
      assert tickets[..|tickets|] == tickets;
      tickets := kept;
      won := true;
      if old(Valid()) { Taken(old(tickets), t); }
    }

    lemma Taken(before: seq<Ticket>, t: Ticket)
      requires tickets == Without(before, t) && FirstComeFirst(before)
      requires forall i :: 0 <= i < |before| ==> before[i].seqNo <= seqNo
      requires forall i :: 0 <= i < |before| && before[i] != t ==> !before[i].done && before[i].answer.None?
      ensures Valid()
    {
      WithoutKeepsOrder(before, t);
      WithoutStaysFresh(before, t);
      forall i | 0 <= i < |tickets| ensures tickets[i].seqNo <= seqNo { WithoutHolds(before, t, tickets[i]); }
    }

    // A ticket not settled by anyone else is settled and told why.
    method Refuse(t: Ticket, o: Outcome)
      modifies `tickets, t
      ensures t.done && tickets == if old(t.done) then old(tickets) else Without(old(tickets), t)
      ensures t.answer == if old(t.done) || old(t.answer).Some? then old(t.answer) else Some(o)
    {
      var won := Finish(t);
      if won { t.Send(o); }
    }

    // cancelQueuedForOwner: the owner's tickets leave the queue together, and
    // each is settled and told the owner is gone; nobody else's is touched.
    method CancelForOwner(owner: string)
      requires Valid()
      modifies `tickets, tickets
      ensures Valid() && tickets == NotOf(old(tickets), owner)
      ensures Refused(old(tickets), |old(tickets)|, OfOwner(old(tickets), owner), OwnerGone)
    {
      var pending := tickets;
      tickets := Others(pending, owner);
      RefuseEach(pending, owner);
      NotOfKeepsOrder(pending, owner);
      OthersStayFresh(pending, owner);
      forall i | 0 <= i < |tickets| ensures tickets[i].seqNo <= seqNo { NotOfHolds(pending, owner, tickets[i]); }
    }

    method RefuseEach(pending: seq<Ticket>, owner: string)
      requires FirstComeFirst(pending) && Fresh(pending) && tickets == NotOf(pending, owner)
      modifies `tickets, pending
      ensures tickets == old(tickets)
      ensures Refused(pending, |pending|, OfOwner(pending, owner), OwnerGone)
    {
      ghost var chosen := OfOwner(pending, owner);
      for i := 0 to |pending|
        invariant tickets == old(tickets)
        invariant Refused(pending, i, chosen, OwnerGone)
      {
        if pending[i].owner == owner {
          NotOfHolds(pending, owner, pending[i]);
          AlreadyOut(tickets, pending[i]);
          Refuse(pending[i], OwnerGone);
        }
      }
    }

    // drainQueue: the queue empties and every ticket is told at once.
    method Drain()
      requires Valid()
      modifies `tickets, tickets
      ensures Valid() && tickets == []
      ensures Refused(old(tickets), |old(tickets)|, (set t | t in old(tickets)), Draining)
    {
      var pending := tickets;
      tickets := [];
      for i := 0 to |pending|
        invariant tickets == []
        invariant Refused(pending, i, (set t | t in pending), Draining)
      {
        if !pending[i].done {
          pending[i].done := true;
          pending[i].Send(Draining);
        }
      }
    }

    method Others(pending: seq<Ticket>, owner: string) returns (kept: seq<Ticket>)
      ensures kept == NotOf(pending, owner)
    {
      kept := [];
      for i := 0 to |pending|
        invariant kept == NotOf(pending[..i], owner)
      {
        assert pending[..i + 1][..i] == pending[..i];
        if pending[i].owner != owner { kept := kept + [pending[i]]; }
      }
      assert pending[..|pending|] == pending;
    }
  }
}
