/**
 Settling of waiting creates (api/admitqueue.go).

 A ticket is raced for by admission passes, by refusers (drainQueue and
 cancelQueuedForOwner) and by its own waiter (timeout or client gone). Each
 critical section, each channel send or receive and each lease grant or release
 is one step, and the steps of all threads interleave. `locked` says whether
 admitMu keeps passes apart, as it does in the service: then at most one pass
 runs at a time and the `rival` slot stays empty.
 */
module Tickets {
  import opened Counting
  import opened Options

  datatype Outcome = Granted | Refused

  datatype Winner = NoOne | LeasePass | RefusingPass | RefuserThread(r: nat) | WaiterThread

  datatype Waiter =
    | Waiting      // in the select of waitForAdmission
    | MustReceive  // lost finishTicket, blocked on the channel
    | GotLease
    | GotRefusal
    | GaveUp       // won finishTicket itself

  // One waiting create. granted, delivered, released and lost count the leases
  // created for it and what became of each; wins counts successful claims.
  datatype Ticket = Ticket(
    owner: nat, done: bool, winner: Winner, wins: nat,
    ch: Option<Outcome>, waiter: Waiter,
    granted: nat, delivered: nat, released: nat, lost: nat)

  datatype Pass =
    | Scan                // choosing the next ticket
    | Trying(t: nat)      // grantQueued is running
    | Have(t: nat)        // a lease was created, finishTicket comes next
    | Releasing(t: nat)   // lost the ticket, the lease must go
    | SendLease(t: nat)
    | DrainClaim(t: nat)  // grantQueued answered draining
    | DrainSend(t: nat)
    | GoneClaim(t: nat)   // grantQueued answered owner deleted
    | GoneSend(t: nat)
    | Ended

  datatype Scope = Everyone | Of(owner: nat)

  datatype Refuser =
    | Fresh(scope: Scope)                // about to detach its tickets
    | Working(todo: set<nat>)
    | Sending(t: nat, todo: set<nat>)
    | Over

  datatype State = State(
    tickets: seq<Ticket>, queue: set<nat>,
    pass: Pass, rival: Pass, refusers: seq<Refuser>,
    deleted: set<nat>, swept: set<nat>)

  datatype Slot = Main | Rival

  datatype Grant = NoRoom | Lease | Draining | OwnerGone

  datatype Step =
    | Park(owner: nat)
    | MarkDeleted(owner: nat)
    | StartPass(p: Slot)
    | Pick(p: Slot, t: nat)
    | Answer(p: Slot, g: Grant)
    | PassGo(p: Slot)           // the only step that pass has next
    | StartRefuser(scope: Scope)
    | RefuserGo(r: nat)
    | RefuserClaim(r: nat, t: nat)
    | Receive(t: nat)
    | GiveUp(t: nat)            // the timer fired or the client went away

  function Init(): State {
    State([], {}, Ended, Ended, [], {}, {})
  }

  function At(s: State, p: Slot): Pass {
    if p == Main then s.pass else s.rival
  }

  function SetPass(s: State, p: Slot, pc: Pass): State {
    if p == Main then s.(pass := pc) else s.(rival := pc)
  }

  predicate Enabled(locked: bool, s: State, a: Step) {
    match a
    case Park(_) => true
    case MarkDeleted(_) => true
    case StartPass(p) => At(s, p) == Ended && (locked ==> p == Main)
    case Pick(p, t) => At(s, p) == Scan && t < |s.tickets| && !s.tickets[t].done
    case Answer(p, _) => At(s, p).Trying? && InRange(s, At(s, p))
    case PassGo(p) => !At(s, p).Trying? && !At(s, p).Ended? && InRange(s, At(s, p))
    case StartRefuser(scope) => scope.Of? ==> scope.owner in s.deleted
    case RefuserGo(r) =>
      r < |s.refusers| && match s.refusers[r] {
        case Working(todo) => todo == {}
        case Sending(t, _) => t < |s.tickets|
        case Over => false
        case _ => true
      }
    case RefuserClaim(r, t) =>
      r < |s.refusers| && s.refusers[r].Working? && t in s.refusers[r].todo && t < |s.tickets|
    case Receive(t) =>
      && t < |s.tickets| && s.tickets[t].ch.Some?
      && (s.tickets[t].waiter == Waiting || s.tickets[t].waiter == MustReceive)
    case GiveUp(t) => t < |s.tickets| && s.tickets[t].waiter == Waiting
  }

  // finishTicket: the first caller wins and takes the ticket off the queue.
  function Claim(s: State, t: nat, who: Winner): State
    requires t < |s.tickets|
  {
    if s.tickets[t].done then s
    else s.(tickets := s.tickets[t := s.tickets[t].(done := true, winner := who, wins := s.tickets[t].wins + 1)],
            queue := s.queue - {t})
  }

  // A send into the one-place channel: a full channel drops it.
  function Send(k: Ticket, o: Outcome): Ticket {
    if k.ch == None then k.(ch := Some(o))
    else if o == Granted then k.(lost := k.lost + 1)
    else k
  }

  function SetTicket(s: State, t: nat, k: Ticket): State
    requires t < |s.tickets|
  {
    s.(tickets := s.tickets[t := k])
  }

  // The ticket a pass has in its hands exists.
  predicate InRange(s: State, pc: Pass) {
    pc.Scan? || pc.Ended? || pc.t < |s.tickets|
  }

  function RunPass(s: State, p: Slot): State
    requires InRange(s, At(s, p))
  {
    match At(s, p)
    case Scan => SetPass(s, p, Ended)
    case Have(t) =>
      if s.tickets[t].done then SetPass(s, p, Releasing(t))
      else SetPass(Claim(s, t, LeasePass), p, SendLease(t))
    case Releasing(t) =>
      SetPass(SetTicket(s, t, s.tickets[t].(released := s.tickets[t].released + 1)), p, Scan)
    case SendLease(t) => SetPass(SetTicket(s, t, Send(s.tickets[t], Granted)), p, Scan)
    case DrainClaim(t) => // the result of finishTicket is ignored here
      SetPass(Claim(s, t, RefusingPass), p, DrainSend(t))
    case DrainSend(t) => // then drainQueue runs and the pass returns
      SetPass(SetTicket(s, t, Send(s.tickets[t], Refused)), p, Ended)
      .(refusers := s.refusers + [Fresh(Everyone)])
    case GoneClaim(t) =>
      if s.tickets[t].done then SetPass(s, p, Scan)
      else SetPass(Claim(s, t, RefusingPass), p, GoneSend(t))
    case GoneSend(t) => SetPass(SetTicket(s, t, Send(s.tickets[t], Refused)), p, Scan)
    case _ => s
  }

  function Detached(s: State, scope: Scope): set<nat> {
    match scope
    case Everyone => s.queue
    case Of(o) => set t | t in s.queue && t < |s.tickets| && s.tickets[t].owner == o
  }

  function RunRefuser(s: State, r: nat): State
    requires r < |s.refusers| && (s.refusers[r].Sending? ==> s.refusers[r].t < |s.tickets|)
  {
    match s.refusers[r]
    case Fresh(scope) =>
      s.(queue := s.queue - Detached(s, scope),
         swept := if scope.Of? then s.swept + {scope.owner} else s.swept,
         refusers := s.refusers[r := Working(Detached(s, scope))])
    case Sending(t, todo) =>
      SetTicket(s, t, Send(s.tickets[t], Refused)).(refusers := s.refusers[r := Working(todo)])
    case _ => s.(refusers := s.refusers[r := Over])
  }

  function NewTicket(owner: nat): Ticket {
    Ticket(owner, false, NoOne, 0, None, Waiting, 0, 0, 0, 0)
  }

  function Next(locked: bool, s: State, a: Step): State
    requires Enabled(locked, s, a)
  {
    match a
    case Park(o) =>
      if o in s.deleted then s
      else s.(tickets := s.tickets + [NewTicket(o)], queue := s.queue + {|s.tickets|})
    case MarkDeleted(o) => s.(deleted := s.deleted + {o})
    case StartPass(p) => SetPass(s, p, Scan)
    case Pick(p, t) => SetPass(s, p, Trying(t))
    case Answer(p, g) =>
      var t := At(s, p).t;
      (match g
       case NoRoom => SetPass(s, p, Scan)
       case Draining => SetPass(s, p, DrainClaim(t))
       case OwnerGone => SetPass(s, p, GoneClaim(t))
       case Lease =>
         SetPass(SetTicket(s, t, s.tickets[t].(granted := s.tickets[t].granted + 1)), p, Have(t)))
    case PassGo(p) => RunPass(s, p)
    case StartRefuser(scope) => s.(refusers := s.refusers + [Fresh(scope)])
    case RefuserGo(r) => RunRefuser(s, r)
    case RefuserClaim(r, t) =>
      var todo := s.refusers[r].todo - {t};
      var won := !s.tickets[t].done;
      Claim(s, t, RefuserThread(r)).(refusers := s.refusers[r := if won then Sending(t, todo) else Working(todo)])
    case Receive(t) =>
      var k := s.tickets[t];
      SetTicket(s, t, if k.ch.value == Granted
                      then k.(ch := None, waiter := GotLease, delivered := k.delivered + 1)
                      else k.(ch := None, waiter := GotRefusal))
    case GiveUp(t) =>
      if s.tickets[t].done then SetTicket(s, t, s.tickets[t].(waiter := MustReceive))
      else var c := Claim(s, t, WaiterThread); SetTicket(c, t, c.tickets[t].(waiter := GaveUp))
  }

  function After(locked: bool, steps: seq<Step>): Option<State> {
    if steps == [] then Some(Init())
    else
      var before := After(locked, steps[..|steps| - 1]);
      if before.Some? && Enabled(locked, before.value, steps[|steps| - 1])
      then Some(Next(locked, before.value, steps[|steps| - 1]))
      else None
  }

  // --- Invariants of runs in which admitMu keeps passes apart ---

  predicate Holds(pc: Pass, t: nat) {
    (pc.Have? || pc.Releasing? || pc.SendLease?) && pc.t == t
  }

  // Whoever won the ticket still has the send in front of it.
  predicate AboutToSend(s: State, t: nat)
    requires t < |s.tickets|
  {
    match s.tickets[t].winner
    case LeasePass => s.pass == SendLease(t)
    case RefusingPass => s.pass == DrainSend(t) || s.pass == GoneSend(t)
    case RefuserThread(r) => r < |s.refusers| && s.refusers[r].Sending? && s.refusers[r].t == t
    case _ => false
  }

  predicate Answered(k: Ticket) {
    k.ch.Some? || k.waiter == GotLease || k.waiter == GotRefusal
  }

  // Nothing has happened to the ticket yet except, perhaps, a lease that the
  // pass working on it still holds.
  predicate Untouched(k: Ticket) {
    k.ch == None && k.waiter == Waiting && k.winner == NoOne && k.delivered == 0 && k.released == 0
  }

  predicate Accounted(s: State, t: nat)
    requires t < |s.tickets|
  {
    var k := s.tickets[t];
    && k.wins == One(k.done)
    && k.lost == 0
    && k.granted == k.delivered + k.released + One(k.ch == Some(Granted)) + One(Holds(s.pass, t))
    && k.granted <= 1
    && k.delivered == One(k.waiter == GotLease)
  }

  predicate Settling(s: State, t: nat)
    requires t < |s.tickets|
  {
    var k := s.tickets[t];
    && (!k.done ==> Untouched(k))
    && (k.done ==> k.winner != NoOne)
    && (k.waiter == GaveUp <==> k.winner == WaiterThread)
    && (k.ch == Some(Granted) || k.waiter == GotLease ==> k.winner == LeasePass)
    && (k.done && k.winner != WaiterThread ==> Answered(k) || AboutToSend(s, t))
    && (k.ch == Some(Granted) ==> k.waiter in {Waiting, MustReceive})
  }

  function Todo(r: Refuser): set<nat> {
    if r.Working? || r.Sending? then r.todo else {}
  }

  ghost predicate AboutToRefuse(s: State, t: nat) {
    exists r :: 0 <= r < |s.refusers| && t in Todo(s.refusers[r])
  }

  // Every undecided ticket is queued or about to be refused, so none is dropped.
  ghost predicate Queued(s: State, t: nat)
    requires t < |s.tickets|
  {
    && (t in s.queue ==> !s.tickets[t].done && s.tickets[t].owner !in s.swept)
    && (!s.tickets[t].done ==> t in s.queue || AboutToRefuse(s, t))
  }

  // What the running pass may rely on about the ticket in its hands.
  predicate PassOk(s: State, pc: Pass) {
    InRange(s, pc) &&
    match pc
    case Scan => true
    case Ended => true
    case SendLease(t) =>
      && s.tickets[t].winner == LeasePass && s.tickets[t].ch == None
      && s.tickets[t].waiter in {Waiting, MustReceive}
    case Have(t) => s.tickets[t].winner != LeasePass
    case Releasing(t) => s.tickets[t].done && s.tickets[t].winner != LeasePass
    case DrainSend(t) => s.tickets[t].done && s.tickets[t].winner != LeasePass
    case GoneSend(t) => s.tickets[t].winner == RefusingPass
    case _ => s.tickets[pc.t].winner != LeasePass && s.tickets[pc.t].granted == 0
  }

  predicate RefuserOk(s: State, r: nat)
    requires r < |s.refusers|
  {
    && (forall t :: t in Todo(s.refusers[r]) ==> t < |s.tickets|)
    && (s.refusers[r].Sending? ==>
          s.refusers[r].t < |s.tickets| && s.tickets[s.refusers[r].t].winner == RefuserThread(r))
    && (s.refusers[r].Fresh? && s.refusers[r].scope.Of? ==> s.refusers[r].scope.owner in s.deleted)
  }

  ghost predicate TicketOk(s: State, t: nat)
    requires t < |s.tickets|
  {
    Accounted(s, t) && Settling(s, t) && Queued(s, t)
  }

  ghost predicate Inv(s: State) {
    && s.rival == Ended && PassOk(s, s.pass)
    && (forall t :: t in s.queue ==> t < |s.tickets|)
    && s.swept <= s.deleted
    && (forall r :: 0 <= r < |s.refusers| ==> RefuserOk(s, r))
    && (forall t :: 0 <= t < |s.tickets| ==> TicketOk(s, t))
  }

  // Listed is what a step that leaves the refusers' lists alone keeps.
  lemma Listed(s: State, n: State, t: nat)
    requires |s.refusers| <= |n.refusers|
    requires forall r :: 0 <= r < |s.refusers| ==> Todo(s.refusers[r]) <= Todo(n.refusers[r])
    ensures AboutToRefuse(s, t) ==> AboutToRefuse(n, t)
  {
    if AboutToRefuse(s, t) {
      var r :| 0 <= r < |s.refusers| && t in Todo(s.refusers[r]);
      assert t in Todo(n.refusers[r]);
    }
  }

  lemma PassPlansKeep(s: State, a: Step)
    requires Inv(s) && Enabled(true, s, a) && (a.StartPass? || a.Pick? || a.Answer?)
    ensures Inv(Next(true, s, a))
  {
    var n := Next(true, s, a);
    assert a.Pick? ==> TicketOk(s, a.t);
    assert s.pass.Trying? ==> TicketOk(s, s.pass.t);
    forall t | 0 <= t < |n.tickets| ensures TicketOk(n, t) {
      assert TicketOk(s, t);
      Listed(s, n, t);
    }
    forall r | 0 <= r < |n.refusers| ensures RefuserOk(n, r) {
      if r < |s.refusers| { assert RefuserOk(s, r); }
    }
  }

  lemma PassClaimsKeep(s: State, p: Slot)
    requires Inv(s) && Enabled(true, s, PassGo(p))
    requires s.pass.Have? || s.pass.DrainClaim? || s.pass.GoneClaim? || s.pass.Scan?
    ensures Inv(Next(true, s, PassGo(p)))
  {
    var n := Next(true, s, PassGo(p));
    if !s.pass.Scan? { assert TicketOk(s, s.pass.t); }
    forall t | 0 <= t < |n.tickets| ensures TicketOk(n, t) {
      assert TicketOk(s, t);
      Listed(s, n, t);
    }
    forall r | 0 <= r < |n.refusers| ensures RefuserOk(n, r) {
      if r < |s.refusers| { assert RefuserOk(s, r); }
    }
  }

  lemma PassSendsKeep(s: State, p: Slot)
    requires Inv(s) && Enabled(true, s, PassGo(p))
    requires s.pass.SendLease? || s.pass.DrainSend? || s.pass.GoneSend? || s.pass.Releasing?
    ensures Inv(Next(true, s, PassGo(p)))
  {
    var n := Next(true, s, PassGo(p));
    assert TicketOk(s, s.pass.t);
    forall t | 0 <= t < |n.tickets| ensures TicketOk(n, t) {
      assert TicketOk(s, t);
      Listed(s, n, t);
    }
    forall r | 0 <= r < |n.refusers| ensures RefuserOk(n, r) {
      if r < |s.refusers| { assert RefuserOk(s, r); }
    }
  }

  lemma ParkKeeps(s: State, a: Step)
    requires Inv(s) && Enabled(true, s, a) && (a.Park? || a.MarkDeleted? || a.StartRefuser?)
    ensures Inv(Next(true, s, a))
  {
    var n := Next(true, s, a);
    forall t | 0 <= t < |n.tickets| ensures TicketOk(n, t) {
      if t < |s.tickets| {
        assert TicketOk(s, t);
        Listed(s, n, t);
      }
    }
    forall r | 0 <= r < |n.refusers| ensures RefuserOk(n, r) {
      if r < |s.refusers| { assert RefuserOk(s, r); }
    }
  }

  lemma WaiterKeeps(s: State, a: Step)
    requires Inv(s) && Enabled(true, s, a) && (a.Receive? || a.GiveUp?)
    ensures Inv(Next(true, s, a))
  {
    var n := Next(true, s, a);
    assert TicketOk(s, a.t);
    forall t | 0 <= t < |n.tickets| ensures TicketOk(n, t) {
      assert TicketOk(s, t);
      Listed(s, n, t);
    }
    forall r | 0 <= r < |n.refusers| ensures RefuserOk(n, r) {
      assert RefuserOk(s, r);
    }
  }

  lemma RefuserKeepsTickets(s: State, a: Step)
    requires Inv(s) && Enabled(true, s, a) && (a.RefuserGo? || a.RefuserClaim?)
    ensures forall t :: 0 <= t < |Next(true, s, a).tickets| ==> TicketOk(Next(true, s, a), t)
  {
    var n := Next(true, s, a);
    assert RefuserOk(s, a.r);
    if a.RefuserClaim? { assert TicketOk(s, a.t); }
    if s.refusers[a.r].Sending? { assert TicketOk(s, s.refusers[a.r].t); }
    forall t | 0 <= t < |n.tickets| ensures TicketOk(n, t) {
      assert TicketOk(s, t);
      if !n.tickets[t].done && t !in n.queue {
        if t in s.queue {
          assert t in Todo(n.refusers[a.r]);
        } else {
          var r :| 0 <= r < |s.refusers| && t in Todo(s.refusers[r]);
          assert t in Todo(n.refusers[r]);
        }
      }
    }
  }

  lemma RefuserKeeps(s: State, a: Step)
    requires Inv(s) && Enabled(true, s, a) && (a.RefuserGo? || a.RefuserClaim?)
    ensures Inv(Next(true, s, a))
  {
    var n := Next(true, s, a);
    RefuserKeepsTickets(s, a);
    assert RefuserOk(s, a.r);
    if a.RefuserClaim? { assert TicketOk(s, a.t); }
    if s.refusers[a.r].Sending? { assert TicketOk(s, s.refusers[a.r].t); }
    if s.refusers[a.r].Fresh? { assert Detached(s, s.refusers[a.r].scope) <= s.queue; }
    forall r | 0 <= r < |n.refusers| ensures RefuserOk(n, r) {
      assert RefuserOk(s, r);
      assert Todo(n.refusers[r]) <= Todo(s.refusers[r]) || Todo(n.refusers[r]) <= s.queue;
      assert forall t :: t in Todo(n.refusers[r]) ==> t in Todo(s.refusers[r]) || t in s.queue;
    }
  }

  lemma {:induction false} InvHolds(steps: seq<Step>)
    requires After(true, steps).Some?
    ensures Inv(After(true, steps).value)
  {
    if steps != [] {
      var s, a := After(true, steps[..|steps| - 1]).value, steps[|steps| - 1];
      InvHolds(steps[..|steps| - 1]);
      match a
      case Park(_) | MarkDeleted(_) | StartRefuser(_) => ParkKeeps(s, a);
      case StartPass(_) | Pick(_, _) | Answer(_, _) => PassPlansKeep(s, a);
      case PassGo(p) =>
        if s.pass.Scan? || s.pass.Have? || s.pass.DrainClaim? || s.pass.GoneClaim? {
          PassClaimsKeep(s, p);
        } else {
          PassSendsKeep(s, p);
        }
      case RefuserGo(_) | RefuserClaim(_, _) => RefuserKeeps(s, a);
      case Receive(_) | GiveUp(_) => WaiterKeeps(s, a);
    }
  }

  // --- What every run with admitMu guarantees ---

  // `done` is won at most once, whatever the interleaving.
  lemma SettledOnce(steps: seq<Step>, t: nat)
    requires After(true, steps).Some? && t < |After(true, steps).value.tickets|
    ensures var k := After(true, steps).value.tickets[t];
            k.wins == (if k.done then 1 else 0) && (k.done <==> k.winner != NoOne)
  {
    InvHolds(steps);
    assert TicketOk(After(true, steps).value, t);
  }

  lemma StepKeepsWinner(locked: bool, s: State, a: Step, t: nat)
    requires Enabled(locked, s, a) && t < |s.tickets|
    ensures t < |Next(locked, s, a).tickets|
    ensures s.tickets[t].done ==>
              && Next(locked, s, a).tickets[t].done
              && Next(locked, s, a).tickets[t].winner == s.tickets[t].winner
  {
  }

  // The winner of a ticket never changes afterwards, with or without admitMu.
  lemma {:induction false} WinnerIsFinal(locked: bool, steps: seq<Step>, more: seq<Step>, t: nat)
    requires After(locked, steps).Some? && After(locked, steps + more).Some?
    requires t < |After(locked, steps).value.tickets|
    ensures t < |After(locked, steps + more).value.tickets|
    ensures After(locked, steps).value.tickets[t].done ==>
              && After(locked, steps + more).value.tickets[t].done
              && After(locked, steps + more).value.tickets[t].winner == After(locked, steps).value.tickets[t].winner
  {
    if more == [] {
      assert steps + more == steps;
    } else {
      var all := steps + more;
      assert all[..|all| - 1] == steps + more[..|more| - 1];
      WinnerIsFinal(locked, steps, more[..|more| - 1], t);
      StepKeepsWinner(locked, After(locked, all[..|all| - 1]).value, all[|all| - 1], t);
    }
  }

  // A waiter that lost finishTicket has its answer in the channel, or the
  // winner has its send still in front of it: the receive never blocks forever.
  lemma LoserIsAnswered(steps: seq<Step>, t: nat)
    requires After(true, steps).Some? && t < |After(true, steps).value.tickets|
    requires After(true, steps).value.tickets[t].waiter == MustReceive
    ensures After(true, steps).value.tickets[t].ch.Some? || AboutToSend(After(true, steps).value, t)
  {
    InvHolds(steps);
    assert TicketOk(After(true, steps).value, t);
  }

  // At most one lease is ever created for a ticket, and it is in exactly one
  // place: with the pass, in the channel, delivered to this ticket's waiter, or
  // released. None is dropped by a full channel.
  lemma LeaseConserved(steps: seq<Step>, t: nat)
    requires After(true, steps).Some? && t < |After(true, steps).value.tickets|
    ensures var s := After(true, steps).value;
            var k := s.tickets[t];
            && k.lost == 0
            && One(k.granted > 0) == k.granted
            && k.granted == k.delivered + k.released + One(k.ch == Some(Granted)) + One(Holds(s.pass, t))
            && (k.delivered > 0 <==> k.waiter == GotLease)
            && (k.ch == Some(Granted) ==> k.waiter == Waiting || k.waiter == MustReceive)
            && s.rival == Ended
  {
    InvHolds(steps);
    assert TicketOk(After(true, steps).value, t);
  }

  // No undecided ticket falls out of the queue unanswered, and once a deleted
  // owner's tickets were swept none of them is ever queued again.
  lemma NoTicketDropped(steps: seq<Step>, t: nat)
    requires After(true, steps).Some? && t < |After(true, steps).value.tickets|
    ensures var s := After(true, steps).value;
            && (!s.tickets[t].done ==> t in s.queue || AboutToRefuse(s, t))
            && (s.tickets[t].owner in s.swept ==> t !in s.queue)
  {
    InvHolds(steps);
    assert TicketOk(After(true, steps).value, t);
  }

  // When the refusers are through, every ticket of a swept owner is settled.
  lemma SweptOwnersAreSettled(steps: seq<Step>, t: nat)
    requires After(true, steps).Some? && t < |After(true, steps).value.tickets|
    requires forall r :: 0 <= r < |After(true, steps).value.refusers| ==> After(true, steps).value.refusers[r] == Over
    requires After(true, steps).value.tickets[t].owner in After(true, steps).value.swept
    ensures After(true, steps).value.tickets[t].done
  {
    NoTicketDropped(steps, t);
  }

  lemma Extend(locked: bool, steps: seq<Step>, s: State, a: Step, n: State)
    requires After(locked, steps) == Some(s) && Enabled(locked, s, a) && Next(locked, s, a) == n
    ensures After(locked, steps + [a]) == Some(n)
  {
    assert (steps + [a])[..|steps|] == steps;
  }

  // --- What a waiting create can count on ---

  function Settled(k: Ticket, who: Winner): Ticket { k.(done := true, winner := who, wins := 1) }

  // A pass that takes up a queued ticket.
  lemma PassPicks(before: seq<Step>, s: State, t: nat) returns (steps: seq<Step>)
    requires After(true, before) == Some(s) && s.pass == Ended && t in s.queue
    ensures t < |s.tickets| && !s.tickets[t].done && Untouched(s.tickets[t]) && s.tickets[t].wins == 0
    ensures s.tickets[t].granted == 0
    ensures After(true, steps) == Some(s.(pass := Trying(t)))
  {
    InvHolds(before);
    assert TicketOk(s, t);
    Extend(true, before, s, StartPass(Main), s.(pass := Scan));
    Extend(true, before + [StartPass(Main)], s.(pass := Scan), Pick(Main, t), s.(pass := Trying(t)));
    steps := before + [StartPass(Main)] + [Pick(Main, t)];
  }

  // When there is room its waiter receives the lease.
  lemma WaiterGetsLease(before: seq<Step>, s: State, t: nat) returns (steps: seq<Step>)
    requires After(true, before) == Some(s) && s.pass == Ended && t in s.queue && t < |s.tickets|
    ensures After(true, steps) ==
            Some(s.(pass := Scan, queue := s.queue - {t},
                    tickets := s.tickets[t := Settled(s.tickets[t], LeasePass).(
                                           waiter := GotLease, granted := 1, delivered := 1)]))
  {
    steps := PassPicks(before, s, t);
    var k := s.tickets[t].(granted := 1);
    var s1 := s.(pass := Have(t), tickets := s.tickets[t := k]);
    Extend(true, steps, s.(pass := Trying(t)), Answer(Main, Lease), s1);
    steps := steps + [Answer(Main, Lease)];
    var s2 := s.(pass := SendLease(t), queue := s.queue - {t}, tickets := s.tickets[t := Settled(k, LeasePass)]);
    Extend(true, steps, s1, PassGo(Main), s2);
    var sent := Settled(k, LeasePass).(ch := Some(Granted));
    var s3 := s2.(pass := Scan, tickets := s.tickets[t := sent]);
    Extend(true, steps + [PassGo(Main)], s2, PassGo(Main), s3);
    steps := steps + [PassGo(Main)] + [PassGo(Main)];
    Extend(true, steps, s3, Receive(t), s3.(tickets := s.tickets[t := Settled(k, LeasePass).(
                                                             waiter := GotLease, delivered := 1)]));
    steps := steps + [Receive(t)];
  }

  // When the node drains or its owner is gone, the waiter receives a refusal;
  // a draining pass also ends and leaves a refuser for everyone.
  lemma WaiterIsRefused(before: seq<Step>, s: State, t: nat, drains: bool) returns (steps: seq<Step>)
    requires After(true, before) == Some(s) && s.pass == Ended && t in s.queue && t < |s.tickets|
    ensures After(true, steps) ==
            Some(s.(pass := if drains then Ended else Scan, queue := s.queue - {t},
                    refusers := if drains then s.refusers + [Fresh(Everyone)] else s.refusers,
                    tickets := s.tickets[t := Settled(s.tickets[t], RefusingPass).(waiter := GotRefusal)]))
  {
    var k := Settled(s.tickets[t], RefusingPass);
    var s2;
    if drains { steps, s2 := DrainingAnswer(before, s, t); } else { steps, s2 := GoneAnswer(before, s, t); }
    Extend(true, steps, s2, Receive(t), s2.(tickets := s.tickets[t := k.(waiter := GotRefusal)]));
    steps := steps + [Receive(t)];
  }

  lemma DrainingAnswer(before: seq<Step>, s: State, t: nat) returns (steps: seq<Step>, n: State)
    requires After(true, before) == Some(s) && s.pass == Ended && t in s.queue && t < |s.tickets|
    ensures s.tickets[t].waiter == Waiting && s.tickets[t].ch == None
    ensures After(true, steps) == Some(n)
    ensures n == s.(queue := s.queue - {t}, refusers := s.refusers + [Fresh(Everyone)],
                    tickets := s.tickets[t := Settled(s.tickets[t], RefusingPass).(ch := Some(Refused))])
  {
    var s1;
    steps, s1 := DrainingClaim(before, s, t);
    n := s1.(pass := Ended, tickets := s.tickets[t := s1.tickets[t].(ch := Some(Refused))],
             refusers := s.refusers + [Fresh(Everyone)]);
    Extend(true, steps, s1, PassGo(Main), n);
    steps := steps + [PassGo(Main)];
  }

  lemma DrainingClaim(before: seq<Step>, s: State, t: nat) returns (steps: seq<Step>, n: State)
    requires After(true, before) == Some(s) && s.pass == Ended && t in s.queue && t < |s.tickets|
    ensures s.tickets[t].waiter == Waiting && s.tickets[t].ch == None
    ensures After(true, steps) == Some(n)
    ensures n == s.(pass := DrainSend(t), queue := s.queue - {t},
                    tickets := s.tickets[t := Settled(s.tickets[t], RefusingPass)])
  {
    steps := PassPicks(before, s, t);
    Extend(true, steps, s.(pass := Trying(t)), Answer(Main, Draining), s.(pass := DrainClaim(t)));
    steps := steps + [Answer(Main, Draining)];
    n := s.(pass := DrainSend(t), queue := s.queue - {t},
            tickets := s.tickets[t := Settled(s.tickets[t], RefusingPass)]);
    Extend(true, steps, s.(pass := DrainClaim(t)), PassGo(Main), n);
    steps := steps + [PassGo(Main)];
  }

  lemma GoneAnswer(before: seq<Step>, s: State, t: nat) returns (steps: seq<Step>, n: State)
    requires After(true, before) == Some(s) && s.pass == Ended && t in s.queue && t < |s.tickets|
    ensures s.tickets[t].waiter == Waiting && s.tickets[t].ch == None
    ensures After(true, steps) == Some(n)
    ensures n == s.(pass := Scan, queue := s.queue - {t},
                    tickets := s.tickets[t := Settled(s.tickets[t], RefusingPass).(ch := Some(Refused))])
  {
    steps := PassPicks(before, s, t);
    Extend(true, steps, s.(pass := Trying(t)), Answer(Main, OwnerGone), s.(pass := GoneClaim(t)));
    steps := steps + [Answer(Main, OwnerGone)];
    var k := Settled(s.tickets[t], RefusingPass);
    var s1 := s.(pass := GoneSend(t), queue := s.queue - {t}, tickets := s.tickets[t := k]);
    Extend(true, steps, s.(pass := GoneClaim(t)), PassGo(Main), s1);
    n := s1.(pass := Scan, tickets := s.tickets[t := k.(ch := Some(Refused))]);
    Extend(true, steps + [PassGo(Main)], s1, PassGo(Main), n);
    steps := steps + [PassGo(Main)] + [PassGo(Main)];
  }

  // A lease that comes after its waiter gave up is released.
  lemma LateLeaseIsReleased(before: seq<Step>, s: State, t: nat) returns (steps: seq<Step>)
    requires After(true, before) == Some(s) && s.pass == Ended && t in s.queue && t < |s.tickets|
    ensures After(true, steps) ==
            Some(s.(pass := Scan, queue := s.queue - {t},
                    tickets := s.tickets[t := Settled(s.tickets[t], WaiterThread).(
                                           waiter := GaveUp, granted := 1, released := 1)]))
  {
    var s1;
    steps, s1 := LeaseComesLate(before, s, t);
    Extend(true, steps, s1, PassGo(Main), s1.(pass := Releasing(t)));
    Extend(true, steps + [PassGo(Main)], s1.(pass := Releasing(t)), PassGo(Main),
           s1.(pass := Scan, tickets := s.tickets[t := s1.tickets[t].(released := 1)]));
    steps := steps + [PassGo(Main)] + [PassGo(Main)];
  }

  lemma LeaseComesLate(before: seq<Step>, s: State, t: nat) returns (steps: seq<Step>, n: State)
    requires After(true, before) == Some(s) && s.pass == Ended && t in s.queue && t < |s.tickets|
    ensures s.tickets[t].released == 0
    ensures After(true, steps) == Some(n)
    ensures n == s.(pass := Have(t), queue := s.queue - {t},
                    tickets := s.tickets[t := Settled(s.tickets[t], WaiterThread).(waiter := GaveUp, granted := 1)])
  {
    steps := PassPicks(before, s, t);
    var k := Settled(s.tickets[t], WaiterThread).(waiter := GaveUp);
    var s1 := s.(pass := Trying(t), queue := s.queue - {t}, tickets := s.tickets[t := k]);
    Extend(true, steps, s.(pass := Trying(t)), GiveUp(t), s1);
    n := s1.(pass := Have(t), tickets := s.tickets[t := k.(granted := 1)]);
    Extend(true, steps + [GiveUp(t)], s1, Answer(Main, Lease), n);
    steps := steps + [GiveUp(t)] + [Answer(Main, Lease)];
  }

  // A refuser takes exactly its scope off the queue: every queued ticket, or
  // every one of a deleted owner.
  lemma RefuserDetaches(before: seq<Step>, s: State, o: nat, everyone: bool) returns (steps: seq<Step>, n: State)
    requires After(true, before) == Some(s)
    ensures After(true, steps) == Some(n) && n.tickets == s.tickets && n.pass == s.pass
    ensures n.swept == (if everyone then s.swept else s.swept + {o})
    ensures n.deleted == (if everyone then s.deleted else s.deleted + {o})
    ensures |n.refusers| == |s.refusers| + 1 && n.refusers[|s.refusers|].Working?
    ensures forall t :: t in n.refusers[|s.refusers|].todo <==>
                          t in s.queue && (everyone || (t < |s.tickets| && s.tickets[t].owner == o))
    ensures n.queue == s.queue - n.refusers[|s.refusers|].todo
  {
    var r := |s.refusers|;
    var s1 := if everyone then s else s.(deleted := s.deleted + {o});
    steps := before;
    if !everyone {
      Extend(true, before, s, MarkDeleted(o), s1);
      steps := before + [MarkDeleted(o)];
    }
    var scope := if everyone then Everyone else Of(o);
    var s2 := s1.(refusers := s.refusers + [Fresh(scope)]);
    Extend(true, steps, s1, StartRefuser(scope), s2);
    n := Next(true, s2, RefuserGo(r));
    Extend(true, steps + [StartRefuser(scope)], s2, RefuserGo(r), n);
    steps := steps + [StartRefuser(scope)] + [RefuserGo(r)];
  }

  // One ticket on a refuser's list: refused unless someone settled it already.
  lemma RefuserTakesOne(before: seq<Step>, s: State, r: nat, t: nat) returns (steps: seq<Step>, n: State)
    requires After(true, before) == Some(s) && r < |s.refusers| && s.refusers[r].Working? && t in s.refusers[r].todo
    ensures After(true, steps) == Some(n) && t < |s.tickets|
    ensures n.refusers == s.refusers[r := Working(s.refusers[r].todo - {t})]
    ensures n.tickets == if s.tickets[t].done then s.tickets
                         else s.tickets[t := Settled(s.tickets[t], RefuserThread(r)).(ch := Some(Refused))]
  {
    InvHolds(before);
    assert RefuserOk(s, r) && t in Todo(s.refusers[r]);
    assert TicketOk(s, t);
    var s1 := Next(true, s, RefuserClaim(r, t));
    Extend(true, before, s, RefuserClaim(r, t), s1);
    steps, n := before + [RefuserClaim(r, t)], s1;
    if !s.tickets[t].done {
      n := Next(true, s1, RefuserGo(r));
      Extend(true, steps, s1, RefuserGo(r), n);
      steps := steps + [RefuserGo(r)];
    }
  }

  // A refuser that goes on gets through its list: it settles what nobody had
  // settled, with a refusal to receive, and touches no other ticket.
  lemma {:induction false} RefuserGetsThrough(before: seq<Step>, s: State, r: nat) returns (steps: seq<Step>, n: State)
    requires After(true, before) == Some(s) && r < |s.refusers| && s.refusers[r].Working?
    ensures After(true, steps) == Some(n) && n.refusers == s.refusers[r := Over] && |n.tickets| == |s.tickets|
    ensures forall t :: 0 <= t < |s.tickets| ==>
              n.tickets[t] == if t in s.refusers[r].todo && !s.tickets[t].done
                              then Settled(s.tickets[t], RefuserThread(r)).(ch := Some(Refused)) else s.tickets[t]
    decreases |s.refusers[r].todo|
  {
    if s.refusers[r].todo == {} {
      n := s.(refusers := s.refusers[r := Over]);
      Extend(true, before, s, RefuserGo(r), n);
      steps := before + [RefuserGo(r)];
    } else {
      var t :| t in s.refusers[r].todo;
      var mid, m := RefuserTakesOne(before, s, r, t);
      steps, n := RefuserGetsThrough(mid, m, r);
    }
  }

  // admitMu is needed: two passes at once can leak a lease. Both try the same
  // ticket; one gets a lease and wins, the other is told the node drains and
  // sends first, so the winner's send finds the channel full.
  lemma WithoutAdmitMu() returns (steps: seq<Step>)
    ensures After(false, steps).Some? && |After(false, steps).value.tickets| == 1
    ensures var s := After(false, steps).value;
            var k := s.tickets[0];
            && s.pass == Scan && s.rival == Ended
            && k.granted == 1 && k.lost == 1 && k.delivered == 0 && k.released == 0 && k.ch == Some(Refused)
  {
    var k := NewTicket(0);
    var s := State([k], {0}, Ended, Ended, [], {}, {});
    steps := [];
    Extend(false, steps, Init(), Park(0), s);
    steps := steps + [Park(0)];
    steps, s := TwoPassesTry(steps, s);
    steps, s := RivalAnswersFirst(steps, s);
    var n := s.(pass := Scan, tickets := [s.tickets[0].(lost := 1)]);
    Extend(false, steps, s, PassGo(Main), n);
    steps := steps + [PassGo(Main)];
  }

  lemma TwoPassesTry(before: seq<Step>, s: State) returns (steps: seq<Step>, n: State)
    requires After(false, before) == Some(s)
    requires s == State([NewTicket(0)], {0}, Ended, Ended, [], {}, {})
    ensures After(false, steps) == Some(n)
    ensures n == s.(pass := Trying(0), rival := Trying(0))
  {
    Extend(false, before, s, StartPass(Main), s.(pass := Scan));
    steps := before + [StartPass(Main)];
    Extend(false, steps, s.(pass := Scan), StartPass(Rival), s.(pass := Scan, rival := Scan));
    steps := steps + [StartPass(Rival)];
    Extend(false, steps, s.(pass := Scan, rival := Scan), Pick(Main, 0), s.(pass := Trying(0), rival := Scan));
    steps := steps + [Pick(Main, 0)];
    n := s.(pass := Trying(0), rival := Trying(0));
    Extend(false, steps, s.(pass := Trying(0), rival := Scan), Pick(Rival, 0), n);
    steps := steps + [Pick(Rival, 0)];
  }

  lemma RivalAnswersFirst(before: seq<Step>, s: State) returns (steps: seq<Step>, n: State)
    requires After(false, before) == Some(s)
    requires s == State([NewTicket(0)], {0}, Trying(0), Trying(0), [], {}, {})
    ensures After(false, steps) == Some(n)
    ensures n == State([NewTicket(0).(granted := 1, done := true, winner := LeasePass, wins := 1, ch := Some(Refused))],
                       {}, SendLease(0), Ended, [Fresh(Everyone)], {}, {})
  {
    var k := NewTicket(0).(granted := 1);
    var s1 := s.(pass := Have(0), tickets := [k]);
    Extend(false, before, s, Answer(Main, Lease), s1);
    steps := before + [Answer(Main, Lease)];
    var won := k.(done := true, winner := LeasePass, wins := 1);
    var s2 := State([won], {}, SendLease(0), Trying(0), [], {}, {});
    Extend(false, steps, s1, PassGo(Main), s2);
    steps := steps + [PassGo(Main)];
    Extend(false, steps, s2, Answer(Rival, Draining), s2.(rival := DrainClaim(0)));
    steps := steps + [Answer(Rival, Draining)];
    Extend(false, steps, s2.(rival := DrainClaim(0)), PassGo(Rival), s2.(rival := DrainSend(0)));
    steps := steps + [PassGo(Rival)];
    n := State([won.(ch := Some(Refused))], {}, SendLease(0), Ended, [Fresh(Everyone)], {}, {});
    Extend(false, steps, s2.(rival := DrainSend(0)), PassGo(Rival), n);
    steps := steps + [PassGo(Rival)];
  }
}
