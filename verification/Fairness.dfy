/** What every run of the scheduler guarantees: tickets' lifetimes, progress, and bounded waiting. */
module Fairness {
  import opened Numbers
  import opened Results
  import opened Stage
  import opened Batch
  import opened Queues
  import opened Scheduling

  /** One critical section of a caller. */
  datatype Move = Arrive(t: nat, item: Item)
                | GiveUp(t: nat)
                | Lead(t: nat, batches: bool, dead: Dead)
                | Finish(outputs: Result<seq<Output>>)
                | Go(t: nat)

  predicate Allowed(s: Sched, m: Move) {
    match m
    case Arrive(t, _) => t !in s.tickets
    case GiveUp(t) => t in s.tickets && !s.tickets[t].claimed
    case Lead(t, _, _) => CanClaim(s, t)
    case Finish(_) => s.dispatch != []
    case Go(t) => t in s.tickets && s.tickets[t].done && s.leader != Some(t)
  }

  function After(s: Sched, m: Move): Sched
    requires Allowed(s, m)
  {
    match m
    case Arrive(t, item) => Enqueue(s, t, item)
    case GiveUp(t) => Abandon(s, t)
    case Lead(t, batches, dead) => Claim(s, t, batches, dead)
    case Finish(outputs) => Complete(s, outputs)
    case Go(t) => Leave(s, t)
  }

  lemma MoveKeeps(s: Sched, m: Move)
    requires Valid(s) && Allowed(s, m)
    ensures Valid(After(s, m))
  {
    hide Valid;
    match m
    case Arrive(t, item) => EnqueueKeeps(s, t, item);
    case GiveUp(t) => AbandonKeeps(s, t);
    case Lead(t, batches, dead) => ClaimKeeps(s, t, batches, dead);
    case Finish(outputs) => CompleteKeeps(s, outputs);
    case Go(t) => LeaveKeeps(s, t);
  }

  predicate Legal(s: Sched, moves: seq<Move>)
    decreases |moves|
  {
    moves == [] || (Allowed(s, moves[0]) && Legal(After(s, moves[0]), moves[1..]))
  }

  function Run(s: Sched, moves: seq<Move>): Sched
    requires Legal(s, moves)
    decreases |moves|
  {
    if moves == [] then s else Run(After(s, moves[0]), moves[1..])
  }

  // ---------------------------------------------------------------------------- lifetimes

  /** Work is never exchanged, a claim is never withdrawn, and an answer is never changed. */
  predicate Continues(before: Ticket, after: Ticket) {
    && after.item == before.item && (before.claimed ==> after.claimed) && (before.done ==> after == before)
  }

  /** A ticket goes away only unclaimed, by its caller giving up, or answered, by its caller leaving; one
      that is claimed stays until it is answered. */
  lemma TicketsLive(s: Sched, m: Move, t: nat)
    requires Valid(s) && Allowed(s, m) && t in s.tickets
    ensures t in After(s, m).tickets ==> Continues(s.tickets[t], After(s, m).tickets[t])
    ensures t !in After(s, m).tickets ==> (m == GiveUp(t) && !s.tickets[t].claimed) || (m == Go(t) && s.tickets[t].done)
  {
    hide Valid, Scan, Next, Without, Delivered, Marked, Limit;
    match m
    case Lead(leader, batches, dead) => ClaimContinues(s, leader, batches, dead, t);
    case Finish(outputs) => CompleteContinues(s, outputs, t);
    case Arrive(_, _) =>
    case GiveUp(_) =>
    case Go(_) =>
  }

  lemma ClaimContinues(s: Sched, leader: nat, batches: bool, dead: Dead, t: nat)
    requires Valid(s) && CanClaim(s, leader) && t in s.tickets
    ensures t in Claim(s, leader, batches, dead).tickets && Continues(s.tickets[t], Claim(s, leader, batches, dead).tickets[t])
  {
    hide Valid, Bounded, Next, Scan, Limit, TakesApart, Marked, Continues;
    var prefill := s.tickets[leader].item.Prefill();
    var r := Scan(QueueOf(s, leader), dead, Limit(s, prefill, batches));
    LeaderQueueWaits(s, leader, t);
    ScanTakesApart(QueueOf(s, leader), dead, Limit(s, prefill, batches));
    ApartAreQueued(QueueOf(s, leader), dead, Limit(s, prefill, batches), r);
    MarkedContinues(s.tickets, r, dead, t);
  }

  lemma LeaderQueueWaits(s: Sched, leader: nat, t: nat)
    requires Valid(s) && leader in s.tickets
    ensures NoDuplicates(QueueOf(s, leader)) && (t in QueueOf(s, leader) ==> t in s.tickets && !s.tickets[t].done)
  {
    hide NoDuplicates;
    assert t in QueueOf(s, leader) ==> Waiting(s, t, s.tickets[leader].item.Prefill());
  }

  lemma MarkedContinues(tickets: map<nat, Ticket>, r: Scanned, dead: Dead, t: nat)
    requires t in tickets && (t in r.live || t in r.dead ==> !tickets[t].done)
    ensures t in Marked(tickets, r, dead) && Continues(tickets[t], Marked(tickets, r, dead)[t])
  {}

  lemma ApartAreQueued(queue: seq<nat>, dead: Dead, limit: nat, r: Scanned)
    requires TakesApart(queue, dead, limit, r)
    ensures forall t :: t in r.live || t in r.dead ==> t in queue
  {}

  lemma CompleteContinues(s: Sched, outputs: Result<seq<Output>>, t: nat)
    requires Valid(s) && t in s.tickets
    ensures t in Complete(s, outputs).tickets && Continues(s.tickets[t], Complete(s, outputs).tickets[t])
  {
    hide NoDuplicates, Bounded, Position, Answered;
    assert t in s.dispatch ==> Running(s, t);
  }

  /** The ticket of a claimed caller who has not left is answered once and for all. */
  lemma {:induction false} AnswersAreFinal(s: Sched, moves: seq<Move>, t: nat)
    requires Valid(s) && Legal(s, moves) && t in s.tickets && s.tickets[t].claimed && Go(t) !in moves
    ensures t in Run(s, moves).tickets && Continues(s.tickets[t], Run(s, moves).tickets[t])
    decreases |moves|
  {
    hide Valid;
    if moves != [] {
      TicketsLive(s, moves[0], t);
      MoveKeeps(s, moves[0]);
      AnswersAreFinal(After(s, moves[0]), moves[1..], t);
    }
  }

  /** A pass answers exactly its own tickets, each with the output at its own place or with the pass's
      one error; and if the number of outputs is wrong none of them is handed out. */
  lemma OwnAnswer(s: Sched, outputs: Result<seq<Output>>, i: nat)
    requires Valid(s) && i < |s.dispatch|
    ensures s.dispatch[i] in s.tickets && s.dispatch[i] in Complete(s, outputs).tickets
    ensures var answer := Complete(s, outputs).tickets[s.dispatch[i]];
            && answer.done
            && match outputs
               case Err(e) => answer.error == Some(e) && answer.result == None
               case Ok(all) =>
                 if |all| == |s.dispatch| then answer.result == Some(all[i]) && answer.error == None
                 else answer.error == Some(Internal) && answer.result == None
    ensures forall t :: t in s.tickets && t !in s.dispatch ==> t in Complete(s, outputs).tickets && Complete(s, outputs).tickets[t] == s.tickets[t]
  {
    assert Running(s, s.dispatch[i]);
    assert Position(s.dispatch, s.dispatch[i]) == i;
  }

  /** A request that ended while queued is answered with its own error, without running. */
  lemma DeadAnswer(s: Sched, leader: nat, batches: bool, dead: Dead, t: nat)
    requires Valid(s) && CanClaim(s, leader) && t in QueueOf(s, leader) && t in dead
    ensures var after := Claim(s, leader, batches, dead);
            && t !in after.dispatch && t in after.tickets
            && (t !in QueueOf(after, leader) ==>
                 after.tickets[t].done && after.tickets[t].error == Some(dead[t]) && after.tickets[t].result == None)
  {
    hide Valid, Scan, Limit, NoDuplicates, TakesApart, Next;
    var limit := Limit(s, s.tickets[leader].item.Prefill(), batches);
    LeaderQueueWaits(s, leader, t);
    UnansweredWaits(s, leader, t);
    ScanTakesApart(QueueOf(s, leader), dead, limit);
    DeadIsPassed(QueueOf(s, leader), dead, limit, Scan(QueueOf(s, leader), dead, limit), t);
  }

  lemma UnansweredWaits(s: Sched, leader: nat, t: nat)
    requires Valid(s) && leader in s.tickets && t in QueueOf(s, leader)
    ensures t in s.tickets && s.tickets[t].result == None
  {
    hide NoDuplicates;
    assert Waiting(s, t, s.tickets[leader].item.Prefill());
    assert Answered(s.tickets[t]);
  }

  lemma DeadIsPassed(queue: seq<nat>, dead: Dead, limit: nat, r: Scanned, t: nat)
    requires TakesApart(queue, dead, limit, r) && t in queue && t in dead
    ensures t !in r.live && (t in r.dead || t in r.rest)
  {}

  // ---------------------------------------------------------------------------- progress

  function Queued(s: Sched): nat {
    |s.prefills| + |s.decodes|
  }

  /** What the claim of leader `t` scans. */
  function Scanning(s: Sched, t: nat, batches: bool, dead: Dead): Scanned
    requires t in s.tickets
  {
    Scan(QueueOf(s, t), dead, Limit(s, s.tickets[t].item.Prefill(), batches))
  }

  lemma ClaimScans(s: Sched, t: nat, batches: bool, dead: Dead)
    requires Valid(s) && CanClaim(s, t)
    ensures var r, queue := Scanning(s, t, batches, dead), QueueOf(s, t);
            var taken, prefill, after := |r.live| + |r.dead|, s.tickets[t].item.Prefill(), Claim(s, t, batches, dead);
            && 0 < taken <= |queue| && NoDuplicates(queue) && r.rest == queue[taken..]
            && after.prefills == (if prefill then r.rest else s.prefills)
            && after.decodes == (if prefill then s.decodes else r.rest)
            && after.streak == (if r.live == [] then s.streak else if prefill then 0 else Least(s.streak + |r.live|, MAXIMUM_STREAK))
            && (prefill ==> |r.live| <= 1 && (s.decodes != [] ==> s.streak == MAXIMUM_STREAK))
            && (!prefill && s.prefills != [] ==> s.streak + |r.live| <= MAXIMUM_STREAK)
  {
    var limit := Limit(s, s.tickets[t].item.Prefill(), batches);
    LimitIsPositive(s, t, batches);
    ScanTakesApart(QueueOf(s, t), dead, limit);
    hide Scan, Limit, Placed, Next;
    ValidIsPlaced(s);
  }

  function Claims(moves: seq<Move>): nat {
    if moves == [] then 0 else (if moves[0].Lead? then 1 else 0) + Claims(moves[1..])
  }

  /** Every claim shortens the queues, so without arrivals there are no more claims than tickets queued. */
  lemma {:induction false} ClaimsAreBounded(s: Sched, moves: seq<Move>)
    requires Valid(s) && Legal(s, moves) && forall i :: 0 <= i < |moves| ==> !moves[i].Arrive?
    ensures Claims(moves) + Queued(Run(s, moves)) <= Queued(s)
    decreases |moves|
  {
    hide Valid, Claim;
    if moves != [] {
      MoveKeeps(s, moves[0]);
      match moves[0] {
        case Lead(t, batches, dead) => ClaimScans(s, t, batches, dead);
        case GiveUp(_) =>
        case Finish(_) =>
        case Go(_) =>
      }
      ClaimsAreBounded(After(s, moves[0]), moves[1..]);
    }
  }

  // ---------------------------------------------------------------------------- bounded waiting

  /** The prefills, or the decodes, that a move starts. */
  function Started(s: Sched, m: Move, prefill: bool): nat
    requires Allowed(s, m)
  {
    if m.Lead? then StartedBy(s, m.t, m.batches, m.dead, prefill) else 0
  }

  function StartedBy(s: Sched, leader: nat, batches: bool, dead: Dead, prefill: bool): nat
    requires leader in s.tickets
  {
    if s.tickets[leader].item.Prefill() == prefill then |Scanning(s, leader, batches, dead).live| else 0
  }

  function TotalStarted(s: Sched, moves: seq<Move>, prefill: bool): nat
    requires Legal(s, moves)
    decreases |moves|
  {
    if moves == [] then 0 else Started(s, moves[0], prefill) + TotalStarted(After(s, moves[0]), moves[1..], prefill)
  }

  /** Ticket `t` waits in the queue from beginning to end. */
  predicate Stays(s: Sched, moves: seq<Move>, t: nat, prefill: bool)
    requires Legal(s, moves)
    decreases |moves|
  {
    t in (if prefill then s.prefills else s.decodes) && (moves == [] || Stays(After(s, moves[0]), moves[1..], t, prefill))
  }

  lemma {:induction false} PositionIs(queue: seq<nat>, t: nat, i: nat)
    requires NoDuplicates(queue) && i < |queue| && queue[i] == t
    ensures t in queue && Position(queue, t) == i
  {}

  lemma PositionAdvances(queue: seq<nat>, n: nat, t: nat)
    requires NoDuplicates(queue) && n <= |queue| && t in queue[n..]
    ensures t in queue && Position(queue[n..], t) + n == Position(queue, t)
  {
    var i := Position(queue[n..], t);
    assert queue[n..][i] == queue[n + i];
    PositionIs(queue, t, n + i);
  }

  lemma {:induction false} PositionWithout(queue: seq<nat>, other: nat, t: nat)
    requires t in queue && t != other
    ensures t in Without(queue, other) && Position(Without(queue, other), t) <= Position(queue, t)
  {
    if queue[0] == other {
      assert t in queue[1..];
    } else if queue[0] != t {
      PositionWithout(queue[1..], other, t);
    }
  }

  lemma {:induction false} PositionPushed(queue: seq<nat>, other: nat, t: nat)
    requires t in queue
    ensures t in queue + [other] && Position(queue + [other], t) == Position(queue, t)
  {
    if queue[0] != t {
      PositionPushed(queue[1..], other, t);
      assert (queue + [other])[1..] == queue[1..] + [other];
    }
  }

  /** Arrivals and departures never push a queued ticket back. */
  lemma PositionHolds(s: Sched, m: Move, t: nat, prefill: bool)
    requires Valid(s) && Allowed(s, m) && !m.Lead?
    requires var before, after := s, After(s, m);
             t in (if prefill then before.prefills else before.decodes) && t in (if prefill then after.prefills else after.decodes)
    ensures var before, after := s, After(s, m);
            && after.streak == before.streak
            && (prefill ==> Position(after.prefills, t) <= Position(before.prefills, t))
            && (!prefill ==> Position(after.decodes, t) <= Position(before.decodes, t))
  {
    match m {
      case Arrive(other, item) =>
        if item.Prefill() == prefill {
          PositionPushed(if prefill then s.prefills else s.decodes, other, t);
        }
      case GiveUp(other) =>
        ValidIsPlaced(s);
        WithoutMembers(QueueOf(s, other), other);
        hide Valid;
        if s.tickets[other].item.Prefill() == prefill {
          PositionWithout(QueueOf(s, other), other, t);
        }
      case Finish(_) =>
      case Go(_) =>
    }
  }

  /** A scan moves a ticket it leaves in the queue forward by as many places as it takes tickets. */
  lemma Advances(queue: seq<nat>, r: Scanned, t: nat)
    requires NoDuplicates(queue) && |r.live| + |r.dead| <= |queue| && r.rest == queue[|r.live| + |r.dead|..] && t in r.rest
    ensures t in queue && |r.live| + Position(r.rest, t) <= Position(queue, t)
    ensures r.live == [] && r.dead != [] ==> Position(r.rest, t) < Position(queue, t)
  {
    PositionAdvances(queue, |r.live| + |r.dead|, t);
  }

  lemma PrefillPotentialOfClaim(s: Sched, leader: nat, batches: bool, dead: Dead, t: nat)
    requires Valid(s) && CanClaim(s, leader) && t in s.prefills && t in Claim(s, leader, batches, dead).prefills
    ensures StartedBy(s, leader, batches, dead, false) + 8 * Position(Claim(s, leader, batches, dead).prefills, t) + s.streak
            <= 8 * Position(s.prefills, t) + Claim(s, leader, batches, dead).streak
    ensures s.streak <= MAXIMUM_STREAK
  {
    hide Claim, Valid, Scanning, Next, NoDuplicates, Position;
    ClaimScans(s, leader, batches, dead);
    StreakIsBounded(s);
    var r := Scanning(s, leader, batches, dead);
    if s.tickets[leader].item.Prefill() {
      Advances(s.prefills, r, t);
    }
  }

  lemma PrefillPotential(s: Sched, m: Move, t: nat)
    requires Valid(s) && Allowed(s, m) && t in s.prefills && t in After(s, m).prefills
    ensures Started(s, m, false) + 8 * Position(After(s, m).prefills, t) + s.streak
            <= 8 * Position(s.prefills, t) + After(s, m).streak
    ensures s.streak <= MAXIMUM_STREAK
  {
    if m.Lead? {
      hide Valid, Scanning, Next, NoDuplicates, Position, StartedBy, Claim;
      PrefillPotentialOfClaim(s, m.t, m.batches, m.dead, t);
    } else {
      hide Placed, Without, Position, Claim;
      PositionHolds(s, m, t, true);
    }
  }

  /** While a prefill waits with `k` others before it, at most 8(k + 1) decodes start. */
  lemma {:induction false} PrefillWaits(s: Sched, moves: seq<Move>, t: nat)
    requires Valid(s) && Legal(s, moves) && Stays(s, moves, t, true)
    ensures TotalStarted(s, moves, false) + s.streak <= 8 * (Position(s.prefills, t) + 1)
    decreases |moves|
  {
    hide Valid, After, Allowed, Started;
    StreakIsBounded(s);
    if moves != [] {
      MoveKeeps(s, moves[0]);
      PrefillPotential(s, moves[0], t);
      PrefillWaits(After(s, moves[0]), moves[1..], t);
    }
  }

  lemma StreakIsBounded(s: Sched)
    requires Valid(s)
    ensures s.streak <= MAXIMUM_STREAK
  {}

  lemma DecodePotentialOfClaim(s: Sched, leader: nat, batches: bool, dead: Dead, t: nat)
    requires Valid(s) && CanClaim(s, leader) && t in s.decodes && t in Claim(s, leader, batches, dead).decodes
    ensures 8 * StartedBy(s, leader, batches, dead, true) + Claim(s, leader, batches, dead).streak <= s.streak + StartedBy(s, leader, batches, dead, false)
    ensures StartedBy(s, leader, batches, dead, false) + Position(Claim(s, leader, batches, dead).decodes, t) <= Position(s.decodes, t)
  {
    hide Claim, Valid, Scanning, Next, NoDuplicates, Position;
    ClaimScans(s, leader, batches, dead);
    StreakIsBounded(s);
    var r := Scanning(s, leader, batches, dead);
    if !s.tickets[leader].item.Prefill() {
      Advances(s.decodes, r, t);
    }
  }

  lemma DecodePotential(s: Sched, m: Move, t: nat)
    requires Valid(s) && Allowed(s, m) && t in s.decodes && t in After(s, m).decodes
    ensures 8 * Started(s, m, true) + After(s, m).streak <= s.streak + Started(s, m, false)
    ensures Started(s, m, false) + Position(After(s, m).decodes, t) <= Position(s.decodes, t)
  {
    if m.Lead? {
      hide Valid, Scanning, Next, NoDuplicates, Position, StartedBy, Claim;
      DecodePotentialOfClaim(s, m.t, m.batches, m.dead, t);
    } else {
      hide Placed, Without, Position, Claim;
      PositionHolds(s, m, t, false);
    }
  }

  /** While a decode waits with `k` others before it, at most those start before it, and at most one
      prefill starts for every eight of them and one more: so at most one before the next decode. */
  lemma {:induction false} DecodeWaits(s: Sched, moves: seq<Move>, t: nat)
    requires Valid(s) && Legal(s, moves) && Stays(s, moves, t, false)
    ensures 8 * TotalStarted(s, moves, true) <= s.streak + TotalStarted(s, moves, false) <= 8 + TotalStarted(s, moves, false)
    ensures TotalStarted(s, moves, false) <= Position(s.decodes, t)
    decreases |moves|
  {
    hide Valid, After, Allowed, Started;
    StreakIsBounded(s);
    if moves != [] {
      MoveKeeps(s, moves[0]);
      DecodePotential(s, moves[0], t);
      DecodeWaits(After(s, moves[0]), moves[1..], t);
    }
  }
}
