/** The stage scheduler between lock acquisitions: tickets queue, are claimed in batches, and are done. */
module Scheduling {
  import opened Numbers
  import opened Results
  import opened Stage
  import opened Batch
  import opened Queues

  const MAXIMUM_BATCH: nat := 8
  const MAXIMUM_STREAK: nat := 8

  /** A caller's stack-allocated ticket: present in the table exactly while the caller is inside. */
  datatype Ticket = Ticket(item: Item, claimed: bool, done: bool, error: Option<Error>, result: Option<Output>)

  /** `dispatch` is the claimed work of the pass that is running, led by the caller of ticket `leader`. */
  datatype Sched = Sched(
    maximumDecodeBatch: nat, prefills: seq<nat>, decodes: seq<nat>, dispatch: seq<nat>, leader: Option<nat>, streak: nat,
    tickets: map<nat, Ticket>, completed: nat, decodeBatches: nat, largest: nat)

  const IDLE := Sched(1, [], [], [], None, 0, map[], 0, 0, 0)

  /** Why a queued ticket's request has ended, for each that has. */
  type Dead = map<nat, Error>

  function Configure(s: Sched, maximum: nat): Result<Sched> {
    if maximum == 0 || maximum > MAXIMUM_BATCH then Err(InvalidRequest)
    else if s.dispatch != [] || s.prefills != [] || s.decodes != [] then Err(Internal)
    else Ok(s.(maximumDecodeBatch := maximum))
  }

  /** The ticket whose caller may form the next pass. */
  function Next(s: Sched): Option<nat> {
    if s.prefills != [] && (s.decodes == [] || s.streak >= MAXIMUM_STREAK) then Some(s.prefills[0])
    else if s.decodes != [] then Some(s.decodes[0])
    else None
  }

  function Enqueue(s: Sched, t: nat, item: Item): Sched {
    var s := s.(tickets := s.tickets[t := Ticket(item, false, false, None, None)]);
    if item.Prefill() then s.(prefills := s.prefills + [t]) else s.(decodes := s.decodes + [t])
  }

  /** A caller whose request has ended leaves the queue. */
  function Abandon(s: Sched, t: nat): Sched
    requires t in s.tickets
  {
    var remaining := s.(tickets := s.tickets - {t});
    if s.tickets[t].item.Prefill() then remaining.(prefills := Without(s.prefills, t))
    else remaining.(decodes := Without(s.decodes, t))
  }

  /** Tickets from the front of a queue: the live ones up to the limit, and the dead ones passed over. */
  datatype Scanned = Scanned(live: seq<nat>, dead: seq<nat>, rest: seq<nat>)

  function Scan(queue: seq<nat>, dead: Dead, limit: nat): Scanned {
    if queue == [] || limit == 0 then Scanned([], [], queue)
    else if queue[0] in dead then
      var r := Scan(queue[1..], dead, limit);
      r.(dead := [queue[0]] + r.dead)
    else
      var r := Scan(queue[1..], dead, limit - 1);
      r.(live := [queue[0]] + r.live)
  }

  /** Claimed tickets, and claimed tickets that are done because their requests had ended. */
  function Marked(tickets: map<nat, Ticket>, scanned: Scanned, dead: Dead): map<nat, Ticket> {
    map t | t in tickets ::
      if t in scanned.live then tickets[t].(claimed := true)
      else if t in scanned.dead && t in dead then tickets[t].(claimed := true, done := true, error := Some(dead[t]))
      else tickets[t]
  }

  /** The most tickets that one pass takes. */
  function Limit(s: Sched, prefill: bool, batches: bool): nat {
    var limit := if prefill || !batches then 1 else s.maximumDecodeBatch;
    if !prefill && s.prefills != [] then Least(limit, if s.streak <= MAXIMUM_STREAK then MAXIMUM_STREAK - s.streak else 0) else limit
  }

  /** The caller of ticket `t` claims work for the next pass; if all of it has ended, none runs. */
  function Claim(s: Sched, t: nat, batches: bool, dead: Dead): Sched
    requires t in s.tickets
  {
    var prefill := s.tickets[t].item.Prefill();
    var scanned := Scan(if prefill then s.prefills else s.decodes, dead, Limit(s, prefill, batches));
    var s := s.(tickets := Marked(s.tickets, scanned, dead));
    var s := if prefill then s.(prefills := scanned.rest) else s.(decodes := scanned.rest);
    if scanned.live == [] then s
    else s.(dispatch := scanned.live, leader := Some(t),
            streak := if prefill then 0 else Least(s.streak + |scanned.live|, MAXIMUM_STREAK))
  }

  /** What the backend made of the pass: one output for each ticket, or an error for all of them. */
  function Outcome(s: Sched, outputs: Result<seq<Output>>): Result<seq<Output>> {
    if outputs.Ok? && |outputs.value| != |s.dispatch| then Err(Internal) else outputs
  }

  function Delivered(s: Sched, outcome: Result<seq<Output>>, t: nat): Ticket
    requires t in s.tickets && (outcome.Ok? ==> |outcome.value| == |s.dispatch|)
  {
    if t !in s.dispatch then s.tickets[t]
    else match outcome
         case Err(e) => s.tickets[t].(done := true, error := Some(e))
         case Ok(outputs) =>
           s.tickets[t].(done := true, error := None, result := Some(outputs[Position(s.dispatch, t)]))
  }

  function Position(queue: seq<nat>, t: nat): (i: nat)
    requires t in queue
    ensures i < |queue| && queue[i] == t && forall k :: 0 <= k < i ==> queue[k] != t
  {
    if queue[0] == t then 0 else 1 + Position(queue[1..], t)
  }

  function Complete(s: Sched, outputs: Result<seq<Output>>): Sched {
    var outcome := Outcome(s, outputs);
    var batch := |s.dispatch| > 1;
    s.(tickets := map t | t in s.tickets :: Delivered(s, outcome, t),
       completed := s.completed + |s.dispatch|,
       decodeBatches := if batch then s.decodeBatches + 1 else s.decodeBatches,
       largest := if batch && s.largest < |s.dispatch| then |s.dispatch| else s.largest,
       dispatch := [], leader := None)
  }

  /** A caller takes the answer on its ticket and goes. */
  function Leave(s: Sched, t: nat): Sched {
    s.(tickets := s.tickets - {t})
  }

  // ---------------------------------------------------------------------------- invariant

  ghost predicate NoDuplicates(queue: seq<nat>) {
    forall i, j :: 0 <= i < j < |queue| ==> queue[i] != queue[j]
  }

  predicate Waiting(s: Sched, t: nat, prefill: bool) {
    t in s.tickets && !s.tickets[t].claimed && !s.tickets[t].done && s.tickets[t].item.Prefill() == prefill
  }

  predicate Running(s: Sched, t: nat) {
    t in s.tickets && s.tickets[t].claimed && !s.tickets[t].done
  }

  /** A done ticket holds an answer or an error; any other ticket holds neither. */
  predicate Answered(t: Ticket) {
    if t.done then t.claimed && (t.error.Some? <==> t.result.None?) else t.error.None? && t.result.None?
  }

  /** Every ticket is in exactly one place: a queue of its kind while unclaimed, the running pass while
      claimed, and nowhere once done; and every ticket in those places belongs to a caller inside. */
  ghost predicate Placed(s: Sched) {
    && NoDuplicates(s.prefills) && NoDuplicates(s.decodes) && NoDuplicates(s.dispatch)
    && (forall t :: t in s.prefills <==> Waiting(s, t, true))
    && (forall t :: t in s.decodes <==> Waiting(s, t, false))
    && (forall t :: t in s.dispatch <==> Running(s, t))
    && (forall t :: t in s.tickets ==> Answered(s.tickets[t]))
  }

  /** A pass is one prefill, or decodes up to the batch limit, and its leader is still inside. */
  predicate Bounded(s: Sched) {
    && 1 <= s.maximumDecodeBatch <= MAXIMUM_BATCH && s.streak <= MAXIMUM_STREAK
    && |s.dispatch| <= s.maximumDecodeBatch
    && (forall t :: t in s.dispatch && t in s.tickets && s.tickets[t].item.Prefill() ==> s.dispatch == [t])
    && (s.leader.Some? <==> s.dispatch != [])
    && (s.leader.Some? ==> s.leader.value in s.tickets && s.tickets[s.leader.value].claimed)
  }

  ghost predicate Valid(s: Sched) {
    Placed(s) && Bounded(s)
  }

  function QueueOf(s: Sched, t: nat): seq<nat>
    requires t in s.tickets
  {
    if s.tickets[t].item.Prefill() then s.prefills else s.decodes
  }

  lemma IdleIsValid()
    ensures Valid(IDLE)
  {}

  lemma ConfigureKeeps(s: Sched, maximum: nat)
    requires Valid(s) && Configure(s, maximum).Ok?
    ensures Valid(Configure(s, maximum).value)
  {}

  lemma PushedIsDistinct(queue: seq<nat>, t: nat)
    requires NoDuplicates(queue) && t !in queue
    ensures NoDuplicates(queue + [t]) && NoDuplicates([t] + queue)
    ensures forall k :: k in queue + [t] <==> k in queue || k == t
    ensures forall k :: k in [t] + queue <==> k in queue || k == t
  {}

  lemma EnqueueKeeps(s: Sched, t: nat, item: Item)
    requires Valid(s) && t !in s.tickets
    ensures Valid(Enqueue(s, t, item))
  {
    if item.Prefill() {
      PushedIsDistinct(s.prefills, t);
    } else {
      PushedIsDistinct(s.decodes, t);
    }
    hide NoDuplicates;
  }

  lemma {:induction false} WithoutMembers(queue: seq<nat>, t: nat)
    requires NoDuplicates(queue)
    ensures NoDuplicates(Without(queue, t))
    ensures forall k :: k in Without(queue, t) <==> k in queue && k != t
  {
    if queue != [] {
      var tail := queue[1..];
      assert queue == [queue[0]] + tail && queue[0] !in tail;
      WithoutMembers(tail, t);
      if queue[0] != t {
        PushedIsDistinct(Without(tail, t), queue[0]);
      }
    }
  }

  lemma AbandonKeeps(s: Sched, t: nat)
    requires Valid(s) && t in s.tickets && !s.tickets[t].claimed
    ensures Valid(Abandon(s, t))
  {
    WithoutMembers(QueueOf(s, t), t);
    hide NoDuplicates, Without;
  }

  /** A scan takes a prefix of the queue apart, keeping the order: everything in it that is dead, and at
      most `limit` others; and it stops only at the limit or at the end. */
  ghost predicate TakesApart(queue: seq<nat>, dead: Dead, limit: nat, r: Scanned) {
    && |r.live| + |r.dead| + |r.rest| == |queue| && |r.live| <= limit
    && r.rest == queue[|r.live| + |r.dead|..]
    && NoDuplicates(r.live) && NoDuplicates(r.rest)
    && (forall t :: t in queue <==> t in r.live || t in r.dead || t in r.rest)
    && (forall t :: t in r.live ==> t !in dead && t !in r.rest)
    && (forall t :: t in r.dead ==> t in dead && t !in r.rest)
    && (r.rest == [] || |r.live| == limit)
    && (limit > 0 && queue != [] ==> queue[0] !in r.rest)
  }

  lemma {:induction false} ScanTakesApart(queue: seq<nat>, dead: Dead, limit: nat)
    requires NoDuplicates(queue)
    ensures TakesApart(queue, dead, limit, Scan(queue, dead, limit))
  {
    if queue != [] && limit > 0 {
      var first, tail := queue[0], queue[1..];
      assert queue == [first] + tail && first !in tail;
      ScanTakesApart(tail, dead, if first in dead then limit else limit - 1);
      ScanTakesFirst(first, tail, dead, limit, Scan(tail, dead, if first in dead then limit else limit - 1));
    }
  }

  lemma ScanTakesFirst(first: nat, tail: seq<nat>, dead: Dead, limit: nat, r: Scanned)
    requires limit > 0 && first !in tail && TakesApart(tail, dead, if first in dead then limit else limit - 1, r)
    ensures TakesApart([first] + tail, dead, limit, if first in dead then r.(dead := [first] + r.dead) else r.(live := [first] + r.live))
  {
    assert first !in r.live && first !in r.rest && first !in r.dead;
    PushedIsDistinct(r.live, first);
    assert ([first] + tail)[1 + |r.live| + |r.dead|..] == tail[|r.live| + |r.dead|..];
    assert forall t :: t in [first] + tail <==> t == first || t in tail;
    assert forall t :: t in [first] + r.dead <==> t == first || t in r.dead;
  }

  predicate CanClaim(s: Sched, t: nat) {
    s.dispatch == [] && t in s.tickets && !s.tickets[t].claimed && Next(s) == Some(t)
  }

  /** The leader stands at the head of its queue, and the streak leaves it at least one place. */
  lemma LimitIsPositive(s: Sched, t: nat, batches: bool)
    requires Valid(s) && CanClaim(s, t)
    ensures var prefill := s.tickets[t].item.Prefill();
            && 1 <= Limit(s, prefill, batches) <= s.maximumDecodeBatch
            && (prefill || !batches ==> Limit(s, prefill, batches) == 1)
            && (!prefill && s.prefills != [] ==> s.streak + Limit(s, prefill, batches) <= MAXIMUM_STREAK)
            && (prefill ==> s.decodes == [] || s.streak == MAXIMUM_STREAK)
            && QueueOf(s, t) != [] && QueueOf(s, t)[0] == t
  {
    hide Answered, NoDuplicates;
    assert s.prefills != [] ==> s.prefills[0] in s.prefills;
    assert s.decodes != [] ==> s.decodes[0] in s.decodes;
  }

  lemma ClaimPlaces(s: Sched, t: nat, batches: bool, dead: Dead)
    requires Valid(s) && CanClaim(s, t)
    ensures Placed(Claim(s, t, batches, dead))
  {
    var prefill := s.tickets[t].item.Prefill();
    var limit := Limit(s, prefill, batches);
    ValidIsPlaced(s);
    ScanTakesApart(QueueOf(s, t), dead, limit);
    hide Scan, Limit, Placed, TakesApart, Bounded, Next, Marked, NoDuplicates;
    ApartPlaces(s, t, dead, limit, Scan(QueueOf(s, t), dead, limit));
    var after := Claim(s, t, batches, dead);
    PlacedAnyhow(Taken(s, prefill, Scan(QueueOf(s, t), dead, limit), dead), after.leader, after.streak);
  }

  lemma PlacedAnyhow(s: Sched, leader: Option<nat>, streak: nat)
    requires Placed(s)
    ensures Placed(s.(leader := leader, streak := streak))
  {
    var after := s.(leader := leader, streak := streak);
    assert forall t, prefill :: Waiting(after, t, prefill) == Waiting(s, t, prefill);
    assert forall t :: Running(after, t) == Running(s, t);
  }

  lemma ValidIsPlaced(s: Sched)
    requires Valid(s)
    ensures Placed(s) && NoDuplicates(s.prefills) && NoDuplicates(s.decodes)
  {}

  /** The tables and queues after the claimed tickets are marked. */
  function Taken(s: Sched, prefill: bool, scanned: Scanned, dead: Dead): Sched {
    s.(tickets := Marked(s.tickets, scanned, dead), prefills := if prefill then scanned.rest else s.prefills,
       decodes := if prefill then s.decodes else scanned.rest, dispatch := scanned.live)
  }

  lemma ApartDistinct(queue: seq<nat>, dead: Dead, limit: nat, r: Scanned)
    requires TakesApart(queue, dead, limit, r)
    ensures NoDuplicates(r.live) && NoDuplicates(r.rest)
    ensures forall t :: t in r.dead ==> t in dead
    ensures forall t :: t in r.live ==> t !in dead
  {}

  lemma ApartMember(queue: seq<nat>, dead: Dead, limit: nat, r: Scanned, t: nat)
    requires TakesApart(queue, dead, limit, r)
    ensures t in queue <==> t in r.live || t in r.dead || t in r.rest
    ensures t in r.live ==> t !in dead && t !in r.rest && t !in r.dead
    ensures t in r.dead ==> t in dead && t !in r.rest
  {}

  lemma ApartPlaces(s: Sched, t: nat, dead: Dead, limit: nat, r: Scanned)
    requires Placed(s) && s.dispatch == [] && t in s.tickets && TakesApart(QueueOf(s, t), dead, limit, r)
    ensures Placed(Taken(s, s.tickets[t].item.Prefill(), r, dead))
  {
    hide NoDuplicates, TakesApart;
    var prefill := s.tickets[t].item.Prefill();
    var after := Taken(s, prefill, r, dead);
    ApartDistinct(QueueOf(s, t), dead, limit, r);
    forall k
      ensures k in after.dispatch <==> Running(after, k)
      ensures k in after.prefills <==> Waiting(after, k, true)
      ensures k in after.decodes <==> Waiting(after, k, false)
      ensures k in after.tickets ==> Answered(after.tickets[k])
    {
      ApartMember(QueueOf(s, t), dead, limit, r, k);
      assert k in s.tickets ==> Answered(s.tickets[k]);
      assert !Running(s, k) && (k in QueueOf(s, t) <==> Waiting(s, k, prefill));
      assert k in (if prefill then s.decodes else s.prefills) <==> Waiting(s, k, !prefill);
    }
  }

  lemma ClaimBounds(s: Sched, t: nat, batches: bool, dead: Dead)
    requires Valid(s) && CanClaim(s, t)
    ensures Bounded(Claim(s, t, batches, dead))
  {
    var prefill := s.tickets[t].item.Prefill();
    var limit := Limit(s, prefill, batches);
    LimitIsPositive(s, t, batches);
    ScanTakesApart(QueueOf(s, t), dead, limit);
    hide Scan, Limit, NoDuplicates, Next, Answered, TakesApart;
    var r := Scan(QueueOf(s, t), dead, limit);
    ApartFits(QueueOf(s, t), dead, limit, r);
    forall k | k in r.live
      ensures k in s.tickets && s.tickets[k].item.Prefill() == prefill
    {
      assert Waiting(s, k, prefill);
    }
  }

  lemma ApartFits(queue: seq<nat>, dead: Dead, limit: nat, r: Scanned)
    requires TakesApart(queue, dead, limit, r)
    ensures |r.live| <= limit && forall k :: k in r.live ==> k in queue
  {}

  lemma ClaimKeeps(s: Sched, t: nat, batches: bool, dead: Dead)
    requires Valid(s) && CanClaim(s, t)
    ensures Valid(Claim(s, t, batches, dead))
  {
    ClaimPlaces(s, t, batches, dead);
    ClaimBounds(s, t, batches, dead);
  }

  // ---------------------------------------------------------------------------- what a claim takes

  /** The tickets whose requests have not ended, in order. */
  function Survivors(queue: seq<nat>, dead: Dead): seq<nat> {
    if queue == [] then []
    else Survivors(queue[..|queue| - 1], dead) + if queue[|queue| - 1] in dead then [] else [queue[|queue| - 1]]
  }

  lemma {:induction false} SurvivorsAfter(first: nat, queue: seq<nat>, dead: Dead)
    ensures Survivors([first] + queue, dead) == (if first in dead then [] else [first]) + Survivors(queue, dead)
    decreases |queue|
  {
    if queue == [] {
      assert ([first] + queue)[..0] == [];
    } else {
      var before := queue[..|queue| - 1];
      assert ([first] + queue)[..|queue|] == [first] + before;
      SurvivorsAfter(first, before, dead);
    }
  }

  /** The first `n` tickets of the queue leave it: all survivors among them, at most `most`; and they are as many as
      possible, ending with a survivor unless the queue does. */
  ghost predicate TakesFront(queue: seq<nat>, dead: Dead, most: nat, n: nat) {
    && n <= |queue|
    && var members := Survivors(queue[..n], dead);
       && |members| <= most && (n == |queue| || |members| == most)
       && (|members| == most > 0 ==> n > 0 && queue[n - 1] !in dead)
  }

  lemma {:induction false} ScanTakesFront(queue: seq<nat>, dead: Dead, limit: nat) returns (n: nat)
    ensures TakesFront(queue, dead, limit, n)
    ensures var r := Scan(queue, dead, limit);
            r.live == Survivors(queue[..n], dead) && r.rest == queue[n..] && forall t :: t in r.dead <==> t in queue[..n] && t in dead
    decreases |queue|
  {
    if queue == [] || limit == 0 {
      n := 0;
    } else {
      var first, tail := queue[0], queue[1..];
      var m := ScanTakesFront(tail, dead, if first in dead then limit else limit - 1);
      n := m + 1;
      assert queue[..n] == [first] + tail[..m] && queue[n..] == tail[m..];
      SurvivorsAfter(first, tail[..m], dead);
    }
  }

  /** The most tickets one pass may take: one for prefill; for decodes the batch, if the backend can batch at all, and
      while a prefill waits no more than the streak has left. */
  function MostTaken(s: Sched, prefill: bool, batches: bool): int {
    if prefill || !batches then 1
    else if s.prefills == [] || s.maximumDecodeBatch <= 8 - s.streak then s.maximumDecodeBatch
    else 8 - s.streak
  }

  /** What a claim does: it takes the front of its queue, as much as one pass may, in order; the requests that have
      ended get their errors and the others run, if there are any. */
  ghost predicate ClaimsFront(s: Sched, t: nat, batches: bool, dead: Dead, n: nat, after: Sched)
    requires t in s.tickets
  {
    var prefill, queue := s.tickets[t].item.Prefill(), QueueOf(s, t);
    var most := MostTaken(s, prefill, batches);
    && most >= 0 && TakesFront(queue, dead, most, n)
    && var members := Survivors(queue[..n], dead);
       && after.prefills == (if prefill then queue[n..] else s.prefills)
       && after.decodes == (if prefill then s.decodes else queue[n..])
       && (if members == [] then after.dispatch == s.dispatch && after.leader == s.leader && after.streak == s.streak
           else after.dispatch == members && after.leader == Some(t)
                && after.streak == if prefill then 0 else if s.streak + |members| < 8 then s.streak + |members| else 8)
       && after.tickets.Keys == s.tickets.Keys
       && forall k :: k in s.tickets ==>
            after.tickets[k] == if k in members then s.tickets[k].(claimed := true)
                                else if k in queue[..n] && k in dead then s.tickets[k].(claimed := true, done := true, error := Some(dead[k]))
                                else s.tickets[k]
  }

  lemma ClaimIsFront(s: Sched, t: nat, batches: bool, dead: Dead) returns (n: nat)
    requires Valid(s) && CanClaim(s, t)
    ensures ClaimsFront(s, t, batches, dead, n, Claim(s, t, batches, dead))
  {
    hide Scan, MostTaken, TakesFront, Valid, Next, Survivors, Claim, Marked, ClaimsFront, Limit;
    var prefill := s.tickets[t].item.Prefill();
    LimitIsMost(s, t, batches);
    n := ScanTakesFront(QueueOf(s, t), dead, Limit(s, prefill, batches));
    FrontIsClaimed(s, t, batches, dead, Limit(s, prefill, batches), n);
  }

  lemma FrontIsClaimed(s: Sched, t: nat, batches: bool, dead: Dead, limit: nat, n: nat)
    requires t in s.tickets && limit == Limit(s, s.tickets[t].item.Prefill(), batches) == MostTaken(s, s.tickets[t].item.Prefill(), batches)
    requires TakesFront(QueueOf(s, t), dead, limit, n)
    requires var r, queue := Scan(QueueOf(s, t), dead, limit), QueueOf(s, t);
             r.live == Survivors(queue[..n], dead) && r.rest == queue[n..] && forall k :: k in r.dead <==> k in queue[..n] && k in dead
    ensures ClaimsFront(s, t, batches, dead, n, Claim(s, t, batches, dead))
  {
    hide Scan, MostTaken, TakesFront, Survivors, Limit;
  }

  lemma LimitIsMost(s: Sched, t: nat, batches: bool)
    requires Valid(s) && CanClaim(s, t)
    ensures Limit(s, s.tickets[t].item.Prefill(), batches) == MostTaken(s, s.tickets[t].item.Prefill(), batches)
  {
    LimitIsPositive(s, t, batches);
    StreakBounded(s);
    hide Valid, CanClaim;
  }

  lemma StreakBounded(s: Sched)
    requires Valid(s)
    ensures s.streak <= 8
  {}

  lemma CompleteKeeps(s: Sched, outputs: Result<seq<Output>>)
    requires Valid(s)
    ensures Valid(Complete(s, outputs))
  {}

  lemma LeaveKeeps(s: Sched, t: nat)
    requires Valid(s) && t in s.tickets && s.tickets[t].done && s.leader != Some(t)
    ensures Valid(Leave(s, t))
  {}
}
