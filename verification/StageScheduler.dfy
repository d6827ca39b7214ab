/** The stage scheduler's own code: each critical section as a method on the protected fields. */
module StageScheduler {
  import opened Numbers
  import opened Results
  import opened Stage
  import opened Batch
  import opened Queues
  import opened Scheduling

  lemma MarkedNext(before: map<nat, Ticket>, members: seq<nat>, passed: seq<nat>, dead: Dead, member: nat)
    requires member in before && member !in members && member !in passed
    ensures var ticket, marked := before[member].(claimed := true), Marked(before, Scanned(members, passed, []), dead);
            && marked.Keys == before.Keys && marked[member] == before[member]
            && if member in dead
               then marked[member := ticket.(done := true, error := Some(dead[member]))]
                    == Marked(before, Scanned(members, passed + [member], []), dead)
               else marked[member := ticket] == Marked(before, Scanned(members + [member], passed, []), dead)
  {}

  lemma MarkedIgnoresRest(tickets: map<nat, Ticket>, r: Scanned, dead: Dead)
    ensures Marked(tickets, r, dead) == Marked(tickets, r.(rest := []), dead)
  {}

  /** What is left to do when the scan has come as far as `members`, `passed` and `queue`. */
  predicate Scanning(line: seq<nat>, dead: Dead, limit: nat, members: seq<nat>, passed: seq<nat>, queue: seq<nat>) {
    && |members| <= limit
    && Scan(line, dead, limit) == var r := Scan(queue, dead, limit - |members|); Scanned(members + r.live, passed + r.dead, r.rest)
  }

  lemma ScanningNext(line: seq<nat>, dead: Dead, limit: nat, members: seq<nat>, passed: seq<nat>, queue: seq<nat>)
    requires Scanning(line, dead, limit, members, passed, queue) && queue != [] && |members| < limit
    ensures if queue[0] in dead then Scanning(line, dead, limit, members, passed + [queue[0]], queue[1..])
            else Scanning(line, dead, limit, members + [queue[0]], passed, queue[1..])
  {
    var first := queue[0];
    if first in dead {
      var r := Scan(queue[1..], dead, limit - |members|);
      assert passed + ([first] + r.dead) == (passed + [first]) + r.dead;
    } else {
      var r := Scan(queue[1..], dead, limit - |members| - 1);
      assert members + ([first] + r.live) == (members + [first]) + r.live;
    }
  }

  lemma ScanningStarts(line: seq<nat>, dead: Dead, limit: nat)
    ensures Scanning(line, dead, limit, [], [], line)
  {}

  lemma ScanningEnds(line: seq<nat>, dead: Dead, limit: nat, members: seq<nat>, passed: seq<nat>, queue: seq<nat>)
    requires Scanning(line, dead, limit, members, passed, queue) && (queue == [] || |members| == limit)
    ensures Scan(line, dead, limit) == Scanned(members, passed, queue)
  {
    assert Scan(queue, dead, limit - |members|) == Scanned([], [], queue);
  }

  /** Each ticket still queued is known, and none has been taken yet. */
  ghost predicate Untaken(queue: seq<nat>, table: map<nat, Ticket>, members: seq<nat>, passed: seq<nat>) {
    NoDuplicates(queue) && forall k :: k in queue ==> k in table && k !in members && k !in passed
  }

  lemma UntakenNext(queue: seq<nat>, table: map<nat, Ticket>, members: seq<nat>, passed: seq<nat>)
    requires Untaken(queue, table, members, passed) && queue != []
    ensures queue[0] in table && queue[0] !in members && queue[0] !in passed
    ensures Untaken(queue[1..], table, members + [queue[0]], passed) && Untaken(queue[1..], table, members, passed + [queue[0]])
  {}

  /** Pops tickets off the front until the limit is reached, marking each, and passing over the dead. */
  method Take(line: seq<nat>, table: map<nat, Ticket>, dead: Dead, limit: nat)
    returns (members: seq<nat>, rest: seq<nat>, tickets: map<nat, Ticket>)
    requires NoDuplicates(line) && forall k :: k in line ==> k in table
    ensures var r := Scan(line, dead, limit);
            members == r.live && rest == r.rest && tickets == Marked(table, r, dead)
  {
    hide Marked, Scan, Scanning, Untaken, NoDuplicates;
    var queue := line;
    ghost var passed: seq<nat> := [];
    members, tickets := [], table;
    NothingMarked(table, dead);
    ScanningStarts(line, dead, limit);
    NoneTaken(line, table);
    while queue != [] && |members| < limit
      invariant |members| <= limit && tickets.Keys == table.Keys && tickets == Marked(table, Scanned(members, passed, []), dead)
      invariant Untaken(queue, table, members, passed) && Scanning(line, dead, limit, members, passed, queue)
      decreases |queue|
    {
      var member := queue[0];
      UntakenNext(queue, table, members, passed);
      ScanningNext(line, dead, limit, members, passed, queue);
      MarkedNext(table, members, passed, dead, member);
      var ticket := tickets[member].(claimed := true);
      queue := queue[1..];
      if member in dead {
        tickets := tickets[member := ticket.(done := true, error := Some(dead[member]))];
        passed := passed + [member];
      } else {
        tickets := tickets[member := ticket];
        members := members + [member];
      }
    }
    rest := queue;
    ScanningEnds(line, dead, limit, members, passed, queue);
    MarkedIgnoresRest(table, Scan(line, dead, limit), dead);
  }

  lemma NoneTaken(queue: seq<nat>, table: map<nat, Ticket>)
    requires NoDuplicates(queue) && forall k :: k in queue ==> k in table
    ensures Untaken(queue, table, [], [])
  {}

  lemma NothingMarked(table: map<nat, Ticket>, dead: Dead)
    ensures Marked(table, Scanned([], [], []), dead) == table
  {}

  /** Gives each member of the pass its own output, or the error of the pass. */
  method Deliver(table: map<nat, Ticket>, members: seq<nat>, outcome: Result<seq<Output>>, ghost s: Sched)
    returns (tickets: map<nat, Ticket>)
    requires s.tickets == table && s.dispatch == members && NoDuplicates(members) && forall k :: k in members ==> k in table
    requires outcome.Ok? ==> |outcome.value| == |members|
    ensures tickets == map t | t in table :: Delivered(s, outcome, t)
  {
    tickets := table;
    for i := 0 to |members|
      invariant tickets.Keys == table.Keys
      invariant forall t :: t in tickets ==> tickets[t] == if t in members[..i] then Delivered(s, outcome, t) else table[t]
    {
      var member := members[i];
      assert members[..i + 1] == members[..i] + [member];
      assert Position(members, member) == i;
      match outcome
      case Err(e) =>
        tickets := tickets[member := tickets[member].(done := true, error := Some(e))];
      case Ok(results) =>
        tickets := tickets[member := tickets[member].(done := true, error := None, result := Some(results[i]))];
    }
    assert members[..|members|] == members;
  }

  class Scheduler {
    var maximumDecodeBatch: nat
    var prefills: seq<nat>
    var decodes: seq<nat>
    var executing: nat
    var streak: nat
    var tickets: map<nat, Ticket>
    var completed: nat
    var decodeBatches: nat
    var largest: nat
    /** The running pass, which its leader keeps on its own stack. */
    ghost var dispatch: seq<nat>
    ghost var leader: Option<nat>

    ghost function View(): Sched
      reads this
    {
      Sched(maximumDecodeBatch, prefills, decodes, dispatch, leader, streak, tickets, completed, decodeBatches, largest)
    }

    ghost predicate Valid()
      reads this
    {
      Scheduling.Valid(View()) && executing == |dispatch|
    }

    constructor ()
      ensures Valid() && View() == IDLE
    {
      maximumDecodeBatch, prefills, decodes, executing, streak := 1, [], [], 0, 0;
      tickets, completed, decodeBatches, largest := map[], 0, 0, 0;
      dispatch, leader := [], None;
      new;
      IdleIsValid();
    }

    method Configure(maximum: nat) returns (error: Option<Error>)
      requires Valid()
      modifies this
      ensures Valid()
      ensures match Scheduling.Configure(old(View()), maximum)
              case Ok(after) => error == None && View() == after
              case Err(e) => error == Some(e) && View() == old(View())
      ensures error == if !(1 <= maximum <= 8) then Some(InvalidRequest)
                       else if old(dispatch) != [] || old(prefills) != [] || old(decodes) != [] then Some(Internal) else None
      ensures error == None ==> View() == old(View()).(maximumDecodeBatch := maximum)
    {
      if maximum == 0 || maximum > MAXIMUM_BATCH {
        return Some(InvalidRequest);
      }
      if executing > 0 || prefills != [] || decodes != [] {
        return Some(Internal);
      }
      ConfigureKeeps(View(), maximum);
      maximumDecodeBatch := maximum;
      error := None;
    }

    /** The next pass's ticket, if anything waits: a prefill when no decode waits or the streak is full, and
        otherwise the decode that has waited longest. */
    method Next() returns (t: Option<nat>)
      requires Valid()
      ensures t == Scheduling.Next(View())
      ensures t == None <==> forall k :: k in tickets ==> tickets[k].claimed
      ensures t.Some? ==> t.value in tickets && !tickets[t.value].claimed
      ensures t.Some? ==> (tickets[t.value].item.Prefill() <==> prefills != [] && (decodes == [] || streak == MAXIMUM_STREAK))
      ensures t.Some? ==> t.value == if tickets[t.value].item.Prefill() then prefills[0] else decodes[0]
    {
      NextServes(View());
      if prefills != [] && (decodes == [] || streak >= MAXIMUM_STREAK) {
        return Some(prefills[0]);
      }
      if decodes != [] {
        return Some(decodes[0]);
      }
      t := None;
    }

    method Enter(t: nat, item: Item)
      requires Valid() && t !in tickets
      modifies this
      ensures Valid() && View() == Enqueue(old(View()), t, item)
      ensures prefills == old(prefills) + (if item.position == 0 || item.prefilling then [t] else [])
      ensures decodes == old(decodes) + (if item.position == 0 || item.prefilling then [] else [t])
    {
      EnqueueKeeps(View(), t, item);
      tickets := tickets[t := Ticket(item, false, false, None, None)];
      if item.Prefill() {
        prefills := prefills + [t];
      } else {
        decodes := decodes + [t];
      }
    }

    method GiveUp(t: nat)
      requires Valid() && t in tickets && !tickets[t].claimed
      modifies this
      ensures Valid() && View() == Abandon(old(View()), t)
    {
      AbandonKeeps(View(), t);
      assert Waiting(View(), t, tickets[t].item.Prefill());
      if tickets[t].item.Prefill() {
        prefills := Erase(prefills, t);
      } else {
        decodes := Erase(decodes, t);
      }
      tickets := tickets - {t};
    }

    /** The places of the next pass. */
    method Room(prefill: bool, batches: bool) returns (limit: nat)
      ensures limit == Limit(View(), prefill, batches)
    {
      limit := if prefill || !batches then 1 else maximumDecodeBatch;
      if !prefill && prefills != [] {
        limit := Least(limit, if streak <= MAXIMUM_STREAK then MAXIMUM_STREAK - streak else 0);
      }
    }

    /** Claims work for one pass without allocating: callers cannot abandon claimed work. */
    method Lead(t: nat, batches: bool, dead: Dead) returns (members: seq<nat>)
      requires Valid() && CanClaim(View(), t)
      modifies this
      ensures Valid() && View() == Claim(old(View()), t, batches, dead)
      ensures members == dispatch && exists n :: ClaimsFront(old(View()), t, batches, dead, n, View())
    {
      hide Scheduling.Valid, Scan, Marked, NoDuplicates, Claim, ClaimsFront, Limit;
      ghost var n := ClaimIsFront(View(), t, batches, dead);
      ClaimKeeps(View(), t, batches, dead);
      ClaimIs(View(), t, batches, dead);
      Claimable(View(), t);
      hide CanClaim, Scheduling.Next;
      var prefill := tickets[t].item.Prefill();
      var queue := if prefill then prefills else decodes;
      var limit := Room(prefill, batches);
      QueuedHaveTickets(View(), t);
      members, queue, tickets := Take(queue, tickets, dead, limit);
      if prefill {
        prefills := queue;
      } else {
        decodes := queue;
      }
      if members != [] {
        executing, dispatch, leader := |members|, members, Some(t);
        streak := if prefill then 0 else Least(streak + |members|, MAXIMUM_STREAK);
      }
    }

    /** Delivers what the backend made of the pass. */
    method Finish(members: seq<nat>, outputs: Result<seq<Output>>)
      requires Valid() && members == dispatch != []
      modifies this
      ensures Valid() && View() == Complete(old(View()), outputs)
      ensures completed == old(completed) + |members|
      ensures decodeBatches == old(decodeBatches) + (if |members| >= 2 then 1 else 0)
      ensures largest == if |members| >= 2 && |members| > old(largest) then |members| else old(largest)
    {
      hide Scheduling.Valid;
      CompleteKeeps(View(), outputs);
      MembersHaveTickets(View());
      var outcome: Result<seq<Output>> := if outputs.Ok? && |outputs.value| != |members| then Err(Internal) else outputs;
      tickets := Deliver(tickets, members, outcome, View());
      completed := completed + |members|;
      if |members| > 1 {
        decodeBatches := decodeBatches + 1;
        largest := if largest < |members| then |members| else largest;
      }
      executing, dispatch, leader := 0, [], None;
    }

    /** The answer its caller takes away. */
    method Go(t: nat) returns (r: Result<Output>)
      requires Valid() && t in tickets && tickets[t].done && leader != Some(t)
      modifies this
      ensures Valid() && View() == Leave(old(View()), t)
      ensures r == match old(tickets[t]).error
                   case Some(e) => Err(e)
                   case None => Ok(old(tickets[t]).result.value)
    {
      LeaveKeeps(View(), t);
      AnsweredTicket(View(), t);
      r := match tickets[t].error case Some(e) => Err(e) case None => Ok(tickets[t].result.value);
      tickets := tickets - {t};
    }
  }

  lemma Claimable(s: Sched, t: nat)
    requires CanClaim(s, t)
    ensures t in s.tickets && s.dispatch == []
  {}

  /** The fields after a claim. */
  lemma ClaimIs(s: Sched, t: nat, batches: bool, dead: Dead)
    requires t in s.tickets
    ensures var prefill := s.tickets[t].item.Prefill();
            var r := Scan(QueueOf(s, t), dead, Limit(s, prefill, batches));
            Claim(s, t, batches, dead) ==
              s.(tickets := Marked(s.tickets, r, dead),
                 prefills := if prefill then r.rest else s.prefills,
                 decodes := if prefill then s.decodes else r.rest,
                 dispatch := if r.live == [] then s.dispatch else r.live,
                 leader := if r.live == [] then s.leader else Some(t),
                 streak := if r.live == [] then s.streak else if prefill then 0 else Least(s.streak + |r.live|, MAXIMUM_STREAK))
  {
    hide Scan, Marked, Limit;
  }

  lemma NextServes(s: Sched)
    requires Scheduling.Valid(s)
    ensures s.prefills == [] == s.decodes <==> forall k :: k in s.tickets ==> s.tickets[k].claimed
    ensures s.prefills != [] ==> Waiting(s, s.prefills[0], true)
    ensures s.decodes != [] ==> Waiting(s, s.decodes[0], false)
    ensures s.streak <= MAXIMUM_STREAK
  {
    hide NoDuplicates;
    assert s.prefills != [] ==> s.prefills[0] in s.prefills;
    assert s.decodes != [] ==> s.decodes[0] in s.decodes;
    forall k | k in s.tickets && !s.tickets[k].claimed
      ensures k in s.prefills || k in s.decodes
    {
      assert Answered(s.tickets[k]);
      assert Waiting(s, k, s.tickets[k].item.Prefill());
    }
  }

  lemma QueuedHaveTickets(s: Sched, t: nat)
    requires Scheduling.Valid(s) && t in s.tickets
    ensures NoDuplicates(QueueOf(s, t)) && forall k :: k in QueueOf(s, t) ==> k in s.tickets && s.tickets[k].error.None?
  {
    forall k | k in QueueOf(s, t)
      ensures k in s.tickets && s.tickets[k].error.None?
    {
      assert Waiting(s, k, s.tickets[t].item.Prefill());
    }
  }

  lemma MembersHaveTickets(s: Sched)
    requires Scheduling.Valid(s)
    ensures NoDuplicates(s.dispatch) && forall k :: k in s.dispatch ==> k in s.tickets
  {}

  lemma AnsweredTicket(s: Sched, t: nat)
    requires Scheduling.Valid(s) && t in s.tickets && s.tickets[t].done
    ensures s.tickets[t].error.Some? <==> s.tickets[t].result.None?
  {}
}
