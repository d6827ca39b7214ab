/** The HTTP server's admission queue, between await points. */
module HttpAdmission {
  import opened Results
  import opened Queues

  /** Tickets are numbered as they arrive. `owners` hold a slot each; `granted` lists who ever got one. */
  datatype Queue = Queue(active: nat, waiters: seq<nat>, arrivals: nat, owners: set<nat>, granted: seq<nat>)

  datatype Limits = Limits(maximum: nat, queued: nat)

  const EMPTY := Queue(0, [], 0, {}, [])

  /** What a request can do without awaiting: join the queue, look whether it is its turn, leave the
      queue, or release its slot, which it may try again. */
  datatype Move = Join(expired: bool) | Look(t: nat, expired: bool) | Quit(t: nat) | Release(t: nat)

  /** The test at the head of the waiting loop, and the deadline tests after it. */
  function Looked(l: Limits, q: Queue, t: nat, expired: bool): Queue {
    if expired then q.(waiters := Without(q.waiters, t))
    else if q.waiters != [] && q.waiters[0] == t && q.active < l.maximum then
      q.(active := q.active + 1, waiters := Without(q.waiters, t), owners := q.owners + {t}, granted := q.granted + [t])
    else q
  }

  function After(l: Limits, q: Queue, m: Move): Queue {
    match m
    case Join(expired) =>
      if q.active + |q.waiters| >= l.maximum + l.queued then q
      else Looked(l, q.(waiters := q.waiters + [q.arrivals], arrivals := q.arrivals + 1), q.arrivals, expired)
    case Look(t, expired) => if t in q.waiters then Looked(l, q, t, expired) else q
    case Quit(t) => if t in q.waiters then q.(waiters := Without(q.waiters, t)) else q
    case Release(t) =>
      // The flag that says whether the slot is still owned makes a second release do nothing.
      if t in q.owners && q.active > 0 then q.(active := q.active - 1, owners := q.owners - {t}) else q
  }

  function Run(l: Limits, q: Queue, moves: seq<Move>): Queue
    decreases |moves|
  {
    if moves == [] then q else After(l, Run(l, q, moves[..|moves| - 1]), moves[|moves| - 1])
  }

  ghost predicate Increasing(s: seq<nat>) {
    forall i, j :: 0 <= i < j < |s| ==> s[i] < s[j]
  }

  ghost predicate Valid(l: Limits, q: Queue) {
    && q.active == |q.owners| <= l.maximum
    && q.active + |q.waiters| <= l.maximum + l.queued
    && Increasing(q.waiters) && Increasing(q.granted)
    && (forall t :: t in q.waiters ==> t < q.arrivals)
    && (forall t :: t in q.granted ==> t < q.arrivals && forall w :: w in q.waiters ==> t < w)
    && forall t :: t in q.owners ==> t in q.granted
  }

  lemma {:induction false} WithoutKeeps(s: seq<nat>, t: nat)
    requires Increasing(s)
    ensures Increasing(Without(s, t)) && |Without(s, t)| == (if t in s then |s| - 1 else |s|)
    ensures forall w :: w in Without(s, t) <==> w in s && w != t
  {
    if s != [] {
      var tail := s[1..];
      assert s == [s[0]] + tail;
      WithoutKeeps(tail, t);
      assert forall w :: w in tail ==> s[0] < w;
      if s[0] != t {
        Front(s[0], Without(tail, t));
      }
    }
  }

  lemma Front(x: nat, s: seq<nat>)
    requires Increasing(s) && forall w :: w in s ==> x < w
    ensures Increasing([x] + s)
    ensures forall w :: w in [x] + s <==> w == x || w in s
  {
    assert forall i :: 0 <= i < |s| ==> s[i] in s;
  }

  lemma Back(s: seq<nat>, x: nat)
    requires Increasing(s) && forall w :: w in s ==> w < x
    ensures Increasing(s + [x])
    ensures forall w :: w in s + [x] <==> w == x || w in s
  {
    assert forall i :: 0 <= i < |s| ==> s[i] in s;
  }

  lemma LookedKeeps(l: Limits, q: Queue, t: nat, expired: bool)
    requires Valid(l, q) && t in q.waiters
    ensures Valid(l, Looked(l, q, t, expired))
  {
    WithoutKeeps(q.waiters, t);
    if !expired && q.waiters[0] == t && q.active < l.maximum {
      Back(q.granted, t);
      hide Without, Increasing;
      assert t !in q.owners;
      FrontIsLeast(q.waiters);
    }
  }

  lemma FrontIsLeast(s: seq<nat>)
    requires Increasing(s) && s != []
    ensures forall w :: w in s ==> s[0] <= w
  {}

  lemma MoveKeeps(l: Limits, q: Queue, m: Move)
    requires Valid(l, q)
    ensures Valid(l, After(l, q, m))
  {
    hide Valid, Looked;
    match m {
      case Join(expired) =>
        if q.active + |q.waiters| < l.maximum + l.queued {
          JoinKeeps(l, q);
          LookedKeeps(l, q.(waiters := q.waiters + [q.arrivals], arrivals := q.arrivals + 1), q.arrivals, expired);
        }
      case Look(t, expired) =>
        if t in q.waiters {
          LookedKeeps(l, q, t, expired);
        }
      case Quit(t) => QuitKeeps(l, q, t);
      case Release(t) =>
        if t in q.owners && q.active > 0 {
          ReleaseKeeps(l, q, t);
        }
    }
  }

  lemma JoinKeeps(l: Limits, q: Queue)
    requires Valid(l, q) && q.active + |q.waiters| < l.maximum + l.queued
    ensures Valid(l, q.(waiters := q.waiters + [q.arrivals], arrivals := q.arrivals + 1))
  {
    Back(q.waiters, q.arrivals);
    hide Increasing;
  }

  lemma QuitKeeps(l: Limits, q: Queue, t: nat)
    requires Valid(l, q)
    ensures Valid(l, q.(waiters := Without(q.waiters, t)))
  {
    WithoutKeeps(q.waiters, t);
    hide Increasing, Without;
  }

  lemma ReleaseKeeps(l: Limits, q: Queue, t: nat)
    requires Valid(l, q) && t in q.owners && q.active > 0
    ensures Valid(l, q.(active := q.active - 1, owners := q.owners - {t}))
  {
    hide Increasing;
  }

  /** In every interleaving: no more slots are out than allowed, and as many as are counted; no more
      requests wait than allowed; and slots go out in the order of arrival. */
  lemma {:induction false} RunKeeps(l: Limits, moves: seq<Move>)
    ensures Valid(l, Run(l, EMPTY, moves))
    decreases |moves|
  {
    if moves != [] {
      RunKeeps(l, moves[..|moves| - 1]);
      MoveKeeps(l, Run(l, EMPTY, moves[..|moves| - 1]), moves[|moves| - 1]);
    }
  }

  /** What one move does to a ticket that has been granted a slot: only its own release takes the slot back,
      and it never gets another. */
  lemma GrantedMove(l: Limits, q: Queue, m: Move, t: nat)
    requires Valid(l, q)
    ensures t in q.granted ==> t in After(l, q, m).granted
    ensures t in q.granted ==> (t in After(l, q, m).owners <==> t in q.owners && m != Release(t))
    ensures t !in q.granted && t in After(l, q, m).granted ==> t in After(l, q, m).owners && m != Release(t)
  {
    hide Increasing, Without;
    assert t in q.granted ==> t !in q.waiters;
    assert t in q.owners ==> q.active > 0;
  }

  /** Move `i` of the run releases the slot that ticket `t` was granted before. */
  predicate ReleasedAt(l: Limits, moves: seq<Move>, t: nat, i: nat) {
    i < |moves| && moves[i] == Release(t) && t in Run(l, EMPTY, moves[..i]).granted
  }

  ghost predicate Released(l: Limits, moves: seq<Move>, t: nat) {
    exists i: nat :: ReleasedAt(l, moves, t, i)
  }

  lemma ReleasedNext(l: Limits, moves: seq<Move>, t: nat)
    requires moves != []
    ensures var before := moves[..|moves| - 1];
            Released(l, moves, t) <==>
              Released(l, before, t) || (moves[|moves| - 1] == Release(t) && t in Run(l, EMPTY, before).granted)
  {
    hide Run;
    var before, n := moves[..|moves| - 1], |moves| - 1;
    forall i: nat | i < n
      ensures ReleasedAt(l, moves, t, i) <==> ReleasedAt(l, before, t, i)
    {
      assert moves[..i] == before[..i];
    }
    assert ReleasedAt(l, moves, t, n) <==> moves[n] == Release(t) && t in Run(l, EMPTY, before).granted;
    if Released(l, before, t) {
      var i: nat :| ReleasedAt(l, before, t, i);
      assert ReleasedAt(l, moves, t, i);
    }
  }

  /** Over every run, a ticket that was granted a slot still holds it exactly if it has not released it. */
  lemma {:induction false} HeldUntilReleased(l: Limits, moves: seq<Move>, t: nat)
    ensures t in Run(l, EMPTY, moves).granted ==> (t in Run(l, EMPTY, moves).owners <==> !Released(l, moves, t))
    ensures t !in Run(l, EMPTY, moves).granted ==> !Released(l, moves, t)
    decreases |moves|
  {
    if moves != [] {
      hide After, Valid, Released;
      var before := moves[..|moves| - 1];
      RunKeeps(l, before);
      GrantedMove(l, Run(l, EMPTY, before), moves[|moves| - 1], t);
      ReleasedNext(l, moves, t);
      HeldUntilReleased(l, before, t);
    }
  }

  /** No slot leaks: once every request that was granted one has released it, none is in use. */
  lemma NoSlotLeaks(l: Limits, moves: seq<Move>)
    requires forall t :: t in Run(l, EMPTY, moves).granted ==> Released(l, moves, t)
    ensures Run(l, EMPTY, moves).active == 0
  {
    hide Run, Released;
    var q := Run(l, EMPTY, moves);
    RunKeeps(l, moves);
    forall t | t in q.owners
      ensures false
    {
      HeldUntilReleased(l, moves, t);
    }
    assert q.owners == {};
  }

  /** A ticket that is passed over has given up: whoever gets a slot arrived before all who still wait,
      and after all who got one earlier. */
  lemma ArrivalOrder(l: Limits, moves: seq<Move>, i: nat, j: nat)
    requires i < j < |Run(l, EMPTY, moves).granted|
    ensures Run(l, EMPTY, moves).granted[i] < Run(l, EMPTY, moves).granted[j]
    ensures forall w :: w in Run(l, EMPTY, moves).waiters ==> Run(l, EMPTY, moves).granted[j] < w
  {
    RunKeeps(l, moves);
    var q := Run(l, EMPTY, moves);
    assert q.granted[j] in q.granted;
  }

  // ---------------------------------------------------------------------------- the server's objects

  datatype Outcome = Granted | Waiting | Refused | TimedOut

  class Admission {
    const limits: Limits
    var active: nat
    var waiters: seq<nat>
    var arrivals: nat
    ghost var owners: set<nat>
    ghost var granted: seq<nat>

    ghost function View(): Queue
      reads this
    {
      Queue(active, waiters, arrivals, owners, granted)
    }

    ghost predicate Good()
      reads this
    {
      Valid(limits, View())
    }

    constructor (limits: Limits)
      ensures this.limits == limits && View() == EMPTY && Good()
    {
      this.limits := limits;
      active, waiters, arrivals, owners, granted := 0, [], 0, {}, [];
    }

    /** A request arrives, and looks once before it first awaits. */
    method Arrive(expired: bool) returns (t: nat, outcome: Outcome)
      requires Good()
      modifies this
      ensures Good() && View() == After(limits, old(View()), Join(expired))
      ensures outcome == Refused <==> old(active + |waiters|) >= limits.maximum + limits.queued
      ensures outcome == TimedOut <==> expired && outcome != Refused
      ensures outcome == Outcome.Granted <==> !expired && old(waiters) == [] && old(active) < limits.maximum && outcome != Refused
      ensures outcome == Outcome.Granted ==> t in owners && t !in old(owners)
      ensures outcome == Waiting ==> waiters == old(waiters) + [t] && active == old(active)
    {
      hide Valid, Without;
      MoveKeeps(limits, View(), Join(expired));
      NewTicket(limits, View());
      t := arrivals;
      if active + |waiters| >= limits.maximum + limits.queued {
        return t, Refused;
      }
      waiters := waiters + [t];
      arrivals := arrivals + 1;
      assert waiters[|waiters| - 1] == t;
      outcome := Check(t, expired);
    }

    method Check(t: nat, expired: bool) returns (outcome: Outcome)
      requires t in waiters
      modifies this
      ensures View() == Looked(limits, old(View()), t, expired)
      ensures outcome == TimedOut <==> expired
      ensures outcome == Outcome.Granted <==> !expired && old(waiters)[0] == t && old(active) < limits.maximum
      ensures outcome == Outcome.Granted ==> t in owners
      ensures outcome == Waiting ==> View() == old(View())
      ensures outcome != Refused
    {
      if expired {
        waiters := Erase(waiters, t);
        return TimedOut;
      }
      if waiters[0] != t || active >= limits.maximum {
        return Waiting;
      }
      active := active + 1;
      waiters := Erase(waiters, t);
      owners, granted := owners + {t}, granted + [t];
      outcome := Outcome.Granted;
    }

    /** A waiting request wakes up. */
    method Poll(t: nat, expired: bool) returns (outcome: Outcome)
      requires Good() && t in waiters
      modifies this
      ensures Good() && View() == After(limits, old(View()), Look(t, expired))
      ensures outcome == TimedOut <==> expired
      ensures outcome == Outcome.Granted <==> !expired && old(waiters)[0] == t && old(active) < limits.maximum
      ensures outcome == Outcome.Granted ==> t in owners
      ensures outcome == Waiting ==> View() == old(View())
      ensures outcome != Refused
    {
      hide Valid, Without;
      MoveKeeps(limits, View(), Look(t, expired));
      outcome := Check(t, expired);
    }

    /** A waiting request is disconnected or cancelled. */
    method Abandon(t: nat)
      requires Good() && t in waiters
      modifies this
      ensures Good() && View() == After(limits, old(View()), Quit(t))
    {
      MoveKeeps(limits, View(), Quit(t));
      waiters := Erase(waiters, t);
    }

    /** One slot fewer is in use. */
    method Free(ghost t: nat)
      requires Good() && t in owners
      modifies this
      ensures Good() && View() == After(limits, old(View()), Release(t))
    {
      MoveKeeps(limits, View(), Release(t));
      OwnersCount(owners, t);
      active := active - 1;
      owners := owners - {t};
    }
  }

  lemma NewTicket(l: Limits, q: Queue)
    requires Valid(l, q)
    ensures q.arrivals !in q.owners && q.arrivals !in q.waiters
  {}

  lemma OwnersCount(owners: set<nat>, t: nat)
    requires t in owners
    ensures |owners| > 0
  {}

  /** A request that was granted a slot. Two places release it: the end of its event stream, and the
      response that wraps the stream. */
  class Completion {
    const admission: Admission
    ghost const ticket: nat
    var slotOwned: bool

    /** The flag tells the truth about the slot. */
    ghost predicate Honest()
      reads this, admission
    {
      slotOwned <==> ticket in admission.owners
    }

    constructor (admission: Admission, ghost ticket: nat)
      requires ticket in admission.owners
      ensures this.admission == admission && this.ticket == ticket && slotOwned && Honest()
    {
      this.admission, this.ticket, slotOwned := admission, ticket, true;
    }

    method ReleaseSlot()
      requires admission.Good() && Honest()
      modifies this, admission
      ensures admission.Good() && Honest() && !slotOwned && ticket !in admission.owners
      ensures admission.View() == After(admission.limits, old(admission.View()), Release(ticket))
      ensures old(!slotOwned) ==> admission.View() == old(admission.View())
    {
      if slotOwned {
        admission.Free(ticket);
        slotOwned := false;
      }
    }

    /** However a stream ends, its response closes the event generator, whose own cleanup runs only if it had
        begun, and then releases what is left: the slot is given up, and once. */
    method EndStream(begun: bool)
      requires admission.Good() && Honest()
      modifies this, admission
      ensures admission.Good() && Honest() && !slotOwned && ticket !in admission.owners
      ensures admission.View() == After(admission.limits, old(admission.View()), Release(ticket))
    {
      if begun {
        ReleaseSlot();
      }
      ReleaseSlot();
    }
  }
}
