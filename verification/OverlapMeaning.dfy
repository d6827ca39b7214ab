/** What a derived overlap interval says, in terms of the reports alone. */
module OverlapMeaning {
  import opened Numbers
  import opened Results
  import opened Admission
  import opened AdmissionSafety
  import opened Evolution
  import opened World
  import opened Ownership
  import opened WorldSafety
  import opened Residence
  import opened WorldEvolution
  import opened Overlap
  import opened OverlapSoundness

  // ---------------------------------------------------------------------------- reports

  /** Row `i` is the first that reports `id` with allocated cache. */
  predicate FirstRow(rows: seq<Row>, id: string, i: nat) {
    && i < |rows| && rows[i].id == id && !rows[i].allocating && rows[i].cache > 0
    && forall j :: 0 <= j < i ==> !(rows[j].id == id && !rows[j].allocating && rows[j].cache > 0)
  }

  lemma {:induction false} RowIsFirst(rows: seq<Row>, id: string) returns (i: nat)
    ensures AllocatedRow(rows, id).Some? ==> FirstRow(rows, id, i) && AllocatedRow(rows, id).value == rows[i]
    ensures AllocatedRow(rows, id).None? ==> forall j :: 0 <= j < |rows| ==> !(rows[j].id == id && !rows[j].allocating && rows[j].cache > 0)
  {
    i := 0;
    if rows != [] && !Holds(rows[0], id) {
      var k := RowIsFirst(rows[1..], id);
      i := k + 1;
      if AllocatedRow(rows, id).Some? {
        forall j | 0 <= j < i
          ensures !(rows[j].id == id && !rows[j].allocating && rows[j].cache > 0)
        {
          assert j > 0 ==> rows[j] == rows[1..][j - 1];
        }
      } else {
        forall j | 0 <= j < |rows|
          ensures !(rows[j].id == id && !rows[j].allocating && rows[j].cache > 0)
        {
          assert j > 0 ==> rows[j] == rows[1..][j - 1];
        }
      }
    }
  }

  /** The report shows both members of the pair with allocated cache, first in rows `i` and `j`. */
  predicate JointRows(s: Snapshot, pair: Pair, i: nat, j: nat) {
    s.available && FirstRow(s.rows, pair.first, i) && FirstRow(s.rows, pair.second, j)
  }

  ghost predicate ShowsBoth(s: Snapshot, pair: Pair) {
    exists i: nat, j: nat :: JointRows(s, pair, i, j)
  }

  lemma JointShowsBoth(s: Snapshot, pair: Pair) returns (i: nat, j: nat)
    ensures Joint(s, pair) <==> ShowsBoth(s, pair)
    ensures Joint(s, pair) ==> JointRows(s, pair, i, j)
    ensures Joint(s, pair) ==>
              AllocatedRow(s.rows, pair.first) == Some(s.rows[i]) && AllocatedRow(s.rows, pair.second) == Some(s.rows[j])
  {
    i := RowIsFirst(s.rows, pair.first);
    j := RowIsFirst(s.rows, pair.second);
    hide AllocatedRow;
    if ShowsBoth(s, pair) {
      var a: nat, b: nat :| JointRows(s, pair, a, b);
    }
    if Joint(s, pair) {
      assert JointRows(s, pair, i, j);
    }
  }

  /** Report `k` is the first to show both. */
  ghost predicate FirstJoint(snapshots: seq<Snapshot>, pair: Pair, k: nat) {
    k < |snapshots| && ShowsBoth(snapshots[k], pair) && forall n :: 0 <= n < k ==> !ShowsBoth(snapshots[n], pair)
  }

  lemma {:induction false} FirstSelected<T(!new)>(list: seq<T>, keep: T -> bool) returns (k: nat)
    requires Select(list, keep) != []
    ensures k < |list| && list[k] == Select(list, keep)[0] && keep(list[k]) && forall n :: 0 <= n < k ==> !keep(list[n])
    decreases |list|
  {
    var before := list[..|list| - 1];
    if Select(before, keep) != [] {
      k := FirstSelected(before, keep);
    } else {
      k := |list| - 1;
      forall n | 0 <= n < k
        ensures !keep(list[n])
      {
        assert list[n] in before;
      }
    }
  }

  // ---------------------------------------------------------------------------- events

  /** Event `i` is the last admission of `id`. */
  predicate LastAdmission(events: seq<Event>, id: string, i: nat) {
    && i < |events| && events[i].kind == Admitted && events[i].id == id
    && forall j :: i < j < |events| ==> !(events[j].kind == Admitted && events[j].id == id)
  }

  lemma {:induction false} AdmissionIsLast(events: seq<Event>, id: string) returns (i: nat)
    ensures AdmissionOf(events, id).Some? ==> LastAdmission(events, id, i) && AdmissionOf(events, id).value == events[i]
    ensures AdmissionOf(events, id).None? ==> forall j: nat :: !LastAdmission(events, id, j)
    decreases |events|
  {
    i := 0;
    if events != [] {
      var n := |events| - 1;
      if events[n].kind == Admitted && events[n].id == id {
        i := n;
      } else {
        i := AdmissionIsLast(events[..n], id);
        if AdmissionOf(events, id).None? {
          assert forall j :: 0 <= j < |events| ==> events[j] in events;
        }
      }
    }
  }

  /** All events of the reports, one report after the other. */
  function Everything(snapshots: seq<Snapshot>): seq<Event>
    decreases |snapshots|
  {
    if snapshots == [] then []
    else Everything(snapshots[..|snapshots| - 1]) + snapshots[|snapshots| - 1].events
  }

  /** Event `i` is the last of its number. */
  predicate LastOfNumber(all: seq<Event>, i: nat) {
    i < |all| && forall j :: i < j < |all| ==> all[j].sequence != all[i].sequence
  }

  /** Number `m` is there before the first event of number `n`. */
  predicate ComesFirst(all: seq<Event>, m: nat, n: nat) {
    exists p :: 0 <= p < |all| && all[p].sequence == m && forall q :: 0 <= q <= p ==> all[q].sequence != n
  }

  predicate Numbered(all: seq<Event>, n: nat) {
    exists i :: 0 <= i < |all| && all[i].sequence == n
  }

  ghost predicate IsLast(all: seq<Event>, e: Event) {
    exists i: nat :: LastOfNumber(all, i) && all[i] == e
  }

  /** Each number reported is gathered once, as the last event that carried it, in the order in which the numbers
      first came. */
  ghost predicate Collects(all: seq<Event>, events: seq<Event>) {
    && (forall e :: e in events ==> IsLast(all, e))
    && (forall n :: Numbered(all, n) ==> Numbered(events, n))
    && forall i, j :: 0 <= i < j < |events| ==> ComesFirst(all, events[i].sequence, events[j].sequence)
  }

  /** The same of the keys under which they are kept. */
  ghost predicate Tracks(all: seq<Event>, l: Ledger) {
    && l.Valid() && (forall n :: n in l.events <==> n in l.order) && (forall n :: n in l.events <==> Numbered(all, n))
    && (forall n :: n in l.events ==> l.events[n].sequence == n && IsLast(all, l.events[n]))
    && forall i, j :: 0 <= i < j < |l.order| ==> ComesFirst(all, l.order[i], l.order[j])
  }

  lemma TracksValid(all: seq<Event>, l: Ledger)
    requires Tracks(all, l)
    ensures l.Valid()
  {}

  lemma NumberedMore(all: seq<Event>, e: Event, n: nat)
    ensures Numbered(all + [e], n) <==> Numbered(all, n) || n == e.sequence
  {
    var more := all + [e];
    if Numbered(all, n) {
      var i :| 0 <= i < |all| && all[i].sequence == n;
      assert more[i].sequence == n;
    }
    assert more[|all|] == e;
  }

  lemma LastMore(all: seq<Event>, e: Event, f: Event)
    ensures IsLast(all + [e], e)
    ensures IsLast(all, f) && f.sequence != e.sequence ==> IsLast(all + [e], f)
  {
    var more := all + [e];
    assert LastOfNumber(more, |all|);
    if IsLast(all, f) && f.sequence != e.sequence {
      var i: nat :| LastOfNumber(all, i) && all[i] == f;
      assert LastOfNumber(more, i) && more[i] == f;
    }
  }

  lemma FirstMore(all: seq<Event>, e: Event, m: nat, n: nat)
    ensures ComesFirst(all, m, n) ==> ComesFirst(all + [e], m, n)
    ensures Numbered(all, m) && !Numbered(all, n) ==> ComesFirst(all + [e], m, n)
  {
    var more := all + [e];
    if ComesFirst(all, m, n) {
      var p :| 0 <= p < |all| && all[p].sequence == m && forall q :: 0 <= q <= p ==> all[q].sequence != n;
      assert more[p].sequence == m;
    }
  }

  lemma PutTracks(all: seq<Event>, l: Ledger, e: Event)
    requires Tracks(all, l)
    ensures Tracks(all + [e], l.Put(e))
  {
    hide Numbered, IsLast, ComesFirst;
    var more, r := all + [e], l.Put(e);
    forall n
      ensures Numbered(more, n) <==> Numbered(all, n) || n == e.sequence
    {
      NumberedMore(all, e, n);
    }
    forall n | n in r.events
      ensures r.events[n].sequence == n && IsLast(more, r.events[n])
    {
      LastMore(all, e, r.events[n]);
    }
    forall i, j | 0 <= i < j < |r.order|
      ensures ComesFirst(more, r.order[i], r.order[j])
    {
      assert r.order[i] in l.order;
      FirstMore(all, e, r.order[i], r.order[j]);
    }
  }

  lemma {:induction false} PutAllTracks(all: seq<Event>, l: Ledger, list: seq<Event>)
    requires Tracks(all, l)
    ensures l.Valid() && Tracks(all + list, PutAll(l, list))
    decreases |list|
  {
    TracksValid(all, l);
    hide Tracks;
    if list == [] {
      assert all + list == all;
    } else {
      var before, e := list[..|list| - 1], list[|list| - 1];
      PutAllTracks(all, l, before);
      PutTracks(all + before, PutAll(l, before), e);
      assert all + before + [e] == all + list;
    }
  }

  lemma {:induction false} GatherTracks(snapshots: seq<Snapshot>)
    ensures Tracks(Everything(snapshots), Gather(snapshots))
    decreases |snapshots|
  {
    if snapshots == [] {
      assert Tracks([], Ledger([], map[]));
    } else {
      hide Tracks;
      GatherTracks(snapshots[..|snapshots| - 1]);
      PutAllTracks(Everything(snapshots[..|snapshots| - 1]), Gather(snapshots[..|snapshots| - 1]), snapshots[|snapshots| - 1].events);
    }
  }

  lemma GatherCollects(snapshots: seq<Snapshot>)
    ensures Collects(Everything(snapshots), Gather(snapshots).Values())
  {
    GatherTracks(snapshots);
    var all, l := Everything(snapshots), Gather(snapshots);
    hide Gather, Everything, IsLast, ComesFirst;
    var events := l.Values();
    forall n | Numbered(all, n)
      ensures Numbered(events, n)
    {
      var i :| 0 <= i < |l.order| && l.order[i] == n;
      assert events[i].sequence == n;
    }
  }

  // ---------------------------------------------------------------------------- where it starts

  /** Both members' admissions were gathered, in events `i` and `j`, and the interval starts at the later one. */
  predicate StartsAtAdmissions(events: seq<Event>, pair: Pair, interval: Interval, i: nat, j: nat) {
    && pair.first != pair.second && LastAdmission(events, pair.first, i) && LastAdmission(events, pair.second, j)
    && (events[i].sequence >= events[j].sequence ==>
          interval.admission == Some(events[i].sequence) && interval.start == events[i].at)
    && (events[i].sequence < events[j].sequence ==>
          interval.admission == Some(events[j].sequence) && interval.start == events[j].at)
  }

  /** The interval starts when the later of the two rows of the first joint report was admitted. */
  ghost predicate StartsAtRows(snapshots: seq<Snapshot>, pair: Pair, interval: Interval, k: nat, i: nat, j: nat) {
    && FirstJoint(snapshots, pair, k) && JointRows(snapshots[k], pair, i, j) && interval.admission.None?
    && var a, b := snapshots[k].rows[i].admitted, snapshots[k].rows[j].admitted;
       interval.start >= a && interval.start >= b && (interval.start == a || interval.start == b)
  }

  ghost predicate BothAdmissions(events: seq<Event>, pair: Pair) {
    pair.first != pair.second && exists i: nat, j: nat :: LastAdmission(events, pair.first, i) && LastAdmission(events, pair.second, j)
  }

  /** Every derived interval starts at the later of two admissions; they are taken from the log if it has both, and
      only otherwise from the first joint report. */
  lemma DerivedStart(pair: Pair, snapshots: seq<Snapshot>) returns (k: nat, i: nat, j: nat)
    requires Derived(pair, snapshots).Some?
    ensures var interval, events := Derived(pair, snapshots).value, Gather(snapshots).Values();
            if BothAdmissions(events, pair) then StartsAtAdmissions(events, pair, interval, i, j)
            else StartsAtRows(snapshots, pair, interval, k, i, j)
  {
    hide Gather, Joint, AdmissionOf, LastAdmission, JointRows, FirstJoint, AllocatedRow, ShowsBoth, EndingAmong, Relevant;
    var events := Gather(snapshots).Values();
    var keep := (s: Snapshot) => Joint(s, pair);
    var joint := Select(snapshots, keep);
    i := AdmissionIsLast(events, pair.first);
    j := AdmissionIsLast(events, pair.second);
    EndingKeepsStart(events, joint, pair);
    k := 0;
    if !BothAdmissions(events, pair) {
      k := FirstSelected(snapshots, keep);
      FirstIsJoint(snapshots, pair, k);
      i, j := JointShowsBoth(snapshots[k], pair);
    }
  }

  lemma FirstIsJoint(snapshots: seq<Snapshot>, pair: Pair, k: nat)
    requires k < |snapshots| && Joint(snapshots[k], pair) && forall n :: 0 <= n < k ==> !Joint(snapshots[n], pair)
    ensures FirstJoint(snapshots, pair, k)
  {
    hide Joint, ShowsBoth;
    forall n | 0 <= n <= k
      ensures Joint(snapshots[n], pair) <==> ShowsBoth(snapshots[n], pair)
    {
      var i, j := JointShowsBoth(snapshots[n], pair);
    }
  }

  lemma EndingKeepsStart(events: seq<Event>, joint: seq<Snapshot>, pair: Pair)
    requires forall s :: s in joint ==> Joint(s, pair)
    ensures Beginning(events, joint, pair).Some? ==>
              var (start, admission) := Beginning(events, joint, pair).value;
              var r := Ending(events, joint, pair, start, admission);
              r.Some? ==> r.value.start == start && r.value.admission == admission
  {
    hide Beginning, Select, Relevant;
  }

  // ---------------------------------------------------------------------------- where it ends

  /** A member retired since the interval's start, and not because its allocation failed. */
  predicate Retires(e: Event, pair: Pair, interval: Interval) {
    && e.kind == Retired && (e.id == pair.first || e.id == pair.second) && e.at >= interval.start
    && (interval.admission.Some? ==> e.sequence > interval.admission.value) && e.reason != "allocation-failed"
  }

  /** It lists the other member. */
  predicate Proves(e: Event, pair: Pair, interval: Interval) {
    && Retires(e, pair, interval)
    && ((pair.first != e.id && pair.first in e.concurrent) || (pair.second != e.id && pair.second in e.concurrent))
  }

  ghost predicate FirstRetirement(events: seq<Event>, pair: Pair, interval: Interval, e: Event) {
    e in events && Retires(e, pair, interval) && forall f :: f in events && Retires(f, pair, interval) ==> e.sequence <= f.sequence
  }

  ghost predicate FirstProof(events: seq<Event>, pair: Pair, interval: Interval, e: Event) {
    e in events && Proves(e, pair, interval) && forall f :: f in events && Proves(f, pair, interval) ==> e.sequence <= f.sequence
  }

  ghost predicate AnyRetires(events: seq<Event>, pair: Pair, interval: Interval) {
    exists e :: e in events && Retires(e, pair, interval)
  }

  ghost predicate AnyProves(events: seq<Event>, pair: Pair, interval: Interval) {
    exists e :: e in events && Proves(e, pair, interval)
  }

  /** The report shows both members at or after the interval's start. */
  ghost predicate JointSince(snapshots: seq<Snapshot>, pair: Pair, interval: Interval, s: Snapshot) {
    s in snapshots && ShowsBoth(s, pair) && At(s) >= interval.start
  }

  ghost predicate AnyJoint(snapshots: seq<Snapshot>, pair: Pair, interval: Interval) {
    exists s :: JointSince(snapshots, pair, interval, s)
  }

  ghost predicate LatestJoint(snapshots: seq<Snapshot>, pair: Pair, interval: Interval, s: Snapshot) {
    JointSince(snapshots, pair, interval, s) && forall r :: JointSince(snapshots, pair, interval, r) ==> At(r) <= At(s)
  }

  /** The end is the time of the first retirement that proves the overlap; without one, of the first retirement
      at all; and without that, of the latest joint report since the start. */
  ghost predicate EndsRightly(events: seq<Event>, snapshots: seq<Snapshot>, pair: Pair, interval: Interval) {
    if AnyProves(events, pair, interval) then
      interval.proof == RetirementEvent && exists e :: FirstProof(events, pair, interval, e) && interval.end == e.at
    else
      && interval.proof == JointSnapshot && AnyJoint(snapshots, pair, interval)
      && if AnyRetires(events, pair, interval) then exists e :: FirstRetirement(events, pair, interval, e) && interval.end == e.at
         else exists s :: LatestJoint(snapshots, pair, interval, s) && interval.end == At(s)
  }

  lemma RelevantRetires(e: Event, pair: Pair, interval: Interval)
    ensures Relevant(e, pair, interval.start, interval.admission) <==> Retires(e, pair, interval)
    ensures Retires(e, pair, interval) && Witness(e, pair) <==> Proves(e, pair, interval)
  {
    if Retires(e, pair, interval) && Witness(e, pair) {
      var o :| o in pair.Others(e.id) && o in e.concurrent;
    }
    if Proves(e, pair, interval) {
      assert pair.first != e.id ==> pair.first in pair.Others(e.id);
      assert pair.second != e.id ==> pair.second in pair.Others(e.id);
    }
  }

  /** The joint reports since the start, however they are found. */
  lemma SinceIs(snapshots: seq<Snapshot>, pair: Pair, interval: Interval, s: Snapshot)
    ensures JointSince(snapshots, pair, interval, s) <==> s in snapshots && Joint(s, pair) && At(s) >= interval.start
  {
    hide ShowsBoth, Joint;
    var i, j := JointShowsBoth(s, pair);
  }

  /** What the code's selections hold. */
  ghost predicate Chosen(events: seq<Event>, snapshots: seq<Snapshot>, pair: Pair, interval: Interval,
                         retirements: seq<Event>, witnessed: seq<Event>, after: seq<Snapshot>) {
    && (forall e :: e in retirements <==> e in events && Retires(e, pair, interval))
    && (forall e :: e in witnessed <==> e in events && Proves(e, pair, interval))
    && forall s :: s in after <==> JointSince(snapshots, pair, interval, s)
  }

  lemma Choices(events: seq<Event>, snapshots: seq<Snapshot>, pair: Pair, interval: Interval)
    returns (retirements: seq<Event>, witnessed: seq<Event>, after: seq<Snapshot>)
    ensures Chosen(events, snapshots, pair, interval, retirements, witnessed, after)
    ensures Ending(events, Select(snapshots, (s: Snapshot) => Joint(s, pair)), pair, interval.start, interval.admission)
            == if witnessed != [] then
                 Some(Interval(interval.start, Larger(Earliest(witnessed).at, interval.start), interval.admission, RetirementEvent))
               else if after != [] then
                 var end := if retirements != [] then Earliest(retirements).at else Latest(after);
                 Some(Interval(interval.start, Larger(end, interval.start), interval.admission, JointSnapshot))
               else None
  {
    hide Joint, Relevant, Witness, Retires, Proves, JointSince, Earliest, Latest;
    var start, admission := interval.start, interval.admission;
    after := Select(Select(snapshots, (s: Snapshot) => Joint(s, pair)), (s: Snapshot) => At(s) >= start);
    retirements := Select(events, (e: Event) => Relevant(e, pair, start, admission));
    witnessed := Select(retirements, (e: Event) => Witness(e, pair));
    forall e
      ensures e in retirements <==> e in events && Retires(e, pair, interval)
      ensures e in witnessed <==> e in events && Proves(e, pair, interval)
    {
      RelevantRetires(e, pair, interval);
    }
    forall s
      ensures s in after <==> JointSince(snapshots, pair, interval, s)
    {
      SinceIs(snapshots, pair, interval, s);
    }
  }

  lemma EndingIs(events: seq<Event>, snapshots: seq<Snapshot>, pair: Pair, interval: Interval)
    requires Ending(events, Select(snapshots, (s: Snapshot) => Joint(s, pair)), pair, interval.start, interval.admission) == Some(interval)
    ensures EndsRightly(events, snapshots, pair, interval)
  {
    hide Joint, Relevant, Witness, JointSince, Ending, Select;
    var retirements, witnessed, after := Choices(events, snapshots, pair, interval);
    if witnessed != [] {
      var e := Earliest(witnessed);
      assert FirstProof(events, pair, interval, e);
    } else {
      NothingProves(events, snapshots, pair, interval, retirements, witnessed, after);
      assert after[0] in after;
      if retirements != [] {
        var e := Earliest(retirements);
        assert FirstRetirement(events, pair, interval, e);
      } else {
        var s :| s in after && Latest(after) == At(s);
        SinceIs(snapshots, pair, interval, s);
        assert LatestJoint(snapshots, pair, interval, s);
      }
    }
  }

  lemma NothingProves(events: seq<Event>, snapshots: seq<Snapshot>, pair: Pair, interval: Interval,
                      retirements: seq<Event>, witnessed: seq<Event>, after: seq<Snapshot>)
    requires Chosen(events, snapshots, pair, interval, retirements, witnessed, after) && witnessed == []
    ensures !AnyProves(events, pair, interval)
    ensures retirements == [] ==> !AnyRetires(events, pair, interval)
    ensures after == [] ==> !AnyJoint(snapshots, pair, interval)
  {
    hide Retires, Proves, JointSince;
  }

  lemma NoEnding(events: seq<Event>, snapshots: seq<Snapshot>, pair: Pair, interval: Interval)
    requires Ending(events, Select(snapshots, (s: Snapshot) => Joint(s, pair)), pair, interval.start, interval.admission) == None
    ensures !AnyProves(events, pair, interval) && !AnyJoint(snapshots, pair, interval)
  {
    hide Joint, Relevant, Witness, JointSince, Ending, Select;
    var retirements, witnessed, after := Choices(events, snapshots, pair, interval);
    NothingProves(events, snapshots, pair, interval, retirements, witnessed, after);
  }

  lemma DerivedEnd(pair: Pair, snapshots: seq<Snapshot>)
    requires Derived(pair, snapshots).Some?
    ensures EndsRightly(Gather(snapshots).Values(), snapshots, pair, Derived(pair, snapshots).value)
  {
    hide Gather, Joint, Ending, Beginning, EndsRightly, Select;
    var events, joint := Gather(snapshots).Values(), Select(snapshots, (s: Snapshot) => Joint(s, pair));
    EndingKeepsStart(events, joint, pair);
    EndingIs(events, snapshots, pair, Derived(pair, snapshots).value);
  }

  lemma AdmissionsAgree(events: seq<Event>, id: string, i: nat)
    requires LastAdmission(events, id, i)
    ensures AdmissionOf(events, id) == Some(events[i])
  {
    var j := AdmissionIsLast(events, id);
    assert events[i] in events;
    assert AdmissionOf(events, id).Some?;
    assert LastAdmission(events, id, j);
    assert i == j;
  }

  lemma NoAdmissions(events: seq<Event>, pair: Pair)
    requires !BothAdmissions(events, pair)
    ensures AdmissionOf(events, pair.first).None? || AdmissionOf(events, pair.second).None? || pair.first == pair.second
  {
    hide LastAdmission;
    var i := AdmissionIsLast(events, pair.first);
    var j := AdmissionIsLast(events, pair.second);
  }

  lemma RowsAgree(rows: seq<Row>, id: string, i: nat)
    requires FirstRow(rows, id, i)
    ensures AllocatedRow(rows, id) == Some(rows[i])
  {
    var j := RowIsFirst(rows, id);
    assert i == j;
  }

  lemma FirstAgrees(snapshots: seq<Snapshot>, pair: Pair, k: nat)
    requires FirstJoint(snapshots, pair, k)
    ensures var joint := Select(snapshots, (s: Snapshot) => Joint(s, pair)); joint != [] && joint[0] == snapshots[k]
  {
    hide Joint, ShowsBoth;
    var keep := (s: Snapshot) => Joint(s, pair);
    forall n | 0 <= n < |snapshots|
      ensures Joint(snapshots[n], pair) <==> ShowsBoth(snapshots[n], pair)
    {
      var i, j := JointShowsBoth(snapshots[n], pair);
    }
    assert snapshots[k] in snapshots && keep(snapshots[k]);
    assert snapshots[k] in Select(snapshots, keep);
    var n := FirstSelected(snapshots, keep);
    assert n == k;
  }

  lemma BeginningIs(pair: Pair, snapshots: seq<Snapshot>, interval: Interval, k: nat, i: nat, j: nat)
    requires var events := Gather(snapshots).Values();
             if BothAdmissions(events, pair) then StartsAtAdmissions(events, pair, interval, i, j)
             else StartsAtRows(snapshots, pair, interval, k, i, j)
    ensures var joint := Select(snapshots, (s: Snapshot) => Joint(s, pair));
            Beginning(Gather(snapshots).Values(), joint, pair) == Some((interval.start, interval.admission))
  {
    hide Gather, Joint, Select, ShowsBoth, AdmissionOf, AllocatedRow, LastAdmission, FirstRow;
    var events := Gather(snapshots).Values();
    if BothAdmissions(events, pair) {
      AdmissionsAgree(events, pair.first, i);
      AdmissionsAgree(events, pair.second, j);
    } else {
      NoAdmissions(events, pair);
      FirstAgrees(snapshots, pair, k);
      RowsAgree(snapshots[k].rows, pair.first, i);
      RowsAgree(snapshots[k].rows, pair.second, j);
    }
  }

  /** Nothing is derived exactly when there is no start, or nothing shows the two together from there on. */
  lemma NothingDerived(pair: Pair, snapshots: seq<Snapshot>, interval: Interval, k: nat, i: nat, j: nat)
    requires Derived(pair, snapshots).None?
    requires var events := Gather(snapshots).Values();
             if BothAdmissions(events, pair) then StartsAtAdmissions(events, pair, interval, i, j)
             else StartsAtRows(snapshots, pair, interval, k, i, j)
    ensures !AnyProves(Gather(snapshots).Values(), pair, interval) && !AnyJoint(snapshots, pair, interval)
  {
    hide Gather, Joint, Ending, Select, ShowsBoth;
    var events, joint := Gather(snapshots).Values(), Select(snapshots, (s: Snapshot) => Joint(s, pair));
    BeginningIs(pair, snapshots, interval, k, i, j);
    hide Beginning;
    NoEnding(events, snapshots, pair, interval);
  }

  // ---------------------------------------------------------------------------- what it says of a run

  lemma RowTimes(cfg: Config, run: seq<World>, m: nat, s: Snapshot, pair: Pair, i: nat, j: nat)
    requires m < |run| && Reports(cfg, run[m], s) && JointRows(s, pair, i, j)
    ensures pair.first in run[m].control.active && run[m].control.active[pair.first].admitted == s.rows[i].admitted
    ensures pair.second in run[m].control.active && run[m].control.active[pair.second].admitted == s.rows[j].admitted
  {}

  /** A record that a world is the first to hold was not there before. */
  lemma NotBefore(cfg: Config, run: seq<World>, first: nat, id: string, r: Request)
    requires Run(cfg, run) && EntersAt(run, first, id, r)
    ensures !Resides(run[first - 1], id, r)
  {
    hide Run, Safe, Invariant;
    RunIsSafe(cfg, run, first - 1);
    SafeIsInvariant(cfg, run[first - 1]);
    SerialsDiffer(cfg, run[first - 1].control);
  }

  /** Both records of world `m` are in every world from `first` on, and not both in the one before, whose section
      the time `start` falls into. */
  ghost predicate BothSince(run: seq<World>, pair: Pair, first: nat, m: nat, start: nat)
    requires m < |run| && pair.first in run[m].control.active && pair.second in run[m].control.active
  {
    var a, b := run[m].control.active[pair.first], run[m].control.active[pair.second];
    && 0 < first <= m && run[first - 1].clock <= start <= run[first].clock
    && (forall i :: first <= i <= m ==> Resides(run[i], pair.first, a) && Resides(run[i], pair.second, b))
    && !(Resides(run[first - 1], pair.first, a) && Resides(run[first - 1], pair.second, b))
  }

  lemma LaterAdmission(cfg: Config, run: seq<World>, pair: Pair, m: nat, start: nat) returns (first: nat)
    requires Run(cfg, run) && m < |run| && pair.first in run[m].control.active && pair.second in run[m].control.active
    requires var a, b := run[m].control.active[pair.first].admitted, run[m].control.active[pair.second].admitted;
             start >= a && start >= b && (start == a || start == b)
    ensures BothSince(run, pair, first, m, start)
  {
    hide Run, AskedBy;
    var a, b := run[m].control.active[pair.first], run[m].control.active[pair.second];
    var f, _ := ResidesSince(cfg, run, m, pair.first);
    var g, _ := ResidesSince(cfg, run, m, pair.second);
    NotBefore(cfg, run, f, pair.first, a);
    NotBefore(cfg, run, g, pair.second, b);
    hide Resides;
    if f < g {
      TimePasses(cfg, run, f, g - 1);
    } else if g < f {
      TimePasses(cfg, run, g, f - 1);
    }
    first := Larger(f, g);
  }

  /** An interval that starts from a report's rows starts within the section that admitted the later of the two, and
      both stay reserved, the same records throughout, from there to the report, which shows both usable. Nothing is
      assumed of the log: it may have lost both admissions. */
  lemma RowsStartIsReal(cfg: Config, run: seq<World>, snapshots: seq<Snapshot>, polled: seq<nat>, pair: Pair)
    returns (k: nat, first: nat)
    requires Run(cfg, run) && Polled(cfg, run, snapshots, polled)
    requires Derived(pair, snapshots).Some? && Derived(pair, snapshots).value.admission.None?
    ensures FirstJoint(snapshots, pair, k) && polled[k] < |run| && Together(run[polled[k]], pair)
    ensures BothSince(run, pair, first, polled[k], Derived(pair, snapshots).value.start)
    ensures Derived(pair, snapshots).value.start <= run[polled[k]].clock
  {
    hide Run, Reports, Joint, Derived, Gather, ShowsBoth, JointRows, LastAdmission;
    var i, j;
    k, i, j := DerivedStart(pair, snapshots);
    var m := polled[k];
    FirstShows(snapshots, pair, k, i, j);
    JointIsTogether(cfg, run, m, snapshots[k], pair);
    RowTimes(cfg, run, m, snapshots[k], pair, i, j);
    first := LaterAdmission(cfg, run, pair, m, Derived(pair, snapshots).value.start);
    TimePasses(cfg, run, first, m);
  }

  lemma FirstShows(snapshots: seq<Snapshot>, pair: Pair, k: nat, i: nat, j: nat)
    requires FirstJoint(snapshots, pair, k) && JointRows(snapshots[k], pair, i, j)
    ensures Joint(snapshots[k], pair)
  {
    hide Joint;
    var a, b := JointShowsBoth(snapshots[k], pair);
  }
}
