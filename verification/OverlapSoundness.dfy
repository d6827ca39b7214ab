/** What a derived overlap interval implies about the worker that was polled. */
module OverlapSoundness {
  import opened Numbers
  import opened Results
  import opened Memory
  import opened Admission
  import opened AdmissionSafety
  import opened Evolution
  import opened World
  import opened Ownership
  import opened WorldSafety
  import opened WorkerGuarantees
  import opened WorldEvolution
  import opened Overlap

  function CacheBytes(r: Request): nat {
    r.cache.host + r.cache.device + r.cache.pinned + r.cache.unified
  }

  predicate RowIs(s: State, r: Row) {
    r.id in s.active && r == Row(r.id, s.active[r.id].allocating, CacheBytes(s.active[r.id]), s.active[r.id].admitted)
  }

  /** The worker's report in world `w`: its table, and the end of its log. */
  ghost predicate Reports(cfg: Config, w: World, s: Snapshot) {
    && s.available == cfg.observations
    && (s.available ==> s.observed == Some(w.clock))
    && (forall i :: 0 <= i < |s.rows| ==> RowIs(w.control, s.rows[i]))
    && s.events == Recent(w.control.history)
  }

  /** Reports polled from the run, in any order, number `k` from its world `polled[k]`. */
  ghost predicate Polled(cfg: Config, run: seq<World>, snapshots: seq<Snapshot>, polled: seq<nat>) {
    && |polled| == |snapshots|
    && forall k :: 0 <= k < |polled| ==> polled[k] < |run| && Reports(cfg, run[polled[k]], snapshots[k])
  }

  function Whole(run: seq<World>): seq<Event>
    requires run != []
  {
    run[|run| - 1].control.history
  }

  lemma RunIsNonempty(cfg: Config, run: seq<World>)
    requires Run(cfg, run)
    ensures run != []
  {}

  // ---------------------------------------------------------------------------- events are the run's

  lemma {:induction false} ExactNumbers(h: seq<Event>, n: nat)
    requires Exact(h) && n < |h|
    ensures h[n].sequence == n + 1
    decreases |h|
  {
    if n < |h| - 1 {
      ExactNumbers(h[..|h| - 1], n);
    }
  }

  /** The event is the one the log `h` has under its number. */
  predicate Genuine(h: seq<Event>, e: Event) {
    0 < e.sequence <= |h| && h[e.sequence - 1] == e
  }

  ghost predicate GenuineLedger(h: seq<Event>, l: Ledger) {
    l.Valid() && forall n :: n in l.events ==> l.events[n].sequence == n && Genuine(h, l.events[n])
  }

  lemma {:induction false} PutAllGenuine(h: seq<Event>, l: Ledger, list: seq<Event>)
    requires GenuineLedger(h, l) && forall i :: 0 <= i < |list| ==> Genuine(h, list[i])
    ensures GenuineLedger(h, PutAll(l, list))
    decreases |list|
  {
    hide Genuine;
    if list != [] {
      PutAllGenuine(h, l, list[..|list| - 1]);
    }
  }

  lemma ReportGenuine(cfg: Config, run: seq<World>, j: nat, s: Snapshot)
    requires Run(cfg, run) && j < |run| && Reports(cfg, run[j], s)
    ensures forall i :: 0 <= i < |s.events| ==> Genuine(Whole(run), s.events[i])
  {
    hide Run, RowIs;
    TimePasses(cfg, run, j, |run| - 1);
    forall i | 0 <= i < |s.events|
      ensures Genuine(Whole(run), s.events[i])
    {
      var h := run[j].control.history;
      var n := |h| - |s.events| + i;
      assert s.events[i] == h[n] == Whole(run)[n];
      RunNumbers(cfg, run, j, n);
    }
  }

  lemma RunNumbers(cfg: Config, run: seq<World>, j: nat, n: nat)
    requires Run(cfg, run) && j < |run| && n < |run[j].control.history|
    ensures run[j].control.history[n].sequence == n + 1 && cfg.observations && Exact(run[j].control.history)
  {
    hide Run;
    RunIsSafe(cfg, run, j);
    SafeLog(cfg, run[j]);
    ExactNumbers(run[j].control.history, n);
  }

  lemma {:induction false} GatherGenuine(cfg: Config, run: seq<World>, snapshots: seq<Snapshot>, polled: seq<nat>)
    requires Run(cfg, run) && Polled(cfg, run, snapshots, polled)
    ensures GenuineLedger(Whole(run), Gather(snapshots))
    decreases |snapshots|
  {
    hide Run, Reports, Genuine;
    if snapshots != [] {
      var n := |snapshots| - 1;
      GatherGenuine(cfg, run, snapshots[..n], polled[..n]);
      ReportGenuine(cfg, run, polled[n], snapshots[n]);
      PutAllGenuine(Whole(run), Gather(snapshots[..n]), snapshots[n].events);
    }
  }

  lemma ValuesGenuine(h: seq<Event>, l: Ledger, e: Event)
    requires GenuineLedger(h, l) && e in l.Values()
    ensures Genuine(h, e)
  {}

  // ---------------------------------------------------------------------------- the moment

  /** Both requests' sequence state exists in world `i`. */
  predicate Together(w: World, pair: Pair) {
    Held(w.control, pair.first) && Held(w.control, pair.second)
  }

  /** World `i` is in force at time `t`. */
  predicate During(run: seq<World>, i: nat, t: nat) {
    i < |run| && run[i].clock <= t && (i + 1 < |run| ==> t <= run[i + 1].clock)
  }

  lemma {:induction false} RowIsReported(s: State, rows: seq<Row>, id: string)
    requires AllocatedRow(rows, id).Some? && forall i :: 0 <= i < |rows| ==> RowIs(s, rows[i])
    ensures id in s.active && !s.active[id].allocating
  {
    if !Holds(rows[0], id) {
      RowIsReported(s, rows[1..], id);
    }
  }

  lemma UsableIsHeld(cfg: Config, run: seq<World>, i: nat, id: string)
    requires Run(cfg, run) && i < |run| && id in run[i].control.active && !run[i].control.active[id].allocating
    ensures Held(run[i].control, id)
  {
    hide Run;
    RunIsSafe(cfg, run, i);
    SafeIsInvariant(cfg, run[i]);
    ActiveIsValid(cfg, run[i].control, id);
  }

  /** A joint report shows both requests usable in the world it was polled from. */
  lemma JointIsTogether(cfg: Config, run: seq<World>, j: nat, s: Snapshot, pair: Pair)
    requires Run(cfg, run) && j < |run| && Reports(cfg, run[j], s) && Joint(s, pair)
    ensures Together(run[j], pair) && At(s) == run[j].clock && cfg.observations
    ensures !run[j].control.active[pair.first].allocating && !run[j].control.active[pair.second].allocating
  {
    hide Run;
    RowIsReported(run[j].control, s.rows, pair.first);
    RowIsReported(run[j].control, s.rows, pair.second);
    UsableIsHeld(cfg, run, j, pair.first);
    UsableIsHeld(cfg, run, j, pair.second);
  }

  /** The world in which a genuine event was logged, just before it. */
  lemma EventWorld(cfg: Config, run: seq<World>, e: Event) returns (i: nat)
    requires Run(cfg, run) && Genuine(Whole(run), e)
    ensures i + 1 < |run| && run[i].clock <= e.at == run[i + 1].clock
    ensures |run[i].control.history| < e.sequence <= |run[i + 1].control.history| && run[i + 1].control.history <= Whole(run)
    ensures Truthful(run[i].control, run[i + 1].control.history, e.sequence - 1, run[i + 1].clock)
    ensures run[i + 1].control.history[e.sequence - 1] == e
  {
    RunIsNonempty(cfg, run);
    hide Run, Truthful, Evolves, Invariant, Live;
    i := LoggedWhen(cfg, run, |run| - 1, e.sequence - 1);
    TimePasses(cfg, run, i, i + 1);
    TruthfulAt(run[i].control, run[i + 1].control.history, e.sequence - 1, run[i + 1].clock);
  }

  lemma TruthfulAt(s: State, h: seq<Event>, n: nat, at: nat)
    requires n < |h| && Truthful(s, h, n, at)
    ensures h[n].at == at && h[n].concurrent == Live(s, h, n)
    ensures h[n].kind == Retired ==> Retirable(s, h[n].id, h[n].reason)
  {}

  /** A retirement that lists the other member shows both together just before it. */
  lemma WitnessIsTogether(cfg: Config, run: seq<World>, e: Event, pair: Pair, start: nat, admission: Option<nat>) returns (i: nat)
    requires Run(cfg, run) && Genuine(Whole(run), e) && Relevant(e, pair, start, admission) && Witness(e, pair)
    ensures i + 1 < |run| && run[i].clock <= e.at == run[i + 1].clock && Together(run[i], pair)
    ensures |run[i].control.history| < e.sequence <= |run[i + 1].control.history|
  {
    hide Run, Truthful, Genuine, Replay;
    i := EventWorld(cfg, run, e);
    TruthfulAt(run[i].control, run[i + 1].control.history, e.sequence - 1, run[i + 1].clock);
    var o :| o in pair.Others(e.id) && o in e.concurrent;
    UsableIsHeld(cfg, run, i, o);
  }

  /** Soundness. Whatever reports are polled from whatever run, a derived interval implies a moment, no
      earlier than its start, when the sequence state of both requests existed on the worker; for an
      interval that rests on a retirement the moment is its end. */
  lemma OverlapIsReal(cfg: Config, run: seq<World>, snapshots: seq<Snapshot>, polled: seq<nat>, pair: Pair) returns (i: nat, t: nat)
    requires Run(cfg, run) && Polled(cfg, run, snapshots, polled) && Derived(pair, snapshots).Some?
    ensures During(run, i, t) && Together(run[i], pair)
    ensures var interval := Derived(pair, snapshots).value;
            && interval.start <= t && (interval.proof == RetirementEvent ==> t == interval.end)
  {
    RunIsNonempty(cfg, run);
    hide Run, Reports, Genuine, Together, Joint, Gather, Beginning, Witness, Relevant;
    var events := Gather(snapshots).Values();
    var joint := Select(snapshots, (s: Snapshot) => Joint(s, pair));
    var (start, admission) := Beginning(events, joint, pair).value;
    var after := Select(joint, (s: Snapshot) => At(s) >= start);
    var retirements := Select(events, (e: Event) => Relevant(e, pair, start, admission));
    var witnessed := Select(retirements, (e: Event) => Witness(e, pair));
    if witnessed != [] {
      var e := Earliest(witnessed);
      assert e in witnessed && e in retirements && e in events;
      GatherGenuine(cfg, run, snapshots, polled);
      ValuesGenuine(Whole(run), Gather(snapshots), e);
      i := WitnessIsTogether(cfg, run, e, pair, start, admission);
      t := e.at;
      RelevantIsLate(e, pair, start, admission);
    } else {
      var s := after[0];
      assert s in after && s in joint && s in snapshots;
      var k :| 0 <= k < |snapshots| && snapshots[k] == s;
      i, t := polled[k], At(s);
      JointIsTogether(cfg, run, i, s, pair);
      if i + 1 < |run| {
        TimePasses(cfg, run, i, i + 1);
      }
    }
  }

  lemma RelevantIsLate(e: Event, pair: Pair, start: nat, admission: Option<nat>)
    requires Relevant(e, pair, start, admission)
    ensures e.at >= start
  {}

  // ---------------------------------------------------------------------------- the whole interval

  predicate Admits(e: Event, id: string) {
    e.kind == Admitted && e.id == id
  }

  /** Event `p` admits `id`, and no other does. */
  ghost predicate Once(h: seq<Event>, id: string, p: nat) {
    p < |h| && Admits(h[p], id) && forall n :: 0 <= n < |h| && n != p ==> !Admits(h[n], id)
  }

  /** No event of the log admits a name of the pair a second time. */
  ghost predicate SingleUse(h: seq<Event>, pair: Pair) {
    forall m, n :: 0 <= m < n < |h| && h[m].kind == Admitted && h[n].kind == Admitted && pair.Has(h[m].id) ==> h[m].id != h[n].id
  }

  /** Everything that the log had said about the pair when it was polled is among the reports. */
  ghost predicate Retained(run: seq<World>, snapshots: seq<Snapshot>, polled: seq<nat>, pair: Pair) {
    forall k :: 0 <= k < |polled| && polled[k] < |run| ==> Covered(run[polled[k]].control.history, Gather(snapshots).Values(), pair)
  }

  ghost predicate Covered(h: seq<Event>, events: seq<Event>, pair: Pair) {
    forall n :: 0 <= n < |h| && pair.Has(h[n].id) ==> h[n] in events
  }

  lemma {:induction false} AdmittedBetween(h: seq<Event>, id: string, a: nat, b: nat) returns (n: nat)
    requires a <= b <= |h| && id !in Replay(h[..a]) && id in Replay(h[..b])
    ensures a <= n < b && Admits(h[n], id)
  {
    assert a < b && h[..b][..b - 1] == h[..b - 1];
    if id in Replay(h[..b - 1]) {
      n := AdmittedBetween(h, id, a, b - 1);
    } else {
      n := b - 1;
    }
  }

  lemma {:induction false} RetiredBetween(h: seq<Event>, id: string, a: nat, b: nat) returns (n: nat)
    requires a <= b <= |h| && id in Replay(h[..a]) && id !in Replay(h[..b])
    ensures a <= n < b && h[n].kind == Retired && h[n].id == id && id in Replay(h[..n])
  {
    assert a < b && h[..b][..b - 1] == h[..b - 1];
    if id in Replay(h[..b - 1]) {
      n := b - 1;
    } else {
      n := RetiredBetween(h, id, a, b - 1);
    }
  }

  /** A name admitted once and reserved after `q` events has been reserved ever since its admission. */
  lemma ReservedSince(h: seq<Event>, id: string, p: nat, q: nat)
    requires Once(h, id, p) && q <= |h| && id in Replay(h[..q])
    ensures p < q && forall l :: p < l <= q ==> id in Replay(h[..l])
  {
    hide Replay;
    StartsEmpty(h);
    var n := AdmittedBetween(h, id, 0, q);
    forall l | p < l <= q
      ensures id in Replay(h[..l])
    {
      if id !in Replay(h[..l]) {
        var m := AdmittedBetween(h, id, l, q);
      }
    }
  }

  lemma StartsEmpty(h: seq<Event>)
    ensures Replay(h[..0]) == {}
  {}

  lemma ActiveIsReplayed(cfg: Config, run: seq<World>, i: nat)
    requires Run(cfg, run) && i < |run| && cfg.observations
    ensures run[i].control.history <= Whole(run)
    ensures run[i].control.active.Keys == Replay(Whole(run)[..|run[i].control.history|])
  {
    hide Run, Replay, Exact;
    LogIsExact(cfg, run, i);
    TimePasses(cfg, run, i, |run| - 1);
    assert Whole(run)[..|run[i].control.history|] == run[i].control.history;
  }

  /** The later of two admissions, and the world that it leads to. */
  ghost predicate Entered(run: seq<World>, pair: Pair, a: nat, b: nat, p: nat, first: nat) {
    && run != [] && Once(Whole(run), pair.first, a) && Once(Whole(run), pair.second, b)
    && a <= p && b <= p && (p == a || p == b)
    && 0 < first < |run| && |run[first - 1].control.history| <= p < |run[first].control.history|
    && run[first].clock == Whole(run)[p].at
  }

  /** Both requests are reserved in every world from `first` to `last`. */
  predicate ReservedThroughout(run: seq<World>, pair: Pair, first: nat, last: nat) {
    first <= last < |run|
    && forall i :: first <= i <= last ==> pair.first in run[i].control.active && pair.second in run[i].control.active
  }

  lemma LaterWorld(cfg: Config, run: seq<World>, i: nat, j: nat)
    requires Run(cfg, run) && i < |run| && j < |run| && |run[i].control.history| < |run[j].control.history|
    ensures i < j
  {
    hide Run;
    if j <= i {
      TimePasses(cfg, run, j, i);
    }
  }

  lemma BothReserved(cfg: Config, run: seq<World>, pair: Pair, a: nat, b: nat, p: nat, first: nat, m: nat)
    requires Run(cfg, run) && cfg.observations && Entered(run, pair, a, b, p, first) && m < |run|
    requires pair.first in run[m].control.active && pair.second in run[m].control.active
    ensures p < |run[m].control.history| && ReservedThroughout(run, pair, first, m)
  {
    hide Run, Replay, Once;
    ActiveIsReplayed(cfg, run, m);
    var q := |run[m].control.history|;
    ReservedSince(Whole(run), pair.first, a, q);
    ReservedSince(Whole(run), pair.second, b, q);
    LaterWorld(cfg, run, first - 1, m);
    forall i | first <= i <= m
      ensures pair.first in run[i].control.active && pair.second in run[i].control.active
    {
      TimePasses(cfg, run, first, i);
      TimePasses(cfg, run, i, m);
      ActiveIsReplayed(cfg, run, i);
    }
  }

  /** A usable request stays usable while it is reserved. */
  lemma {:induction false} StaysUsableWhile(cfg: Config, run: seq<World>, id: string, p: nat, m: nat, q: nat)
    requires Run(cfg, run) && cfg.observations && run != [] && Once(Whole(run), id, p) && m <= q < |run|
    requires p < |run[m].control.history| && forall i :: m <= i <= q ==> id in run[i].control.active
    requires !run[m].control.active[id].allocating
    ensures !run[q].control.active[id].allocating
    decreases q
  {
    hide Run, Invariant, Extends, Count, Once;
    if m < q {
      StaysUsableWhile(cfg, run, id, p, m, q - 1);
      RunEvolves(cfg, run, q - 1);
      if run[q].control.active[id].allocating {
        assert Readmitted(run[q - 1].control, run[q].control, id);
        NotReadmitted(cfg, run, id, p, m, q);
      }
    }
  }

  lemma NotReadmitted(cfg: Config, run: seq<World>, id: string, p: nat, m: nat, q: nat)
    requires Run(cfg, run) && run != [] && Once(Whole(run), id, p) && m < q < |run| && p < |run[m].control.history|
    ensures !Readmitted(run[q - 1].control, run[q].control, id)
  {
    hide Run;
    TimePasses(cfg, run, m, q - 1);
    TimePasses(cfg, run, q, |run| - 1);
    var s, t := run[q - 1].control.history, run[q].control.history;
    forall n | |s| <= n < |t|
      ensures !(t[n].kind == Admitted && t[n].id == id)
    {
      assert Whole(run)[n] == t[n];
      assert !Admits(Whole(run)[n], id);
    }
  }

  /** Events are in order of time. */
  lemma EventsInOrder(cfg: Config, run: seq<World>, p: nat, r: nat)
    requires Run(cfg, run) && run != [] && p <= r < |Whole(run)|
    ensures Whole(run)[p].at <= Whole(run)[r].at
  {
    hide Run, Truthful;
    var f := LoggedWhen(cfg, run, |run| - 1, p);
    var g := LoggedWhen(cfg, run, |run| - 1, r);
    TruthfulAt(run[f].control, run[f + 1].control.history, p, run[f + 1].clock);
    TruthfulAt(run[g].control, run[g + 1].control.history, r, run[g + 1].clock);
    if g < f {
      TimePasses(cfg, run, g + 1, f);
    }
    TimePasses(cfg, run, f + 1, g + 1);
  }

  /** What is assumed and found so far: both admissions known, and both requests usable in world `m`. */
  ghost predicate Usable(cfg: Config, run: seq<World>, pair: Pair, a: nat, b: nat, p: nat, first: nat, m: nat) {
    && Run(cfg, run) && cfg.observations && pair.first != pair.second && Entered(run, pair, a, b, p, first) && m < |run|
    && pair.first in run[m].control.active && pair.second in run[m].control.active
    && !run[m].control.active[pair.first].allocating && !run[m].control.active[pair.second].allocating
  }

  function AdmissionIndex(pair: Pair, id: string, a: nat, b: nat): nat {
    if id == pair.first then a else b
  }

  /** Reserved from world `m` until event `r`, a member of the pair is usable until then. */
  lemma UsableUntil(cfg: Config, run: seq<World>, pair: Pair, a: nat, b: nat, p: nat, first: nat, m: nat, id: string, r: nat, g: nat)
    requires Usable(cfg, run, pair, a, b, p, first, m) && pair.Has(id)
    requires |run[m].control.history| <= r <= |Whole(run)| && id in Replay(Whole(run)[..r])
    requires m <= g < |run| && |run[g].control.history| <= r
    ensures id in run[g].control.active && !run[g].control.active[id].allocating
  {
    hide Run, Replay, Once;
    BothReserved(cfg, run, pair, a, b, p, first, m);
    var x := AdmissionIndex(pair, id, a, b);
    ReservedSince(Whole(run), id, x, r);
    forall i | m <= i <= g
      ensures id in run[i].control.active
    {
      TimePasses(cfg, run, m, i);
      TimePasses(cfg, run, i, g);
      ActiveIsReplayed(cfg, run, i);
    }
    StaysUsableWhile(cfg, run, id, x, m, g);
  }

  /** A member retired after both were usable: its event comes after world `m`. */
  lemma RetiredAfter(cfg: Config, run: seq<World>, pair: Pair, a: nat, b: nat, p: nat, first: nat, m: nat, n: nat) returns (q: nat)
    requires Usable(cfg, run, pair, a, b, p, first, m)
    requires p < n < |Whole(run)| && Whole(run)[n].kind == Retired && pair.Has(Whole(run)[n].id)
    ensures |run[m].control.history| <= n && m <= q && q + 1 < |run|
    ensures |run[q].control.history| <= n < |run[q + 1].control.history| && run[q + 1].control.history <= Whole(run)
    ensures Truthful(run[q].control, run[q + 1].control.history, n, run[q + 1].clock)
  {
    hide Run, Truthful, Replay, Once;
    var h, id := Whole(run), Whole(run)[n].id;
    ActiveIsReplayed(cfg, run, m);
    if n < |run[m].control.history| {
      RetiredIsGone(h, n);
      ReservedSince(h, id, AdmissionIndex(pair, id, a, b), |run[m].control.history|);
    }
    q := LoggedWhen(cfg, run, |run| - 1, n);
    LaterWorld(cfg, run, m, q + 1);
  }

  lemma RetiredIsGone(h: seq<Event>, n: nat)
    requires n < |h| && h[n].kind == Retired
    ensures h[n].id !in Replay(h[..n + 1])
  {
    assert h[..n + 1][..n] == h[..n];
  }

  /** The retirement of one member after both were usable lists the other, if that is still reserved... */
  lemma RetirementListsOther(cfg: Config, run: seq<World>, pair: Pair, a: nat, b: nat, p: nat, first: nat, m: nat, n: nat, o: string)
    requires Usable(cfg, run, pair, a, b, p, first, m)
    requires p < n < |Whole(run)| && Whole(run)[n].kind == Retired && pair.Has(Whole(run)[n].id)
    requires pair.Has(o) && o != Whole(run)[n].id && o in Replay(Whole(run)[..n + 1])
    ensures Witness(Whole(run)[n], pair)
  {
    hide Run, Truthful, Replay, Entered, Usable;
    UsableKnows(cfg, run, pair, a, b, p, first, m);
    var q := RetiredAfter(cfg, run, pair, a, b, p, first, m, n);
    UsableUntil(cfg, run, pair, a, b, p, first, m, o, n + 1, q);
    var h := run[q + 1].control.history;
    TruthfulAt(run[q].control, h, n, run[q + 1].clock);
    assert h[..n + 1] == Whole(run)[..n + 1];
    assert o in Live(run[q].control, h, n);
  }

  lemma UsableKnows(cfg: Config, run: seq<World>, pair: Pair, a: nat, b: nat, p: nat, first: nat, m: nat)
    requires Usable(cfg, run, pair, a, b, p, first, m)
    ensures Run(cfg, run) && cfg.observations && run != [] && m < |run| && 0 < first < |run|
    ensures p < |Whole(run)| && run[first].clock == Whole(run)[p].at
    ensures Together(run[m], pair)
    ensures pair.first in run[m].control.active && pair.second in run[m].control.active
  {
    UsableIsHeld(cfg, run, m, pair.first);
    UsableIsHeld(cfg, run, m, pair.second);
  }

  /** ...and otherwise the other was retired in between, which is relevant evidence. */
  lemma OtherRetiredBetween(cfg: Config, run: seq<World>, pair: Pair, a: nat, b: nat, p: nat, first: nat, m: nat, n: nat, o: string)
    returns (r: nat)
    requires Usable(cfg, run, pair, a, b, p, first, m)
    requires p < n < |Whole(run)| && Whole(run)[n].kind == Retired && pair.Has(Whole(run)[n].id)
    requires pair.Has(o) && o != Whole(run)[n].id && o !in Replay(Whole(run)[..n + 1])
    ensures p < r < n && Relevant(Whole(run)[r], pair, Whole(run)[p].at, Some(p + 1)) && Whole(run)[r].sequence == r + 1
  {
    hide Run, Truthful, Replay, Entered, Usable;
    UsableKnows(cfg, run, pair, a, b, p, first, m);
    var h := Whole(run);
    var late := RetiredAfter(cfg, run, pair, a, b, p, first, m, n);
    ActiveIsReplayed(cfg, run, m);
    r := RetiredBetween(h, o, |run[m].control.history|, n + 1);
    EnteredBefore(cfg, run, pair, a, b, p, first, m);
    var g := RetiredAfter(cfg, run, pair, a, b, p, first, m, r);
    UsableUntil(cfg, run, pair, a, b, p, first, m, o, r, g);
    TruthfulAt(run[g].control, run[g + 1].control.history, r, run[g + 1].clock);
    EventsInOrder(cfg, run, p, r);
    RunNumbers(cfg, run, |run| - 1, r);
  }

  lemma EnteredBefore(cfg: Config, run: seq<World>, pair: Pair, a: nat, b: nat, p: nat, first: nat, m: nat)
    requires Usable(cfg, run, pair, a, b, p, first, m)
    ensures p < |run[m].control.history| && ReservedThroughout(run, pair, first, m)
  {
    hide Run, Replay, Once;
    BothReserved(cfg, run, pair, a, b, p, first, m);
  }

  // ---------------------------------------------------------------------------- which reports say so

  lemma {:induction false} PutAllFrom(l: Ledger, list: seq<Event>, n: nat)
    requires l.Valid() && n in PutAll(l, list).events
    ensures (n in l.events && PutAll(l, list).events[n] == l.events[n]) || PutAll(l, list).events[n] in list
    decreases |list|
  {
    if list != [] {
      assert list == list[..|list| - 1] + [list[|list| - 1]];
      if n != list[|list| - 1].sequence {
        PutAllFrom(l, list[..|list| - 1], n);
      }
    }
  }

  lemma {:induction false} GatheredFrom(snapshots: seq<Snapshot>, n: nat) returns (k: nat)
    requires n in Gather(snapshots).events
    ensures k < |snapshots| && Gather(snapshots).events[n] in snapshots[k].events
    decreases |snapshots|
  {
    var last := |snapshots| - 1;
    PutAllFrom(Gather(snapshots[..last]), snapshots[last].events, n);
    if Gather(snapshots).events[n] in snapshots[last].events {
      k := last;
    } else {
      k := GatheredFrom(snapshots[..last], n);
    }
  }

  /** A gathered event is in the log of a world it was polled from. */
  lemma GatheredWorld(cfg: Config, run: seq<World>, snapshots: seq<Snapshot>, polled: seq<nat>, e: Event) returns (k: nat)
    requires Run(cfg, run) && run != [] && Polled(cfg, run, snapshots, polled) && e in Gather(snapshots).Values()
    ensures Genuine(Whole(run), e) && cfg.observations
    ensures k < |polled| && polled[k] < |run| && e.sequence <= |run[polled[k]].control.history|
  {
    hide Run, RowIs, Gather, Reports, Whole;
    GatherGenuine(cfg, run, snapshots, polled);
    ValuesGenuine(Whole(run), Gather(snapshots), e);
    var n :| n in Gather(snapshots).events && Gather(snapshots).events[n] == e;
    k := GatheredFrom(snapshots, n);
    ReportedEvent(cfg, run, polled[k], snapshots[k], e);
  }

  /** An event of a report is in the log of the world it was polled from. */
  lemma ReportedEvent(cfg: Config, run: seq<World>, j: nat, s: Snapshot, e: Event)
    requires Run(cfg, run) && j < |run| && Reports(cfg, run[j], s) && e in s.events
    ensures cfg.observations && e.sequence <= |run[j].control.history|
  {
    hide Run, RowIs;
    var i :| 0 <= i < |s.events| && s.events[i] == e;
    var h := run[j].control.history;
    RunNumbers(cfg, run, j, |h| - |s.events| + i);
  }

  /** The retained admission of a reserved member is its only one. */
  lemma AdmissionKnown(cfg: Config, run: seq<World>, snapshots: seq<Snapshot>, polled: seq<nat>, pair: Pair, id: string, m: nat, k: nat)
    returns (p: nat)
    requires Run(cfg, run) && cfg.observations && run != [] && Polled(cfg, run, snapshots, polled)
    requires SingleUse(Whole(run), pair) && Retained(run, snapshots, polled, pair) && pair.Has(id)
    requires m < |run| && id in run[m].control.active
    requires k < |polled| && |run[m].control.history| <= |run[polled[k]].control.history|
    ensures Once(Whole(run), id, p) && AdmissionOf(Gather(snapshots).Values(), id) == Some(Whole(run)[p])
    ensures Whole(run)[p].sequence == p + 1
  {
    hide Run, Replay, Genuine, Reports, RowIs, Gather;
    var h, events := Whole(run), Gather(snapshots).Values();
    ActiveIsReplayed(cfg, run, m);
    StartsEmpty(h);
    p := AdmittedBetween(h, id, 0, |run[m].control.history|);
    assert Once(h, id, p);
    ActiveIsReplayed(cfg, run, polled[k]);
    assert h[p] == run[polled[k]].control.history[p];
    assert h[p] in events;
    RunNumbers(cfg, run, |run| - 1, p);
    GatherGenuine(cfg, run, snapshots, polled);
    GenuineOnce(h, Gather(snapshots), id, p);
  }

  lemma GenuineOnce(h: seq<Event>, l: Ledger, id: string, p: nat)
    requires GenuineLedger(h, l) && Once(h, id, p) && h[p] in l.Values()
    ensures AdmissionOf(l.Values(), id) == Some(h[p])
  {
    assert AdmissionOf(l.Values(), id).Some?;
    var e := AdmissionOf(l.Values(), id).value;
    ValuesGenuine(h, l, e);
    assert Admits(h[e.sequence - 1], id);
  }

  /** Evidence that both members were usable together, and the report it came with. */
  lemma Evidence(cfg: Config, run: seq<World>, snapshots: seq<Snapshot>, polled: seq<nat>, pair: Pair) returns (m: nat, k: nat)
    requires Run(cfg, run) && run != [] && Polled(cfg, run, snapshots, polled) && Derived(pair, snapshots).Some?
    ensures cfg.observations && m < |run| && Together(run[m], pair)
    ensures k < |polled| && polled[k] < |run| && |run[m].control.history| <= |run[polled[k]].control.history|
  {
    hide Run, Reports, Genuine, Together, Joint, Gather, Beginning, Witness, Relevant;
    var events := Gather(snapshots).Values();
    var joint := Select(snapshots, (s: Snapshot) => Joint(s, pair));
    var (start, admission) := Beginning(events, joint, pair).value;
    var after := Select(joint, (s: Snapshot) => At(s) >= start);
    var retirements := Select(events, (e: Event) => Relevant(e, pair, start, admission));
    var witnessed := Select(retirements, (e: Event) => Witness(e, pair));
    if witnessed != [] {
      var e := witnessed[0];
      assert e in witnessed && e in retirements && e in events;
      k := GatheredWorld(cfg, run, snapshots, polled, e);
      m := WitnessIsTogether(cfg, run, e, pair, start, admission);
    } else {
      assert after[0] in after && after[0] in joint;
      k :| 0 <= k < |snapshots| && snapshots[k] == after[0];
      m := polled[k];
      JointIsTogether(cfg, run, m, after[0], pair);
    }
  }

  /** Both admissions are known, and lead to world `first`. */
  lemma BothAdmitted(cfg: Config, run: seq<World>, snapshots: seq<Snapshot>, polled: seq<nat>, pair: Pair)
    returns (a: nat, b: nat, p: nat, first: nat)
    requires Run(cfg, run) && run != [] && Polled(cfg, run, snapshots, polled) && Derived(pair, snapshots).Some?
    requires pair.first != pair.second && SingleUse(Whole(run), pair) && Retained(run, snapshots, polled, pair)
    ensures cfg.observations && Entered(run, pair, a, b, p, first)
    ensures var joint := Select(snapshots, (s: Snapshot) => Joint(s, pair));
            Beginning(Gather(snapshots).Values(), joint, pair) == Some((Whole(run)[p].at, Some(p + 1)))
  {
    hide Run, Polled, Derived, Gather, Once, SingleUse, Retained, Truthful, Joint;
    var m, k := Evidence(cfg, run, snapshots, polled, pair);
    PolledLengths(cfg, run, snapshots, polled);
    a := AdmissionKnown(cfg, run, snapshots, polled, pair, pair.first, m, k);
    b := AdmissionKnown(cfg, run, snapshots, polled, pair, pair.second, m, k);
    OnceApart(Whole(run), pair.first, pair.second, a, b);
    p := if a < b then b else a;
    var i := LoggedWhen(cfg, run, |run| - 1, p);
    TruthfulAt(run[i].control, run[i + 1].control.history, p, run[i + 1].clock);
    first := i + 1;
  }

  lemma PolledLengths(cfg: Config, run: seq<World>, snapshots: seq<Snapshot>, polled: seq<nat>)
    requires Polled(cfg, run, snapshots, polled)
    ensures |polled| == |snapshots|
  {}

  lemma OnceApart(h: seq<Event>, first: string, second: string, a: nat, b: nat)
    requires first != second && Once(h, first, a) && Once(h, second, b)
    ensures a != b && a < |h| && b < |h|
  {}

  // ---------------------------------------------------------------------------- throughout

  /** Among retained retirements after a joint report, the first is a witness. */
  lemma FirstRetirementWitnesses(cfg: Config, run: seq<World>, snapshots: seq<Snapshot>, polled: seq<nat>, pair: Pair,
                                 a: nat, b: nat, p: nat, first: nat, m: nat, e: Event)
    requires Usable(cfg, run, pair, a, b, p, first, m)
    requires Polled(cfg, run, snapshots, polled) && Retained(run, snapshots, polled, pair)
    requires e in Gather(snapshots).Values() && p < |Whole(run)| && Relevant(e, pair, Whole(run)[p].at, Some(p + 1))
    requires forall r :: r in Gather(snapshots).Values() && Relevant(r, pair, Whole(run)[p].at, Some(p + 1)) ==> e.sequence <= r.sequence
    ensures Witness(e, pair)
  {
    hide Run, Polled, Usable, Witness, Replay, Gather;
    UsableKnows(cfg, run, pair, a, b, p, first, m);
    var k := GatheredWorld(cfg, run, snapshots, polled, e);
    var n := e.sequence - 1;
    var o := if e.id == pair.first then pair.second else pair.first;
    UsableApart(cfg, run, pair, a, b, p, first, m);
    if o in Replay(Whole(run)[..n + 1]) {
      RetirementListsOther(cfg, run, pair, a, b, p, first, m, n, o);
    } else {
      var r := EarlierRetirement(cfg, run, snapshots, polled, pair, a, b, p, first, m, n, o, k);
    }
  }

  lemma EarlierRetirement(cfg: Config, run: seq<World>, snapshots: seq<Snapshot>, polled: seq<nat>, pair: Pair,
                          a: nat, b: nat, p: nat, first: nat, m: nat, n: nat, o: string, k: nat) returns (r: Event)
    requires Usable(cfg, run, pair, a, b, p, first, m)
    requires Retained(run, snapshots, polled, pair)
    requires p < n < |Whole(run)| && Whole(run)[n].kind == Retired && pair.Has(Whole(run)[n].id)
    requires pair.Has(o) && o != Whole(run)[n].id && o !in Replay(Whole(run)[..n + 1])
    requires k < |polled| && polled[k] < |run| && n < |run[polled[k]].control.history|
    ensures r in Gather(snapshots).Values() && Relevant(r, pair, Whole(run)[p].at, Some(p + 1)) && r.sequence < n + 1
  {
    hide Run, Usable, Replay, Gather;
    UsableKnows(cfg, run, pair, a, b, p, first, m);
    var i := OtherRetiredBetween(cfg, run, pair, a, b, p, first, m, n, o);
    ActiveIsReplayed(cfg, run, polled[k]);
    r := Whole(run)[i];
    assert r == run[polled[k]].control.history[i];
  }

  lemma UsableApart(cfg: Config, run: seq<World>, pair: Pair, a: nat, b: nat, p: nat, first: nat, m: nat)
    requires Usable(cfg, run, pair, a, b, p, first, m)
    ensures pair.first != pair.second
  {}

  /** The interval's evidence places its end: a world in which both are together, in force at the end. */
  lemma EndingWorld(cfg: Config, run: seq<World>, snapshots: seq<Snapshot>, polled: seq<nat>, pair: Pair,
                    a: nat, b: nat, p: nat, first: nat) returns (last: nat)
    requires Run(cfg, run) && run != [] && cfg.observations && Polled(cfg, run, snapshots, polled)
    requires pair.first != pair.second && Retained(run, snapshots, polled, pair) && Entered(run, pair, a, b, p, first)
    requires var joint := Select(snapshots, (s: Snapshot) => Joint(s, pair));
             Ending(Gather(snapshots).Values(), joint, pair, Whole(run)[p].at, Some(p + 1)).Some?
    ensures var joint := Select(snapshots, (s: Snapshot) => Joint(s, pair));
            During(run, last, Ending(Gather(snapshots).Values(), joint, pair, Whole(run)[p].at, Some(p + 1)).value.end)
    ensures Together(run[last], pair)
  {
    hide Run, Reports, Genuine, Together, Joint, Gather, Witness, Relevant, Once, Retained, Entered;
    EnteredKnows(run, pair, a, b, p, first);
    var start, admission := Whole(run)[p].at, Some(p + 1);
    var events := Gather(snapshots).Values();
    var joint := Select(snapshots, (s: Snapshot) => Joint(s, pair));
    var after := Select(joint, (s: Snapshot) => At(s) >= start);
    var retirements := Select(events, (e: Event) => Relevant(e, pair, start, admission));
    var witnessed := Select(retirements, (e: Event) => Witness(e, pair));
    if witnessed != [] {
      var e := Earliest(witnessed);
      assert e in witnessed && e in retirements && e in events;
      last := WitnessEnds(cfg, run, snapshots, polled, pair, start, admission, e);
    } else {
      assert after[0] in after && after[0] in joint;
      NoRetirements(cfg, run, snapshots, polled, pair, a, b, p, first);
      last := JointEnds(cfg, run, snapshots, polled, pair, start, after);
    }
  }

  lemma WitnessEnds(cfg: Config, run: seq<World>, snapshots: seq<Snapshot>, polled: seq<nat>, pair: Pair, start: nat,
                    admission: Option<nat>, e: Event) returns (last: nat)
    requires Run(cfg, run) && run != [] && Polled(cfg, run, snapshots, polled)
    requires e in Gather(snapshots).Values() && Relevant(e, pair, start, admission) && Witness(e, pair)
    ensures During(run, last, Larger(e.at, start)) && Together(run[last], pair)
  {
    hide Run, Polled, Together, Gather, Witness, Relevant, Truthful;
    var k := GatheredWorld(cfg, run, snapshots, polled, e);
    last := WitnessIsTogether(cfg, run, e, pair, start, admission);
    RelevantIsLate(e, pair, start, admission);
  }

  lemma JointEnds(cfg: Config, run: seq<World>, snapshots: seq<Snapshot>, polled: seq<nat>, pair: Pair, start: nat, after: seq<Snapshot>)
    returns (last: nat)
    requires Run(cfg, run) && run != [] && Polled(cfg, run, snapshots, polled) && after != []
    requires forall s :: s in after ==> s in snapshots && Joint(s, pair) && At(s) >= start
    ensures During(run, last, Larger(Latest(after), start)) && Together(run[last], pair)
  {
    hide Run, Reports, Together, Joint;
    var latest := Latest(after);
    var s :| s in after && latest == At(s);
    var k :| 0 <= k < |snapshots| && snapshots[k] == s;
    last := polled[k];
    JointIsTogether(cfg, run, last, s, pair);
    if last + 1 < |run| {
      TimePasses(cfg, run, last, last + 1);
    }
  }

  lemma EnteredKnows(run: seq<World>, pair: Pair, a: nat, b: nat, p: nat, first: nat)
    requires Entered(run, pair, a, b, p, first)
    ensures p < |Whole(run)| && 0 < first < |run| && run[first].clock == Whole(run)[p].at
  {}

  /** If no retained retirement is a witness, but a joint report exists, there is no retirement at all. */
  lemma NoRetirements(cfg: Config, run: seq<World>, snapshots: seq<Snapshot>, polled: seq<nat>, pair: Pair,
                      a: nat, b: nat, p: nat, first: nat)
    requires Run(cfg, run) && run != [] && cfg.observations && Polled(cfg, run, snapshots, polled)
    requires pair.first != pair.second && Retained(run, snapshots, polled, pair)
    requires Entered(run, pair, a, b, p, first) && p < |Whole(run)|
    requires exists s :: s in snapshots && Joint(s, pair)
    ensures var retirements := Select(Gather(snapshots).Values(), (e: Event) => Relevant(e, pair, Whole(run)[p].at, Some(p + 1)));
            retirements != [] ==> Select(retirements, (e: Event) => Witness(e, pair)) != []
  {
    hide Run, Reports, Joint, Gather, Witness, Relevant, Once, Retained, Entered;
    var events := Gather(snapshots).Values();
    var retirements := Select(events, (e: Event) => Relevant(e, pair, Whole(run)[p].at, Some(p + 1)));
    if retirements != [] {
      var e := Earliest(retirements);
      assert e in retirements && e in events;
      var s :| s in snapshots && Joint(s, pair);
      var k :| 0 <= k < |snapshots| && snapshots[k] == s;
      JointIsTogether(cfg, run, polled[k], s, pair);
      assert Usable(cfg, run, pair, a, b, p, first, polled[k]);
      FirstRetirementWitnesses(cfg, run, snapshots, polled, pair, a, b, p, first, polled[k], e);
      assert e in Select(retirements, (e: Event) => Witness(e, pair));
    }
  }

  /** If the names of the pair are used once and the log had not lost what it said about them, both
      requests are reserved from the world entered at the interval's start to a world in force at its
      end, and in that world the sequence state of both exists. */
  lemma ReservedThroughoutOverlap(cfg: Config, run: seq<World>, snapshots: seq<Snapshot>, polled: seq<nat>, pair: Pair)
    returns (first: nat, last: nat)
    requires Run(cfg, run) && run != [] && Polled(cfg, run, snapshots, polled) && Derived(pair, snapshots).Some?
    requires pair.first != pair.second && SingleUse(Whole(run), pair) && Retained(run, snapshots, polled, pair)
    ensures ReservedThroughout(run, pair, first, last) && run[first].clock == Derived(pair, snapshots).value.start
    ensures During(run, last, Derived(pair, snapshots).value.end) && Together(run[last], pair)
  {
    hide Run, Polled, SingleUse, Retained, Gather, Joint, Once, Ending, Beginning;
    var a, b, p: nat;
    a, b, p, first := BothAdmitted(cfg, run, snapshots, polled, pair);
    EnteredKnows(run, pair, a, b, p, first);
    last := EndingWorld(cfg, run, snapshots, polled, pair, a, b, p, first);
    BothReserved(cfg, run, pair, a, b, p, first, last);
    EndingStarts(pair, snapshots, Whole(run)[p].at, Some(p + 1));
  }

  lemma EndingStarts(pair: Pair, snapshots: seq<Snapshot>, start: nat, admission: Option<nat>)
    requires var joint := Select(snapshots, (s: Snapshot) => Joint(s, pair));
             Beginning(Gather(snapshots).Values(), joint, pair) == Some((start, admission))
    requires Derived(pair, snapshots).Some?
    ensures Derived(pair, snapshots).value.start == start
  {
    hide Gather, Joint, Beginning;
  }
}
