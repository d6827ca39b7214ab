/** A pool of host buffers: where every block is, what the counters say, and which block is reused. */
module BufferPool {
  import opened Results
  import opened Memory

  /** A block of storage; its number stands for the storage itself. */
  datatype Block = Block(id: nat, capacity: nat, alignment: nat) {
    predicate Fits(minimum: nat, wanted: nat) {
      capacity >= minimum && alignment >= wanted
    }
  }

  const NATURAL_ALIGNMENT: nat := 16

  predicate PowerOfTwo(n: nat)
    decreases n
  {
    n == 1 || (n > 0 && n % 2 == 0 && PowerOfTwo(n / 2))
  }

  predicate ValidAlignment(n: nat) {
    n >= NATURAL_ALIGNMENT && PowerOfTwo(n)
  }

  function PowerOf(k: nat): nat {
    if k == 0 then 1 else 2 * PowerOf(k - 1)
  }

  lemma {:induction false} PowersDouble(k: nat)
    ensures PowerOfTwo(PowerOf(k)) && PowerOf(k) > 0
  {
    if k > 0 {
      PowersDouble(k - 1);
    }
  }

  /** An alignment is one of the powers of two from 16 on. */
  lemma {:induction false} AlignmentIsPower(n: nat) returns (k: nat)
    ensures PowerOfTwo(n) ==> n == PowerOf(k)
    ensures ValidAlignment(n) ==> k >= 4 && n == PowerOf(k)
  {
    k := 0;
    if PowerOfTwo(n) && n != 1 {
      var half := AlignmentIsPower(n / 2);
      k := half + 1;
      if k < 4 {
        assert PowerOf(1) == 2 && PowerOf(2) == 4 && PowerOf(3) == 8;
      }
    }
  }

  lemma {:induction false} PowersAlign(k: nat)
    requires k >= 4
    ensures ValidAlignment(PowerOf(k))
  {
    PowersDouble(k);
    if k > 4 {
      PowersAlign(k - 1);
    } else {
      assert PowerOf(4) == 16;
    }
  }

  function Bytes(blocks: seq<Block>): nat {
    if blocks == [] then 0 else Bytes(blocks[..|blocks| - 1]) + blocks[|blocks| - 1].capacity
  }

  lemma {:induction false} BytesJoin(a: seq<Block>, b: seq<Block>)
    ensures Bytes(a + b) == Bytes(a) + Bytes(b)
    decreases |b|
  {
    if b == [] {
      assert a + b == a;
    } else {
      BytesJoin(a, b[..|b| - 1]);
      assert (a + b)[..|a + b| - 1] == a + b[..|b| - 1];
    }
  }

  lemma BytesOfOne(b: Block)
    ensures Bytes([b]) == b.capacity
  {
    assert [b][..0] == [];
  }

  lemma BytesWithout(blocks: seq<Block>, i: nat)
    requires i < |blocks|
    ensures Bytes(blocks[..i] + blocks[i + 1..]) + blocks[i].capacity == Bytes(blocks)
  {
    hide Bytes;
    assert blocks == blocks[..i] + ([blocks[i]] + blocks[i + 1..]);
    BytesJoin(blocks[..i], [blocks[i]] + blocks[i + 1..]);
    BytesJoin([blocks[i]], blocks[i + 1..]);
    BytesJoin(blocks[..i], blocks[i + 1..]);
    BytesOfOne(blocks[i]);
  }

  /** The order of the search: blocks that fit first, then smaller ones. */
  predicate Less(a: Block, b: Block, minimum: nat, wanted: nat) {
    if a.Fits(minimum, wanted) != b.Fits(minimum, wanted) then a.Fits(minimum, wanted) else a.capacity < b.capacity
  }

  predicate SomeFit(blocks: seq<Block>, minimum: nat, wanted: nat) {
    exists i :: 0 <= i < |blocks| && blocks[i].Fits(minimum, wanted)
  }

  /** Block `i` fits, no fitting block is smaller, and none as small comes before it. */
  predicate BestFit(blocks: seq<Block>, i: nat, minimum: nat, wanted: nat) {
    && i < |blocks| && blocks[i].Fits(minimum, wanted)
    && forall j :: 0 <= j < |blocks| && blocks[j].Fits(minimum, wanted) ==>
         blocks[i].capacity <= blocks[j].capacity && (j < i ==> blocks[i].capacity < blocks[j].capacity)
  }

  /** The first of the least blocks, if it fits. */
  method MinElement(blocks: seq<Block>, minimum: nat, wanted: nat) returns (best: Option<nat>)
    ensures best.Some? <==> SomeFit(blocks, minimum, wanted)
    ensures best.Some? ==> BestFit(blocks, best.value, minimum, wanted)
  {
    if blocks == [] {
      return None;
    }
    var least := 0;
    for i := 1 to |blocks|
      invariant least < i && forall j :: 0 <= j < i ==> !Less(blocks[j], blocks[least], minimum, wanted)
      invariant forall j :: 0 <= j < least ==> Less(blocks[least], blocks[j], minimum, wanted)
    {
      if Less(blocks[i], blocks[least], minimum, wanted) {
        least := i;
      }
    }
    best := if blocks[least].Fits(minimum, wanted) then Some(least) else None;
  }

  // ---------------------------------------------------------------------------- where blocks are

  function Ids(blocks: seq<Block>): set<nat> {
    set i | 0 <= i < |blocks| :: blocks[i].id
  }

  predicate DistinctBlocks(blocks: seq<Block>) {
    forall i, j :: 0 <= i < j < |blocks| ==> blocks[i].id != blocks[j].id
  }

  function All(total: nat): (r: set<nat>)
    ensures forall id: nat :: id in r <==> id < total
  {
    if total == 0 then {} else All(total - 1) + {total - 1}
  }

  /** Every block ever allocated is in exactly one place. */
  ghost predicate InOnePlace(cached: seq<Block>, outstanding: map<nat, nat>, freed: set<nat>, total: nat) {
    && DistinctBlocks(cached) && Ids(cached) !! outstanding.Keys && Ids(cached) !! freed && outstanding.Keys !! freed
    && Ids(cached) + outstanding.Keys + freed == All(total)
  }

  lemma PushedIds(blocks: seq<Block>, b: Block)
    requires DistinctBlocks(blocks) && b.id !in Ids(blocks)
    ensures DistinctBlocks(blocks + [b]) && Ids(blocks + [b]) == Ids(blocks) + {b.id}
  {
    var more := blocks + [b];
    forall id | id in Ids(blocks)
      ensures id in Ids(more)
    {
      var i :| 0 <= i < |blocks| && blocks[i].id == id;
      assert more[i].id == id;
    }
    assert more[|blocks|] == b;
  }

  lemma RemovedIds(blocks: seq<Block>, i: nat)
    requires DistinctBlocks(blocks) && i < |blocks|
    ensures DistinctBlocks(blocks[..i] + blocks[i + 1..])
    ensures blocks[i].id in Ids(blocks) && Ids(blocks[..i] + blocks[i + 1..]) == Ids(blocks) - {blocks[i].id}
  {
    var less := blocks[..i] + blocks[i + 1..];
    forall j | 0 <= j < |less|
      ensures less[j] == blocks[if j < i then j else j + 1]
    {}
    forall id | id in Ids(blocks) && id != blocks[i].id
      ensures id in Ids(less)
    {
      var j :| 0 <= j < |blocks| && blocks[j].id == id;
      assert less[if j < i then j else j - 1].id == id;
    }
  }

  lemma PlacedReused(cached: seq<Block>, outstanding: map<nat, nat>, freed: set<nat>, total: nat, i: nat)
    requires InOnePlace(cached, outstanding, freed, total) && i < |cached|
    ensures cached[i].id !in outstanding && cached[i].id !in freed
    ensures InOnePlace(cached[..i] + cached[i + 1..], outstanding[cached[i].id := cached[i].capacity], freed, total)
  {
    RemovedIds(cached, i);
    assert outstanding[cached[i].id := cached[i].capacity].Keys == outstanding.Keys + {cached[i].id};
  }

  lemma PlacedNew(cached: seq<Block>, outstanding: map<nat, nat>, freed: set<nat>, total: nat, capacity: nat)
    requires InOnePlace(cached, outstanding, freed, total)
    ensures total !in outstanding && total !in freed
    ensures InOnePlace(cached, outstanding[total := capacity], freed, total + 1)
  {
    assert total !in All(total);
    assert All(total + 1) == All(total) + {total};
    assert outstanding[total := capacity].Keys == outstanding.Keys + {total};
  }

  lemma PlacedCached(cached: seq<Block>, outstanding: map<nat, nat>, freed: set<nat>, total: nat, b: Block)
    requires InOnePlace(cached, outstanding, freed, total) && b.id in outstanding
    ensures InOnePlace(cached + [b], outstanding - {b.id}, freed, total)
  {
    PushedIds(cached, b);
    assert (outstanding - {b.id}).Keys == outstanding.Keys - {b.id};
  }

  lemma PlacedFreed(cached: seq<Block>, outstanding: map<nat, nat>, freed: set<nat>, total: nat, id: nat)
    requires InOnePlace(cached, outstanding, freed, total) && id in outstanding
    ensures InOnePlace(cached, outstanding - {id}, freed + {id}, total)
  {
    assert (outstanding - {id}).Keys == outstanding.Keys - {id};
  }

  lemma PlacedCleared(cached: seq<Block>, outstanding: map<nat, nat>, freed: set<nat>, total: nat)
    requires InOnePlace(cached, outstanding, freed, total)
    ensures InOnePlace([], outstanding, freed + Ids(cached), total)
  {}

  // ---------------------------------------------------------------------------- the books

  /** The pool's counters and, in ghost, the places they count. */
  datatype Books = Books(
    cached: seq<Block>, cachedBytes: nat, buffersInUse: nat, bytesInUse: nat, allocations: nat, dropped: bool,
    outstanding: map<nat, nat>, freed: set<nat>)
  {
    /** Every block is in one place, and the counters are the sums over those places. */
    ghost predicate Balanced(maximum: nat) {
      && InOnePlace(cached, outstanding, freed, allocations)
      && cachedBytes == Bytes(cached)
      && (maximum != 0 ==> cachedBytes <= maximum)
      && buffersInUse == |outstanding|
      && bytesInUse == Sum(outstanding, outstanding.Keys)
      && (dropped ==> cached == [])
    }
  }

  /** What acquiring block `b` does to the books. */
  ghost predicate Acquired(before: Books, after: Books, b: Block, minimum: nat, wanted: nat) {
    && b.Fits(minimum, wanted) && b.id !in before.outstanding && b.id !in before.freed
    && after.outstanding == before.outstanding[b.id := b.capacity] && after.freed == before.freed
    && if SomeFit(before.cached, minimum, wanted)
       then
         && after.allocations == before.allocations
         && exists i: nat :: BestFit(before.cached, i, minimum, wanted) && b == before.cached[i]
                        && after.cached == before.cached[..i] + before.cached[i + 1..]
       else
         && b == Block(before.allocations, minimum, wanted)
         && after.allocations == before.allocations + 1 && after.cached == before.cached
  }

  lemma Reused(k: Books, maximum: nat, i: nat)
    requires k.Balanced(maximum) && i < |k.cached|
    ensures var b := k.cached[i];
            && b.capacity <= k.cachedBytes && b.id !in k.outstanding && b.id !in k.freed
            && k.(cached := k.cached[..i] + k.cached[i + 1..], cachedBytes := k.cachedBytes - b.capacity,
                  buffersInUse := k.buffersInUse + 1, bytesInUse := k.bytesInUse + b.capacity,
                  outstanding := k.outstanding[b.id := b.capacity]).Balanced(maximum)
  {
    hide InOnePlace, Sum;
    BytesWithout(k.cached, i);
    PlacedReused(k.cached, k.outstanding, k.freed, k.allocations, i);
    Grows(k.outstanding, k.cached[i].id, k.cached[i].capacity);
  }

  lemma Allocated(k: Books, maximum: nat, capacity: nat)
    requires k.Balanced(maximum)
    ensures k.allocations !in k.outstanding && k.allocations !in k.freed
    ensures k.(allocations := k.allocations + 1, buffersInUse := k.buffersInUse + 1, bytesInUse := k.bytesInUse + capacity,
               outstanding := k.outstanding[k.allocations := capacity]).Balanced(maximum)
  {
    hide InOnePlace, Sum;
    PlacedNew(k.cached, k.outstanding, k.freed, k.allocations, capacity);
    Grows(k.outstanding, k.allocations, capacity);
  }

  lemma SomeFitIs(blocks: seq<Block>, minimum: nat, wanted: nat)
    ensures SomeFit(blocks, minimum, wanted) <==>
              exists i :: 0 <= i < |blocks| && blocks[i].capacity >= minimum && blocks[i].alignment >= wanted
  {}

  lemma BestFits(blocks: seq<Block>, minimum: nat, wanted: nat)
    ensures forall i: nat :: BestFit(blocks, i, minimum, wanted) ==> i < |blocks| && blocks[i].Fits(minimum, wanted)
  {}

  lemma CacheWithin(k: Books, maximum: nat)
    requires k.Balanced(maximum)
    ensures maximum != 0 ==> k.cachedBytes <= maximum
  {}

  lemma Returned(k: Books, maximum: nat, b: Block, kept: bool)
    requires k.Balanced(maximum) && b.id in k.outstanding && k.outstanding[b.id] == b.capacity
    requires kept ==> !k.dropped && (maximum == 0 || k.cachedBytes + b.capacity <= maximum)
    ensures k.buffersInUse > 0 && b.capacity <= k.bytesInUse
    ensures var left := k.(buffersInUse := k.buffersInUse - 1, bytesInUse := k.bytesInUse - b.capacity, outstanding := k.outstanding - {b.id});
            if kept then left.(cached := k.cached + [b], cachedBytes := k.cachedBytes + b.capacity).Balanced(maximum)
            else left.(freed := k.freed + {b.id}).Balanced(maximum)
  {
    hide InOnePlace, Sum, Bytes;
    Shrinks(k.outstanding, b.id);
    if kept {
      PlacedCached(k.cached, k.outstanding, k.freed, k.allocations, b);
      BytesJoin(k.cached, [b]);
      BytesOfOne(b);
    } else {
      PlacedFreed(k.cached, k.outstanding, k.freed, k.allocations, b.id);
    }
  }

  // ---------------------------------------------------------------------------- the pool

  class Pool {
    const maximum: nat
    var cached: seq<Block>
    var cachedBytes: nat
    var buffersInUse: nat
    var bytesInUse: nat
    var allocations: nat
    /** The pool's state lives on for its buffers, but a dropped pool takes no block back. */
    var dropped: bool
    /** Blocks held by buffers, with their capacities, and blocks given back to the system. */
    ghost var outstanding: map<nat, nat>
    ghost var freed: set<nat>

    ghost function View(): Books
      reads this
    {
      Books(cached, cachedBytes, buffersInUse, bytesInUse, allocations, dropped, outstanding, freed)
    }

    ghost predicate Valid()
      reads this
    {
      View().Balanced(maximum)
    }

    constructor (maximum: nat)
      ensures Valid() && this.maximum == maximum && cached == [] && outstanding == map[] && freed == {} && allocations == 0 && !dropped
    {
      this.maximum := maximum;
      cached, cachedBytes, buffersInUse, bytesInUse, allocations, dropped := [], 0, 0, 0, 0, false;
      outstanding, freed := map[], {};
    }

    /** A smallest cached block that fits, the oldest of them; or a new one of exactly the wanted size, when
        none fits, if the system has the memory. A request that fails changes nothing. */
    method Acquire(minimum: nat, alignment: nat, available: bool) returns (r: Result<Block>)
      requires Valid() && !dropped
      modifies this
      ensures Valid() && !dropped
      ensures r.Err? <==> minimum == 0 || !ValidAlignment(alignment) || (!available && !SomeFit(old(cached), minimum, alignment))
      ensures r.Err? ==> View() == old(View())
      ensures r.Err? ==> r.error == if minimum == 0 || !ValidAlignment(alignment) then Internal else ResourceExhausted
      ensures r.Ok? ==> Acquired(old(View()), View(), r.value, minimum, alignment)
      ensures r.Ok? ==> r.value.capacity >= minimum && r.value.alignment >= alignment
      ensures r.Ok? ==>
                (allocations == old(allocations) <==>
                   exists i :: 0 <= i < |old(cached)| && old(cached)[i].capacity >= minimum && old(cached)[i].alignment >= alignment)
    {
      hide Books.Balanced, ValidAlignment, SomeFit, BestFit;
      if minimum == 0 || !ValidAlignment(alignment) {
        return Err(Internal);
      }
      var candidate := MinElement(cached, minimum, alignment);
      SomeFitIs(cached, minimum, alignment);
      BestFits(cached, minimum, alignment);
      var block := Block(allocations, minimum, alignment);
      if candidate.Some? {
        var best := candidate.value;
        block := cached[best];
        Reused(View(), maximum, best);
        cachedBytes := cachedBytes - block.capacity;
        cached := cached[..best] + cached[best + 1..];
      } else {
        if !available {
          return Err(ResourceExhausted);
        }
        Allocated(View(), maximum, minimum);
        allocations := allocations + 1;
      }
      buffersInUse := buffersInUse + 1;
      bytesInUse := bytesInUse + block.capacity;
      outstanding := outstanding[block.id := block.capacity];
      r := Ok(block);
    }

    /** A held block comes back: it is kept if the cache is unbounded or has room, and freed otherwise,
        or if the pool has been dropped. */
    method TakeBack(block: Block)
      requires Valid() && block.id in outstanding && outstanding[block.id] == block.capacity
      modifies this
      ensures Valid() && allocations == old(allocations) && dropped == old(dropped)
      ensures outstanding == old(outstanding) - {block.id}
      ensures if !dropped && (maximum == 0 || old(cachedBytes) + block.capacity <= maximum)
              then cached == old(cached) + [block] && freed == old(freed)
              else cached == old(cached) && freed == old(freed) + {block.id}
    {
      hide Books.Balanced;
      var room := maximum - (if cachedBytes < maximum then cachedBytes else maximum);
      var kept := !dropped && (maximum == 0 || block.capacity <= room);
      CacheWithin(View(), maximum);
      Returned(View(), maximum, block, kept);
      buffersInUse := buffersInUse - 1;
      bytesInUse := bytesInUse - block.capacity;
      outstanding := outstanding - {block.id};
      if kept {
        cached := cached + [block];
        cachedBytes := cachedBytes + block.capacity;
      } else {
        freed := freed + {block.id};
      }
    }

    method ClearCached()
      requires Valid()
      modifies this
      ensures Valid() && cached == [] && outstanding == old(outstanding) && allocations == old(allocations) && dropped == old(dropped)
      ensures freed == old(freed) + Ids(old(cached))
    {
      hide InOnePlace, Sum, Ids;
      PlacedCleared(cached, outstanding, freed, allocations);
      freed := freed + Ids(cached);
      cached := [];
      cachedBytes := 0;
    }

    /** The pool goes away: its cache is freed, and its buffers outlive it. */
    method Drop()
      requires Valid()
      modifies this
      ensures Valid() && dropped && cached == [] && outstanding == old(outstanding) && allocations == old(allocations)
      ensures freed == old(freed) + Ids(old(cached))
    {
      ClearCached();
      dropped := true;
    }
  }

  lemma Grows(m: map<nat, nat>, id: nat, capacity: nat)
    requires id !in m
    ensures |m[id := capacity]| == |m| + 1
    ensures Sum(m[id := capacity], m[id := capacity].Keys) == Sum(m, m.Keys) + capacity
  {
    var grown := m[id := capacity];
    assert grown.Keys == m.Keys + {id} && |grown| == |grown.Keys| && |m| == |m.Keys|;
    SumRemove(grown, grown.Keys, id);
    assert grown.Keys - {id} == m.Keys;
    SumAgrees(m, grown, m.Keys);
  }

  lemma Shrinks(m: map<nat, nat>, id: nat)
    requires id in m
    ensures |m| > 0 && |m - {id}| == |m| - 1
    ensures Sum(m, m.Keys) == Sum(m - {id}, (m - {id}).Keys) + m[id]
  {
    var rest := m - {id};
    assert rest.Keys == m.Keys - {id} && |rest| == |rest.Keys| && |m| == |m.Keys|;
    SumRemove(m, m.Keys, id);
    SumAgrees(m, rest, rest.Keys);
  }

  // ---------------------------------------------------------------------------- buffers

  /** What a buffer holds: a block, its logical size, and the pool the block came from. */
  datatype Holding = Holding(block: Option<Block>, size: nat, home: Pool?)

  const EMPTY := Holding(None, 0, null)

  /** The block, if there is one, is one that its pool has handed out. */
  ghost predicate Owned(h: Holding, handed: map<Pool, map<nat, nat>>) {
    match h.block
    case None => h.size == 0
    case Some(b) => h.size <= b.capacity && h.home != null && h.home in handed && b.id in handed[h.home] && handed[h.home][b.id] == b.capacity
  }

  ghost predicate Differ(a: Holding, b: Holding) {
    a.block.Some? && b.block.Some? && a.home == b.home ==> a.block.value.id != b.block.value.id
  }

  /** Every buffer owns its block, and no two own the same one. */
  ghost predicate Fair(held: map<Buffer, Holding>, handed: map<Pool, map<nat, nat>>) {
    && (forall b :: b in held ==> Owned(held[b], handed))
    && forall a, b :: a in held && b in held && a != b ==> Differ(held[a], held[b])
  }

  ghost function Holdings(all: set<Buffer>): map<Buffer, Holding>
    reads all
  {
    map b | b in all :: b.Held()
  }

  ghost function Handed(pools: set<Pool>): map<Pool, map<nat, nat>>
    reads pools
  {
    map p | p in pools :: p.outstanding
  }

  /** Buffers of valid pools, each with a block of its own. */
  ghost predicate Together(all: set<Buffer>, pools: set<Pool>)
    reads all, pools
  {
    Fair(Holdings(all), Handed(pools)) && forall p :: p in pools ==> p.Valid()
  }

  /** The block, if there is one, goes back to its pool. */
  ghost function HandedBack(handed: map<Pool, map<nat, nat>>, h: Holding): map<Pool, map<nat, nat>> {
    if h.block.Some? && h.home != null && h.home in handed then handed[h.home := handed[h.home] - {h.block.value.id}] else handed
  }

  lemma FairGiven(held: map<Buffer, Holding>, handed: map<Pool, map<nat, nat>>, b: Buffer)
    requires Fair(held, handed) && b in held
    ensures Owned(held[b], handed) && Fair(held[b := EMPTY], HandedBack(handed, held[b]))
  {
    var after := HandedBack(handed, held[b]);
    forall other | other in held && other != b
      ensures Owned(held[other], after)
    {
      assert Owned(held[other], handed) && Differ(held[other], held[b]);
    }
  }

  /** What the source held changes hands. */
  ghost function Passed(held: map<Buffer, Holding>, target: Buffer, source: Buffer): map<Buffer, Holding>
    requires source in held
  {
    held[target := held[source]][source := EMPTY]
  }

  lemma FairMoved(held: map<Buffer, Holding>, handed: map<Pool, map<nat, nat>>, target: Buffer, source: Buffer)
    requires Fair(held, handed) && target in held && source in held && target != source
    ensures Fair(Passed(held, target, source), handed)
  {
    hide Owned, Differ;
    var after := Passed(held, target, source);
    NothingOwned(handed);
    forall b | b in after
      ensures Owned(after[b], handed)
    {}
    forall a, b | a in after && b in after && a != b
      ensures Differ(after[a], after[b])
    {
      var x: Buffer, y: Buffer := if a == target then source else a, if b == target then source else b;
      DifferFromNothing(after[a], after[b]);
      assert a != source && b != source ==> after[a] == held[x] && after[b] == held[y] && x != y;
    }
  }

  lemma NothingOwned(handed: map<Pool, map<nat, nat>>)
    ensures Owned(EMPTY, handed)
  {}

  lemma DifferFromNothing(a: Holding, b: Holding)
    ensures a == EMPTY || b == EMPTY ==> Differ(a, b)
  {}

  function With(blocks: map<nat, nat>, b: Block): map<nat, nat> {
    blocks[b.id := b.capacity]
  }

  lemma FairTaken(held: map<Buffer, Holding>, handed: map<Pool, map<nat, nat>>, b: Buffer, p: Pool, block: Block)
    requires Fair(held, handed) && b !in held && p in handed && block.id !in handed[p]
    ensures Fair(held[b := Holding(Some(block), 0, p)], handed[p := With(handed[p], block)])
  {
    var after := handed[p := With(handed[p], block)];
    forall other | other in held
      ensures Owned(held[other], after) && Differ(held[other], Holding(Some(block), 0, p))
    {
      assert Owned(held[other], handed);
    }
  }

  /** A movable owner of at most one block, which it gives back to the pool the block came from. */
  class Buffer {
    var block: Option<Block>
    var size: nat
    var pool: Pool?

    ghost function Held(): Holding
      reads this
    {
      Holding(block, size, pool)
    }

    constructor ()
      ensures Held() == EMPTY
    {
      block, size, pool := None, 0, null;
    }

    constructor On(pool: Pool, block: Block)
      ensures Held() == Holding(Some(block), 0, pool)
    {
      this.block, size, this.pool := Some(block), 0, pool;
    }

    method Resize(logical: nat) returns (error: Option<Error>)
      modifies `size
      ensures error.None? <==> logical <= if block.Some? then block.value.capacity else 0
      ensures size == if error.None? then logical else old(size)
    {
      if logical > (if block.Some? then block.value.capacity else 0) {
        return Some(Internal);
      }
      size := logical;
      error := None;
    }

    method Release(ghost all: set<Buffer>, ghost pools: set<Pool>)
      requires this in all && Together(all, pools)
      modifies this, pool
      ensures Together(all, pools) && block == None && size == 0
      ensures Holdings(all) == if old(block).Some? then old(Holdings(all))[this := EMPTY] else old(Holdings(all))
      ensures Handed(pools) == HandedBack(old(Handed(pools)), old(Held()))
    {
      hide Pool.Valid, Fair;
      ghost var held, handed := Holdings(all), Handed(pools);
      FairGiven(held, handed, this);
      if block.None? {
        return;
      }
      ghost var home := pool;
      pool.TakeBack(block.value);
      assert Handed(pools) == HandedBack(handed, held[this]);
      block, size, pool := None, 0, null;
      assert Holdings(all) == held[this := EMPTY];
    }

    /** Move assignment, between buffers of any pools: the old block goes back to its pool, and the other's
        changes hands; assigning to itself does nothing. */
    method MoveFrom(other: Buffer, ghost all: set<Buffer>, ghost pools: set<Pool>)
      requires this in all && other in all && Together(all, pools)
      modifies this, other, pool
      ensures Together(all, pools)
      ensures this == other ==> Holdings(all) == old(Holdings(all)) && Handed(pools) == old(Handed(pools))
      ensures this != other ==>
                && Holdings(all) == Passed(old(Holdings(all)), this, other)
                && Handed(pools) == HandedBack(old(Handed(pools)), old(Held()))
    {
      if this == other {
        return;
      }
      hide Pool.Valid, Fair, HandedBack, Passed;
      ghost var held: map<Buffer, Holding> := Holdings(all);
      Release(all, pools);
      PassedAnyway(held, this, other);
      Take(other, all, pools);
    }

    method Take(other: Buffer, ghost all: set<Buffer>, ghost pools: set<Pool>)
      requires this in all && other in all && this != other && Together(all, pools) && block == None
      modifies this, other
      ensures Together(all, pools)
      ensures Holdings(all) == Passed(old(Holdings(all)), this, other) && Handed(pools) == old(Handed(pools))
    {
      hide Pool.Valid, Fair;
      ghost var held: map<Buffer, Holding>, handed := Holdings(all), Handed(pools);
      FairMoved(held, handed, this, other);
      block, size, pool := other.block, other.size, other.pool;
      other.block, other.size, other.pool := None, 0, null;
      assert Holdings(all) == Passed(held, this, other);
      assert Handed(pools) == handed;
    }
  }

  lemma PassedAnyway(held: map<Buffer, Holding>, target: Buffer, source: Buffer)
    requires target in held && source in held && target != source
    ensures Passed(held[target := EMPTY], target, source) == Passed(held, target, source)
  {}

  /** A new buffer on a block of the pool that no other buffer owns. */
  method MakeBuffer(pool: Pool, minimum: nat, alignment: nat, available: bool, ghost all: set<Buffer>, ghost pools: set<Pool>)
    returns (r: Result<Buffer>)
    requires Together(all, pools) && pool in pools && !pool.dropped
    modifies pool
    ensures Together(all, pools) && Holdings(all) == old(Holdings(all)) && !pool.dropped
    ensures r.Ok? ==>
              && fresh(r.value) && Together(all + {r.value}, pools) && r.value.pool == pool && r.value.block.Some? && r.value.size == 0
              && Acquired(old(pool.View()), pool.View(), r.value.block.value, minimum, alignment)
    ensures r.Err? ==> pool.View() == old(pool.View())
  {
    hide Pool.Valid, Fair, SomeFit, BestFit, ValidAlignment;
    ghost var held, handed := Holdings(all), Handed(pools);
    var block := pool.Acquire(minimum, alignment, available);
    if block.Err? {
      assert Handed(pools) == handed;
      return Err(block.error);
    }
    var buffer := new Buffer.On(pool, block.value);
    FairTaken(held, handed, buffer, pool, block.value);
    assert Handed(pools) == handed[pool := With(handed[pool], block.value)];
    assert Holdings(all + {buffer}) == held[buffer := Holding(Some(block.value), 0, pool)];
    FairPart(held, Handed(pools), buffer, Holding(Some(block.value), 0, pool));
    assert Holdings(all) == held;
    r := Ok(buffer);
  }

  lemma FairPart(held: map<Buffer, Holding>, handed: map<Pool, map<nat, nat>>, b: Buffer, h: Holding)
    requires b !in held && Fair(held[b := h], handed)
    ensures Fair(held, handed)
  {
    forall other | other in held
      ensures Owned(held[other], handed)
    {
      assert other in held[b := h] && held[b := h][other] == held[other];
    }
    forall a, c | a in held && c in held && a != c
      ensures Differ(held[a], held[c])
    {
      assert held[b := h][a] == held[a] && held[b := h][c] == held[c];
    }
  }

  /** A pool that goes away leaves its buffers their blocks. */
  method DropPool(pool: Pool, ghost all: set<Buffer>, ghost pools: set<Pool>)
    requires Together(all, pools) && pool in pools
    modifies pool
    ensures Together(all, pools) && pool.dropped && Holdings(all) == old(Holdings(all)) && Handed(pools) == old(Handed(pools))
  {
    hide Pool.Valid, Fair;
    pool.Drop();
    assert Handed(pools) == old(Handed(pools));
  }
}
