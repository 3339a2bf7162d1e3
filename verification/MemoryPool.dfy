/** The locked, size-bucketed memory pool of the graph examples.  Every method
    runs under one lock, so a run of any number of threads is a sequence of
    allocate, deallocate and clear steps. */
module MemoryPool {

  type Ptr = nat

  const NULL: Ptr := 0

  datatype Block = Block(size: nat, ptr: Ptr)

  /** The two tables of the pool. */
  datatype Tables = Tables(blocks: seq<Block>, isFree: map<Ptr, bool>)

  predicate IsFree(isFree: map<Ptr, bool>, p: Ptr) {
    p in isFree && isFree[p]
  }

  /** The pointers of the blocks of one size. */
  function PtrsOf(blocks: seq<Block>, size: nat): set<Ptr> {
    set b | b in blocks && b.size == size :: b.ptr
  }

  /** The blocks of one size that an allocation may reuse. */
  function Candidates(t: Tables, size: nat): set<Ptr> {
    set p | p in PtrsOf(t.blocks, size) && IsFree(t.isFree, p)
  }

  predicate Holds(blocks: seq<Block>, p: Ptr) {
    exists b :: b in blocks && b.ptr == p
  }

  /** What malloc may return: null, or memory that no block of the pool occupies. */
  predicate Allocatable(t: Tables, mem: Ptr) {
    mem == NULL || !Holds(t.blocks, mem)
  }

  /** One allocation.  The table of blocks has no specified order, so any
      candidate may be the last one the scan meets; all of them are claimed. */
  ghost predicate Allocates(t: Tables, size: nat, mem: Ptr, t': Tables, ptr: Ptr) {
    if size == 0 then t' == t && ptr == NULL
    else if Candidates(t, size) != {} then
      && ptr in Candidates(t, size)
      && t'.blocks == t.blocks
      && t'.isFree == map p | p in t.isFree :: t.isFree[p] && p !in Candidates(t, size)
    else
      && ptr == mem
      && t'.blocks == t.blocks + [Block(size, mem)]
      && t'.isFree == t.isFree[mem := false]
  }

  function Deallocate(t: Tables, ptr: Ptr): Tables {
    t.(isFree := t.isFree[ptr := true])
  }

  class SimpleMemoryPool {
    var blocks: seq<Block>
    var isFree: map<Ptr, bool>

    function State(): Tables
      reads this
    {
      Tables(blocks, isFree)
    }

    constructor ()
      ensures State() == Tables([], map[])
    {
      blocks, isFree := [], map[];
    }

    /** Scans all blocks of the size and claims every free one; the last is
        returned.  Only when none is free is memory requested. */
    method AllocateHost(size: nat, mem: Ptr) returns (ptr: Ptr)
      requires Allocatable(State(), mem)
      modifies this
      ensures Allocates(old(State()), size, mem, State(), ptr)
    {
      if size == 0 {
        return NULL;
      }
      ptr := NULL;
      var needNew := true;
      ghost var t := State();
      for i := 0 to |blocks|
        invariant blocks == t.blocks
        invariant isFree.Keys == t.isFree.Keys
        invariant forall p | p in isFree ::
                    isFree[p] == (t.isFree[p] && p !in Candidates(Tables(t.blocks[..i], t.isFree), size))
        invariant needNew <==> Candidates(Tables(t.blocks[..i], t.isFree), size) == {}
        invariant !needNew ==> ptr in Candidates(Tables(t.blocks[..i], t.isFree), size)
      {
        var b := blocks[i];
        CandidatesGrow(t, size, i);
        if b.size == size && IsFree(isFree, b.ptr) {
          ptr := b.ptr;
          isFree := isFree[ptr := false];
          needNew := false;
        }
      }
      assert t.blocks[..|blocks|] == t.blocks;
      if needNew {
        ptr := mem;
        blocks := blocks + [Block(size, mem)];
        isFree := isFree[mem := false];
      }
    }

    method DeallocateHost(ptr: Ptr)
      modifies this
      ensures State() == Deallocate(old(State()), ptr)
    {
      isFree := isFree[ptr := true];
    }

    method Clear()
      modifies this
      ensures State() == Tables([], map[])
    {
      blocks := [];
      isFree := map[];
    }
  }

  /** One more block scanned. */
  lemma CandidatesGrow(t: Tables, size: nat, i: nat)
    requires i < |t.blocks|
    ensures var b := t.blocks[i];
            var before := Candidates(Tables(t.blocks[..i], t.isFree), size);
            Candidates(Tables(t.blocks[..i + 1], t.isFree), size)
            == before + (if b.size == size && IsFree(t.isFree, b.ptr) then {b.ptr} else {})
  {
    assert t.blocks[..i + 1] == t.blocks[..i] + [t.blocks[i]];
  }

  // Runs

  /** A client step: an allocation of size bytes for which malloc would return
      mem and that returned ptr, a release, or a clear. */
  datatype Event = Allocate(size: nat, mem: Ptr, ptr: Ptr) | Release(ptr: Ptr) | Clear

  /** The pool, and the pointers clients hold with the sizes they asked for. */
  datatype World = World(tables: Tables, live: map<Ptr, nat>)

  const INITIAL := World(Tables([], map[]), map[])

  /** Clients release only null or a pointer they hold, and clear only when
      they hold none. */
  ghost predicate Step(w: World, e: Event, w': World) {
    match e
    case Allocate(size, mem, ptr) =>
      && Allocatable(w.tables, mem)
      && Allocates(w.tables, size, mem, w'.tables, ptr)
      && w'.live == (if ptr == NULL then w.live else w.live[ptr := size])
    case Release(ptr) =>
      && (ptr == NULL || ptr in w.live)
      && w' == World(Deallocate(w.tables, ptr), w.live - {ptr})
    case Clear =>
      w.live == map[] && w' == INITIAL
  }

  ghost predicate Inv(w: World) {
    var blocks := w.tables.blocks;
    && (forall i, j | 0 <= i < j < |blocks| && blocks[i].ptr == blocks[j].ptr :: blocks[i].ptr == NULL)
    && (forall p | p in w.live :: p != NULL && Block(w.live[p], p) in blocks && !IsFree(w.tables.isFree, p))
    && (forall p | IsFree(w.tables.isFree, p) :: p == NULL || Holds(blocks, p))
  }

  lemma OneBlockPerPtr(w: World, b: Block, c: Block)
    requires Inv(w) && b in w.tables.blocks && c in w.tables.blocks && b.ptr == c.ptr != NULL
    ensures b == c
  {
    var blocks := w.tables.blocks;
    var i, j :| 0 <= i < |blocks| && blocks[i] == b && 0 <= j < |blocks| && blocks[j] == c;
  }

  /** A pointer an allocation returns is null or is not held by any client, and
      belongs to a block of exactly the requested size; memory is requested only
      when no block of that size is free. */
  lemma AllocationIsSafe(w: World, e: Event, w': World)
    requires Inv(w) && Step(w, e, w') && e.Allocate?
    ensures e.ptr != NULL ==> e.ptr !in w.live && Block(e.size, e.ptr) in w'.tables.blocks
    ensures w'.tables.blocks != w.tables.blocks ==> e.size > 0 && Candidates(w.tables, e.size) == {}
  {
  }

  lemma StepKeepsInv(w: World, e: Event, w': World)
    requires Inv(w) && Step(w, e, w')
    ensures Inv(w')
  {
    match e
    case Allocate(size, mem, ptr) =>
      AllocationIsSafe(w, e, w');
      if w'.tables.blocks != w.tables.blocks {
        assert w'.tables.blocks[|w.tables.blocks|] == Block(size, mem);
      }
      forall p | IsFree(w'.tables.isFree, p) && p != NULL
        ensures Holds(w'.tables.blocks, p)
      {
        assert IsFree(w.tables.isFree, p);
        var b :| b in w.tables.blocks && b.ptr == p;
        assert b in w'.tables.blocks;
      }
    case Release(ptr) =>
      if ptr != NULL {
        assert Block(w.live[ptr], ptr) in w.tables.blocks;
      }
    case Clear =>
  }

  /** A request for nothing gets null and changes nothing; any other gets null
      only if memory was asked for and refused, or an earlier refusal of that size
      is marked free. */
  lemma NullOnlyIf(w: World, e: Event, w': World)
    requires Inv(w) && Step(w, e, w') && e.Allocate?
    ensures e.size == 0 ==> e.ptr == NULL && w' == w
    ensures e.size > 0 && e.ptr == NULL ==>
              || (e.mem == NULL && Candidates(w.tables, e.size) == {})
              || (Block(e.size, NULL) in w.tables.blocks && IsFree(w.tables.isFree, NULL))
  {
  }

  // Accounting

  function Blocks(w: World, size: nat): set<Ptr> {
    PtrsOf(w.tables.blocks, size) - {NULL}
  }

  function Live(w: World, size: nat): set<Ptr> {
    set p | p in w.live && w.live[p] == size
  }

  function Free(w: World, size: nat): set<Ptr> {
    Candidates(w.tables, size) - {NULL}
  }

  /** Blocks that are marked in use although no client holds them. */
  function Stranded(w: World, size: nat): set<Ptr> {
    Blocks(w, size) - Live(w, size) - Free(w, size)
  }

  /** The blocks of a size, counted in the table. */
  function CountBlocks(blocks: seq<Block>, size: nat): nat {
    if blocks == [] then 0
    else
      var b := blocks[|blocks| - 1];
      CountBlocks(blocks[..|blocks| - 1], size) + (if b.size == size && b.ptr != NULL then 1 else 0)
  }

  lemma PtrsOfStep(rest: seq<Block>, b: Block, size: nat)
    ensures PtrsOf(rest + [b], size) == PtrsOf(rest, size) + (if b.size == size then {b.ptr} else {})
  {
    assert forall c :: c in rest + [b] <==> c in rest || c == b;
  }

  lemma {:induction false} CountIsCardinality(blocks: seq<Block>, size: nat)
    requires forall i, j | 0 <= i < j < |blocks| && blocks[i].ptr == blocks[j].ptr :: blocks[i].ptr == NULL
    ensures CountBlocks(blocks, size) == |PtrsOf(blocks, size) - {NULL}|
  {
    if blocks == [] {
      assert PtrsOf(blocks, size) - {NULL} == {};
    } else {
      var n := |blocks| - 1;
      var rest, b := blocks[..n], blocks[n];
      CountIsCardinality(rest, size);
      assert blocks == rest + [b];
      PtrsOfStep(rest, b, size);
      assert b.ptr != NULL ==> b.ptr !in PtrsOf(rest, size);
      AddNonNull(PtrsOf(rest, size), PtrsOf(blocks, size), b.ptr, b.size == size);
    }
  }

  lemma AddNonNull(before: set<Ptr>, after: set<Ptr>, p: Ptr, added: bool)
    requires after == before + (if added then {p} else {})
    requires p != NULL ==> p !in before
    ensures |after - {NULL}| == |before - {NULL}| + (if added && p != NULL then 1 else 0)
  {
    if added && p != NULL {
      assert after - {NULL} == (before - {NULL}) + {p};
    } else {
      assert after - {NULL} == before - {NULL};
    }
  }

  lemma Split(b: set<Ptr>, l: set<Ptr>, f: set<Ptr>)
    requires l <= b && f <= b && l !! f
    ensures |b| == |l| + |f| + |b - l - f|
  {
    assert b == l + f + (b - l - f);
    assert |l + f| == |l| + |f|;
  }

  /** Every block of a size is held, free or stranded, and only one of these. */
  lemma Conservation(w: World, size: nat)
    requires Inv(w)
    ensures CountBlocks(w.tables.blocks, size) == |Live(w, size)| + |Free(w, size)| + |Stranded(w, size)|
  {
    CountIsCardinality(w.tables.blocks, size);
    assert Live(w, size) <= Blocks(w, size) && Free(w, size) <= Blocks(w, size) && Live(w, size) !! Free(w, size);
    Split(Blocks(w, size), Live(w, size), Free(w, size));
  }

  /** How an allocation changes the stranded blocks of every size: all free
      blocks of the requested size except the one returned become stranded. */
  lemma AllocationStrands(w: World, e: Event, w': World, size: nat)
    requires Inv(w) && Step(w, e, w') && e.Allocate?
    ensures Stranded(w', size)
            == Stranded(w, size) + (if size == e.size && size > 0 then Free(w, size) - {e.ptr} else {})
    ensures e.size > 0 ==> Free(w', e.size) == {}
  {
    AllocationIsSafe(w, e, w');
    forall p
      ensures p in Stranded(w', size)
              <==> p in Stranded(w, size) + (if size == e.size && size > 0 then Free(w, size) - {e.ptr} else {})
    {
      StrandedMember(w, e, w', size, p);
    }
  }

  lemma StrandedMember(w: World, e: Event, w': World, size: nat, p: Ptr)
    requires Inv(w) && Step(w, e, w') && e.Allocate?
    ensures p in Stranded(w', size)
            <==> p in Stranded(w, size) || (size == e.size && size > 0 && p in Free(w, size) && p != e.ptr)
  {
    AllocationIsSafe(w, e, w');
    if p in Blocks(w, size) && p in Blocks(w, e.size) {
      OneBlockPerPtr(w, Block(size, p), Block(e.size, p));
    }
    if p in w.live && p in Blocks(w, size) {
      OneBlockPerPtr(w, Block(size, p), Block(w.live[p], p));
    }
  }

  /** A release moves a held block to the free ones; nothing is stranded. */
  lemma ReleaseFrees(w: World, e: Event, w': World, size: nat)
    requires Inv(w) && Step(w, e, w') && e.Release?
    ensures Stranded(w', size) == Stranded(w, size)
    ensures Free(w', size) == Free(w, size) + (if e.ptr in Live(w, size) then {e.ptr} else {})
  {
    if e.ptr in w.live {
      assert Block(w.live[e.ptr], e.ptr) in w.tables.blocks;
      if e.ptr in Blocks(w, size) {
        OneBlockPerPtr(w, Block(size, e.ptr), Block(w.live[e.ptr], e.ptr));
      }
    }
  }

  /** A run of the pool by any number of clients. */
  ghost predicate Run(ws: seq<World>, es: seq<Event>) {
    && |ws| == |es| + 1
    && ws[0] == INITIAL
    && forall i | 0 <= i < |es| :: Step(ws[i], es[i], ws[i + 1])
  }

  lemma {:induction false} RunKeepsInv(ws: seq<World>, es: seq<Event>, n: nat)
    requires Run(ws, es) && n <= |es|
    ensures Inv(ws[n])
  {
    if n > 0 {
      RunKeepsInv(ws, es, n - 1);
      StepKeepsInv(ws[n - 1], es[n - 1], ws[n]);
    }
  }

  /** In every run, an allocation returns null or a pointer nobody holds, of a
      block of exactly the requested size, and it requests memory only when no
      block of that size is free; the books of every size balance throughout. */
  lemma EveryRunIsSafe(ws: seq<World>, es: seq<Event>, i: nat, size: nat)
    requires Run(ws, es) && i < |es|
    ensures es[i].Allocate? && es[i].ptr != NULL ==>
              es[i].ptr !in ws[i].live && Block(es[i].size, es[i].ptr) in ws[i + 1].tables.blocks
    ensures es[i].Allocate? && ws[i + 1].tables.blocks != ws[i].tables.blocks ==> Free(ws[i], es[i].size) == {}
    ensures es[i].Allocate? && es[i].size > 0 ==> Free(ws[i + 1], es[i].size) == {}
    ensures CountBlocks(ws[i + 1].tables.blocks, size)
            == |Live(ws[i + 1], size)| + |Free(ws[i + 1], size)| + |Stranded(ws[i + 1], size)|
  {
    RunKeepsInv(ws, es, i);
    RunKeepsInv(ws, es, i + 1);
    Conservation(ws[i + 1], size);
    if es[i].Allocate? {
      AllocationIsSafe(ws[i], es[i], ws[i + 1]);
      AllocationStrands(ws[i], es[i], ws[i + 1], es[i].size);
    }
  }

  /** Until the pool is cleared, a stranded block stays stranded ... */
  lemma {:induction false} StrandedForGood(ws: seq<World>, es: seq<Event>, i: nat, j: nat, size: nat)
    requires Run(ws, es) && i <= j <= |es|
    requires forall k | i <= k < j :: !es[k].Clear?
    ensures Stranded(ws[i], size) <= Stranded(ws[j], size)
    decreases j
  {
    if i < j {
      StrandedForGood(ws, es, i, j - 1, size);
      RunKeepsInv(ws, es, j - 1);
      if es[j - 1].Allocate? {
        AllocationStrands(ws[j - 1], es[j - 1], ws[j], size);
      } else {
        ReleaseFrees(ws[j - 1], es[j - 1], ws[j], size);
      }
    }
  }

  /** ... and is never handed out again. */
  lemma StrandedIsNeverReused(ws: seq<World>, es: seq<Event>, i: nat, j: nat, size: nat)
    requires Run(ws, es) && i <= j < |es|
    requires forall k | i <= k <= j :: !es[k].Clear?
    requires es[j].Allocate?
    ensures es[j].ptr !in Stranded(ws[i], size)
  {
    StrandedForGood(ws, es, i, j, size);
    RunKeepsInv(ws, es, j);
    RunKeepsInv(ws, es, j + 1);
    StrandedForGood(ws, es, i, j + 1, size);
    AllocationIsSafe(ws[j], es[j], ws[j + 1]);
  }

  /** A reuse with k free blocks of the size strands k - 1 of them. */
  lemma ReuseStrandsAllButOne(w: World, e: Event, w': World)
    requires Inv(w) && Step(w, e, w') && e.Allocate? && e.size > 0
    requires e.ptr != NULL && e.ptr in Free(w, e.size)
    ensures |Stranded(w', e.size)| == |Stranded(w, e.size)| + |Free(w, e.size)| - 1
  {
    AllocationStrands(w, e, w', e.size);
    var s, f := Stranded(w, e.size), Free(w, e.size) - {e.ptr};
    assert s !! f;
    assert |s + f| == |s| + |f|;
  }

  ghost predicate NothingStranded(w: World) {
    forall size: nat :: Stranded(w, size) == {}
  }

  /** No block of the requested size is free but the one returned. */
  predicate TakesAllFree(w: World, e: Event) {
    e.Allocate? && e.size > 0 ==> Free(w, e.size) <= {e.ptr}
  }

  lemma StrandsNothingIff(w: World, e: Event, w': World, size: nat)
    requires Inv(w) && Step(w, e, w') && !e.Clear?
    ensures Stranded(w', size) == {}
            <==> Stranded(w, size) == {} && (e.Allocate? && e.size == size ==> TakesAllFree(w, e))
  {
    if e.Allocate? {
      AllocationStrands(w, e, w', size);
    } else {
      ReleaseFrees(w, e, w', size);
    }
  }

  lemma StepStrandsNothingIff(w: World, e: Event, w': World)
    requires Inv(w) && Step(w, e, w') && !e.Clear?
    ensures NothingStranded(w') <==> NothingStranded(w) && TakesAllFree(w, e)
  {
    hide Stranded, TakesAllFree;
    forall size: nat
      ensures Stranded(w', size) == {}
              <==> Stranded(w, size) == {} && (e.Allocate? && e.size == size ==> TakesAllFree(w, e))
    {
      StrandsNothingIff(w, e, w', size);
    }
    if NothingStranded(w') {
      assert e.Allocate? ==> Stranded(w', e.size) == {};
      assert !e.Allocate? ==> TakesAllFree(w, e) by {
        NotAnAllocation(w, e);
      }
    }
  }

  lemma NotAnAllocation(w: World, e: Event)
    ensures !e.Allocate? ==> TakesAllFree(w, e)
  {
  }

  /** How many of the first n events come up to and including the last clear. */
  function LastClear(es: seq<Event>, n: nat): (m: nat)
    requires n <= |es|
    ensures m <= n
  {
    if n == 0 then 0 else if es[n - 1].Clear? then n else LastClear(es, n - 1)
  }

  lemma InitialStrandsNothing()
    ensures NothingStranded(INITIAL)
  {
  }

  /** After any run, nothing is stranded if and only if each allocation since the
      pool was last cleared returned the only free block of its size, or there
      was none. */
  lemma {:induction false} NothingStrandedIff(ws: seq<World>, es: seq<Event>, n: nat)
    requires Run(ws, es) && n <= |es|
    ensures NothingStranded(ws[n]) <==> forall i | LastClear(es, n) <= i < n :: TakesAllFree(ws[i], es[i])
  {
    hide NothingStranded, TakesAllFree;
    InitialStrandsNothing();
    if n > 0 {
      NothingStrandedIff(ws, es, n - 1);
      RunKeepsInv(ws, es, n - 1);
      if !es[n - 1].Clear? {
        StepStrandsNothingIff(ws[n - 1], es[n - 1], ws[n]);
      }
    }
  }

  lemma Outcome(w: World, size: nat, ptr: Ptr) returns (w': World)
    requires size > 0 && ptr in Candidates(w.tables, size)
    ensures Step(w, Allocate(size, NULL, ptr), w')
  {
    var t := w.tables;
    w' := World(Tables(t.blocks, map p | p in t.isFree :: t.isFree[p] && p !in Candidates(t, size)),
                if ptr == NULL then w.live else w.live[ptr := size]);
  }

  lemma TwoOf(s: set<Ptr>) returns (p: Ptr, q: Ptr)
    requires |s| > 1
    ensures p in s && q in s && p != q && q != NULL
  {
    var a :| a in s;
    assert s == (s - {a}) + {a};
    var b :| b in s - {a};
    p, q := if b == NULL then b else a, if b == NULL then a else b;
  }

  lemma AtMostOneOf(s: set<Ptr>, p: Ptr, q: Ptr)
    requires |s| <= 1 && p in s && q in s
    ensures p == q
  {
    assert s == (s - {p}) + {p};
  }

  /** Whether an allocation can strand a block is known before it: it cannot, for
      any block the scan may return, if and only if at most one block of the size
      is marked free, one for which the request failed counted. */
  lemma {:induction false} CannotStrandIff(w: World, size: nat)
    requires Inv(w) && size > 0
    ensures |Candidates(w.tables, size)| <= 1
            <==> forall mem: Ptr, ptr: Ptr, w': World | Step(w, Allocate(size, mem, ptr), w') :: TakesAllFree(w, Allocate(size, mem, ptr))
  {
    if |Candidates(w.tables, size)| > 1 {
      var p, q := TwoOf(Candidates(w.tables, size));
      var w' := Outcome(w, size, p);
      assert q in Free(w, size);
      assert !TakesAllFree(w, Allocate(size, NULL, p));
    } else {
      forall mem: Ptr, ptr: Ptr, w': World | Step(w, Allocate(size, mem, ptr), w')
        ensures TakesAllFree(w, Allocate(size, mem, ptr))
      {
        forall q | q in Free(w, size)
          ensures q == ptr
        {
          AtMostOneOf(Candidates(w.tables, size), q, ptr);
        }
      }
    }
  }

  /** The reuse promise fails once two blocks of a size are free: of two blocks
      released, one is handed out, the other is stranded, and the next request
      asks malloc again although nobody holds that block. */
  lemma StrandingHappens(w: World, p: Ptr, q: Ptr, mem: Ptr)
    requires p != q && p != NULL && q != NULL && mem != NULL && mem != p && mem != q
    requires w == World(Tables([Block(8, p), Block(8, q)], map[p := true, q := true]), map[])
    ensures exists w', w'' ::
              && Step(w, Allocate(8, mem, q), w') && p in Stranded(w', 8)
              && Step(w', Allocate(8, mem, mem), w'') && p in Stranded(w'', 8)
  {
    var bs := w.tables.blocks;
    assert bs[0] in bs && bs[1] in bs;
    assert Candidates(w.tables, 8) == {p, q};
    var w' := World(Tables(bs, map[p := false, q := false]), map[q := 8]);
    assert Step(w, Allocate(8, mem, q), w');
    assert Candidates(w'.tables, 8) == {};
    assert p in PtrsOf(bs, 8) && p in Stranded(w', 8);
    var w'' := World(Tables(bs + [Block(8, mem)], map[p := false, q := false, mem := false]), map[q := 8, mem := 8]);
    assert Step(w', Allocate(8, mem, mem), w'');
    assert Block(8, p) in w''.tables.blocks;
    assert p in Stranded(w'', 8);
  }

  /** The state from which stranding happens is one that clients reach. */
  lemma TwoFreeBlocksAreReachable(p: Ptr, q: Ptr) returns (ws: seq<World>, es: seq<Event>)
    requires p != q && p != NULL && q != NULL
    ensures Run(ws, es)
    ensures ws[|es|] == World(Tables([Block(8, p), Block(8, q)], map[p := true, q := true]), map[])
  {
    es := [Allocate(8, p, p), Allocate(8, q, q), Release(p), Release(q)];
    var w1 := World(Tables([Block(8, p)], map[p := false]), map[p := 8]);
    var w2 := World(Tables([Block(8, p), Block(8, q)], map[p := false, q := false]), map[p := 8, q := 8]);
    var w3 := World(Tables(w2.tables.blocks, map[p := true, q := false]), map[q := 8]);
    var w4 := World(Tables(w2.tables.blocks, map[p := true, q := true]), map[]);
    assert Candidates(INITIAL.tables, 8) == {};
    assert Step(INITIAL, es[0], w1);
    assert Candidates(w1.tables, 8) == {};
    assert Step(w1, es[1], w2);
    assert Step(w2, es[2], w3);
    assert Step(w3, es[3], w4);
    hide Step;
    ws := [INITIAL, w1, w2, w3, w4];
  }
}
