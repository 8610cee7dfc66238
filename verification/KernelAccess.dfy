/** vmmap_read and vmmap_write: the kernel's own accesses to the memory of a process. */
module KernelAccess {
  import opened Lists
  import opened Chains
  import opened VmState
  import opened FrameCache
  import opened PageLookup
  import opened Objects
  import opened AreaList
  import opened AddressSpace
  import opened Sharing
  import opened EagerCopy
  import opened CopyOnWrite

  const ADDRESSES: nat := 0x1_0000_0000

  function PageOf(addr: nat): (pn: nat) { addr / PAGE_SIZE }

  function OffsetOf(addr: nat): (off: nat)
    ensures off < PAGE_SIZE && PageOf(addr) * PAGE_SIZE + off == addr
  {
    addr % PAGE_SIZE
  }

  // ---------------------------------------------------------------------------------------------
  // Which bytes the two functions move

  /** One memcpy: `len` bytes at offset `off` of page `pn`. */
  datatype Chunk = Chunk(pn: nat, off: nat, len: nat)

  /**
   * The `i`th copy made for `count` bytes at `vaddr`, with `end` the address that the code compares
   * with: one copy for a single page; otherwise the rest of the first page, and from every other
   * page as many bytes as the offset of `end`.
   */
  function ChunkAt(vaddr: nat, count: nat, end: nat, i: nat): (c: Chunk) {
    if i > 0 then Chunk(PageOf(vaddr) + i, 0, OffsetOf(end))
    else
      Chunk(PageOf(vaddr), OffsetOf(vaddr),
            if PageOf(vaddr) == PageOf(end) then count else PAGE_SIZE - OffsetOf(vaddr))
  }

  function Plan(vaddr: nat, count: nat, end: nat): (plan: seq<Chunk>)
    ensures |plan| == if PageOf(vaddr) <= PageOf(end) then PageOf(end) - PageOf(vaddr) + 1 else 0
    ensures forall i :: 0 <= i < |plan| ==> plan[i] == ChunkAt(vaddr, count, end, i)
  {
    if PageOf(end) < PageOf(vaddr) then []
    else seq(PageOf(end) - PageOf(vaddr) + 1, (i: nat) => ChunkAt(vaddr, count, end, i))
  }

  function ReadEnd(vaddr: nat, count: nat): (end: nat) { (vaddr + count) % ADDRESSES }

  function WriteEnd(vaddr: nat, count: nat): (end: nat) { (vaddr + count + ADDRESSES - 1) % ADDRESSES }

  function ReadPlan(vaddr: nat, count: nat): (plan: seq<Chunk>) { Plan(vaddr, count, ReadEnd(vaddr, count)) }

  function WritePlan(vaddr: nat, count: nat): (plan: seq<Chunk>) { Plan(vaddr, count, WriteEnd(vaddr, count)) }

  /** Addresses and sizes have 32 bits. */
  predicate Words(vaddr: nat, count: nat) { vaddr < ADDRESSES && count < ADDRESSES }

  function Total(plan: seq<Chunk>): (n: nat) {
    if plan == [] then 0 else Total(plan[..|plan| - 1]) + plan[|plan| - 1].len
  }

  predicate InPages(plan: seq<Chunk>) {
    forall c :: c in plan ==> c.off + c.len <= PAGE_SIZE
  }

  /** Every copy stays within its page, and all of them within a buffer of `count` bytes. */
  predicate Fits(plan: seq<Chunk>, count: nat) { InPages(plan) && Total(plan) <= count }

  lemma ChunksInPages(vaddr: nat, count: nat, end: nat)
    requires vaddr + count <= end + 1
    ensures InPages(Plan(vaddr, count, end))
  {
    hide Plan, PageOf;
    forall i | 0 <= i < |Plan(vaddr, count, end)|
      ensures ChunkAt(vaddr, count, end, i).off + ChunkAt(vaddr, count, end, i).len <= PAGE_SIZE
    {
      if i == 0 && PageOf(vaddr) == PageOf(end) {
        assert OffsetOf(vaddr) + (end - vaddr) == OffsetOf(end);
      }
    }
  }

  lemma {:induction false} TotalUpTo(vaddr: nat, count: nat, end: nat, n: nat)
    requires 0 < n <= |Plan(vaddr, count, end)| && PageOf(vaddr) < PageOf(end)
    ensures Total(Plan(vaddr, count, end)[..n]) == PAGE_SIZE - OffsetOf(vaddr) + (n - 1) * OffsetOf(end)
  {
    hide Plan, PageOf, OffsetOf;
    var plan := Plan(vaddr, count, end);
    assert plan[..n][..n - 1] == plan[..n - 1] && plan[..n][n - 1] == plan[n - 1];
    if n == 1 {
      assert plan[..1][..0] == [] && Total(plan[..0]) == 0;
    } else {
      TotalUpTo(vaddr, count, end, n - 1);
      assert (n - 1) * OffsetOf(end) == (n - 2) * OffsetOf(end) + OffsetOf(end);
    }
  }

  lemma PlanTotal(vaddr: nat, count: nat, end: nat)
    ensures PageOf(vaddr) == PageOf(end) ==> Total(Plan(vaddr, count, end)) == count
    ensures PageOf(vaddr) > PageOf(end) ==> Total(Plan(vaddr, count, end)) == 0
    ensures PageOf(vaddr) < PageOf(end) ==>
      Total(Plan(vaddr, count, end)) == PAGE_SIZE - OffsetOf(vaddr) + (PageOf(end) - PageOf(vaddr)) * OffsetOf(end)
  {
    var plan := Plan(vaddr, count, end);
    if PageOf(vaddr) == PageOf(end) {
      assert plan[..0] == [] && Total(plan[..0]) == 0;
    } else if PageOf(vaddr) < PageOf(end) {
      TotalUpTo(vaddr, count, end, |plan|);
      assert plan[..|plan|] == plan;
    }
  }

  /** n - 1 pages that should have been whole are short by `gap` each. */
  lemma Shortfall(n: nat, tail: nat)
    requires n > 0 && tail < PAGE_SIZE
    ensures n * PAGE_SIZE + tail - (PAGE_SIZE + n * tail) == (n - 1) * (PAGE_SIZE - tail)
    ensures (n - 1) * (PAGE_SIZE - tail) >= 0
    ensures (n - 1) * (PAGE_SIZE - tail) == 0 <==> n == 1
  {
    Distribute(n - 1, PAGE_SIZE, tail);
    Positive(n - 1, PAGE_SIZE - tail);
  }

  lemma Distribute(k: nat, a: int, b: int)
    ensures k * (a - b) == k * a - k * b && (k + 1) * b == k * b + b
  {
  }

  lemma {:induction false} Positive(k: nat, g: nat)
    requires g > 0
    ensures k * g >= 0 && (k * g == 0 <==> k == 0)
  {
    if k > 0 {
      Positive(k - 1, g);
      assert k * g == (k - 1) * g + g;
    }
  }

  /** The copies for a range that does not wrap around. */
  lemma StraightPlan(vaddr: nat, count: nat, end: nat, extra: nat)
    requires end + extra == vaddr + count && extra <= 1
    ensures Fits(Plan(vaddr, count, end), count)
    ensures Total(Plan(vaddr, count, end)) == count <==> count == 0 || PageOf(end) <= PageOf(vaddr) + 1 - extra
  {
    hide Plan, Total;
    ChunksInPages(vaddr, count, end);
    PlanTotal(vaddr, count, end);
    if PageOf(vaddr) < PageOf(end) {
      Shortfall(PageOf(end) - PageOf(vaddr), OffsetOf(end));
    }
  }

  /** The copies for a range that wraps around: one that is too long, or none. */
  lemma WrappedPlan(vaddr: nat, count: nat, end: nat, extra: nat)
    requires Words(vaddr, count) && end + extra + ADDRESSES == vaddr + count && extra <= 1
    ensures Fits(Plan(vaddr, count, end), count) <==> PageOf(vaddr) != PageOf(end)
    ensures PageOf(vaddr) != PageOf(end) ==> Total(Plan(vaddr, count, end)) == 0
  {
    hide Plan, Total;
    PlanTotal(vaddr, count, end);
    assert end < vaddr;
    if PageOf(vaddr) == PageOf(end) {
      var plan := Plan(vaddr, count, end);
      assert plan[0] in plan && plan[0].len == count > PAGE_SIZE;
    } else {
      assert |Plan(vaddr, count, end)| == 0;
    }
  }

  /**
   * For all addresses and sizes: vmmap_read stays within pages and buffer unless the range wraps
   * around to the page it starts in, and moves all the bytes it was asked for exactly when the
   * range does not wrap around and ends at most one page further on.
   */
  lemma ReadMoves(vaddr: nat, count: nat)
    requires Words(vaddr, count)
    ensures var plan := ReadPlan(vaddr, count);
      && (Fits(plan, count) <==> vaddr + count < ADDRESSES || PageOf(vaddr) != PageOf(vaddr + count - ADDRESSES))
      && (Fits(plan, count) && Total(plan) == count <==>
           vaddr + count < ADDRESSES && PageOf(vaddr + count) <= PageOf(vaddr) + 1)
  {
    hide Plan, Fits;
    if vaddr + count < ADDRESSES {
      assert ReadEnd(vaddr, count) == vaddr + count;
      StraightPlan(vaddr, count, vaddr + count, 0);
      assert count == 0 ==> PageOf(vaddr + count) == PageOf(vaddr);
    } else {
      assert ReadEnd(vaddr, count) == vaddr + count - ADDRESSES;
      WrappedPlan(vaddr, count, vaddr + count - ADDRESSES, 0);
    }
  }

  /**
   * For all addresses and sizes: vmmap_write stays within pages and buffer unless the range wraps
   * around to the page it starts in, or is the empty one at address 0; it moves all the bytes it
   * was given exactly when they lie in one page.
   */
  lemma WriteMoves(vaddr: nat, count: nat)
    requires Words(vaddr, count)
    ensures var plan := WritePlan(vaddr, count);
      && (Fits(plan, count) <==>
           || 0 < vaddr + count <= ADDRESSES
           || (vaddr + count > ADDRESSES && PageOf(vaddr) != PageOf(vaddr + count - 1 - ADDRESSES)))
      && (Fits(plan, count) && Total(plan) == count <==>
           0 < vaddr + count <= ADDRESSES && (count == 0 || PageOf(vaddr) == PageOf(vaddr + count - 1)))
  {
    hide Plan, Fits;
    if vaddr + count == 0 {
      assert WriteEnd(vaddr, count) == ADDRESSES - 1;
      EmptyAtZero();
    } else if vaddr + count <= ADDRESSES {
      assert WriteEnd(vaddr, count) == vaddr + count - 1;
      StraightPlan(vaddr, count, vaddr + count - 1, 1);
    } else {
      assert WriteEnd(vaddr, count) == vaddr + count - 1 - ADDRESSES;
      WrappedPlan(vaddr, count, vaddr + count - 1 - ADDRESSES, 1);
    }
  }

  /** Nothing written at address 0: the code goes over all pages there are. */
  lemma EmptyAtZero()
    ensures !Fits(Plan(0, 0, ADDRESSES - 1), 0)
  {
    hide Plan;
    PlanTotal(0, 0, ADDRESSES - 1);
    Positive(PageOf(ADDRESSES - 1), OffsetOf(ADDRESSES - 1));
  }

  /** A read that wraps around to its own page copies from beyond the frame. */
  lemma OverrunWitness()
    ensures ReadPlan(1, ADDRESSES - 1) == [Chunk(0, 1, ADDRESSES - 1)]
    ensures !Fits(ReadPlan(1, ADDRESSES - 1), ADDRESSES - 1)
  {
    assert ReadEnd(1, ADDRESSES - 1) == 0;
    assert |ReadPlan(1, ADDRESSES - 1)| == 1;
    var plan := ReadPlan(1, ADDRESSES - 1);
    assert plan[0] in plan;
  }

  /** The last byte of a write over a page boundary is not written. */
  lemma WriteWitness()
    ensures WritePlan(PAGE_SIZE - 1, 2) == [Chunk(0, PAGE_SIZE - 1, 1), Chunk(1, 0, 0)]
  {
    var end := WriteEnd(PAGE_SIZE - 1, 2);
    assert end == PAGE_SIZE && PageOf(PAGE_SIZE - 1) == 0 && PageOf(end) == 1;
    assert |WritePlan(PAGE_SIZE - 1, 2)| == 2 && ChunkAt(PAGE_SIZE - 1, 2, end, 1) == Chunk(1, 0, 0);
  }

  /** A read over three pages takes one byte where a whole page was due. */
  lemma ReadWitness()
    ensures ReadPlan(PAGE_SIZE - 1, PAGE_SIZE + 2) == [Chunk(0, PAGE_SIZE - 1, 1), Chunk(1, 0, 1), Chunk(2, 0, 1)]
  {
    var end := ReadEnd(PAGE_SIZE - 1, PAGE_SIZE + 2);
    assert end == 2 * PAGE_SIZE + 1 && PageOf(end) == 2 && OffsetOf(end) == 1 && PageOf(PAGE_SIZE - 1) == 0;
    assert |ReadPlan(PAGE_SIZE - 1, PAGE_SIZE + 2)| == 3;
    assert ChunkAt(PAGE_SIZE - 1, PAGE_SIZE + 2, end, 1) == Chunk(1, 0, 1);
  }

  // ---------------------------------------------------------------------------------------------
  // What that means for the eager machine

  ghost predicate AllMapped(e: Eager, p: nat, plan: seq<Chunk>)
    requires p < |e.spaces|
  {
    forall c :: c in plan ==> c.pn in e.spaces[p]
  }

  ghost function Fetch(e: Eager, p: nat, plan: seq<Chunk>): (bytes: seq<nat>)
    requires p < |e.spaces| && AllMapped(e, p, plan) && InPages(plan)
    ensures |bytes| == Total(plan)
  {
    if plan == [] then []
    else
      var c := plan[|plan| - 1];
      Fetch(e, p, plan[..|plan| - 1]) + BytesAt(e, p, c.pn)[c.off..c.off + c.len]
  }

  /** A page gets `bytes` at `off`, whatever its protection. */
  ghost function Poke(e: Eager, p: nat, pn: nat, off: nat, bytes: seq<nat>): (e': Eager)
    requires p < |e.spaces| && pn in e.spaces[p]
    ensures |e'.spaces| == |e.spaces| && forall r :: 0 <= r < |e.spaces| ==> e'.spaces[r].Keys == e.spaces[r].Keys
  {
    PutPage(e, p, pn, Splice(BytesAt(e, p, pn), off, bytes))
  }

  ghost function Deposit(e: Eager, p: nat, plan: seq<Chunk>, buf: seq<nat>): (e': Eager)
    requires p < |e.spaces| && AllMapped(e, p, plan) && Total(plan) <= |buf|
    ensures |e'.spaces| == |e.spaces| && forall r :: 0 <= r < |e.spaces| ==> e'.spaces[r].Keys == e.spaces[r].Keys
    decreases |plan|
  {
    if plan == [] then e
    else
      var rest, c := plan[..|plan| - 1], plan[|plan| - 1];
      assert c in plan;
      Poke(Deposit(e, p, rest, buf), p, c.pn, c.off, buf[Total(rest)..Total(rest) + c.len])
  }

  /** The byte of process `p` at address `addr`. */
  ghost function ByteAt(e: Eager, p: nat, addr: nat): (b: nat)
    requires p < |e.spaces| && PageOf(addr) in e.spaces[p]
  {
    BytesAt(e, p, PageOf(addr))[OffsetOf(addr)]
  }

  /** The pieces of a read at `vaddr`, put together, have the byte of address `vaddr + i` at `i`. */
  ghost predicate HasByte(e: Eager, p: nat, plan: seq<Chunk>, vaddr: nat, i: nat)
    requires p < |e.spaces|
  {
    && AllMapped(e, p, plan) && InPages(plan) && PageOf(vaddr + i) in e.spaces[p]
    && i < |Fetch(e, p, plan)| && Fetch(e, p, plan)[i] == ByteAt(e, p, vaddr + i)
  }

  /** A read of at most two pages gives the bytes that are there. */
  lemma ReadRight(e: Eager, p: nat, vaddr: nat, count: nat, i: nat)
    requires vaddr + count < ADDRESSES && PageOf(vaddr + count) <= PageOf(vaddr) + 1 && i < count
    requires p < |e.spaces| && AllMapped(e, p, ReadPlan(vaddr, count))
    ensures Total(ReadPlan(vaddr, count)) == count && HasByte(e, p, ReadPlan(vaddr, count), vaddr, i)
  {
    hide BytesAt, PageOf, OffsetOf, Plan, Total, Fetch, ReadEnd, InPages, AllMapped;
    ReadMoves(vaddr, count);
    SecondPage(vaddr, i);
    ReadBound(vaddr, count);
    if PageOf(vaddr) == PageOf(vaddr + count) {
      OnePageRead(e, p, vaddr, count);
    } else {
      TwoPageRead(e, p, vaddr, count);
    }
  }

  lemma OnePageRead(e: Eager, p: nat, vaddr: nat, count: nat)
    requires vaddr + count < ADDRESSES && PageOf(vaddr + count) == PageOf(vaddr) && OffsetOf(vaddr) + count <= PAGE_SIZE
    requires p < |e.spaces| && AllMapped(e, p, ReadPlan(vaddr, count)) && InPages(ReadPlan(vaddr, count))
    ensures PageOf(vaddr) in e.spaces[p]
    ensures Fetch(e, p, ReadPlan(vaddr, count)) ==
      BytesAt(e, p, PageOf(vaddr))[OffsetOf(vaddr)..OffsetOf(vaddr) + count]
  {
    hide BytesAt, Fetch, Total, AllMapped, InPages;
    OneChunk(vaddr, count);
    FetchOne(e, p, Chunk(PageOf(vaddr), OffsetOf(vaddr), count));
  }

  lemma FetchOne(e: Eager, p: nat, c: Chunk)
    requires p < |e.spaces| && AllMapped(e, p, [c]) && InPages([c])
    ensures c.pn in e.spaces[p] && c.off + c.len <= PAGE_SIZE
    ensures Fetch(e, p, [c]) == BytesAt(e, p, c.pn)[c.off..c.off + c.len]
  {
    hide BytesAt, Fetch, Total;
    var plan := [c];
    assert c in plan && plan[..0] == [] && plan[..1] == plan;
    FetchNone(e, p);
    FetchMore(e, p, plan, 0);
  }

  lemma OneChunk(vaddr: nat, count: nat)
    requires vaddr + count < ADDRESSES && PageOf(vaddr + count) == PageOf(vaddr)
    ensures ReadPlan(vaddr, count) == [Chunk(PageOf(vaddr), OffsetOf(vaddr), count)]
  {
    assert ReadEnd(vaddr, count) == vaddr + count;
    hide PageOf, OffsetOf, ReadEnd;
    assert |ReadPlan(vaddr, count)| == 1;
  }

  lemma FetchTwo(e: Eager, p: nat, c: Chunk, d: Chunk)
    requires p < |e.spaces| && AllMapped(e, p, [c, d]) && InPages([c, d])
    ensures c.pn in e.spaces[p] && d.pn in e.spaces[p] && c.off + c.len <= PAGE_SIZE && d.off + d.len <= PAGE_SIZE
    ensures Fetch(e, p, [c, d]) == BytesAt(e, p, c.pn)[c.off..c.off + c.len] + BytesAt(e, p, d.pn)[d.off..d.off + d.len]
  {
    hide BytesAt, Fetch, Total;
    var plan := [c, d];
    assert c in plan && d in plan && plan[..0] == [] && plan[..1] == [c] && plan[..2] == plan;
    FetchNone(e, p);
    FetchMore(e, p, plan, 0);
    FetchMore(e, p, plan, 1);
  }

  lemma TwoPageRead(e: Eager, p: nat, vaddr: nat, count: nat)
    requires vaddr + count < ADDRESSES && PageOf(vaddr + count) == PageOf(vaddr) + 1
    requires p < |e.spaces| && AllMapped(e, p, ReadPlan(vaddr, count)) && InPages(ReadPlan(vaddr, count))
    ensures PageOf(vaddr) in e.spaces[p] && PageOf(vaddr) + 1 in e.spaces[p]
    ensures Fetch(e, p, ReadPlan(vaddr, count)) ==
      BytesAt(e, p, PageOf(vaddr))[OffsetOf(vaddr)..PAGE_SIZE]
      + BytesAt(e, p, PageOf(vaddr) + 1)[0..OffsetOf(vaddr + count)]
  {
    hide BytesAt, Fetch, Total, AllMapped, InPages;
    TwoChunks(vaddr, count);
    FetchTwo(e, p, Chunk(PageOf(vaddr), OffsetOf(vaddr), PAGE_SIZE - OffsetOf(vaddr)),
             Chunk(PageOf(vaddr) + 1, 0, OffsetOf(vaddr + count)));
  }

  lemma TwoChunks(vaddr: nat, count: nat)
    requires vaddr + count < ADDRESSES && PageOf(vaddr + count) == PageOf(vaddr) + 1
    ensures ReadPlan(vaddr, count) ==
      [Chunk(PageOf(vaddr), OffsetOf(vaddr), PAGE_SIZE - OffsetOf(vaddr)),
       Chunk(PageOf(vaddr) + 1, 0, OffsetOf(vaddr + count))]
  {
    assert ReadEnd(vaddr, count) == vaddr + count;
    hide PageOf, OffsetOf, ReadEnd;
    assert |ReadPlan(vaddr, count)| == 2 && ReadPlan(vaddr, count)[1] == ChunkAt(vaddr, count, vaddr + count, 1);
  }

  lemma FetchNone(e: Eager, p: nat)
    requires p < |e.spaces|
    ensures AllMapped(e, p, []) && InPages([]) && Fetch(e, p, []) == []
  {
  }

  lemma ReadBound(vaddr: nat, count: nat)
    ensures PageOf(vaddr) == PageOf(vaddr + count) ==> OffsetOf(vaddr) + count < PAGE_SIZE
    ensures PageOf(vaddr) + 1 == PageOf(vaddr + count) ==>
      count == PAGE_SIZE - OffsetOf(vaddr) + OffsetOf(vaddr + count)
    ensures PageOf(vaddr) <= PageOf(vaddr + count)
  {
  }

  lemma SecondPage(vaddr: nat, i: nat)
    ensures i < PAGE_SIZE - OffsetOf(vaddr) ==>
      PageOf(vaddr + i) == PageOf(vaddr) && OffsetOf(vaddr + i) == OffsetOf(vaddr) + i
    ensures PAGE_SIZE - OffsetOf(vaddr) <= i < 2 * PAGE_SIZE - OffsetOf(vaddr) ==>
      PageOf(vaddr + i) == PageOf(vaddr) + 1 && OffsetOf(vaddr + i) == i - (PAGE_SIZE - OffsetOf(vaddr))
  {
  }

  lemma PokeReads(e: Eager, p: nat, pn: nat, page: Page)
    requires p < |e.spaces| && pn in e.spaces[p]
    ensures pn in PutPage(e, p, pn, page).spaces[p] && BytesAt(PutPage(e, p, pn, page), p, pn) == page
  {
  }

  /** A write within one page puts the bytes there, and leaves the rest of the page. */
  lemma WriteRight(e: Eager, p: nat, vaddr: nat, buf: seq<nat>, i: nat)
    requires vaddr + |buf| <= ADDRESSES && 0 < |buf| < ADDRESSES && PageOf(vaddr) == PageOf(vaddr + |buf| - 1)
    requires i < PAGE_SIZE
    requires p < |e.spaces| && PageOf(vaddr) in e.spaces[p]
    ensures AllMapped(e, p, WritePlan(vaddr, |buf|)) && Total(WritePlan(vaddr, |buf|)) == |buf|
    ensures var pn, off, e' := PageOf(vaddr), OffsetOf(vaddr), Deposit(e, p, WritePlan(vaddr, |buf|), buf);
      && pn in e'.spaces[p]
      && BytesAt(e', p, pn)[i] == if off <= i < off + |buf| then buf[i - off] else BytesAt(e, p, pn)[i]
  {
    hide BytesAt, PutPage;
    var end, pn, off := vaddr + |buf| - 1, PageOf(vaddr), OffsetOf(vaddr);
    assert WriteEnd(vaddr, |buf|) == end;
    var plan := [Chunk(pn, off, |buf|)];
    assert WritePlan(vaddr, |buf|) == plan;
    WriteMoves(vaddr, |buf|);
    assert plan[..0] == [] && Total(plan[..0]) == 0 && Deposit(e, p, plan[..0], buf) == e && buf[0..|buf|] == buf;
    PokeReads(e, p, pn, Splice(BytesAt(e, p, pn), off, buf));
  }

  // ---------------------------------------------------------------------------------------------
  // The code

  datatype PageResult = Found(frame: FrameId) | Missing | NotSafe

  /**
   * How an access ended: all copies made, a null area followed, before a copy that is not safe, or
   * at one that leaves its page or the buffer.
   */
  datatype Ending = Complete | NullMap | Stopped | Overrun

  /** vmmap_lookup and pframe_lookup for writing, for either function. */
  method FindPage(k: Kernel, p: nat, pn: nat, garbage: Page) returns (r: PageResult)
    requires Ready(k) && p < |k.spaces|
    modifies k`pf, k`objs, k`resident
    ensures Ready(k) && MeaningOf(k) == old(MeaningOf(k)) && SameShape(old(k.objs), k.objs)
    ensures r.Missing? <==> pn !in MeaningOf(k).spaces[p]
    ensures r.NotSafe? <==> pn in MeaningOf(k).spaces[p] && !old(SafeAt(k, p, pn))
    ensures r.NotSafe? ==> !SafeAt(k, p, pn)
    ensures r.Found? ==> r.frame in k.pf.frames && k.pf.frames[r.frame].data == BytesAt(MeaningOf(k), p, pn)
    ensures r.Found? ==> var a := At(k.spaces[p], pn).value;
      && KeyOf(k.pf.frames[r.frame]) == (a.obj, pn - a.start + a.off)
      && (a.private || (a.obj in k.objs && k.objs[a.obj].kind == Anon))
  {
    hide HoldsRefs, Apart, Meaning, ReadIn, BytesAt, SameShape, Safe, MemOf;
    AreaAt(k, p, pn);
    ShapeSelf(k.objs);
    var i := Lookup(k.spaces[p], pn);
    if i.None? {
      return Missing;
    }
    var a := k.spaces[p][i.value];
    var q := pn - a.start + a.off;
    if !Safe(k.objs, k.pf.frames, a, q) {
      return NotSafe;
    }
    ghost var objs, frames := k.objs, k.pf.frames;
    var f := SafeLookup(k, p, a, q, garbage);
    SafeTop(objs, k.objs, frames, a, q);
    return Found(f);
  }

  /** The copy at `n` stays within its page, and with those before it within `count` bytes. */
  predicate FitsAt(plan: seq<Chunk>, n: nat, count: nat)
    requires n < |plan|
  {
    plan[n].off + plan[n].len <= PAGE_SIZE && Total(plan[..n]) + plan[n].len <= count
  }

  lemma {:induction false} TotalPrefix(plan: seq<Chunk>, n: nat)
    requires n <= |plan|
    ensures Total(plan[..n]) <= Total(plan)
  {
    if n == |plan| {
      assert plan[..n] == plan;
    } else {
      var rest := plan[..|plan| - 1];
      TotalPrefix(rest, n);
      assert rest[..n] == plan[..n];
    }
  }

  /** Why an access made `n` copies of the plan for `count` bytes, and no more. */
  ghost predicate Ended(k: Kernel, p: nat, plan: seq<Chunk>, count: nat, n: nat, ending: Ending)
    requires p < |k.spaces|
    reads k
  {
    match ending
    case Complete => n == |plan|
    case NullMap => n < |plan| && plan[n].pn !in MeaningOf(k).spaces[p]
    case Stopped => n < |plan| && plan[n].pn in MeaningOf(k).spaces[p] && !SafeAt(k, p, plan[n].pn)
    case Overrun => n < |plan| && plan[n].pn in MeaningOf(k).spaces[p] && !FitsAt(plan, n, count)
  }

  /** The first `n` copies of the plan have read `buf`. */
  ghost predicate HasRead(e: Eager, p: nat, plan: seq<Chunk>, n: nat, buf: seq<nat>) {
    && p < |e.spaces| && n <= |plan| && AllMapped(e, p, plan[..n]) && InPages(plan[..n])
    && buf == Fetch(e, p, plan[..n])
  }

  lemma ReadNothing(e: Eager, p: nat, plan: seq<Chunk>)
    requires p < |e.spaces|
    ensures HasRead(e, p, plan, 0, [])
  {
    assert plan[..0] == [];
  }

  lemma ReadPiece(e: Eager, p: nat, plan: seq<Chunk>, n: nat, buf: seq<nat>)
    requires HasRead(e, p, plan, n, buf) && n < |plan| && plan[n].pn in e.spaces[p]
    ensures |buf| == Total(plan[..n])
    ensures var c := plan[n];
      c.off + c.len <= PAGE_SIZE ==> HasRead(e, p, plan, n + 1, buf + BytesAt(e, p, c.pn)[c.off..c.off + c.len])
  {
    hide BytesAt, Fetch, InPages;
    if plan[n].off + plan[n].len <= PAGE_SIZE {
      FetchMore(e, p, plan, n);
    }
  }

  lemma FetchMore(e: Eager, p: nat, plan: seq<Chunk>, n: nat)
    requires p < |e.spaces| && n < |plan| && AllMapped(e, p, plan[..n]) && plan[n].pn in e.spaces[p]
    requires InPages(plan[..n]) && plan[n].off + plan[n].len <= PAGE_SIZE
    ensures AllMapped(e, p, plan[..n + 1]) && InPages(plan[..n + 1])
    ensures Fetch(e, p, plan[..n + 1]) ==
      Fetch(e, p, plan[..n]) + BytesAt(e, p, plan[n].pn)[plan[n].off..plan[n].off + plan[n].len]
  {
    hide BytesAt;
    assert plan[..n + 1] == plan[..n] + [plan[n]];
    assert plan[..n + 1][..n] == plan[..n];
  }

  /** One copy of vmmap_read, `len` bytes at `off` of page `pn`; Complete if it has been made. */
  method ReadChunk(k: Kernel, p: nat, count: nat, n: nat, buf: seq<nat>, c: Chunk, garbage: Page,
                   ghost plan: seq<Chunk>)
    returns (buf': seq<nat>, ending: Ending)
    requires Ready(k) && p < |k.spaces| && n < |plan| && c == plan[n] && HasRead(MeaningOf(k), p, plan, n, buf)
    modifies k`pf, k`objs, k`resident
    ensures Ready(k) && MeaningOf(k) == old(MeaningOf(k)) && SameShape(old(k.objs), k.objs)
    ensures HasRead(MeaningOf(k), p, plan, if ending.Complete? then n + 1 else n, buf')
    ensures if ending.Complete? then FitsAt(plan, n, count) else Ended(k, p, plan, count, n, ending)
  {
    hide Ready, Meaning, SameShape, SafeAt, BytesAt, At, HasRead, Apart, VmOk, Total, MemOf, KeyOf, PageOf;
    var r := FindPage(k, p, c.pn, garbage);
    buf', ending := buf, EndingOf(r);
    if r.Found? {
      ReadPiece(MeaningOf(k), p, plan, n, buf);
      if c.off + c.len > PAGE_SIZE || |buf| + c.len > count {
        return buf, Overrun;
      }
      buf' := buf + k.pf.frames[r.frame].data[c.off..c.off + c.len];
    }
  }

  lemma AllDone(k: Kernel, p: nat, plan: seq<Chunk>, count: nat)
    requires p < |k.spaces|
    ensures Ended(k, p, plan, count, |plan|, Complete)
  {
  }

  lemma PlanFacts(vaddr: nat, count: nat, end: nat)
    ensures ReadPlan(vaddr, count) == Plan(vaddr, count, ReadEnd(vaddr, count))
    ensures WritePlan(vaddr, count) == Plan(vaddr, count, WriteEnd(vaddr, count))
    ensures forall i: nat :: i > 0 ==> ChunkAt(vaddr, count, end, i) == Chunk(PageOf(vaddr) + i, 0, OffsetOf(end))
    ensures ChunkAt(vaddr, count, end, 0) ==
      Chunk(PageOf(vaddr), OffsetOf(vaddr), if PageOf(vaddr) == PageOf(end) then count else PAGE_SIZE - OffsetOf(vaddr))
  {
  }

  function EndingOf(r: PageResult): (ending: Ending)
    ensures r.Found? ==> ending == Complete
  {
    match r
    case Found(_) => Complete
    case Missing => NullMap
    case NotSafe => Stopped
  }

  /** vmmap_read, which looks every page up for writing. */
  method ReadUser(k: Kernel, p: nat, vaddr: nat, count: nat, noise: nat -> Page)
    returns (buf: seq<nat>, n: nat, ending: Ending)
    requires Ready(k) && p < |k.spaces| && Words(vaddr, count)
    modifies k`pf, k`objs, k`resident
    ensures Ready(k) && MeaningOf(k) == old(MeaningOf(k)) && SameShape(old(k.objs), k.objs)
    ensures HasRead(MeaningOf(k), p, ReadPlan(vaddr, count), n, buf) && n <= |ReadPlan(vaddr, count)|
    ensures Ended(k, p, ReadPlan(vaddr, count), count, n, ending)
    ensures forall i :: 0 <= i < n ==> FitsAt(ReadPlan(vaddr, count), i, count)
  {
    hide *;
    ShapeSelf(k.objs);
    PlanFacts(vaddr, count, ReadEnd(vaddr, count));
    ghost var plan := ReadPlan(vaddr, count);
    ReadNothing(MeaningOf(k), p, plan);
    var end := ReadEnd(vaddr, count);
    var first, last := PageOf(vaddr), PageOf(end);
    buf, n := [], 0;
    if first == last {
      buf, ending := ReadChunk(k, p, count, 0, buf, Chunk(first, OffsetOf(vaddr), count), noise(0), plan);
      AllDone(k, p, plan, count);
      return buf, if ending.Complete? then 1 else 0, ending;
    }
    var page := first;
    while page <= last
      invariant Ready(k) && MeaningOf(k) == old(MeaningOf(k)) && SameShape(old(k.objs), k.objs)
      invariant page == first + n && (n == |plan| || page <= last)
      invariant HasRead(MeaningOf(k), p, plan, n, buf)
      invariant forall i :: 0 <= i < n ==> FitsAt(plan, i, count)
    {
      ghost var objs := k.objs;
      var c := if page == first then Chunk(page, OffsetOf(vaddr), PAGE_SIZE - OffsetOf(vaddr))
               else Chunk(page, 0, OffsetOf(end));
      assert c == ChunkAt(vaddr, count, end, n);
      buf, ending := ReadChunk(k, p, count, n, buf, c, noise(n), plan);
      ShapeStep(old(k.objs), objs, k.objs);
      if !ending.Complete? {
        return;
      }
      page, n := page + 1, n + 1;
    }
    AllDone(k, p, plan, count);
    return buf, n, Complete;
  }

  /** One page of vmmap_write: the copy, and pframe_dirty. */
  method WritePage(k: Kernel, p: nat, pn: nat, f: FrameId, off: nat, bytes: seq<nat>)
    requires Ready(k) && p < |k.spaces| && At(k.spaces[p], pn).Some?
    requires var a := At(k.spaces[p], pn).value;
      && f in k.pf.frames && KeyOf(k.pf.frames[f]) == (a.obj, pn - a.start + a.off)
      && (a.private || (a.obj in k.objs && k.objs[a.obj].kind == Anon))
    requires pn in MeaningOf(k).spaces[p] && k.pf.frames[f].data == BytesAt(MeaningOf(k), p, pn)
    modifies k`pf
    ensures Ready(k) && MeaningOf(k) == Poke(old(MeaningOf(k)), p, pn, off, bytes)
    ensures f in k.pf.frames
    ensures k.pf.frames == old(k.pf.frames)[f := old(k.pf.frames[f]).(dirty := true, data := k.pf.frames[f].data)]
  {
    hide Conserved, AllRefs, AllTops, Apart, SpacesOk, Meaning, BytesAt, At, FramesOk, ObjsOk, ContentsOf, PutPage;
    WriteFrame(k, p, pn, f, Splice(k.pf.frames[f].data, off, bytes), At(k.spaces[p], pn).value);
    Marked(k, f);
    Dirty(k, f);
  }

  /** FindPage and WritePage together. */
  method PutBytes(k: Kernel, p: nat, pn: nat, off: nat, bytes: seq<nat>, garbage: Page) returns (r: PageResult)
    requires Ready(k) && p < |k.spaces|
    modifies k`pf, k`objs, k`resident
    ensures Ready(k) && SameShape(old(k.objs), k.objs)
    ensures r.Missing? <==> pn !in old(MeaningOf(k)).spaces[p]
    ensures r.NotSafe? ==> pn in MeaningOf(k).spaces[p] && !SafeAt(k, p, pn)
    ensures !r.Found? ==> MeaningOf(k) == old(MeaningOf(k))
    ensures r.Found? ==> MeaningOf(k) == Poke(old(MeaningOf(k)), p, pn, off, bytes)
    ensures r.Found? ==> r.frame in k.pf.frames && k.pf.frames[r.frame].dirty
    ensures r.Found? ==>
      var a := At(k.spaces[p], pn).value; KeyOf(k.pf.frames[r.frame]) == (a.obj, pn - a.start + a.off)
  {
    hide Ready, Meaning, SameShape, SafeAt, BytesAt, At, Poke;
    r := FindPage(k, p, pn, garbage);
    if r.Found? {
      MappedAt(k, p, pn);
      WritePage(k, p, pn, r.frame, off, bytes);
    }
  }

  lemma MappedAt(k: Kernel, p: nat, pn: nat)
    requires Ready(k) && p < |k.spaces| && pn in MeaningOf(k).spaces[p]
    ensures At(k.spaces[p], pn).Some?
  {
    hide HoldsRefs, Apart, Meaning, BytesAt, At;
    AreaAt(k, p, pn);
  }

  lemma DepositMore(e: Eager, p: nat, plan: seq<Chunk>, buf: seq<nat>, n: nat)
    requires p < |e.spaces| && n < |plan| && AllMapped(e, p, plan[..n]) && plan[n].pn in e.spaces[p]
    requires Total(plan[..n]) + plan[n].len <= |buf|
    ensures AllMapped(e, p, plan[..n + 1]) && Total(plan[..n]) + plan[n].len == Total(plan[..n + 1]) <= |buf|
    ensures var e1 := Deposit(e, p, plan[..n], buf);
      Deposit(e, p, plan[..n + 1], buf) ==
      Poke(e1, p, plan[n].pn, plan[n].off, buf[Total(plan[..n])..Total(plan[..n]) + plan[n].len])
  {
    hide Poke;
    assert plan[..n + 1] == plan[..n] + [plan[n]];
    assert plan[..n + 1][..n] == plan[..n] && plan[..n + 1][n] == plan[n];
  }

  lemma StillMapped(e: Eager, p: nat, plan: seq<Chunk>, buf: seq<nat>, n: nat)
    requires p < |e.spaces| && n <= |plan| && AllMapped(e, p, plan[..n]) && Total(plan[..n]) <= |buf|
    ensures var e1 := Deposit(e, p, plan[..n], buf); |e1.spaces| == |e.spaces| && AllMapped(e1, p, plan[..n])
    ensures var e1 := Deposit(e, p, plan[..n], buf); forall pn :: pn in e1.spaces[p] <==> pn in e.spaces[p]
  {
    var e1 := Deposit(e, p, plan[..n], buf);
    hide Deposit;
    assert e1.spaces[p].Keys == e.spaces[p].Keys;
    assert forall pn :: pn in e1.spaces[p] <==> pn in e1.spaces[p].Keys;
    assert forall pn :: pn in e.spaces[p] <==> pn in e.spaces[p].Keys;
  }

  /** The first `n` copies of the plan have been made from `buf`; `rest` is still to go. */
  ghost predicate HasWritten(e: Eager, e': Eager, p: nat, plan: seq<Chunk>, n: nat, buf: seq<nat>, rest: seq<nat>) {
    && p < |e.spaces| && n <= |plan| && AllMapped(e, p, plan[..n]) && InPages(plan[..n]) && Total(plan[..n]) <= |buf|
    && rest == buf[Total(plan[..n])..]
    && e' == Deposit(e, p, plan[..n], buf)
  }

  lemma WrittenNothing(e: Eager, p: nat, plan: seq<Chunk>, buf: seq<nat>)
    requires p < |e.spaces|
    ensures HasWritten(e, e, p, plan, 0, buf, buf)
  {
    assert plan[..0] == [] && buf[0..] == buf;
  }

  lemma WrittenPiece(e: Eager, e': Eager, p: nat, plan: seq<Chunk>, n: nat, buf: seq<nat>, rest: seq<nat>)
    requires HasWritten(e, e', p, plan, n, buf, rest) && n < |plan|
    ensures |e'.spaces| == |e.spaces|
    ensures (FitsAt(plan, n, |buf|) <==> plan[n].off + plan[n].len <= PAGE_SIZE && plan[n].len <= |rest|)
    ensures var c := plan[n]; FitsAt(plan, n, |buf|) && c.pn in e'.spaces[p] ==>
      HasWritten(e, Poke(e', p, c.pn, c.off, rest[..c.len]), p, plan, n + 1, buf, rest[c.len..])
  {
    hide Deposit, Poke, Total, AllMapped;
    MappedBefore(e, p, plan, buf, n, plan[n].pn);
    var c := plan[n];
    if FitsAt(plan, n, |buf|) && c.pn in e'.spaces[p] {
      assert plan[..n + 1] == plan[..n] + [c];
      DepositMore(e, p, plan, buf, n);
      Slices(buf, Total(plan[..n]), c.len);
    }
  }

  lemma MappedBefore(e: Eager, p: nat, plan: seq<Chunk>, buf: seq<nat>, n: nat, pn: nat)
    requires p < |e.spaces| && n <= |plan| && AllMapped(e, p, plan[..n]) && Total(plan[..n]) <= |buf|
    ensures var e1 := Deposit(e, p, plan[..n], buf);
      |e1.spaces| == |e.spaces| && (pn in e1.spaces[p] <==> pn in e.spaces[p])
  {
    hide Deposit, Total;
    StillMapped(e, p, plan, buf, n);
  }

  lemma Slices(buf: seq<nat>, t: nat, len: nat)
    requires t + len <= |buf|
    ensures buf[t..][..len] == buf[t..t + len] && buf[t..][len..] == buf[t + len..]
  {
  }

  /** One copy of vmmap_write; Complete if it has been made. */
  method WriteChunk(k: Kernel, p: nat, ghost buf: seq<nat>, n: nat, rest: seq<nat>, c: Chunk, garbage: Page,
                    ghost e: Eager, ghost plan: seq<Chunk>)
    returns (rest': seq<nat>, ending: Ending)
    requires Ready(k) && p < |k.spaces| && n < |plan| && c == plan[n]
    requires HasWritten(e, MeaningOf(k), p, plan, n, buf, rest)
    modifies k`pf, k`objs, k`resident
    ensures Ready(k) && SameShape(old(k.objs), k.objs)
    ensures HasWritten(e, MeaningOf(k), p, plan, if ending.Complete? then n + 1 else n, buf, rest')
    ensures if ending.Complete? then FitsAt(plan, n, |buf|) else Ended(k, p, plan, |buf|, n, ending)
  {
    hide Ready, Meaning, SameShape, SafeAt, HasWritten, Poke, FitsAt;
    WrittenPiece(e, MeaningOf(k), p, plan, n, buf, rest);
    if c.off + c.len > PAGE_SIZE || c.len > |rest| {
      var r := FindPage(k, p, c.pn, garbage);
      return rest, if r.Found? then Overrun else EndingOf(r);
    }
    var r := PutBytes(k, p, c.pn, c.off, rest[..c.len], garbage);
    return if r.Found? then rest[c.len..] else rest, EndingOf(r);
  }

  /** vmmap_write. */
  method WriteUser(k: Kernel, p: nat, vaddr: nat, buf: seq<nat>, noise: nat -> Page)
    returns (n: nat, ending: Ending, rest: seq<nat>)
    requires Ready(k) && p < |k.spaces| && Words(vaddr, |buf|)
    modifies k`pf, k`objs, k`resident
    ensures Ready(k) && SameShape(old(k.objs), k.objs)
    ensures HasWritten(old(MeaningOf(k)), MeaningOf(k), p, WritePlan(vaddr, |buf|), n, buf, rest)
    ensures n <= |WritePlan(vaddr, |buf|)|
    ensures Ended(k, p, WritePlan(vaddr, |buf|), |buf|, n, ending)
    ensures forall i :: 0 <= i < n ==> FitsAt(WritePlan(vaddr, |buf|), i, |buf|)
  {
    hide *;
    ShapeSelf(k.objs);
    PlanFacts(vaddr, |buf|, WriteEnd(vaddr, |buf|));
    ghost var plan, e := WritePlan(vaddr, |buf|), MeaningOf(k);
    WrittenNothing(e, p, plan, buf);
    var end := WriteEnd(vaddr, |buf|);
    var first, last := PageOf(vaddr), PageOf(end);
    n, rest := 0, buf;
    if first == last {
      rest, ending := WriteChunk(k, p, buf, 0, rest, Chunk(first, OffsetOf(vaddr), |buf|), noise(0), e, plan);
      AllDone(k, p, plan, |buf|);
      return if ending.Complete? then 1 else 0, ending, rest;
    }
    var page := first;
    while page <= last
      invariant Ready(k) && SameShape(old(k.objs), k.objs)
      invariant page == first + n && (n == |plan| || page <= last)
      invariant HasWritten(e, MeaningOf(k), p, plan, n, buf, rest)
      invariant forall i :: 0 <= i < n ==> FitsAt(plan, i, |buf|)
    {
      ghost var objs := k.objs;
      var c := if page == first then Chunk(page, OffsetOf(vaddr), PAGE_SIZE - OffsetOf(vaddr))
               else Chunk(page, 0, OffsetOf(end));
      assert c == ChunkAt(vaddr, |buf|, end, n);
      rest, ending := WriteChunk(k, p, buf, n, rest, c, noise(n), e, plan);
      ShapeStep(old(k.objs), objs, k.objs);
      if !ending.Complete? {
        return;
      }
      page, n := page + 1, n + 1;
    }
    AllDone(k, p, plan, |buf|);
    return n, Complete, rest;
  }
}
