/** Page faults, loads and stores over shadow objects refine the eager machine. */
module CopyOnWrite {
  import opened Lists
  import opened Chains
  import opened VmState
  import opened FrameCache
  import opened PageLookup
  import opened Objects
  import opened AreaList
  import opened AddressSpace
  import opened Sharing
  import opened Mapping
  import opened EagerCopy

  ghost predicate Ready(k: Kernel)
    reads k
  {
    VmOk(k) && Apart(MemOf(k), k.spaces)
  }

  ghost function MeaningOf(k: Kernel): (e: Eager)
    reads k`pf, k`objs, k`resident, k`spaces
    ensures |e.spaces| == |k.spaces|
  {
    Meaning(MemOf(k), k.spaces)
  }

  // ---------------------------------------------------------------------------------------------
  // Which pages may be written

  predicate Held(frames: Frames, o: ObjId, q: nat) {
    exists f :: f in frames && KeyOf(frames[f]) == (o, q)
  }

  predicate HoldsZeros(frames: Frames, o: ObjId, q: nat) {
    forall f :: f in frames && KeyOf(frames[f]) == (o, q) ==> frames[f].data == ZeroPage()
  }

  predicate HeldOnChain(objs: Objs, frames: Frames, o: ObjId, q: nat)
    decreases o
  {
    || Held(frames, o, q)
    || (o in objs && objs[o].shadowed.Some? && objs[o].shadowed.value < o
        && HeldOnChain(objs, frames, objs[o].shadowed.value, q))
  }

  /** A search for page `q` from `b` on finds zeros, and does not meet `o` before. */
  predicate ZerosBefore(objs: Objs, frames: Frames, b: ObjId, o: ObjId, q: nat)
    decreases b
  {
    && b != o
    && if Held(frames, b, q) then HoldsZeros(frames, b, q)
       else b in objs && objs[b].shadowed.Some? && objs[b].shadowed.value < b ==>
         ZerosBefore(objs, frames, objs[b].shadowed.value, o, q)
  }

  /**
   * Page `q` of the area's object may be looked up for writing: the copy, if one is made, is of
   * the bytes that were there. A shared area that has been split has a shadow of its own, which
   * hides what is written through it from those who share the pages; it never qualifies.
   */
  predicate Safe(objs: Objs, frames: Frames, a: VmArea, q: nat) {
    && a.obj in objs
    && (|| objs[a.obj].kind == Anon
        || (a.private &&
            (|| HeldOnChain(objs, frames, a.obj, q)
             || (objs[a.obj].bottom in objs && ZerosBefore(objs, frames, objs[a.obj].bottom, a.obj, q)))))
  }

  /** Why: what is written through the shadow `s` of one half is not what the other sharers read. */
  lemma SplitUnshares(m: Mem, s: ObjId, x: ObjId, q: nat, page: Page)
    requires forall r :: r in m.links ==> m.links[r] != Some(s)
    requires x != s && End(m.links, x) == End(m.links, s) && ReadIn(m, x, q) != page
    ensures var m' := Mem(m.links, m.contents[(s, q) := page]); ReadIn(m', s, q) == page && ReadIn(m', x, q) != page
  {
    WriteIsPrivate(m.links, m.contents, s, q, page, x, q);
  }

  lemma HeldIsResident(t: FrameTable, objs: Objs, resident: Index, o: ObjId, q: nat)
    requires FramesOk(t, objs, resident)
    ensures Held(t.frames, o, q) <==> (o, q) in ContentsOf(t.frames, resident)
    ensures (o, q) in ContentsOf(t.frames, resident) ==>
      (HoldsZeros(t.frames, o, q) <==> ContentsOf(t.frames, resident)[(o, q)] == ZeroPage())
  {
    hide HashOk, ListsOk, PagesListed;
  }

  lemma {:induction false} HeldOnChainIs(t: FrameTable, objs: Objs, resident: Index, next: ObjId, o: ObjId, q: nat)
    requires FramesOk(t, objs, resident) && ObjsOk(objs, next) && o in objs
    ensures HeldOnChain(objs, t.frames, o, q) <==> ResidentOnChain(LinksOf(objs), ContentsOf(t.frames, resident), o, q)
    decreases o
  {
    hide FramesOk, ObjsOk, LinksOf, ContentsOf, Held;
    HeldIsResident(t, objs, resident, o, q);
    LinksAt(objs, next, o);
    if objs[o].shadowed.Some? {
      HeldOnChainIs(t, objs, resident, next, objs[o].shadowed.value, q);
    }
  }

  lemma {:induction false} ZerosBeforeIs(t: FrameTable, objs: Objs, resident: Index, next: ObjId, b: ObjId, o: ObjId,
                                         q: nat)
    requires FramesOk(t, objs, resident) && ObjsOk(objs, next) && b in objs
    ensures ZerosBefore(objs, t.frames, b, o, q) <==>
      ReadBefore(LinksOf(objs), ContentsOf(t.frames, resident), b, o, q) == Some(ZeroPage())
    decreases b
  {
    hide FramesOk, ObjsOk, LinksOf, ContentsOf, Held, HoldsZeros;
    HeldIsResident(t, objs, resident, b, q);
    LinksAt(objs, next, b);
    if objs[b].shadowed.Some? {
      ZerosBeforeIs(t, objs, resident, next, objs[b].shadowed.value, o, q);
    }
  }

  /** The check on the lists is the condition under which a write finds what was there. */
  lemma SafeExact(k: Kernel, a: VmArea, q: nat)
    requires MemOk(k) && a.obj in k.objs
    ensures Safe(k.objs, k.pf.frames, a, q) ==> WriteSafe(k.objs, ContentsOf(k.pf.frames, k.resident), a.obj, q)
    ensures a.private ==>
      (Safe(k.objs, k.pf.frames, a, q) <==> WriteSafe(k.objs, ContentsOf(k.pf.frames, k.resident), a.obj, q))
  {
    hide FramesOk, ObjsOk, LinksOf, ContentsOf, ResidentOnChain, ReadBefore, HeldOnChain, ZerosBefore, Quiet;
    HeldOnChainIs(k.pf, k.objs, k.resident, k.nextObj, a.obj, q);
    if k.objs[a.obj].bottom in k.objs {
      ZerosBeforeIs(k.pf, k.objs, k.resident, k.nextObj, k.objs[a.obj].bottom, a.obj, q);
    }
  }

  /** As long as no area has been split, every page may be written. */
  lemma UnsplitSafe(k: Kernel, p: nat, a: VmArea, q: nat)
    requires VmOk(k) && Unsplit(k.objs, k.spaces) && p < |k.spaces| && a in k.spaces[p]
    ensures Safe(k.objs, k.pf.frames, a, q)
  {
    hide FramesOk, ObjsOk, LinksOf, ContentsOf, Quiet, Conserved, AllTops, SpacesOk, WriteSafe, Safe, BottomOk;
    TopAt(k, multiset{}, p, a);
    assert BottomOk(k.objs, a.obj) && Direct(k.objs, k.spaces[p]);
    if a.private {
      BottomSafe(k.objs, k.nextObj, ContentsOf(k.pf.frames, k.resident), a.obj, q);
      SafeExact(k, a, q);
    } else {
      AnonSafe(k.objs, k.pf.frames, a, q);
    }
  }

  lemma AnonSafe(objs: Objs, frames: Frames, a: VmArea, q: nat)
    requires a.obj in objs && objs[a.obj].kind == Anon
    ensures Safe(objs, frames, a, q)
  {
  }

  // ---------------------------------------------------------------------------------------------
  // Lookups

  lemma ShapeUnsplit(objs: Objs, objs': Objs, spaces: seq<Areas>)
    requires SameShape(objs, objs') && Unsplit(objs, spaces)
    ensures Unsplit(objs', spaces)
  {
    ShapeFacts(objs, objs', 0);
    hide LinksOf, End;
    forall o | o in objs'
      ensures BottomOk(objs', o)
    {
      assert BottomOk(objs, o);
    }
    forall p | 0 <= p < |spaces|
      ensures Direct(objs', spaces[p])
    {
      assert Direct(objs, spaces[p]);
    }
  }

  /** No shared area is above `o`, or `o` is the end of its chain. */
  ghost predicate Clear(links: Links, spaces: seq<Areas>, o: ObjId) {
    || Below(links, o).None?
    || forall r, b :: 0 <= r < |spaces| && b in spaces[r] && !b.private ==> !OnChain(links, b.obj, o)
  }

  lemma BareAfter(m: Mem, m': Mem, o: ObjId, page: Page, pn: nat, x: ObjId)
    requires LookedUpAt(m, m', o, page, pn) && Bare(m.links, m.contents, x)
    requires Below(m.links, o).None? || !OnChain(m.links, x, o)
    ensures Bare(m'.links, m'.contents, x)
  {
    hide OnChain, Bare;
    StaysBare(m.links, m.contents, m'.contents, x);
  }

  lemma TopsAfter(m: Mem, objs: Objs, m': Mem, objs': Objs, spaces: seq<Areas>, o: ObjId, page: Page, pn: nat)
    requires AllTops(m, objs, spaces) && SameShape(objs, objs')
    requires LookedUpAt(m, m', o, page, pn) && Clear(m.links, spaces, o)
    ensures AllTops(m', objs', spaces)
  {
    hide LookedUpAt, OnChain, Bare;
    forall r, b | 0 <= r < |spaces| && b in spaces[r]
      ensures TopOk(m', objs', b)
    {
      assert TopsOk(m, objs, spaces[r]) && TopOk(m, objs, b);
      if !b.private {
        BareAfter(m, m', o, page, pn, b.obj);
      }
    }
  }

  lemma ApartLinks(m: Mem, m': Mem, spaces: seq<Areas>)
    requires Apart(m, spaces) && m'.links == m.links
    ensures Apart(m', spaces)
  {
    hide ReadIn, At, End;
    forall p, pn: nat, r, qn: nat | 0 <= p < |spaces| && 0 <= r < |spaces|
      ensures ViewsApart(ViewIn(m', spaces[p], pn), ViewIn(m', spaces[r], qn))
    {
      assert ViewsApart(ViewIn(m, spaces[p], pn), ViewIn(m, spaces[r], qn));
    }
  }

  lemma ShapeRooted(objs: Objs, objs': Objs, next: ObjId)
    requires SameShape(objs, objs') && LinksOf(objs') == LinksOf(objs) && Rooted(objs, next)
    ensures Rooted(objs', next)
  {
    hide LinksOf, End;
    forall x
      ensures RootedAt(objs', next, x)
    {
      assert RootedAt(objs, next, x);
    }
  }

  /** A lookup whose page is what a read would have found keeps everything there is to see. */
  lemma LookupKeeps(k: Kernel, objs: Objs, m: Mem, o: ObjId, pn: nat)
    requires MemOk(k) && SameShape(objs, k.objs) && m.links == LinksOf(objs)
    requires Conserved(LinksOf(objs), ExtOf(objs), AllRefs(k.spaces) + multiset{}) && SpacesOk(k.spaces, k.low, k.high)
    requires AllTops(m, objs, k.spaces) && Apart(m, k.spaces) && Rooted(objs, k.nextObj)
    requires LookedUpAt(m, MemOf(k), o, ReadIn(m, o, pn), pn) && Clear(m.links, k.spaces, o)
    ensures Ready(k) && MeaningOf(k) == Meaning(m, k.spaces)
    ensures forall x, q :: ReadIn(MemOf(k), x, q) == ReadIn(m, x, q)
  {
    hide MemOk, Conserved, AllRefs, LinksOf, ExtOf, SameShape, AllTops, Apart, SpacesOk, Clear, ReadIn, MemOf,
      ContentsOf, Meaning, Rooted;
    ShapeFacts(objs, k.objs, k.nextObj);
    ShapeRooted(objs, k.objs, k.nextObj);
    TopsAfter(m, objs, MemOf(k), k.objs, k.spaces, o, ReadIn(m, o, pn), pn);
    ApartLinks(m, MemOf(k), k.spaces);
    forall x, q
      ensures ReadIn(MemOf(k), x, q) == ReadIn(m, x, q)
    {
      LookupUnseenAt(m, MemOf(k), o, pn, x, q);
    }
    forall p | 0 <= p < |k.spaces|
      ensures SameViews(m, MemOf(k), k.spaces[p])
    {
      ReadsSame(m, MemOf(k), k.spaces[p]);
    }
    MeaningSame(m, MemOf(k), k.spaces);
  }

  lemma ReadsSame(m: Mem, m': Mem, areas: Areas)
    requires m'.links == m.links && forall x, q :: ReadIn(m', x, q) == ReadIn(m, x, q)
    ensures SameViews(m, m', areas)
  {
    hide ReadIn, End, At;
  }

  /** Nothing is above the object of a private area, so no shared area is. */
  lemma PrivateClear(k: Kernel, p: nat, a: VmArea)
    requires Ready(k) && p < |k.spaces| && a in k.spaces[p] && a.private
    ensures a.obj in k.objs && k.objs[a.obj].kind == Shadow
    ensures forall s :: s in LinksOf(k.objs) ==> LinksOf(k.objs)[s] != Some(a.obj)
    ensures (AllRefs(k.spaces) + multiset{})[a.obj] == 1
    ensures Clear(LinksOf(k.objs), k.spaces, a.obj)
  {
    hide MemOk, Conserved, AllRefs, ExtOf, AllTops, Apart, SpacesOk, TopOk, OnChain, ContentsOf;
    HeldAreLive(k, multiset{});
    TopAt(k, multiset{}, p, a);
    assert a.obj in AllRefs(k.spaces) + multiset{};
    TopAlone(MemOf(k), k.objs, AllRefs(k.spaces) + multiset{}, a);
    forall r, b | 0 <= r < |k.spaces| && b in k.spaces[r] && !b.private
      ensures !OnChain(LinksOf(k.objs), b.obj, a.obj)
    {
      EndsApart(MemOf(k), k.spaces, k.low, k.high, p, a, r, b);
      OffChain(LinksOf(k.objs), b.obj, a.obj);
    }
  }

  /** What a page of an area means. */
  lemma AreaAt(k: Kernel, p: nat, pn: nat)
    requires Ready(k) && p < |k.spaces|
    ensures pn in MeaningOf(k).spaces[p] <==> At(k.spaces[p], pn).Some?
    ensures At(k.spaces[p], pn).Some? ==>
      var a := At(k.spaces[p], pn).value;
      && a in k.spaces[p] && a.obj in k.objs && MeaningOf(k).spaces[p][pn].prot == a.prot
      && BytesAt(MeaningOf(k), p, pn) == ReadNow(k, a.obj, pn - a.start + a.off)
  {
    hide MemOk, Conserved, ExtOf, ContentsOf, LinksOf, AllRefs, Meaning, ReadIn, BytesAt, At, Apart, AllTops, End, Bare;
    CellAt(MemOf(k), k.spaces, p, pn);
    if At(k.spaces[p], pn).Some? {
      var a := At(k.spaces[p], pn).value;
      TopAt(k, multiset{}, p, a);
      if !a.private {
        SharedReads(MemOf(k), a.obj, pn - a.start + a.off);
      }
    }
  }

  lemma SharedReads(m: Mem, o: ObjId, q: nat)
    requires Bare(m.links, m.contents, o)
    ensures ReadIn(m, End(m.links, o), q) == ReadIn(m, o, q)
  {
    BareReads(m.links, m.contents, o, q);
  }

  // ---------------------------------------------------------------------------------------------
  // Page faults

  /** pframe_pin, pframe_dirty and pframe_unpin, as handle_pagefault calls them. */
  method MarkDirty(k: Kernel, f: FrameId)
    requires MemOk(k) && f in k.pf.frames
    modifies k`pf
    ensures MemOk(k) && k.pf.frames == old(k.pf.frames)[f := old(k.pf.frames[f]).(dirty := true)]
    ensures MemOf(k) == old(MemOf(k))
  {
    hide FramesOk, ObjsOk, ContentsOf;
    Marked(k, f);
    Pin(k, f);
    Dirty(k, f);
    Unpin(k, f);
    assert k.pf.frames == old(k.pf.frames)[f := old(k.pf.frames[f]).(dirty := true)];
  }

  lemma ContentsUpdate(t: FrameTable, objs: Objs, resident: Index, f: FrameId, fr: PFrame)
    requires FramesOk(t, objs, resident) && f in t.frames && KeyOf(fr) == KeyOf(t.frames[f])
    ensures ContentsOf(t.frames[f := fr], resident) == ContentsOf(t.frames, resident)[KeyOf(fr) := fr.data]
    ensures KeyOf(fr) in ContentsOf(t.frames, resident) && ContentsOf(t.frames, resident)[KeyOf(fr)] == t.frames[f].data
  {
  }

  /** Setting the dirty bit changes no contents. */
  lemma Marked(k: Kernel, f: FrameId)
    requires MemOk(k) && f in k.pf.frames
    ensures ContentsOf(k.pf.frames[f := k.pf.frames[f].(dirty := true)], k.resident) ==
      ContentsOf(k.pf.frames, k.resident)
  {
    ContentsUpdate(k.pf, k.objs, k.resident, f, k.pf.frames[f].(dirty := true));
  }

  /** What the lookup for a write gives when the write is safe. */
  lemma SafeCopy(k: Kernel, a: VmArea, q: nat, garbage: Page)
    requires MemOk(k) && a.obj in k.objs && Safe(k.objs, k.pf.frames, a, q)
    ensures WriteCopy(k.objs, ContentsOf(k.pf.frames, k.resident), a.obj, q, garbage) == Copied(ReadNow(k, a.obj, q))
  {
    hide FramesOk, ObjsOk, LinksOf, ContentsOf, Quiet, Safe, WriteSafe, WriteCopy;
    SafeExact(k, a, q);
    WriteExact(k.objs, k.nextObj, ContentsOf(k.pf.frames, k.resident), a.obj, q);
  }

  lemma TopClear(k: Kernel, p: nat, a: VmArea, q: nat)
    requires Ready(k) && p < |k.spaces| && a in k.spaces[p] && Safe(k.objs, k.pf.frames, a, q)
    ensures a.obj in k.objs && Clear(LinksOf(k.objs), k.spaces, a.obj)
    ensures a.private || (k.objs[a.obj].kind == Anon && End(LinksOf(k.objs), a.obj) == a.obj)
  {
    hide Conserved, AllRefs, ExtOf, AllTops, Apart, SpacesOk, ContentsOf, FramesOk, Quiet, OnChain;
    if a.private {
      PrivateClear(k, p, a);
    } else {
      EndIsAnon(k.objs, k.nextObj, a.obj);
      LinksAt(k.objs, k.nextObj, a.obj);
    }
  }

  /** pframe_lookup for writing of a page that may be written: nobody can tell. */
  method SafeLookup(k: Kernel, p: nat, a: VmArea, q: nat, garbage: Page) returns (f: FrameId)
    requires Ready(k) && p < |k.spaces| && a in k.spaces[p] && Safe(k.objs, k.pf.frames, a, q)
    modifies k`pf, k`objs, k`resident
    ensures Ready(k) && MeaningOf(k) == old(MeaningOf(k)) && SameShape(old(k.objs), k.objs)
    ensures f in k.pf.frames && KeyOf(k.pf.frames[f]) == (a.obj, q) && k.pf.frames[f].data == old(ReadNow(k, a.obj, q))
  {
    hide MemOk, Conserved, AllRefs, LinksOf, ExtOf, SameShape, AllTops, Apart, SpacesOk, Clear, ReadIn, ContentsOf,
      Meaning, Safe, WriteCopy;
    TopClear(k, p, a, q);
    SafeCopy(k, a, q, garbage);
    ghost var m := MemOf(k);
    var r := PageForWrite(k, a.obj, q, garbage);
    f := r.value;
    LookupKeeps(k, old(k.objs), m, a.obj, q);
  }

  datatype FaultResult = Resolved(frame: FrameId) | Killed | Unsafe

  /** Between steps a page of a shadow is pinned once, and a page of an anonymous object not at all. */
  lemma PinsAtRest(k: Kernel, f: FrameId)
    requires MemOk(k) && f in k.pf.frames
    ensures var fr := k.pf.frames[f];
      !fr.busy && fr.obj in k.objs && fr.pincount == if k.objs[fr.obj].kind == Shadow then 1 else 0
  {
    hide FramesOk, ObjsOk;
    assert QuietFrame(k.pf.frames[f], k.objs);
  }

  /** The write branch of handle_pagefault: the top object's own copy, marked dirty. */
  method WritablePage(k: Kernel, p: nat, a: VmArea, q: nat, garbage: Page) returns (f: FrameId)
    requires Ready(k) && p < |k.spaces| && a in k.spaces[p] && Safe(k.objs, k.pf.frames, a, q)
    modifies k`pf, k`objs, k`resident
    ensures Ready(k) && MeaningOf(k) == old(MeaningOf(k)) && SameShape(old(k.objs), k.objs)
    ensures f in k.pf.frames && KeyOf(k.pf.frames[f]) == (a.obj, q) && k.pf.frames[f].data == old(ReadNow(k, a.obj, q))
    ensures k.pf.frames[f].dirty && !k.pf.frames[f].busy && a.obj in k.objs
    ensures k.pf.frames[f].pincount == if k.objs[a.obj].kind == Shadow then 1 else 0
  {
    hide MemOk, Conserved, AllRefs, LinksOf, ExtOf, SameShape, AllTops, Apart, SpacesOk, ReadIn, ContentsOf, Meaning,
      Safe;
    f := SafeLookup(k, p, a, q, garbage);
    MarkDirty(k, f);
    PinsAtRest(k, f);
  }

  method ReadablePage(k: Kernel, p: nat, a: VmArea, q: nat, garbage: Page) returns (f: FrameId)
    requires Ready(k) && p < |k.spaces| && a in k.spaces[p] && a.obj in k.objs
    modifies k`pf, k`objs, k`resident
    ensures Ready(k) && MeaningOf(k) == old(MeaningOf(k)) && SameShape(old(k.objs), k.objs)
    ensures f in k.pf.frames && k.pf.frames[f].data == old(ReadNow(k, a.obj, q))
  {
    hide MemOk, Conserved, AllRefs, LinksOf, ExtOf, SameShape, AllTops, Apart, SpacesOk, ReadIn, ContentsOf, Meaning;
    ghost var m := MemOf(k);
    f := PageForRead(k, a.obj, q, garbage);
    LookupKeeps(k, old(k.objs), m, End(m.links, a.obj), q);
  }

  /**
   * handle_pagefault: kills exactly when the access is not allowed; otherwise the frame holds the
   * bytes of the page, and no process can tell that the fault happened. It stops short of a write
   * that is not safe.
   */
  method PageFault(k: Kernel, p: nat, pn: nat, write: bool, exec: bool, garbage: Page) returns (r: FaultResult)
    requires Ready(k) && p < |k.spaces|
    modifies k`pf, k`objs, k`resident
    ensures Ready(k) && MeaningOf(k) == old(MeaningOf(k)) && SameShape(old(k.objs), k.objs)
    ensures r.Killed? <==> !Allowed(old(MeaningOf(k)), p, pn, write, exec)
    ensures r.Unsafe? <==> write && Allowed(old(MeaningOf(k)), p, pn, write, exec) && !old(SafeAt(k, p, pn))
    ensures r.Unsafe? ==> !SafeAt(k, p, pn)
    ensures r.Resolved? ==> r.frame in k.pf.frames && k.pf.frames[r.frame].data == BytesAt(old(MeaningOf(k)), p, pn)
    ensures r.Resolved? && write ==>
      var a, fr := At(k.spaces[p], pn).value, k.pf.frames[r.frame];
      && KeyOf(fr) == (a.obj, pn - a.start + a.off) && fr.dirty && !fr.busy && a.obj in k.objs
      && fr.pincount == if k.objs[a.obj].kind == Shadow then 1 else 0
  {
    hide HoldsRefs, Apart, Meaning, ReadIn, BytesAt, SameShape, Safe, MemOf;
    AreaAt(k, p, pn);
    ShapeSelf(k.objs);
    var i := Lookup(k.spaces[p], pn);
    if i.None? {
      return Killed;
    }
    var a := k.spaces[p][i.value];
    if (!a.prot.write && write) || (!a.prot.read && !exec && !write) {
      return Killed;
    }
    var q := pn - a.start + a.off;
    if write {
      if !Safe(k.objs, k.pf.frames, a, q) {
        return Unsafe;
      }
      var f := WritablePage(k, p, a, q, garbage);
      return Resolved(f);
    } else {
      var f := ReadablePage(k, p, a, q, garbage);
      return Resolved(f);
    }
  }

  /** Page `pn` of process `p` may be written. */
  ghost predicate SafeAt(k: Kernel, p: nat, pn: nat)
    requires p < |k.spaces|
    reads k`pf, k`objs, k`spaces
  {
    match At(k.spaces[p], pn)
    case None => true
    case Some(a) => Safe(k.objs, k.pf.frames, a, pn - a.start + a.off)
  }

  lemma UnsplitSafeAt(k: Kernel, p: nat, pn: nat)
    requires VmOk(k) && Unsplit(k.objs, k.spaces) && p < |k.spaces|
    ensures SafeAt(k, p, pn)
  {
    hide HoldsRefs, Unsplit, Safe;
    match At(k.spaces[p], pn)
    case None =>
    case Some(a) => UnsplitSafe(k, p, a, pn - a.start + a.off);
  }

  // ---------------------------------------------------------------------------------------------
  // Loads and stores

  lemma {:induction false} TwoRefs(areas: Areas, a: VmArea, b: VmArea)
    requires a in areas && b in areas && a != b && a.obj == b.obj
    ensures RefsOf(areas)[a.obj] >= 2
  {
    if areas[0] == a {
      RefsMember(areas[1..], b);
    } else if areas[0] == b {
      RefsMember(areas[1..], a);
    } else {
      TwoRefs(areas[1..], a, b);
    }
  }

  /** An object referred to once backs one area. */
  lemma OneArea(spaces: seq<Areas>, p: nat, a: VmArea, r: nat, b: VmArea)
    requires p < |spaces| && a in spaces[p] && r < |spaces| && b in spaces[r] && b.obj == a.obj
    requires AllRefs(spaces)[a.obj] <= 1
    ensures r == p && b == a
  {
    var o, rest := a.obj, spaces[p := []];
    assert RefsOf([]) == multiset{};
    hide RefsOf, AllRefs;
    AllRefsUpdate(spaces, p, []);
    RefsMember(spaces[p], a);
    assert (AllRefs(rest) + RefsOf(spaces[p]))[o] == (AllRefs(spaces) + multiset{})[o];
    if r != p {
      AllRefsUpdate(rest, r, []);
      RefsMember(rest[r], b);
      assert false;
    } else if b != a {
      TwoRefs(spaces[p], a, b);
      assert false;
    }
  }

  lemma WriteReads(links: Links, m: Mem, m': Mem, o: ObjId, q: nat, page: Page)
    requires m.links == links && m' == Mem(m.links, m.contents[(o, q) := page])
    requires forall s :: s in links ==> links[s] != Some(o)
    ensures forall x: ObjId, r: nat :: ReadIn(m', x, r) == if (x, r) == (o, q) then page else ReadIn(m, x, r)
  {
    forall x: ObjId, r: nat
      ensures ReadIn(m', x, r) == if (x, r) == (o, q) then page else ReadIn(m, x, r)
    {
      WriteIsPrivate(m.links, m.contents, o, q, page, x, r);
    }
  }

  /** Writing page `q` of `a`'s object changes the page of `a` that shows it, and no other of `areas`. */
  lemma WrittenViews(m: Mem, m': Mem, areas: Areas, a: VmArea, pn: nat, page: Page)
    requires At(areas, pn) == Some(a) && m'.links == m.links
    requires var q := pn - a.start + a.off;
      forall x: ObjId, r: nat :: ReadIn(m', x, r) == if (x, r) == (a.obj, q) then page else ReadIn(m, x, r)
    requires forall b :: b in areas && b.obj == a.obj ==> b == a
    ensures SameButAt(m, m', areas, pn, page)
  {
    hide ReadIn, End;
    forall n: nat
      ensures ViewIn(m', areas, n) ==
        if n == pn then Some(ViewIn(m, areas, pn).value.(contents := page)) else ViewIn(m, areas, n)
    {
    }
  }

  lemma OtherViews(m: Mem, m': Mem, areas: Areas, o: ObjId)
    requires m'.links == m.links && forall x: ObjId, r: nat :: x != o ==> ReadIn(m', x, r) == ReadIn(m, x, r)
    requires forall b :: b in areas ==> b.obj != o
    ensures SameViews(m, m', areas)
  {
    hide ReadIn, End;
  }

  /** A shared object that some area names is a last object, and so not a shadow. */
  lemma NamedLive(k: Kernel, o: ObjId)
    requires VmOk(k) && Names(SpacesOf(MemOf(k), k.spaces), o)
    ensures o in k.objs && k.objs[o].kind == Anon && End(LinksOf(k.objs), o) == o && Below(LinksOf(k.objs), o).None?
  {
    hide Names, SpacesOf, Conserved, AllRefs, AllTops, SpacesOk, FramesOk, Quiet, ContentsOf;
    NamedIsEnd(MemOf(k), k.spaces, o);
    var p, a :| 0 <= p < |k.spaces| && a in k.spaces[p] && !a.private && End(LinksOf(k.objs), a.obj) == o;
    TopAt(k, multiset{}, p, a);
    EndIsAnon(k.objs, k.nextObj, a.obj);
  }

  lemma LiveAreas(k: Kernel)
    requires VmOk(k)
    ensures forall r, b :: 0 <= r < |k.spaces| && b in k.spaces[r] ==> b.obj in k.objs
    ensures forall o :: Names(SpacesOf(MemOf(k), k.spaces), o) ==> o in k.objs
  {
    hide HoldsRefs, Names, SpacesOf;
    HeldAreLive(k, multiset{});
    forall o | Names(SpacesOf(MemOf(k), k.spaces), o)
      ensures o in k.objs
    {
      NamedLive(k, o);
    }
  }

  lemma NamedKept(objs0: Objs, m0: Mem, objs: Objs, m: Mem, cells: seq<Cells>)
    requires forall o :: Names(cells, o) ==> o in objs0
    requires forall o :: Names(cells, o) ==> o in objs
    requires forall x :: x in objs0 && x in objs ==> Alike(m0, x, m, x)
    ensures NamedSame(m0, m, cells)
  {
    hide Names, End, Bare, ReadIn;
    forall o, q | Names(cells, o)
      ensures ReadIn(m, o, q) == ReadIn(m0, o, q)
    {
      assert Alike(m0, o, m, o);
    }
  }

  /** Writing the shadow of a private area is a store to the area's page. */
  lemma PrivateWrite(k: Kernel, p: nat, a: VmArea, pn: nat, m': Mem, page: Page)
    requires Ready(k) && p < |k.spaces| && At(k.spaces[p], pn) == Some(a) && a.private
    requires var m := MemOf(k); m' == Mem(m.links, m.contents[(a.obj, pn - a.start + a.off) := page])
    ensures pn in MeaningOf(k).spaces[p] && Meaning(m', k.spaces) == PutPage(MeaningOf(k), p, pn, page)
  {
    hide HoldsRefs, AllRefs, Apart, LinksOf, ContentsOf, Names, SpacesOf, Meaning, PutPage, At, ReadIn, SameButAt,
      SameViews, Clear;
    var m := MemOf(k);
    assert a in k.spaces[p];
    PrivateClear(k, p, a);
    WriteReads(m.links, m, m', a.obj, pn - a.start + a.off, page);
    forall r, b | 0 <= r < |k.spaces| && b in k.spaces[r] && b.obj == a.obj
      ensures r == p && b == a
    {
      OneArea(k.spaces, p, a, r, b);
    }
    WrittenViews(m, m', k.spaces[p], a, pn, page);
    forall r | 0 <= r < |k.spaces| && r != p
      ensures SameViews(m, m', k.spaces[r])
    {
      OtherViews(m, m', k.spaces[r], a.obj);
    }
    forall o | Names(SpacesOf(m, k.spaces), o)
      ensures o != a.obj
    {
      NamedLive(k, o);
    }
    assert ViewIn(m, k.spaces[p], pn).value.private;
    PrivateStore(m, m', k.spaces, p, pn, page);
  }

  lemma EndReads(m: Mem, m': Mem, e: ObjId, q: nat, page: Page)
    requires m' == Mem(m.links, m.contents[(e, q) := page]) && Below(m.links, e).None?
    ensures forall x: ObjId, r: nat :: End(m.links, x) != e ==> ReadIn(m', x, r) == ReadIn(m, x, r)
    ensures forall r: nat :: ReadIn(m', e, r) == if r == q then page else ReadIn(m, e, r)
  {
    forall x: ObjId, r: nat | End(m.links, x) != e
      ensures ReadIn(m', x, r) == ReadIn(m, x, r)
    {
      WriteAtEnd(m.links, m.contents, e, q, page, x, r);
    }
  }

  lemma SharedCells(m: Mem, m': Mem, areas: Areas, e: ObjId)
    requires m'.links == m.links
    requires forall x: ObjId, r: nat :: End(m.links, x) != e ==> ReadIn(m', x, r) == ReadIn(m, x, r)
    requires forall b :: b in areas && b.private ==> End(m.links, b.obj) != e
    ensures SameCells(m, m', areas)
  {
    hide ReadIn, End;
  }

  /** Writing a last object that a shared area points at is a store to the shared page. */
  lemma SharedWrite(k: Kernel, p: nat, a: VmArea, pn: nat, m': Mem, page: Page)
    requires Ready(k) && p < |k.spaces| && At(k.spaces[p], pn) == Some(a) && !a.private
    requires a.obj in k.objs && End(LinksOf(k.objs), a.obj) == a.obj && Below(LinksOf(k.objs), a.obj).None?
    requires var m := MemOf(k); m' == Mem(m.links, m.contents[(a.obj, pn - a.start + a.off) := page])
    ensures pn in MeaningOf(k).spaces[p] && Meaning(m', k.spaces) == PutPage(MeaningOf(k), p, pn, page)
  {
    hide MemOk, Conserved, AllRefs, AllTops, Apart, LinksOf, ContentsOf, Names, SpacesOf, Meaning, PutPage, At, ReadIn,
      SameCells, SpacesOk;
    var m, key := MemOf(k), (a.obj, pn - a.start + a.off);
    EndReads(m, m', key.0, key.1, page);
    forall r | 0 <= r < |k.spaces|
      ensures SameCells(m, m', k.spaces[r])
    {
      forall b | b in k.spaces[r] && b.private
        ensures End(m.links, b.obj) != a.obj
      {
        EndsApart(m, k.spaces, k.low, k.high, r, b, p, a);
      }
      SharedCells(m, m', k.spaces[r], a.obj);
    }
    forall x: ObjId, r: nat | Names(SpacesOf(m, k.spaces), x)
      ensures ReadIn(m', x, r) == if (x, r) == key then page else ReadIn(m, x, r)
    {
      NamedLive(k, x);
    }
    SharedStore(m, m', k.spaces, p, pn, key, page);
  }

  /** Writing bytes of a resident page leaves the areas as they are. */
  lemma WrittenTops(m: Mem, m': Mem, objs: Objs, spaces: seq<Areas>, key: (ObjId, nat), page: Page)
    requires AllTops(m, objs, spaces) && key in m.contents && m' == Mem(m.links, m.contents[key := page])
    ensures AllTops(m', objs, spaces)
  {
    hide Bare;
    forall r, b | 0 <= r < |spaces| && b in spaces[r]
      ensures TopOk(m', objs, b)
    {
      assert TopsOk(m, objs, spaces[r]) && TopOk(m, objs, b);
      if !b.private {
        StaysBare(m.links, m.contents, m'.contents, b.obj);
      }
    }
  }

  /** The store to a page that has been made writable. */
  method WriteFrame(k: Kernel, p: nat, pn: nat, f: FrameId, page: Page, ghost a: VmArea)
    requires Ready(k) && p < |k.spaces| && At(k.spaces[p], pn) == Some(a)
    requires a.private || (a.obj in k.objs && k.objs[a.obj].kind == Anon)
    requires f in k.pf.frames && KeyOf(k.pf.frames[f]) == (a.obj, pn - a.start + a.off)
    modifies k`pf
    ensures Ready(k) && pn in old(MeaningOf(k)).spaces[p] && MeaningOf(k) == PutPage(old(MeaningOf(k)), p, pn, page)
    ensures k.pf.frames == old(k.pf.frames)[f := old(k.pf.frames[f]).(data := page)]
  {
    hide Conserved, ExtOf, ContentsOf, LinksOf, AllRefs, Meaning, ReadIn, FramesOk, ObjsOk, At, AllTops, Apart,
      SpacesOk, PutPage;
    ghost var m := MemOf(k);
    ContentsUpdate(k.pf, k.objs, k.resident, f, k.pf.frames[f].(data := page));
    ghost var m' := Mem(m.links, m.contents[KeyOf(k.pf.frames[f]) := page]);
    if a.private {
      PrivateWrite(k, p, a, pn, m', page);
    } else {
      AnonEnd(k, a.obj);
      SharedWrite(k, p, a, pn, m', page);
    }
    WrittenTops(m, m', k.objs, k.spaces, KeyOf(k.pf.frames[f]), page);
    ApartLinks(m, m', k.spaces);
    SetFrame(k, f, k.pf.frames[f].dirty, k.pf.frames[f].busy, page);
  }

  lemma AnonEnd(k: Kernel, o: ObjId)
    requires MemOk(k) && o in k.objs && k.objs[o].kind == Anon
    ensures End(LinksOf(k.objs), o) == o && Below(LinksOf(k.objs), o).None?
  {
    EndIsAnon(k.objs, k.nextObj, o);
    LinksAt(k.objs, k.nextObj, o);
  }

  /** A load of page `pn`: what the eager machine holds there, or a fault. */
  method Load(k: Kernel, p: nat, pn: nat, exec: bool, garbage: Page) returns (r: Option<Page>)
    requires Ready(k) && p < |k.spaces|
    modifies k`pf, k`objs, k`resident
    ensures Ready(k) && MeaningOf(k) == old(MeaningOf(k)) && SameShape(old(k.objs), k.objs)
    ensures r.Some? <==> Allowed(old(MeaningOf(k)), p, pn, false, exec)
    ensures r.Some? ==> r.value == BytesAt(old(MeaningOf(k)), p, pn)
  {
    hide Ready, Meaning, SameShape, Allowed, BytesAt;
    var f := PageFault(k, p, pn, false, exec, garbage);
    r := if f.Resolved? then Some(k.pf.frames[f.frame].data) else None;
  }

  /** A store of `bytes` at offset `off` of page `pn`; it stops short of a copy that is not safe. */
  method Store(k: Kernel, p: nat, pn: nat, off: nat, bytes: seq<nat>, garbage: Page) returns (r: FaultResult)
    requires Ready(k) && p < |k.spaces|
    modifies k`pf, k`objs, k`resident
    ensures Ready(k) && SameShape(old(k.objs), k.objs)
    ensures r.Killed? <==> !Allowed(old(MeaningOf(k)), p, pn, true, false)
    ensures r.Unsafe? <==> Allowed(old(MeaningOf(k)), p, pn, true, false) && !old(SafeAt(k, p, pn))
    ensures r.Unsafe? ==> !SafeAt(k, p, pn)
    ensures MeaningOf(k) ==
      if r.Unsafe? then old(MeaningOf(k)) else EagerCopy.Store(old(MeaningOf(k)), p, pn, off, bytes)
    ensures r.Resolved? ==> r.frame in k.pf.frames && k.pf.frames[r.frame].dirty
  {
    hide HoldsRefs, Apart, Meaning, BytesAt, At, SameShape, Safe;
    AreaAt(k, p, pn);
    r := PageFault(k, p, pn, true, false, garbage);
    if r.Resolved? {
      ghost var a := At(k.spaces[p], pn).value;
      SafeTop(old(k.objs), k.objs, old(k.pf.frames), a, pn - a.start + a.off);
      WriteFrame(k, p, pn, r.frame, Splice(k.pf.frames[r.frame].data, off, bytes), a);
    }
  }

  lemma SafeTop(objs: Objs, objs': Objs, frames: Frames, a: VmArea, q: nat)
    requires Safe(objs, frames, a, q) && SameShape(objs, objs')
    ensures a.private || (a.obj in objs' && objs'[a.obj].kind == Anon)
  {
  }
}
