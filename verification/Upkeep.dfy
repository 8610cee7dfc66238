/** Moving a page up its branch of the shadow tree, and cleaning all pages. */
module Upkeep {
  import opened Lists
  import opened Chains
  import opened VmState
  import opened FrameCache
  import opened PageLookup
  import opened Objects

  /** The contents after page `pn` of `src` has moved to `dest`, or gone if `dest` had its own. */
  ghost function Moved(c: Contents, src: ObjId, dest: ObjId, pn: nat): (c': Contents)
    requires (src, pn) in c
  {
    if (dest, pn) in c then c - {(src, pn)} else (c - {(src, pn)})[(dest, pn) := c[(src, pn)]]
  }

  /** A search for page `pn` from `x` on comes to `y` before it finds the page. */
  ghost predicate Reaches(links: Links, c: Contents, x: ObjId, y: ObjId, pn: nat)
    decreases x
  {
    x == y || ((x, pn) !in c && match Below(links, x)
                                case Some(p) => Reaches(links, c, p, y, pn)
                                case None => false)
  }

  /** What is found below `o`. */
  ghost function ReadUnder(links: Links, c: Contents, o: ObjId, pn: nat): (page: Page) {
    match Below(links, o)
    case Some(p) => Read(links, c, p, pn)
    case None => ZeroPage()
  }

  /**
   * A reader who comes to `dest` first now finds the moved page there; one who comes to `src`
   * now finds what is under it. These are the only readers who can tell, and they can exactly
   * when the bytes differ.
   */
  ghost predicate MoveUnseenBy(links: Links, c: Contents, src: ObjId, dest: ObjId, pn: nat, x: ObjId)
    requires (src, pn) in c
  {
    if (dest, pn) !in c && Reaches(links, c, x, dest, pn) then Read(links, c, dest, pn) == c[(src, pn)]
    else Reaches(links, c, x, src, pn) ==> ReadUnder(links, c, src, pn) == c[(src, pn)]
  }

  /** For every `dest` above `src`, every reader and every page. */
  lemma MoveExact(links: Links, c: Contents, src: ObjId, dest: ObjId, pn: nat, x: ObjId, q: nat)
    requires (src, pn) in c && OnChain(links, dest, src) && dest != src
    ensures Read(links, Moved(c, src, dest, pn), x, q) == Read(links, c, x, q) <==>
      (q == pn ==> MoveUnseenBy(links, c, src, dest, pn, x))
  {
    OnChainBelow(links, dest, src);
    if q != pn {
      OtherPages(links, c, src, dest, pn, x, q);
    } else if (dest, pn) !in c && Reaches(links, c, x, dest, pn) {
      ReachedReads(links, c, x, dest, pn);
      ArrivesAtDest(links, c, src, dest, pn, x);
    } else if Reaches(links, c, x, src, pn) {
      ReachedReads(links, c, x, src, pn);
      PassesSrc(links, c, src, dest, pn, x);
    } else {
      NotReached(links, c, src, dest, pn, x);
    }
  }

  lemma {:induction false} OnChainBelow(links: Links, o: ObjId, x: ObjId)
    requires OnChain(links, o, x)
    ensures x <= o
    decreases o
  {
    if o != x {
      OnChainBelow(links, Below(links, o).value, x);
    }
  }

  lemma {:induction false} OtherPages(links: Links, c: Contents, src: ObjId, dest: ObjId, pn: nat, x: ObjId, q: nat)
    requires (src, pn) in c && q != pn
    ensures Read(links, Moved(c, src, dest, pn), x, q) == Read(links, c, x, q)
    decreases x
  {
    match Below(links, x)
    case Some(p) => OtherPages(links, c, src, dest, pn, p, q);
    case None =>
  }

  lemma {:induction false} ReachedReads(links: Links, c: Contents, x: ObjId, y: ObjId, pn: nat)
    requires Reaches(links, c, x, y, pn)
    ensures Read(links, c, x, pn) == Read(links, c, y, pn) && y <= x
    decreases x
  {
    if x != y {
      ReachedReads(links, c, Below(links, x).value, y, pn);
    }
  }

  lemma {:induction false} ArrivesAtDest(links: Links, c: Contents, src: ObjId, dest: ObjId, pn: nat, x: ObjId)
    requires (src, pn) in c && src < dest && (dest, pn) !in c && Reaches(links, c, x, dest, pn)
    ensures Read(links, Moved(c, src, dest, pn), x, pn) == c[(src, pn)]
    decreases x
  {
    if x != dest {
      ArrivesAtDest(links, c, src, dest, pn, Below(links, x).value);
    }
  }

  lemma {:induction false} BelowSrc(links: Links, c: Contents, src: ObjId, dest: ObjId, pn: nat, x: ObjId)
    requires (src, pn) in c && src < dest && x < src
    ensures Read(links, Moved(c, src, dest, pn), x, pn) == Read(links, c, x, pn)
    decreases x
  {
    match Below(links, x)
    case Some(p) => BelowSrc(links, c, src, dest, pn, p);
    case None =>
  }

  lemma {:induction false} PassesSrc(links: Links, c: Contents, src: ObjId, dest: ObjId, pn: nat, x: ObjId)
    requires (src, pn) in c && src < dest && Reaches(links, c, x, src, pn)
    requires (dest, pn) in c || !Reaches(links, c, x, dest, pn)
    ensures Read(links, Moved(c, src, dest, pn), x, pn) == ReadUnder(links, c, src, pn)
    decreases x
  {
    if x == src {
      match Below(links, src)
      case Some(p) => BelowSrc(links, c, src, dest, pn, p);
      case None =>
    } else {
      PassesSrc(links, c, src, dest, pn, Below(links, x).value);
    }
  }

  lemma {:induction false} NotReached(links: Links, c: Contents, src: ObjId, dest: ObjId, pn: nat, x: ObjId)
    requires (src, pn) in c && src < dest && !Reaches(links, c, x, src, pn)
    requires (dest, pn) in c || !Reaches(links, c, x, dest, pn)
    ensures Read(links, Moved(c, src, dest, pn), x, pn) == Read(links, c, x, pn)
    decreases x
  {
    if (x, pn) !in c {
      match Below(links, x)
      case Some(p) => NotReached(links, c, src, dest, pn, p);
      case None =>
    }
  }

  /** A page of 1 below a page of zeros further down: the reader in between can tell. */
  lemma MoveWitness()
    ensures var links: Links := map[1 := None, 2 := Some(1), 3 := Some(2)];
      var c: Contents := map[(1, 0) := OnePage()];
      && Read(links, Moved(c, 1, 3, 0), 2, 0) != Read(links, c, 2, 0)
      && Read(links, Moved(c, 1, 3, 0), 3, 0) == Read(links, c, 3, 0)
  {
    var links: Links := map[1 := None, 2 := Some(1), 3 := Some(2)];
    var c: Contents := map[(1, 0) := OnePage()];
    var c' := Moved(c, 1, 3, 0);
    assert Below(links, 3) == Some(2) && Below(links, 2) == Some(1) && Below(links, 1) == None;
    assert Read(links, c, 1, 0) == OnePage() && Read(links, c', 1, 0) == ZeroPage();
    assert Read(links, c, 2, 0) == OnePage() && Read(links, c', 2, 0) == ZeroPage();
    assert Read(links, c', 3, 0) == OnePage();
  }

  lemma MoveIndex(frames: Frames, resident: Index, f: FrameId, dest: ObjId)
    requires IndexOk(frames, resident) && f in frames
    requires var key' := (dest, frames[f].pagenum); key' !in resident
    ensures IndexOk(frames[f := frames[f].(obj := dest)],
                    (resident - {KeyOf(frames[f])})[(dest, frames[f].pagenum) := f])
  {
  }

  lemma MoveQuiet(frames: Frames, objs: Objs, objs': Objs, f: FrameId, dest: ObjId)
    requires Quiet(frames, objs) && SameShape(objs, objs')
    requires f in frames && dest in objs && objs[dest].kind == objs[frames[f].obj].kind
    ensures Quiet(frames[f := frames[f].(obj := dest)], objs')
  {
  }

  lemma MovedContents(frames: Frames, resident: Index, f: FrameId, dest: ObjId)
    requires IndexOk(frames, resident) && f in frames && (dest, frames[f].pagenum) !in resident
    ensures KeyOf(frames[f]) in ContentsOf(frames, resident)
    ensures ContentsOf(frames[f := frames[f].(obj := dest)],
                       (resident - {KeyOf(frames[f])})[(dest, frames[f].pagenum) := f])
      == Moved(ContentsOf(frames, resident), frames[f].obj, dest, frames[f].pagenum)
  {
  }

  lemma FreedContents(frames: Frames, resident: Index, resident': Index, f: FrameId, dest: ObjId)
    requires IndexOk(frames, resident) && IndexOk(frames - {f}, resident') && f in frames
    requires (dest, frames[f].pagenum) in resident
    ensures KeyOf(frames[f]) in ContentsOf(frames, resident)
    ensures ContentsOf(frames - {f}, resident') ==
      Moved(ContentsOf(frames, resident), frames[f].obj, dest, frames[f].pagenum)
  {
    var c, c', key := ContentsOf(frames, resident), ContentsOf(frames - {f}, resident'), KeyOf(frames[f]);
    forall x: (ObjId, nat)
      ensures x in c' <==> x in c - {key}
      ensures x in c' ==> c'[x] == c[x]
    {
      if x in c && x != key {
        assert resident[x] in frames - {f} && KeyOf(frames[resident[x]]) == x;
      }
    }
  }

  // ---------------------------------------------------------------------------------------------
  // The branch that relinks the frame

  function RelinkedTable(t: FrameTable, f: FrameId, dest: ObjId): (t': FrameTable)
    requires |t.hash| > 0 && f in t.frames
  {
    var hash, fr := FreedTable(t, f).hash, t.frames[f].(obj := dest);
    var h := Bucket(dest, fr.pagenum, |hash|);
    t.(frames := t.frames[f := fr], hash := hash[h := [f] + hash[h]])
  }

  function RelinkedObjs(objs: Objs, f: FrameId, src: ObjId, dest: ObjId): (objs': Objs)
    requires src in objs && dest in objs
  {
    var objs1 := objs[src := Released(objs[src], f)];
    objs1[dest := WithPage(objs1[dest], f)]
  }

  lemma RelinkedPages(frames: Frames, objs: Objs, f: FrameId, dest: ObjId)
    requires PagesListed(frames, objs) && f in frames && dest in objs && dest != frames[f].obj
    ensures PagesListed(frames[f := frames[f].(obj := dest)], RelinkedObjs(objs, f, frames[f].obj, dest))
  {
    hide Enumerates, PagesOf;
    var src, fr := frames[f].obj, frames[f].(obj := dest);
    FreePages(frames, objs, f);
    var objs1 := objs[src := WithoutPage(objs[src], f)];
    LinkPages(frames - {f}, objs1, f, fr);
    assert (frames - {f})[f := fr] == frames[f := fr];
  }

  lemma RelinkedOk(t: FrameTable, objs: Objs, resident: Index, f: FrameId, dest: ObjId)
    requires FramesOk(t, objs, resident) && f in t.frames && dest in objs && dest != t.frames[f].obj
    requires (dest, t.frames[f].pagenum) !in resident
    ensures FramesOk(RelinkedTable(t, f, dest), RelinkedObjs(objs, f, t.frames[f].obj, dest),
      (resident - {KeyOf(t.frames[f])})[(dest, t.frames[f].pagenum) := f])
  {
    hide IndexOk, ListsOk, PagesListed;
    FreeHash(t, f);
    LinkHash(t.frames - {f}, FreedTable(t, f).hash, f, t.frames[f].(obj := dest));
    assert (t.frames - {f})[f := t.frames[f].(obj := dest)] == t.frames[f := t.frames[f].(obj := dest)];
    hide HashOk;
    RelinkedPages(t.frames, objs, f, dest);
    MoveIndex(t.frames, resident, f, dest);
    RelinkedLists(t, f, dest);
  }

  lemma RelinkedLists(t: FrameTable, f: FrameId, dest: ObjId)
    requires |t.hash| > 0 && f in t.frames && ListsOk(t)
    ensures ListsOk(RelinkedTable(t, f, dest))
  {
  }

  /** The put on the old object never destroys it: its page was one reference, not the last. */
  method Relink(k: Kernel, f: FrameId, dest: ObjId, ghost refs: multiset<ObjId>)
    requires FramesOk(k.pf, k.objs, k.resident) && Conserved(LinksOf(k.objs), ExtOf(k.objs), refs)
    requires f in k.pf.frames && dest in k.objs && dest != k.pf.frames[f].obj && k.pf.frames[f].obj in k.objs
    requires (dest, k.pf.frames[f].pagenum) !in k.resident
    modifies k`pf, k`objs, k`resident
    ensures FramesOk(k.pf, k.objs, k.resident) && SameShape(old(k.objs), k.objs)
    ensures k.pf.frames == old(k.pf.frames)[f := old(k.pf.frames[f]).(obj := dest)]
    ensures k.resident == (old(k.resident) - {KeyOf(old(k.pf.frames[f]))})[(dest, old(k.pf.frames[f]).pagenum) := f]
  {
    hide FramesOk, LinksOf, ExtOf, Conserved, Unlink, Bucket, SameShape;
    var fr := k.pf.frames[f];
    var src := fr.obj;
    RelinkedShape(k.objs, f, src, dest);
    FrameFacts(k.pf, k.objs, k.resident, f);
    ExtAt(k.objs, refs, src);
    RelinkedOk(k.pf, k.objs, k.resident, f, dest);
    k.pf := k.pf.(frames := k.pf.frames[f := fr.(obj := dest)]);
    var h := Bucket(src, fr.pagenum, |k.pf.hash|);
    k.pf := k.pf.(hash := k.pf.hash[h := Unlink(k.pf.hash[h], f)]);
    var obj := k.objs[src].(respages := Unlink(k.objs[src].respages, f));
    obj := obj.(nrespages := obj.nrespages - 1);
    if obj.refcount - 1 == obj.nrespages {
      assert false;
    } else {
      obj := obj.(refcount := obj.refcount - 1);
    }
    k.objs := k.objs[src := obj];
    h := Bucket(dest, fr.pagenum, |k.pf.hash|);
    k.pf := k.pf.(hash := k.pf.hash[h := [f] + k.pf.hash[h]]);
    k.objs := k.objs[dest := WithPage(k.objs[dest], f)];
    k.resident := (k.resident - {KeyOf(fr)})[(dest, fr.pagenum) := f];
    assert k.pf == RelinkedTable(old(k.pf), f, dest);
    assert k.objs == RelinkedObjs(old(k.objs), f, src, dest);
  }

  lemma RelinkedShape(objs: Objs, f: FrameId, src: ObjId, dest: ObjId)
    requires src in objs && dest in objs
    ensures SameShape(objs, RelinkedObjs(objs, f, src, dest))
  {
  }

  /**
   * pframe_migrate between shadow objects: the frame moves to `dest`, or goes when `dest` has the
   * page already. The index stays exact and every count of references stays conserved. The result
   * is false exactly when the page must go and its object leads to no list.
   */
  method Migrate(k: Kernel, f: FrameId, dest: ObjId, ghost refs: multiset<ObjId>) returns (ok: bool)
    requires MemOk(k) && Conserved(LinksOf(k.objs), ExtOf(k.objs), refs)
    requires f in k.pf.frames && dest in k.objs && dest != k.pf.frames[f].obj
    requires k.pf.frames[f].obj in k.objs && k.objs[k.pf.frames[f].obj].kind == Shadow && k.objs[dest].kind == Shadow
    modifies k`pf, k`objs, k`resident
    ensures !ok <==> old((dest, k.pf.frames[f].pagenum) in k.resident && !HasList(k.objs, k.pf.frames[f].obj))
    ensures ok ==> MemOk(k) && Conserved(LinksOf(k.objs), ExtOf(k.objs), refs) && SameShape(old(k.objs), k.objs)
    ensures ok ==> var fr, c := old(k.pf.frames[f]), old(ContentsOf(k.pf.frames, k.resident));
      KeyOf(fr) in c && ContentsOf(k.pf.frames, k.resident) == Moved(c, fr.obj, dest, fr.pagenum)
  {
    hide FramesOk, Quiet, LinksOf, ExtOf, Conserved, ObjsOk, ContentsOf, Moved, IndexOk, SameShape, Released;
    ghost var objs, frames, resident := k.objs, k.pf.frames, k.resident;
    IndexIsOk(k);
    var r := GetResident(k, dest, k.pf.frames[f].pagenum);
    if r.Some? {
      ReleasedShape(objs, frames[f].obj, f);
      ok := ReleasePage(k, f, refs);
      if !ok {
        return;
      }
      IndexIsOk(k);
      FreedContents(frames, resident, k.resident, f, dest);
    } else {
      ok := true;
      Relink(k, f, dest, refs);
      MovedContents(frames, resident, f, dest);
      MoveQuiet(frames, objs, k.objs, f, dest);
    }
    ShapeFacts(objs, k.objs, k.nextObj);
  }

  lemma ReleasedShape(objs: Objs, o: ObjId, f: FrameId)
    requires o in objs
    ensures SameShape(objs, objs[o := Released(objs[o], f)])
  {
  }

  lemma IndexIsOk(k: Kernel)
    requires MemOk(k)
    ensures IndexOk(k.pf.frames, k.resident)
  {
  }

  // ---------------------------------------------------------------------------------------------
  // pframe_clean_all

  ghost function ToClean(frames: Frames): (r: set<FrameId>) {
    set f | f in frames && frames[f].pincount == 0 && frames[f].dirty
  }

  /** Pinned frames are as they were; others may have lost their dirty bit. */
  ghost predicate Cleaned(frames: Frames, frames': Frames) {
    && frames'.Keys == frames.Keys
    && forall f :: f in frames ==>
      frames'[f] == frames[f] || (frames[f].pincount == 0 && frames'[f] == frames[f].(dirty := false))
  }

  lemma OnAllocList(t: FrameTable, objs: Objs, resident: Index, f: FrameId)
    requires FramesOk(t, objs, resident)
    ensures f in t.allocList <==> f in t.frames && t.frames[f].pincount == 0
  {
    EnumerationLength(t.allocList, Unpinned(t.frames));
  }

  /** The first dirty frame of the allocated list, if any. */
  method FirstDirty(k: Kernel) returns (r: Option<FrameId>)
    requires MemOk(k)
    ensures r.Some? ==> r.value in ToClean(k.pf.frames)
    ensures r.None? ==> ToClean(k.pf.frames) == {}
  {
    hide HashOk, IndexOk, PagesListed, ObjsOk;
    forall f ensures f in k.pf.allocList <==> f in k.pf.frames && k.pf.frames[f].pincount == 0 {
      OnAllocList(k.pf, k.objs, k.resident, f);
    }
    var i := 0;
    while i < |k.pf.allocList|
      invariant 0 <= i <= |k.pf.allocList|
      invariant forall j :: 0 <= j < i ==> !k.pf.frames[k.pf.allocList[j]].dirty
    {
      var f := k.pf.allocList[i];
      assert k.pf.frames[f].pincount == 0 && !k.pf.frames[f].busy;
      if k.pf.frames[f].dirty {
        return Some(f);
      }
      i := i + 1;
    }
    return None;
  }

  lemma CleanedSelf(frames: Frames)
    ensures Cleaned(frames, frames)
  {
  }

  lemma CleanedQuiet(frames: Frames, frames': Frames, objs: Objs)
    requires Quiet(frames, objs) && Cleaned(frames, frames')
    ensures Quiet(frames', objs)
  {
  }

  lemma CleanedContents(frames: Frames, frames': Frames, resident: Index)
    requires Cleaned(frames, frames')
    ensures ContentsOf(frames', resident) == ContentsOf(frames, resident)
  {
  }

  /**
   * pframe_clean_all, which starts over after each page it cleans. It leaves no dirty page
   * unpinned, and never touches a page of a shadow object, since those are pinned; so it never
   * follows an mmo_bottom_obj.
   */
  method CleanAll(k: Kernel)
    requires MemOk(k)
    modifies k`pf
    ensures MemOk(k) && Cleaned(old(k.pf.frames), k.pf.frames)
    ensures forall f :: f in k.pf.frames && k.pf.frames[f].pincount == 0 ==> !k.pf.frames[f].dirty
    ensures ContentsOf(k.pf.frames, k.resident) == old(ContentsOf(k.pf.frames, k.resident))
  {
    hide FramesOk, ObjsOk, Quiet, ContentsOf, Cleaned, ToClean;
    CleanedSelf(k.pf.frames);
    var r := FirstDirty(k);
    while r.Some?
      invariant MemOk(k) && Cleaned(old(k.pf.frames), k.pf.frames)
      invariant r.Some? ==> r.value in ToClean(k.pf.frames)
      invariant r.None? ==> ToClean(k.pf.frames) == {}
      decreases ToClean(k.pf.frames), r.Some?
    {
      ghost var frames := k.pf.frames;
      ReadyToClean(k, r.value);
      var ok := Clean(k, r.value);
      assert ok;
      CleanedOne(old(k.pf.frames), frames, r.value);
      CleanedQuiet(frames, k.pf.frames, k.objs);
      r := FirstDirty(k);
    }
    CleanedContents(old(k.pf.frames), k.pf.frames, k.resident);
    NoneToClean(k.pf.frames);
  }

  lemma ReadyToClean(k: Kernel, f: FrameId)
    requires MemOk(k) && f in ToClean(k.pf.frames)
    ensures f in k.pf.frames && k.pf.frames[f].dirty && k.pf.frames[f].pincount == 0 && !k.pf.frames[f].busy
    ensures k.pf.frames[f].obj in k.objs && HasList(k.objs, k.pf.frames[f].obj)
  {
    hide FramesOk, ObjsOk;
  }

  lemma CleanedOne(frames0: Frames, frames: Frames, f: FrameId)
    requires Cleaned(frames0, frames) && f in ToClean(frames)
    ensures f in frames
    ensures var frames' := frames[f := frames[f].(dirty := false)];
      Cleaned(frames0, frames') && Cleaned(frames, frames') && ToClean(frames') == ToClean(frames) - {f}
  {
  }

  lemma NoneToClean(frames: Frames)
    requires ToClean(frames) == {}
    ensures forall f :: f in frames && frames[f].pincount == 0 ==> !frames[f].dirty
  {
    forall f | f in frames && frames[f].pincount == 0
      ensures !frames[f].dirty
    {
      assert f !in ToClean(frames);
    }
  }
}
