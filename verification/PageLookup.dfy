/** Page lookup and fill for anonymous and shadow objects: the copy-on-write path. */
module PageLookup {
  import opened Lists
  import opened Chains
  import opened VmState
  import opened FrameCache

  ghost predicate QuietBut(frames: Frames, objs: Objs, skip: set<FrameId>) {
    forall f :: f in frames && f !in skip ==> QuietFrame(frames[f], objs)
  }

  /** The two stores have the same objects, and differ at most in pages and their references. */
  ghost predicate SameShape(objs: Objs, objs': Objs) {
    && objs'.Keys == objs.Keys
    && forall o :: o in objs ==>
      objs'[o] == objs[o].(refcount := objs'[o].refcount, nrespages := objs'[o].nrespages,
                           respages := objs'[o].respages)
      && objs'[o].refcount - objs'[o].nrespages == objs[o].refcount - objs[o].nrespages
  }

  lemma ShapeFacts(objs: Objs, objs': Objs, next: ObjId)
    requires SameShape(objs, objs')
    ensures LinksOf(objs') == LinksOf(objs) && ExtOf(objs') == ExtOf(objs)
    ensures ObjsOk(objs, next) ==> ObjsOk(objs', next)
  {
  }

  function ZeroFrame(e: ObjId, pn: nat): (fr: PFrame) {
    PFrame(e, pn, 0, false, false, ZeroPage())
  }

  /** Frames other than `f` are kept, and at most the zero page `pn` of `e` became resident. */
  ghost predicate Grown(frames: Frames, frames': Frames, skip: set<FrameId>, e: ObjId, pn: nat) {
    && frames.Keys <= frames'.Keys
    && forall g :: g in frames' && g !in skip ==> frames'[g] == if g in frames then frames[g] else ZeroFrame(e, pn)
  }

  /** `f` is the frame of page `pn` of `o`: the one that was resident, or a new one equal to `fr`. */
  twostate predicate Acquired(k: Kernel, o: ObjId, pn: nat, f: FrameId, fr: PFrame)
    reads k
  {
    if (o, pn) in old(k.resident) then
      && f == old(k.resident)[(o, pn)]
      && k.pf.frames == old(k.pf.frames) && k.objs == old(k.objs) && k.resident == old(k.resident)
    else
      && f !in old(k.pf.frames) && k.pf.frames == old(k.pf.frames)[f := fr]
      && k.resident == old(k.resident)[(o, pn) := f]
      && o in old(k.objs) && k.objs == old(k.objs)[o := WithPage(old(k.objs)[o], f)]
  }

  /** pframe_get on an anonymous object, with anon_fillpage for a page that is not resident. */
  method GetAnon(k: Kernel, o: ObjId, pn: nat, garbage: Page) returns (f: FrameId)
    requires FramesOk(k.pf, k.objs, k.resident) && o in k.objs
    modifies k`pf, k`objs, k`resident
    ensures FramesOk(k.pf, k.objs, k.resident)
    ensures Acquired(k, o, pn, f, ZeroFrame(o, pn))
    ensures SameShape(old(k.objs), k.objs) && Grown(old(k.pf.frames), k.pf.frames, {}, o, pn)
  {
    hide FramesOk, SameShape, Grown;
    var r := GetResident(k, o, pn);
    if r.Some? {
      f := r.value;
      GrownNot(k.pf.frames, o, pn);
      ShapeSelf(k.objs);
    } else {
      f := AllocFrame(k, o, pn, garbage);
      FillAnon(k, f);
      GrownByZeros(old(k.pf.frames), f, o, pn);
      PageShape(old(k.objs), o, f);
      assert k.pf.frames == old(k.pf.frames)[f := ZeroFrame(o, pn)];
    }
  }

  lemma GrownNot(frames: Frames, e: ObjId, pn: nat)
    ensures Grown(frames, frames, {}, e, pn)
  {
  }

  lemma GrownByZeros(frames: Frames, f: FrameId, e: ObjId, pn: nat)
    requires f !in frames
    ensures Grown(frames, frames[f := ZeroFrame(e, pn)], {}, e, pn)
  {
  }

  lemma PageShape(objs: Objs, o: ObjId, f: FrameId)
    requires o in objs
    ensures SameShape(objs, objs[o := WithPage(objs[o], f)])
  {
  }

  /** pframe_fill with anon_fillpage: the frame is busy while it is filled, and pinned meanwhile. */
  method FillAnon(k: Kernel, f: FrameId)
    requires FramesOk(k.pf, k.objs, k.resident) && f in k.pf.frames && k.pf.frames[f].pincount == 0
    modifies k`pf
    ensures FramesOk(k.pf, k.objs, k.resident)
    ensures k.pf.frames == old(k.pf.frames)[f := old(k.pf.frames[f]).(busy := false, data := ZeroPage())]
  {
    hide FramesOk, PinnedTable, UnpinnedTable;
    SetFrame(k, f, k.pf.frames[f].dirty, true, k.pf.frames[f].data);
    Pin(k, f);
    SetFrame(k, f, k.pf.frames[f].dirty, true, ZeroPage());
    Unpin(k, f);
    SetFrame(k, f, k.pf.frames[f].dirty, false, ZeroPage());
  }

  lemma LinksAt(objs: Objs, next: ObjId, o: ObjId)
    requires ObjsOk(objs, next) && o in objs
    ensures Below(LinksOf(objs), o) == objs[o].shadowed
    ensures objs[o].shadowed.Some? ==> objs[o].shadowed.value in objs && objs[o].shadowed.value < o
  {
  }

  lemma ContentsAt(t: FrameTable, objs: Objs, resident: Index, o: ObjId, pn: nat)
    requires FramesOk(t, objs, resident)
    ensures (o, pn) in ContentsOf(t.frames, resident) <==> (o, pn) in resident
    ensures (o, pn) in resident ==>
      && resident[(o, pn)] in t.frames && KeyOf(t.frames[resident[(o, pn)]]) == (o, pn)
      && ContentsOf(t.frames, resident)[(o, pn)] == t.frames[resident[(o, pn)]].data
  {
  }

  /**
   * pframe_lookup for reading: the first resident page down the chain, found by the loop of
   * shadow_lookuppage, or a zero page made resident in the object at the end.
   */
  method LookupRead(k: Kernel, o: ObjId, pn: nat, garbage: Page) returns (f: FrameId)
    requires FramesOk(k.pf, k.objs, k.resident) && ObjsOk(k.objs, k.nextObj) && o in k.objs
    requires BusyInShadows(k.pf.frames, k.objs)
    modifies k`pf, k`objs, k`resident
    ensures FramesOk(k.pf, k.objs, k.resident) && SameShape(old(k.objs), k.objs)
    ensures f in k.pf.frames && k.pf.frames[f].data == old(ReadNow(k, o, pn)) && k.pf.frames[f].pagenum == pn
    ensures Grown(old(k.pf.frames), k.pf.frames, {}, End(old(LinksOf(k.objs)), o), pn)
  {
    hide FramesOk, ObjsOk, LinksOf, ContentsOf, BusyInShadows;
    ghost var links, contents := LinksOf(k.objs), ContentsOf(k.pf.frames, k.resident);
    var next := o;
    LinksAt(k.objs, k.nextObj, next);
    while k.objs[next].shadowed.Some?
      invariant FramesOk(k.pf, k.objs, k.resident)
      invariant k.pf == old(k.pf).(allocList := k.pf.allocList) && k.objs == old(k.objs)
      invariant k.resident == old(k.resident)
      invariant next in k.objs && Below(links, next) == k.objs[next].shadowed
      invariant Read(links, contents, next, pn) == Read(links, contents, o, pn)
      invariant End(links, next) == End(links, o)
      decreases next
    {
      var r := GetResident(k, next, pn);
      ContentsAt(k.pf, k.objs, k.resident, next, pn);
      if r.Some? {
        return r.value;
      }
      LinksAt(k.objs, k.nextObj, next);
      next := k.objs[next].shadowed.value;
      LinksAt(k.objs, k.nextObj, next);
    }
    ContentsAt(k.pf, k.objs, k.resident, next, pn);
    if (next, pn) in k.resident {
      NotBusyBelow(k.pf, k.objs, k.nextObj, k.resident, next, pn);
    }
    f := GetAnon(k, next, pn, garbage);
    assert k.pf.frames[f].pagenum == pn && !k.pf.frames[f].busy;
  }

  /** Only a page of a shadow can be found half filled. */
  ghost predicate BusyInShadows(frames: Frames, objs: Objs) {
    forall f :: f in frames && frames[f].busy && frames[f].obj in objs ==> objs[frames[f].obj].kind == Shadow
  }

  lemma NotBusyBelow(t: FrameTable, objs: Objs, next: ObjId, resident: Index, o: ObjId, pn: nat)
    requires FramesOk(t, objs, resident) && ObjsOk(objs, next) && BusyInShadows(t.frames, objs)
    requires o in objs && objs[o].shadowed.None? && (o, pn) in resident
    ensures resident[(o, pn)] in t.frames && !t.frames[resident[(o, pn)]].busy
  {
    hide HashOk, ListsOk, PagesListed;
  }

  method PinAndCopy(k: Kernel, f: FrameId, page: Page)
    requires FramesOk(k.pf, k.objs, k.resident) && f in k.pf.frames
    modifies k`pf
    ensures FramesOk(k.pf, k.objs, k.resident)
    ensures k.pf.frames ==
      old(k.pf.frames)[f := old(k.pf.frames[f]).(pincount := old(k.pf.frames[f].pincount) + 1, data := page)]
  {
    hide FramesOk, PinnedTable;
    Pin(k, f);
    SetFrame(k, f, k.pf.frames[f].dirty, k.pf.frames[f].busy, page);
  }

  /** The loop of shadow_fillpage: the first resident page strictly below `o`. */
  method SearchBelow(k: Kernel, o: ObjId, pn: nat) returns (r: Option<FrameId>)
    requires FramesOk(k.pf, k.objs, k.resident) && ObjsOk(k.objs, k.nextObj) && o in k.objs && k.objs[o].kind == Shadow
    modifies k`pf
    ensures FramesOk(k.pf, k.objs, k.resident) && k.pf == old(k.pf).(allocList := k.pf.allocList)
    ensures r.Some? <==> HeldBelow(LinksOf(k.objs), ContentsOf(k.pf.frames, k.resident), o, pn)
    ensures r.Some? ==> r.value in k.pf.frames
    ensures Filled(LinksOf(k.objs), ContentsOf(k.pf.frames, k.resident), o, k.objs[o].bottom, pn) ==
      if r.Some? then k.pf.frames[r.value].data else ReadNow(k, k.objs[o].bottom, pn)
  {
    hide FramesOk, ObjsOk, LinksOf, ContentsOf, HeldBelow, FirstBelow, Filled;
    ghost var links, contents := LinksOf(k.objs), ContentsOf(k.pf.frames, k.resident);
    FirstBelowStart(links, contents, o, pn);
    ShadowIsOver(k.objs, k.nextObj, o);
    var next := o;
    LinksAt(k.objs, k.nextObj, next);
    while k.objs[next].shadowed.Some?
      invariant FramesOk(k.pf, k.objs, k.resident) && k.pf == old(k.pf).(allocList := k.pf.allocList)
      invariant next in k.objs && Below(links, next) == k.objs[next].shadowed
      invariant FirstBelow(links, contents, o, next, pn)
      decreases next
    {
      LinksAt(k.objs, k.nextObj, next);
      var p := k.objs[next].shadowed.value;
      r := GetResident(k, p, pn);
      ContentsAt(k.pf, k.objs, k.resident, p, pn);
      LinksAt(k.objs, k.nextObj, p);
      FirstBelowNext(links, contents, o, k.objs[o].bottom, next, p, pn);
      if r.Some? {
        return;
      }
      next := p;
    }
    FirstBelowEnd(links, contents, o, k.objs[o].bottom, next, pn);
    return None;
  }

  /**
   * shadow_fillpage: copies into frame `f` of `o`, which is already in the hash, the page found
   * below `o`, and pins it. When it finds none it follows mmo_bottom_obj; the result is false if
   * that object has been freed.
   */
  method FillShadow(k: Kernel, o: ObjId, f: FrameId, garbage: Page) returns (ok: bool)
    requires FramesOk(k.pf, k.objs, k.resident) && ObjsOk(k.objs, k.nextObj) && BusyInShadows(k.pf.frames, k.objs)
    requires f in k.pf.frames && k.pf.frames[f].obj == o && o in k.objs && k.objs[o].kind == Shadow
    requires k.pf.frames[f].busy && k.pf.frames[f].pincount == 0
    modifies k`pf, k`objs, k`resident
    ensures ok <==> !old(FollowsFreed(k.objs, ContentsOf(k.pf.frames, k.resident), o, k.pf.frames[f].pagenum))
    ensures ok ==> FramesOk(k.pf, k.objs, k.resident) && SameShape(old(k.objs), k.objs)
    ensures ok ==> Grown(old(k.pf.frames), k.pf.frames, {f},
      old(FillEnd(k.objs, ContentsOf(k.pf.frames, k.resident), o, k.pf.frames[f].pagenum)), old(k.pf.frames[f].pagenum))
    ensures ok ==> f in k.pf.frames && k.pf.frames[f] == old(k.pf.frames[f]).(pincount := 1,
      data := old(Filled(LinksOf(k.objs), ContentsOf(k.pf.frames, k.resident), o, k.objs[o].bottom,
                         k.pf.frames[f].pagenum)))
  {
    hide FramesOk, ObjsOk, LinksOf, ContentsOf, BusyInShadows, HeldBelow, Filled, SameShape;
    ShapeSelf(k.objs);
    var pn := k.pf.frames[f].pagenum;
    var r := SearchBelow(k, o, pn);
    if r.Some? {
      PinAndCopy(k, f, k.pf.frames[r.value].data);
      return true;
    }
    if k.objs[o].bottom !in k.objs {
      return false;
    }
    var t := LookupRead(k, k.objs[o].bottom, pn, garbage);
    PinAndCopy(k, f, k.pf.frames[t].data);
    return true;
  }

  lemma ShapeSelf(objs: Objs)
    ensures SameShape(objs, objs)
  {
  }

  lemma ShapeStep(objs: Objs, objs1: Objs, objs2: Objs)
    requires SameShape(objs, objs1) && SameShape(objs1, objs2)
    ensures SameShape(objs, objs2)
  {
  }

  lemma ShapeAt(objs: Objs, objs': Objs, o: ObjId)
    requires SameShape(objs, objs') && o in objs
    ensures o in objs' && objs'[o].kind == objs[o].kind && objs'[o].bottom == objs[o].bottom && objs'.Keys == objs.Keys
  {
  }

  lemma ShadowIsOver(objs: Objs, next: ObjId, o: ObjId)
    requires ObjsOk(objs, next) && o in objs && objs[o].kind == Shadow
    ensures objs[o].shadowed.Some? && Below(LinksOf(objs), o) == objs[o].shadowed
  {
    LinksAt(objs, next, o);
  }

  /** Some object strictly below `o` holds the page. */
  ghost predicate HeldBelow(links: Links, contents: Contents, o: ObjId, pn: nat) {
    Below(links, o).Some? && ResidentOnChain(links, contents, Below(links, o).value, pn)
  }

  /** The copy for page `pn` of `o` goes through an mmo_bottom_obj that has been freed. */
  ghost predicate FollowsFreed(objs: Objs, contents: Contents, o: ObjId, pn: nat)
    requires o in objs
  {
    objs[o].kind == Shadow && !HeldBelow(LinksOf(objs), contents, o, pn) && objs[o].bottom !in objs
  }

  /** Where the copy may make a zero page resident. */
  ghost function FillEnd(objs: Objs, contents: Contents, o: ObjId, pn: nat): (e: ObjId)
    requires o in objs
  {
    End(LinksOf(objs), if objs[o].kind == Anon || HeldBelow(LinksOf(objs), contents, o, pn) then o else objs[o].bottom)
  }

  /** No object strictly below `o` and down to `next` holds the page. */
  ghost predicate FirstBelow(links: Links, contents: Contents, o: ObjId, next: ObjId, pn: nat) {
    next == o ||
    match (Below(links, o), Below(links, next))
    case (Some(p), Some(q)) =>
      && ResidentOnChain(links, contents, p, pn) == ResidentOnChain(links, contents, q, pn)
      && Read(links, contents, p, pn) == Read(links, contents, q, pn)
    case (Some(p), None) => !ResidentOnChain(links, contents, p, pn)
    case (None, _) => false
  }

  lemma FirstBelowStart(links: Links, contents: Contents, o: ObjId, pn: nat)
    ensures FirstBelow(links, contents, o, o, pn)
  {
  }

  /** The search below `o` comes to `p`: it ends there or goes on. */
  lemma FirstBelowNext(links: Links, contents: Contents, o: ObjId, bottom: ObjId, next: ObjId, p: ObjId, pn: nat)
    requires FirstBelow(links, contents, o, next, pn) && Below(links, next) == Some(p)
    ensures (p, pn) !in contents ==> FirstBelow(links, contents, o, p, pn)
    ensures (p, pn) in contents ==>
      HeldBelow(links, contents, o, pn) && Filled(links, contents, o, bottom, pn) == contents[(p, pn)]
  {
  }

  lemma FirstBelowEnd(links: Links, contents: Contents, o: ObjId, bottom: ObjId, next: ObjId, pn: nat)
    requires FirstBelow(links, contents, o, next, pn) && Below(links, next).None? && Below(links, o).Some?
    ensures !HeldBelow(links, contents, o, pn)
    ensures Filled(links, contents, o, bottom, pn) == Read(links, contents, bottom, pn)
  {
  }

  // ---------------------------------------------------------------------------------------------
  // What lookups do to the contents

  lemma GrownContents(t: FrameTable, objs: Objs, resident: Index, t': FrameTable, objs': Objs, resident': Index,
                      f: FrameId, e: ObjId, pn: nat)
    requires FramesOk(t, objs, resident) && FramesOk(t', objs', resident')
    requires Grown(t.frames, t'.frames, {f}, e, pn) && f in t'.frames && t'.frames[f].pagenum == pn
    requires f in t.frames ==> KeyOf(t'.frames[f]) == KeyOf(t.frames[f]) && t'.frames[f].data == t.frames[f].data
    ensures LookedUp(ContentsOf(t.frames, resident), ContentsOf(t'.frames, resident'),
                     t'.frames[f].obj, t'.frames[f].data, e, pn)
  {
    hide FramesOk, Grown, ContentsOf;
    var c, c' := ContentsOf(t.frames, resident), ContentsOf(t'.frames, resident');
    forall key
      ensures key in c ==> key in c' && c'[key] == c[key]
      ensures key in c' && key !in c ==>
        (key == (t'.frames[f].obj, pn) && c'[key] == t'.frames[f].data) || (key == (e, pn) && c'[key] == ZeroPage())
    {
      GrownKey(t, objs, resident, t', objs', resident', f, e, pn, key);
    }
  }

  lemma GrownKey(t: FrameTable, objs: Objs, resident: Index, t': FrameTable, objs': Objs, resident': Index,
                 f: FrameId, e: ObjId, pn: nat, key: (ObjId, nat))
    requires FramesOk(t, objs, resident) && FramesOk(t', objs', resident')
    requires Grown(t.frames, t'.frames, {f}, e, pn) && f in t'.frames && t'.frames[f].pagenum == pn
    requires f in t.frames ==> KeyOf(t'.frames[f]) == KeyOf(t.frames[f]) && t'.frames[f].data == t.frames[f].data
    ensures var c, c' := ContentsOf(t.frames, resident), ContentsOf(t'.frames, resident');
      && (key in c ==> key in c' && c'[key] == c[key])
      && (key in c' && key !in c ==>
           (key == (t'.frames[f].obj, pn) && c'[key] == t'.frames[f].data) || (key == (e, pn) && c'[key] == ZeroPage()))
  {
    hide HashOk, ListsOk, PagesListed, ZeroPage;
    if key in resident {
      var g := resident[key];
      assert KeyOf(t'.frames[g]) == key;
    }
  }

  /** At most page `pn` of `o`, with bytes `page`, and the page at the end of some chain became resident. */
  ghost predicate LookedUpAt(m: Mem, m': Mem, o: ObjId, page: Page, pn: nat) {
    && m'.links == m.links
    && exists e :: Below(m.links, e).None? && LookedUp(m.contents, m'.contents, o, page, e, pn)
  }

  lemma LookupUnseenAt(m: Mem, m': Mem, o: ObjId, pn: nat, x: ObjId, q: nat)
    requires LookedUpAt(m, m', o, ReadIn(m, o, pn), pn)
    ensures ReadIn(m', x, q) == ReadIn(m, x, q)
  {
    var e :| Below(m.links, e).None? && LookedUp(m.contents, m'.contents, o, ReadIn(m, o, pn), e, pn);
    LookupUnseen(m.links, m.contents, m'.contents, o, e, pn, x, q);
  }

  datatype Copy = Copied(page: Page) | Freed

  /** What a lookup of page `pn` of `o` for writing gives: bytes, or a use of freed memory. */
  ghost function WriteCopy(objs: Objs, contents: Contents, o: ObjId, pn: nat, garbage: Page): (copy: Copy)
    requires o in objs
  {
    if (o, pn) in contents then Copied(contents[(o, pn)])
    else if objs[o].kind == Anon then Copied(ZeroPage())
    else if FollowsFreed(objs, contents, o, pn) then Freed
    else Copied(Filled(LinksOf(objs), HalfFilled(contents, o, pn, garbage), o, objs[o].bottom, pn))
  }

  /**
   * A write to page `pn` of `o` finds what was there: the page is resident on the chain, or
   * mmo_bottom_obj exists and a search from it on finds zeros before it comes to `o`.
   */
  ghost predicate WriteSafe(objs: Objs, contents: Contents, o: ObjId, pn: nat)
    requires o in objs
  {
    || objs[o].kind == Anon
    || ResidentOnChain(LinksOf(objs), contents, o, pn)
    || (objs[o].bottom in objs && ReadBefore(LinksOf(objs), contents, objs[o].bottom, o, pn) == Some(ZeroPage()))
  }

  /**
   * For every object and every mmo_bottom_obj, also one that has been freed: the page a write gets
   * is the one read before, whatever a fresh frame holds, exactly when the write is safe.
   */
  lemma WriteExact(objs: Objs, next: ObjId, c: Contents, o: ObjId, pn: nat)
    requires ObjsOk(objs, next) && o in objs
    ensures (forall garbage: Page :: WriteCopy(objs, c, o, pn, garbage) == Copied(Read(LinksOf(objs), c, o, pn)))
      <==> WriteSafe(objs, c, o, pn)
  {
    LinksAt(objs, next, o);
    if (o, pn) !in c && objs[o].kind == Shadow {
      ShadowIsOver(objs, next, o);
      FillExact(LinksOf(objs), c, o, objs[o].bottom, pn);
      if FollowsFreed(objs, c, o, pn) {
        assert WriteCopy(objs, c, o, pn, ZeroPage()) == Freed;
      } else {
        forall garbage: Page
          ensures WriteCopy(objs, c, o, pn, garbage) ==
            Copied(Filled(LinksOf(objs), HalfFilled(c, o, pn, garbage), o, objs[o].bottom, pn))
        {
        }
      }
    }
  }

  lemma AllocContents(frames: Frames, resident: Index, o: ObjId, pn: nat, f: FrameId, fr: PFrame)
    requires IndexOk(frames, resident) && f !in frames
    ensures ContentsOf(frames[f := fr], resident[(o, pn) := f]) ==
      HalfFilled(ContentsOf(frames, resident), o, pn, fr.data)
  {
  }

  /** A new frame, in the hash and busy, about to be filled. */
  method AllocBusy(k: Kernel, o: ObjId, pn: nat, garbage: Page) returns (f: FrameId)
    requires FramesOk(k.pf, k.objs, k.resident) && o in k.objs && (o, pn) !in k.resident
    modifies k`pf, k`objs, k`resident
    ensures FramesOk(k.pf, k.objs, k.resident) && SameShape(old(k.objs), k.objs)
    ensures f !in old(k.pf.frames)
    ensures k.pf.frames == old(k.pf.frames)[f := PFrame(o, pn, 0, false, true, garbage)]
    ensures ContentsOf(k.pf.frames, k.resident) == HalfFilled(old(ContentsOf(k.pf.frames, k.resident)), o, pn, garbage)
  {
    hide HashOk, ListsOk, IndexOk, PagesListed, ContentsOf;
    f := AllocFrame(k, o, pn, garbage);
    SetFrame(k, f, false, true, garbage);
    assert k.pf.frames == old(k.pf.frames)[f := PFrame(o, pn, 0, false, true, garbage)];
    AllocContents(old(k.pf.frames), old(k.resident), o, pn, f, k.pf.frames[f]);
  }

  /**
   * pframe_get on a shadow object for a page that is not resident, then shadow_dirtypage; none if
   * shadow_fillpage follows freed memory.
   */
  method GetShadow(k: Kernel, o: ObjId, pn: nat, garbage: Page) returns (r: Option<FrameId>)
    requires MemOk(k) && o in k.objs && k.objs[o].kind == Shadow && (o, pn) !in k.resident
    modifies k`pf, k`objs, k`resident
    ensures r.None? <==> old(FollowsFreed(k.objs, ContentsOf(k.pf.frames, k.resident), o, pn))
    ensures r.Some? ==> FramesOk(k.pf, k.objs, k.resident) && SameShape(old(k.objs), k.objs)
    ensures r.Some? ==> r.value !in old(k.pf.frames) && Grown(old(k.pf.frames), k.pf.frames, {r.value},
      old(FillEnd(k.objs, ContentsOf(k.pf.frames, k.resident), o, pn)), pn)
    ensures r.Some? ==> r.value in k.pf.frames && k.pf.frames[r.value] == PFrame(o, pn, 1, true, false,
      Filled(old(LinksOf(k.objs)), HalfFilled(old(ContentsOf(k.pf.frames, k.resident)), o, pn, garbage), o,
             old(k.objs[o].bottom), pn))
  {
    hide FramesOk, ObjsOk, Quiet, ContentsOf, LinksOf, HeldBelow, Filled, BusyInShadows, SameShape, HalfFilled;
    ghost var c := ContentsOf(k.pf.frames, k.resident);
    StillHeld(k.objs, k.nextObj, c, o, pn, garbage);
    var f := AllocBusy(k, o, pn, garbage);
    ghost var objs := k.objs;
    ShapeFacts(old(k.objs), k.objs, k.nextObj);
    ShapeAt(old(k.objs), k.objs, o);
    BusyWhereFilled(old(k.pf.frames), old(k.objs), k.pf.frames, k.objs, f);
    var ok := FillShadow(k, o, f, garbage);
    if !ok {
      return None;
    }
    ShapeStep(old(k.objs), objs, k.objs);
    SetFrame(k, f, false, false, k.pf.frames[f].data);
    SetFrame(k, f, true, false, k.pf.frames[f].data);
    return Some(f);
  }

  /** The half-filled page of `o` does not count as held below `o`. */
  lemma StillHeld(objs: Objs, next: ObjId, c: Contents, o: ObjId, pn: nat, garbage: Page)
    requires ObjsOk(objs, next) && o in objs && objs[o].kind == Shadow
    ensures HeldBelow(LinksOf(objs), HalfFilled(c, o, pn, garbage), o, pn) == HeldBelow(LinksOf(objs), c, o, pn)
  {
    ShadowIsOver(objs, next, o);
    BelowIgnores(LinksOf(objs), c, o, objs[o].shadowed.value, pn, garbage);
  }

  lemma BusyWhereFilled(frames: Frames, objs: Objs, frames': Frames, objs': Objs, f: FrameId)
    requires Quiet(frames, objs) && SameShape(objs, objs') && f !in frames
    requires f in frames' && frames' == frames[f := frames'[f]] && frames'[f].obj in objs
    requires objs[frames'[f].obj].kind == Shadow
    ensures BusyInShadows(frames', objs')
  {
  }

  lemma QuietBusy(frames: Frames, objs: Objs)
    requires Quiet(frames, objs)
    ensures BusyInShadows(frames, objs)
  {
  }

  lemma EndIsAnon(objs: Objs, next: ObjId, o: ObjId)
    requires ObjsOk(objs, next) && o in objs
    ensures var e := End(LinksOf(objs), o);
      e in objs && objs[e].kind == Anon && Below(LinksOf(objs), e).None?
  {
  }

  lemma FillEndIsAnon(objs: Objs, next: ObjId, c: Contents, o: ObjId, pn: nat)
    requires ObjsOk(objs, next) && o in objs && !FollowsFreed(objs, c, o, pn)
    ensures var e := FillEnd(objs, c, o, pn);
      e in objs && objs[e].kind == Anon && Below(LinksOf(objs), e).None?
  {
    EndIsAnon(objs, next, if objs[o].kind == Anon || HeldBelow(LinksOf(objs), c, o, pn) then o else objs[o].bottom);
  }

  lemma QuietGrown(frames: Frames, objs: Objs, frames': Frames, objs': Objs, skip: set<FrameId>, e: ObjId, pn: nat)
    requires Quiet(frames, objs) && SameShape(objs, objs') && Grown(frames, frames', skip, e, pn)
    requires e in objs && objs[e].kind == Anon
    requires forall f :: f in skip && f in frames' ==> QuietFrame(frames'[f], objs')
    ensures Quiet(frames', objs')
  {
  }

  /** pframe_lookup for reading, between steps: at most a page of zeros became resident. */
  method PageForRead(k: Kernel, o: ObjId, pn: nat, garbage: Page) returns (f: FrameId)
    requires MemOk(k) && o in k.objs
    modifies k`pf, k`objs, k`resident
    ensures MemOk(k) && SameShape(old(k.objs), k.objs)
    ensures f in k.pf.frames && k.pf.frames[f].data == old(ReadNow(k, o, pn))
    ensures var e := End(old(LinksOf(k.objs)), o); LookedUpAt(old(MemOf(k)), MemOf(k), e, old(ReadNow(k, e, pn)), pn)
    ensures Below(old(LinksOf(k.objs)), End(old(LinksOf(k.objs)), o)).None?
  {
    hide FramesOk, ObjsOk, ContentsOf, LinksOf, Quiet, SameShape, BusyInShadows;
    QuietBusy(k.pf.frames, k.objs);
    f := LookupRead(k, o, pn, garbage);
    ghost var e := End(old(LinksOf(k.objs)), o);
    EndIsAnon(old(k.objs), k.nextObj, o);
    ShapeFacts(old(k.objs), k.objs, k.nextObj);
    QuietGrown(old(k.pf.frames), old(k.objs), k.pf.frames, k.objs, {}, e, pn);
    GrownOnly(old(k.pf), old(k.objs), old(k.resident), k.pf, k.objs, k.resident, e, pn, old(ReadNow(k, e, pn)));
  }

  lemma GrownOnly(t: FrameTable, objs: Objs, resident: Index, t': FrameTable, objs': Objs, resident': Index, e: ObjId,
                  pn: nat, page: Page)
    requires FramesOk(t, objs, resident) && FramesOk(t', objs', resident')
    requires Grown(t.frames, t'.frames, {}, e, pn)
    ensures LookedUp(ContentsOf(t.frames, resident), ContentsOf(t'.frames, resident'), e, page, e, pn)
  {
    hide HashOk, ListsOk, PagesListed;
  }

  /** mmo_bottom_obj of a shadow is the end of its chain. */
  ghost predicate BottomOk(objs: Objs, o: ObjId) {
    o in objs && (objs[o].kind == Shadow ==> objs[o].bottom == End(LinksOf(objs), o))
  }

  /**
   * pframe_lookup for writing, between steps: the top object's own page, copied up if it has to be.
   * It is none exactly when the copy follows freed memory. A copy that is what was read before
   * changes no read.
   */
  method PageForWrite(k: Kernel, o: ObjId, pn: nat, garbage: Page) returns (r: Option<FrameId>)
    requires MemOk(k) && o in k.objs
    modifies k`pf, k`objs, k`resident
    ensures r.None? <==> old(WriteCopy(k.objs, ContentsOf(k.pf.frames, k.resident), o, pn, garbage)) == Freed
    ensures r.Some? ==> MemOk(k) && SameShape(old(k.objs), k.objs)
    ensures r.Some? ==> r.value in k.pf.frames && KeyOf(k.pf.frames[r.value]) == (o, pn)
    ensures r.Some? ==>
      Copied(k.pf.frames[r.value].data) == old(WriteCopy(k.objs, ContentsOf(k.pf.frames, k.resident), o, pn, garbage))
    ensures r.Some? ==> LookedUpAt(old(MemOf(k)), MemOf(k), o, k.pf.frames[r.value].data, pn)
  {
    hide FramesOk, ObjsOk, ContentsOf, LinksOf, Quiet, SameShape, HeldBelow, Filled;
    ghost var c := ContentsOf(k.pf.frames, k.resident);
    r := LookupWrite(k, o, pn, garbage);
    if r.Some? {
      ghost var e :=
        if r.value in old(k.pf.frames) then End(old(LinksOf(k.objs)), o) else FillEnd(old(k.objs), c, o, pn);
      if r.value in old(k.pf.frames) {
        EndIsAnon(old(k.objs), k.nextObj, o);
      } else {
        FillEndIsAnon(old(k.objs), k.nextObj, c, o, pn);
      }
      ShapeFacts(old(k.objs), k.objs, k.nextObj);
      QuietGrown(old(k.pf.frames), old(k.objs), k.pf.frames, k.objs, {r.value}, e, pn);
      GrownContents(old(k.pf), old(k.objs), old(k.resident), k.pf, k.objs, k.resident, r.value, e, pn);
    }
  }

  /** With mmo_bottom_obj at the end of the chain every write is safe. */
  lemma BottomSafe(objs: Objs, next: ObjId, c: Contents, o: ObjId, pn: nat)
    requires ObjsOk(objs, next) && BottomOk(objs, o)
    ensures WriteSafe(objs, c, o, pn)
  {
    if objs[o].kind == Shadow {
      EndIsAnon(objs, next, o);
      ShadowIsOver(objs, next, o);
      forall garbage: Page
        ensures WriteCopy(objs, c, o, pn, garbage) == Copied(Read(LinksOf(objs), c, o, pn))
      {
        if (o, pn) !in c { FillFaithful(LinksOf(objs), c, o, pn, garbage); }
      }
      WriteExact(objs, next, c, o, pn);
    }
  }

  /** The forwrite branch of shadow_lookuppage, and anon_lookuppage. */
  method LookupWrite(k: Kernel, o: ObjId, pn: nat, garbage: Page) returns (r: Option<FrameId>)
    requires MemOk(k) && o in k.objs
    modifies k`pf, k`objs, k`resident
    ensures r.None? <==> old(WriteCopy(k.objs, ContentsOf(k.pf.frames, k.resident), o, pn, garbage)) == Freed
    ensures r.Some? ==> FramesOk(k.pf, k.objs, k.resident) && SameShape(old(k.objs), k.objs)
    ensures r.Some? ==>
      r.value in k.pf.frames && KeyOf(k.pf.frames[r.value]) == (o, pn) && QuietFrame(k.pf.frames[r.value], k.objs)
    ensures r.Some? && r.value in old(k.pf.frames) ==> k.pf.frames == old(k.pf.frames)
    ensures r.Some? ==>
      !old(FollowsFreed(k.objs, ContentsOf(k.pf.frames, k.resident), o, pn)) || r.value in old(k.pf.frames)
    ensures r.Some? ==> Grown(old(k.pf.frames), k.pf.frames, {r.value},
      old(FillEnd(k.objs, ContentsOf(k.pf.frames, k.resident), o, pn)), pn)
    ensures r.Some? ==>
      Copied(k.pf.frames[r.value].data) == old(WriteCopy(k.objs, ContentsOf(k.pf.frames, k.resident), o, pn, garbage))
  {
    hide FramesOk, ObjsOk, ContentsOf, LinksOf, HeldBelow;
    ContentsAt(k.pf, k.objs, k.resident, o, pn);
    LinksAt(k.objs, k.nextObj, o);
    if k.objs[o].kind == Anon {
      var f := GetAnon(k, o, pn, garbage);
      r := Some(f);
    } else {
      r := GetResident(k, o, pn);
      if r.None? {
        r := GetShadow(k, o, pn, garbage);
      }
    }
  }
}
