/** Reference counting and destruction of memory objects, with the page frees it causes. */
module Objects {
  import opened Lists
  import opened Chains
  import opened VmState
  import opened FrameCache
  import opened PageLookup

  // ---------------------------------------------------------------------------------------------
  // Dirtying and cleaning

  /** pframe_dirty with shadow_dirtypage or anon_dirtypage: both set the bit, only one returns 0. */
  method Dirty(k: Kernel, f: FrameId)
    requires FramesOk(k.pf, k.objs, k.resident) && f in k.pf.frames && !k.pf.frames[f].busy
    modifies k`pf
    ensures FramesOk(k.pf, k.objs, k.resident)
    ensures k.pf.frames == old(k.pf.frames)[f := old(k.pf.frames[f]).(dirty := true)]
  {
    hide FramesOk;
    var fr := k.pf.frames[f];
    SetFrame(k, f, fr.dirty, true, fr.data);
    SetFrame(k, f, true, true, fr.data);
    SetFrame(k, f, true, false, fr.data);
  }

  /**
   * pframe_clean. shadow_cleanpage looks the page up for writing in its own object, which finds
   * the frame itself, and copies it onto itself. pframe_remove_from_pts walks the list that
   * mmobj_bottom_vmas names; the result is false exactly when there is none there.
   */
  method Clean(k: Kernel, f: FrameId) returns (ok: bool)
    requires FramesOk(k.pf, k.objs, k.resident) && f in k.pf.frames && k.pf.frames[f].obj in k.objs
    requires k.pf.frames[f].dirty && k.pf.frames[f].pincount == 0 && !k.pf.frames[f].busy
    modifies k`pf
    ensures ok <==> HasList(k.objs, old(k.pf.frames[f]).obj)
    ensures ok ==> FramesOk(k.pf, k.objs, k.resident)
    ensures ok ==> k.pf.frames == old(k.pf.frames)[f := old(k.pf.frames[f]).(dirty := false)]
  {
    hide HashOk, ListsOk, PagesListed;
    var fr := k.pf.frames[f];
    SetFrame(k, f, false, false, fr.data);
    if !HasList(k.objs, fr.obj) {
      return false;
    }
    CleanPage(k, f);
    return true;
  }

  /** cleanpage, with the frame busy meanwhile. */
  method CleanPage(k: Kernel, f: FrameId)
    requires FramesOk(k.pf, k.objs, k.resident) && f in k.pf.frames && k.pf.frames[f].obj in k.objs
    requires !k.pf.frames[f].dirty && !k.pf.frames[f].busy
    modifies k`pf
    ensures FramesOk(k.pf, k.objs, k.resident) && k.pf.frames == old(k.pf.frames)
  {
    hide HashOk, ListsOk, PagesListed;
    var fr := k.pf.frames[f];
    SetFrame(k, f, false, true, fr.data);
    if k.objs[fr.obj].kind == Shadow {
      var r := GetResident(k, fr.obj, fr.pagenum);
      assert r == Some(f);
      SetFrame(k, r.value, false, true, k.pf.frames[f].data);
    }
    SetFrame(k, f, false, false, fr.data);
  }

  // ---------------------------------------------------------------------------------------------
  // Freeing a frame

  /** The table after pframe_free has unlinked `f`. */
  function FreedTable(t: FrameTable, f: FrameId): (t': FrameTable)
    requires |t.hash| > 0 && f in t.frames
  {
    var h := Bucket(t.frames[f].obj, t.frames[f].pagenum, |t.hash|);
    t.(frames := t.frames - {f}, hash := t.hash[h := Unlink(t.hash[h], f)],
       allocList := Unlink(t.allocList, f), nallocated := t.nallocated - 1)
  }

  function WithoutPage(obj: MmObj, f: FrameId): (r: MmObj) {
    obj.(nrespages := obj.nrespages - 1, respages := Unlink(obj.respages, f))
  }

  lemma FreeHash(t: FrameTable, f: FrameId)
    requires HashOk(t.frames, t.hash) && f in t.frames
    ensures HashOk(FreedTable(t, f).frames, FreedTable(t, f).hash)
  {
    var t', n := FreedTable(t, f), |t.hash|;
    forall h | 0 <= h < n
      ensures Enumerates(t'.hash[h], InBucket(t'.frames, n, h))
    {
      assert InBucket(t'.frames, n, h) == InBucket(t.frames, n, h) - {f};
      UnlinkMember(t.hash[h], InBucket(t.frames, n, h), f);
    }
  }

  lemma FreeLists(t: FrameTable, f: FrameId)
    requires |t.hash| > 0 && ListsOk(t) && f in t.frames && t.frames[f].pincount == 0
    ensures ListsOk(FreedTable(t, f))
  {
    var frames' := t.frames - {f};
    assert Unpinned(frames') == Unpinned(t.frames) - {f};
    assert Pinned(frames') == Pinned(t.frames);
    UnlinkMember(t.allocList, Unpinned(t.frames), f);
    EnumerationLength(t.allocList, Unpinned(t.frames));
  }

  lemma FreePages(frames: Frames, objs: Objs, f: FrameId)
    requires PagesListed(frames, objs) && f in frames
    ensures PagesListed(frames - {f}, objs[frames[f].obj := WithoutPage(objs[frames[f].obj], f)])
  {
    var o := frames[f].obj;
    var objs' := objs[o := WithoutPage(objs[o], f)];
    forall x | x in objs'
      ensures Enumerates(objs'[x].respages, PagesOf(frames - {f}, x)) && objs'[x].nrespages == |objs'[x].respages|
    {
      if x == o {
        assert PagesOf(frames - {f}, x) == PagesOf(frames, x) - {f};
        UnlinkMember(objs[o].respages, PagesOf(frames, o), f);
        EnumerationLength(objs[o].respages, PagesOf(frames, o));
      } else {
        assert PagesOf(frames - {f}, x) == PagesOf(frames, x);
      }
    }
  }

  lemma FreeIndex(frames: Frames, resident: Index, f: FrameId)
    requires IndexOk(frames, resident) && f in frames
    ensures IndexOk(frames - {f}, resident - {KeyOf(frames[f])})
  {
  }

  lemma FrameFacts(t: FrameTable, objs: Objs, resident: Index, f: FrameId)
    requires FramesOk(t, objs, resident) && f in t.frames
    ensures |t.hash| > 0 && t.frames[f].obj in objs && f in objs[t.frames[f].obj].respages
  {
    EnumerationLength(objs[t.frames[f].obj].respages, PagesOf(t.frames, t.frames[f].obj));
  }

  /** The unlinking part of pframe_free, up to its call of put, with the walk of the list first. */
  method UnlinkFrame(k: Kernel, f: FrameId) returns (ok: bool)
    requires FramesOk(k.pf, k.objs, k.resident)
    requires f in k.pf.frames && k.pf.frames[f].pincount == 0 && !k.pf.frames[f].busy
    modifies k`pf, k`objs, k`resident
    ensures old(k.pf.frames[f].obj) in old(k.objs) && (ok <==> HasList(old(k.objs), old(k.pf.frames[f].obj)))
    ensures ok ==> FramesOk(k.pf, k.objs, k.resident)
    ensures ok ==> k.pf.frames == old(k.pf.frames) - {f}
    ensures ok ==> var o := old(k.pf.frames[f].obj); k.objs == old(k.objs)[o := WithoutPage(old(k.objs)[o], f)]
    ensures ok ==> k.pf.allocList == Unlink(old(k.pf.allocList), f) && k.pf.pinnedList == old(k.pf.pinnedList)
  {
    hide HashOk, IndexOk, ListsOk, PagesListed;
    FrameFacts(k.pf, k.objs, k.resident, f);
    if !HasList(k.objs, k.pf.frames[f].obj) {
      return false;
    }
    FreeHash(k.pf, f);
    FreeLists(k.pf, f);
    FreePages(k.pf.frames, k.objs, f);
    FreeIndex(k.pf.frames, k.resident, f);
    var fr := k.pf.frames[f];
    var h := Bucket(fr.obj, fr.pagenum, |k.pf.hash|);
    k.pf := k.pf.(hash := k.pf.hash[h := Unlink(k.pf.hash[h], f)]);
    k.pf := k.pf.(nallocated := k.pf.nallocated - 1);
    k.pf := k.pf.(allocList := Unlink(k.pf.allocList, f));
    k.pf := k.pf.(frames := k.pf.frames - {f});
    var obj := k.objs[fr.obj];
    obj := obj.(nrespages := obj.nrespages - 1);
    obj := obj.(respages := Unlink(obj.respages, f));
    k.objs := k.objs[fr.obj := obj];
    k.resident := k.resident - {KeyOf(fr)};
    return true;
  }

  // ---------------------------------------------------------------------------------------------
  // put and the destruction it may start

  /** The survivors of a put keep everything but reference counts; frames go with their objects. */
  ghost predicate Survives(frames: Frames, objs: Objs, frames': Frames, objs': Objs) {
    && objs'.Keys <= objs.Keys
    && (forall x :: x in objs' ==> objs'[x] == objs[x].(refcount := objs'[x].refcount))
    && (forall f :: f in frames' <==> f in frames && frames[f].obj in objs')
    && (forall f :: f in frames' ==> frames'[f] == frames[f])
  }

  /** An object that has given up page `f` and the reference the page held. */
  function Released(obj: MmObj, f: FrameId): (r: MmObj) {
    WithoutPage(obj, f).(refcount := obj.refcount - 1)
  }

  /** Changing the counts or the page list of one object leaves the chains as they are. */
  lemma Recounted(objs: Objs, next: ObjId, o: ObjId, obj: MmObj)
    requires ObjsOk(objs, next) && o in objs && obj.kind == objs[o].kind && obj.shadowed == objs[o].shadowed
    ensures ObjsOk(objs[o := obj], next)
    ensures LinksOf(objs[o := obj]) == LinksOf(objs)
    ensures ExtOf(objs[o := obj]) == ExtOf(objs)[o := obj.refcount - obj.nrespages]
  {
    hide Descending;
    assert LinksOf(objs[o := obj]) == LinksOf(objs);
    assert ExtOf(objs[o := obj]) == ExtOf(objs)[o := obj.refcount - obj.nrespages];
  }

  lemma RefcountOnly(t: FrameTable, objs: Objs, resident: Index, o: ObjId, n: int)
    requires FramesOk(t, objs, resident) && Quiet(t.frames, objs) && o in objs
    ensures FramesOk(t, objs[o := objs[o].(refcount := n)], resident)
    ensures Quiet(t.frames, objs[o := objs[o].(refcount := n)])
  {
    hide HashOk, ListsOk, IndexOk, Enumerates;
  }

  lemma RemoveObj(t: FrameTable, objs: Objs, resident: Index, next: ObjId, o: ObjId)
    requires FramesOk(t, objs, resident) && ObjsOk(objs, next) && Quiet(t.frames, objs)
    requires o in objs && objs[o].respages == [] && Descending(LinksOf(objs) - {o})
    ensures FramesOk(t, objs - {o}, resident) && ObjsOk(objs - {o}, next) && Quiet(t.frames, objs - {o})
    ensures LinksOf(objs - {o}) == LinksOf(objs) - {o} && ExtOf(objs - {o}) == ExtOf(objs) - {o}
  {
    hide HashOk, ListsOk, IndexOk, Descending;
    NoPages(t, objs, resident, o);
    RemoveLinks(objs, o);
  }

  lemma NoPages(t: FrameTable, objs: Objs, resident: Index, o: ObjId)
    requires FramesOk(t, objs, resident) && o in objs && objs[o].respages == []
    ensures forall f :: f in t.frames ==> t.frames[f].obj != o
  {
    hide HashOk, ListsOk, IndexOk;
    EnumerationLength(objs[o].respages, PagesOf(t.frames, o));
    forall f | f in t.frames
      ensures t.frames[f].obj != o
    {
      assert f !in PagesOf(t.frames, o);
    }
  }

  lemma RemoveLinks(objs: Objs, o: ObjId)
    ensures LinksOf(objs - {o}) == LinksOf(objs) - {o} && ExtOf(objs - {o}) == ExtOf(objs) - {o}
  {
  }

  lemma UnlinkedQuiet(frames: Frames, objs: Objs, f: FrameId)
    requires f in frames && frames[f].obj in objs && QuietBut(frames, objs, {f})
    ensures Quiet(frames - {f}, objs[frames[f].obj := WithoutPage(objs[frames[f].obj], f)])
  {
  }

  lemma ExtAt(objs: Objs, refs: multiset<ObjId>, o: ObjId)
    requires Conserved(LinksOf(objs), ExtOf(objs), refs) && o in objs
    ensures o in LinksOf(objs) && o in ExtOf(objs)
    ensures ExtOf(objs)[o] == objs[o].refcount - objs[o].nrespages >= 1
  {
  }

  /** pframe_free: the put it makes on the frame's object only decrements the count. */
  method FreeFrame(k: Kernel, f: FrameId, ghost refs: multiset<ObjId>) returns (ok: bool)
    requires FramesOk(k.pf, k.objs, k.resident) && ObjsOk(k.objs, k.nextObj) && QuietBut(k.pf.frames, k.objs, {f})
    requires f in k.pf.frames && k.pf.frames[f].pincount == 0 && !k.pf.frames[f].busy && k.pf.frames[f].obj in k.objs
    requires Conserved(LinksOf(k.objs), ExtOf(k.objs), refs)
    modifies k`pf, k`objs, k`resident
    ensures ok <==> HasList(old(k.objs), old(k.pf.frames[f].obj))
    ensures ok ==> MemOk(k) && Conserved(LinksOf(k.objs), ExtOf(k.objs), refs)
    ensures ok ==> k.pf.frames == old(k.pf.frames) - {f}
    ensures ok ==> var o := old(k.pf.frames[f].obj); k.objs == old(k.objs)[o := Released(old(k.objs)[o], f)]
    decreases k.pf.frames[f].obj, |k.objs[k.pf.frames[f].obj].respages|, 0
  {
    hide FramesOk, ObjsOk, Quiet, QuietBut, LinksOf, ExtOf, Conserved;
    var o := k.pf.frames[f].obj;
    FrameFacts(k.pf, k.objs, k.resident, f);
    UnlinkedQuiet(k.pf.frames, k.objs, f);
    ExtAt(k.objs, refs, o);
    Recounted(k.objs, k.nextObj, o, WithoutPage(k.objs[o], f));
    TakeRef(LinksOf(k.objs), ExtOf(k.objs), refs, o);
    UnlinkTakesOne(k.objs[o].respages, f);
    ok := UnlinkFrame(k, f);
    if !ok {
      return;
    }
    ok := Put(k, o, refs + multiset{o});
    assert refs + multiset{o} - multiset{o} == refs;
    assert k.objs == old(k.objs)[o := Released(old(k.objs)[o], f)];
    assert k.pf.frames == old(k.pf.frames) - {f};
  }

  /** The body of the destruction loops of shadow_put and anon_put, for one resident page. */
  method ReleasePage(k: Kernel, f: FrameId, ghost refs: multiset<ObjId>) returns (ok: bool)
    requires MemOk(k) && Conserved(LinksOf(k.objs), ExtOf(k.objs), refs)
    requires f in k.pf.frames && k.pf.frames[f].obj in k.objs
    modifies k`pf, k`objs, k`resident
    ensures ok <==> HasList(old(k.objs), old(k.pf.frames[f].obj))
    ensures ok ==> MemOk(k) && Conserved(LinksOf(k.objs), ExtOf(k.objs), refs)
    ensures ok ==> k.pf.frames == old(k.pf.frames) - {f}
    ensures ok ==> var o := old(k.pf.frames[f].obj); k.objs == old(k.objs)[o := Released(old(k.objs)[o], f)]
    decreases k.pf.frames[f].obj, |k.objs[k.pf.frames[f].obj].respages|, 1
  {
    hide FramesOk, ObjsOk, LinksOf, ExtOf, Conserved, UnpinnedTable;
    if k.objs[k.pf.frames[f].obj].kind == Shadow {
      Unpin(k, f);
      ok := Clean(k, f);
      if !ok {
        return;
      }
    } else if k.pf.frames[f].dirty {
      ok := Clean(k, f);
    }
    ok := FreeFrame(k, f, refs);
    assert ok ==> k.pf.frames == old(k.pf.frames) - {f};
  }

  lemma FramesHaveObjs(t: FrameTable, objs: Objs, resident: Index)
    requires FramesOk(t, objs, resident)
    ensures forall f :: f in t.frames ==> t.frames[f].obj in objs
    ensures forall o, f :: o in objs ==> (f in objs[o].respages <==> f in t.frames && t.frames[f].obj == o)
    ensures forall o :: o in objs ==> objs[o].nrespages == |objs[o].respages|
  {
    forall o, f | o in objs
      ensures f in objs[o].respages <==> f in t.frames && t.frames[f].obj == o
    {
      EnumerationLength(objs[o].respages, PagesOf(t.frames, o));
    }
  }

  /** Some pages of `o` are gone, with the references they held; nothing else has changed. */
  ghost predicate Releasing(frames: Frames, objs: Objs, frames': Frames, objs': Objs, o: ObjId) {
    && o in objs && o in objs' && objs' == objs[o := objs'[o]]
    && objs'[o] == objs[o].(refcount := objs'[o].refcount, nrespages := objs'[o].nrespages,
                            respages := objs'[o].respages)
    && objs'[o].refcount == objs'[o].nrespages + 1
    && |objs'[o].respages| <= |objs[o].respages|
    && (forall f :: f in frames' <==> f in frames && (frames[f].obj != o || f in objs'[o].respages))
    && (forall f :: f in frames' ==> frames'[f] == frames[f])
  }

  lemma ReleaseStart(t: FrameTable, objs: Objs, resident: Index, o: ObjId)
    requires FramesOk(t, objs, resident) && o in objs && objs[o].refcount == objs[o].nrespages + 1
    ensures Releasing(t.frames, objs, t.frames, objs, o)
  {
    hide FramesOk;
    FramesHaveObjs(t, objs, resident);
  }

  lemma ReleaseFirst(t: FrameTable, objs: Objs, resident: Index, o: ObjId)
    requires FramesOk(t, objs, resident) && o in objs && objs[o].respages != []
    ensures objs[o].respages[0] in t.frames && t.frames[objs[o].respages[0]].obj == o
    ensures |Unlink(objs[o].respages, objs[o].respages[0])| < |objs[o].respages|
  {
    hide FramesOk;
    FramesHaveObjs(t, objs, resident);
    UnlinkTakesOne(objs[o].respages, objs[o].respages[0]);
  }

  lemma ReleaseNext(frames: Frames, objs: Objs, t: FrameTable, objs1: Objs, o: ObjId, t': FrameTable, resident': Index,
                    f: FrameId)
    requires Releasing(frames, objs, t.frames, objs1, o) && f in t.frames && t.frames[f].obj == o
    requires f in objs1[o].respages && t'.frames == t.frames - {f}
    requires FramesOk(t', objs1[o := Released(objs1[o], f)], resident')
    ensures Releasing(frames, objs, t'.frames, objs1[o := Released(objs1[o], f)], o)
  {
    hide FramesOk, Unlink;
    FramesHaveObjs(t', objs1[o := Released(objs1[o], f)], resident');
    UnlinkTakesOne(objs1[o].respages, f);
  }

  lemma ReleaseEnd(frames: Frames, objs: Objs, t: FrameTable, objs': Objs, resident: Index, o: ObjId)
    requires Releasing(frames, objs, t.frames, objs', o) && objs'[o].respages == [] && FramesOk(t, objs', resident)
    ensures objs' == objs[o := objs[o].(refcount := 1, nrespages := 0, respages := [])]
    ensures forall f :: f in t.frames <==> f in frames && frames[f].obj != o
    ensures forall f :: f in t.frames ==> t.frames[f] == frames[f]
  {
    hide FramesOk;
    FramesHaveObjs(t, objs', resident);
  }

  /** The loop of the destroy branch: every resident page is freed once, and only those. */
  method ReleasePages(k: Kernel, o: ObjId, ghost refs: multiset<ObjId>) returns (ok: bool)
    requires MemOk(k) && Conserved(LinksOf(k.objs), ExtOf(k.objs), refs)
    requires o in k.objs && k.objs[o].refcount == k.objs[o].nrespages + 1
    modifies k`pf, k`objs, k`resident
    ensures ok <==> Freeable(old(k.objs), o)
    ensures ok ==> MemOk(k) && Conserved(LinksOf(k.objs), ExtOf(k.objs), refs)
    ensures ok ==> k.objs == old(k.objs)[o := old(k.objs)[o].(refcount := 1, nrespages := 0, respages := [])]
    ensures ok ==> forall f :: f in k.pf.frames <==> f in old(k.pf.frames) && old(k.pf.frames)[f].obj != o
    ensures ok ==> forall f :: f in k.pf.frames ==> k.pf.frames[f] == old(k.pf.frames)[f]
    decreases o, |k.objs[o].respages|, 2
  {
    hide FramesOk, ObjsOk, Quiet, LinksOf, ExtOf, Conserved, Releasing, Released;
    ReleaseStart(k.pf, k.objs, k.resident, o);
    while |k.objs[o].respages| > 0
      invariant MemOk(k) && Conserved(LinksOf(k.objs), ExtOf(k.objs), refs)
      invariant o in k.objs && |k.objs[o].respages| <= old(|k.objs[o].respages|)
      invariant Releasing(old(k.pf.frames), old(k.objs), k.pf.frames, k.objs, o)
      invariant |k.objs[o].respages| < old(|k.objs[o].respages|) ==> HasList(old(k.objs), o)
      decreases |k.objs[o].respages|
    {
      ReleaseFirst(k.pf, k.objs, k.resident, o);
      ghost var t, objs, f := k.pf, k.objs, k.objs[o].respages[0];
      ReleasingList(old(k.pf.frames), old(k.objs), k.pf.frames, k.objs, o);
      ok := ReleasePage(k, k.objs[o].respages[0], refs);
      if !ok {
        return;
      }
      ReleaseNext(old(k.pf.frames), old(k.objs), t, objs, o, k.pf, k.resident, f);
      ReleasedPages(objs[o], f);
    }
    ReleaseEnd(old(k.pf.frames), old(k.objs), k.pf, k.objs, k.resident, o);
    return true;
  }

  lemma ReleasingList(frames: Frames, objs: Objs, frames': Frames, objs': Objs, o: ObjId)
    requires Releasing(frames, objs, frames', objs', o)
    ensures o in objs && o in objs' && HasList(objs', o) == HasList(objs, o)
  {
  }

  lemma ReleasedPages(obj: MmObj, f: FrameId)
    ensures Released(obj, f).respages == Unlink(obj.respages, f)
  {
  }

  /**
   * shadow_put and anon_put. The object leaves the store before the put of the object below it,
   * which cannot see it any more. The result is false exactly when a page of an object that goes
   * is cleaned or freed and mmobj_bottom_vmas leads to no list.
   */
  method Put(k: Kernel, o: ObjId, ghost refs: multiset<ObjId>) returns (ok: bool)
    requires MemOk(k) && Conserved(LinksOf(k.objs), ExtOf(k.objs), refs) && o in refs && o in k.objs
    modifies k`pf, k`objs, k`resident
    ensures ok <==> Freeing(old(k.objs), Drop(old(ExtOf(k.objs)), old(LinksOf(k.objs)), o).Keys)
    ensures ok ==> MemOk(k) && Conserved(LinksOf(k.objs), ExtOf(k.objs), refs - multiset{o})
    ensures ok ==> ExtOf(k.objs) == Drop(old(ExtOf(k.objs)), old(LinksOf(k.objs)), o)
    ensures ok ==> Survives(old(k.pf.frames), old(k.objs), k.pf.frames, k.objs)
    ensures old(k.objs[o].refcount) != old(k.objs[o].nrespages) + 1 ==>
      && ok && k.pf.frames == old(k.pf.frames)
      && k.objs == old(k.objs)[o := old(k.objs[o]).(refcount := old(k.objs[o]).refcount - 1)]
    decreases o, |k.objs[o].respages|, 5
  {
    hide FramesOk, ObjsOk, Quiet, LinksOf, ExtOf, Conserved;
    FramesHaveObjs(k.pf, k.objs, k.resident);
    ExtAt(k.objs, refs, o);
    ghost var links, ext := LinksOf(k.objs), ExtOf(k.objs);
    if k.objs[o].refcount != k.objs[o].nrespages + 1 {
      RefcountOnly(k.pf, k.objs, k.resident, o, k.objs[o].refcount - 1);
      Recounted(k.objs, k.nextObj, o, k.objs[o].(refcount := k.objs[o].refcount - 1));
      DropCounts(links, ext, refs, o);
      DropOnlyCounts(k.objs, o);
      k.objs := k.objs[o := k.objs[o].(refcount := k.objs[o].refcount - 1)];
      return true;
    } else {
      ok := Destroy(k, o, refs);
    }
  }

  /** All objects but those of `left` can be freed. */
  ghost predicate Freeing(objs: Objs, left: set<ObjId>) {
    forall x :: x in objs && x !in left ==> Freeable(objs, x)
  }

  lemma DropOnlyCounts(objs: Objs, o: ObjId)
    requires o in objs && objs[o].refcount != objs[o].nrespages + 1
    ensures Freeing(objs, Drop(ExtOf(objs), LinksOf(objs), o).Keys)
  {
  }

  /** The object that goes first can be freed, and the others as if it had never been there. */
  lemma FreeingNext(objs: Objs, left: set<ObjId>, o: ObjId)
    requires o in objs && o !in left && Freeable(objs, o) && (objs[o].kind == Anon ==> left == objs.Keys - {o})
    ensures Freeing(objs, left) <==> Freeing(objs - {o}, left)
  {
    if objs[o].kind == Shadow {
      forall x | x in objs - {o}
        ensures Freeable(objs - {o}, x) == Freeable(objs, x)
      {
      }
    }
  }

  lemma SurvivesWithout(frames: Frames, objs: Objs, frames': Frames, objs': Objs, o: ObjId)
    requires o in objs && o in objs' && objs' == objs[o := objs'[o]]
    requires forall f :: f in frames ==> frames[f].obj in objs
    requires forall f :: f in frames' <==> f in frames && frames[f].obj != o
    requires forall f :: f in frames' ==> frames'[f] == frames[f]
    ensures objs' - {o} == objs - {o} && Survives(frames, objs, frames', objs' - {o})
  {
  }

  /** Frees the pages of `o`, then `o`; the reference it held on the object below is still due. */
  method FreeObject(k: Kernel, o: ObjId, ghost refs: multiset<ObjId>) returns (ok: bool, below: Option<ObjId>)
    requires MemOk(k) && Conserved(LinksOf(k.objs), ExtOf(k.objs), refs) && o in refs && o in k.objs
    requires k.objs[o].refcount == k.objs[o].nrespages + 1
    modifies k`pf, k`objs, k`resident
    ensures ok <==> Freeable(old(k.objs), o)
    ensures Descending(old(LinksOf(k.objs))) && o in old(LinksOf(k.objs)) && o in old(ExtOf(k.objs))
    ensures old(ExtOf(k.objs))[o] == 1
    ensures below == old(LinksOf(k.objs))[o] && (below.None? <==> old(k.objs)[o].kind == Anon)
    ensures ok ==> MemOk(k) && (below.Some? ==> below.value < o && below.value in k.objs)
    ensures ok ==> LinksOf(k.objs) == old(LinksOf(k.objs)) - {o} && ExtOf(k.objs) == old(ExtOf(k.objs)) - {o}
    ensures ok ==> Conserved(LinksOf(k.objs), ExtOf(k.objs), Handed(old(LinksOf(k.objs)), refs, o))
    ensures ok ==> k.objs == old(k.objs) - {o}
    ensures ok ==> Survives(old(k.pf.frames), old(k.objs), k.pf.frames, k.objs)
    decreases o, |k.objs[o].respages|, 3
  {
    hide FramesOk, ObjsOk, Quiet, LinksOf, ExtOf, Conserved, Handed, Survives, Descending;
    ExtAt(k.objs, refs, o);
    LinksAt(k.objs, k.nextObj, o);
    ChainsDescend(k.objs, k.nextObj);
    Recounted(k.objs, k.nextObj, o, k.objs[o].(refcount := 1, nrespages := 0, respages := []));
    DestroyTop(LinksOf(k.objs), ExtOf(k.objs), refs, o);
    below := k.objs[o].shadowed;
    FramesHaveObjs(k.pf, k.objs, k.resident);
    KindIs(k.objs, k.nextObj, o);
    ok := ReleasePages(k, o, refs);
    if !ok {
      return;
    }
    RemoveObj(k.pf, k.objs, k.resident, k.nextObj, o);
    SurvivesWithout(old(k.pf.frames), old(k.objs), k.pf.frames, k.objs, o);
    k.objs := k.objs - {o};
  }

  lemma KindIs(objs: Objs, next: ObjId, o: ObjId)
    requires ObjsOk(objs, next) && o in objs
    ensures objs[o].kind == Anon <==> objs[o].shadowed.None?
  {
  }

  /** The destroy branch of a put. */
  method Destroy(k: Kernel, o: ObjId, ghost refs: multiset<ObjId>) returns (ok: bool)
    requires MemOk(k) && Conserved(LinksOf(k.objs), ExtOf(k.objs), refs) && o in refs && o in k.objs
    requires k.objs[o].refcount == k.objs[o].nrespages + 1
    modifies k`pf, k`objs, k`resident
    ensures ok <==> Freeing(old(k.objs), Drop(old(ExtOf(k.objs)), old(LinksOf(k.objs)), o).Keys)
    ensures ok ==> MemOk(k) && Conserved(LinksOf(k.objs), ExtOf(k.objs), refs - multiset{o})
    ensures ok ==> ExtOf(k.objs) == Drop(old(ExtOf(k.objs)), old(LinksOf(k.objs)), o)
    ensures ok ==> Survives(old(k.pf.frames), old(k.objs), k.pf.frames, k.objs)
    decreases o, |k.objs[o].respages|, 4
  {
    hide MemOk, LinksOf, ExtOf, Conserved, Freeable;
    ghost var links, ext, objs := LinksOf(k.objs), ExtOf(k.objs), k.objs;
    ghost var left := Drop(ext, links, o).Keys;
    var below;
    ok, below := FreeObject(k, o, refs);
    assert o !in left;
    if !ok {
      return;
    }
    ExtKeys(objs);
    FreeingNext(objs, left, o);
    if below.Some? {
      DropPasses(links, ext, o, below.value);
      ok := Put(k, below.value, Handed(links, refs, o));
      assert Handed(links, refs, o) - multiset{below.value} == refs - multiset{o};
    } else {
      assert Handed(links, refs, o) == refs - multiset{o};
    }
  }

  lemma ExtKeys(objs: Objs)
    ensures ExtOf(objs).Keys == objs.Keys
  {
  }

  lemma ChainsDescend(objs: Objs, next: ObjId)
    requires ObjsOk(objs, next)
    ensures Descending(LinksOf(objs)) && LinksOf(objs).Keys == objs.Keys
    ensures forall o :: o in objs ==> LinksOf(objs)[o] == objs[o].shadowed
  {
  }

  /** What survives a put is as before. */
  lemma {:induction false} SurvivesAlike(t: FrameTable, objs: Objs, resident: Index, t': FrameTable, objs': Objs,
                                         resident': Index, next: ObjId, x: ObjId)
    requires FramesOk(t, objs, resident) && FramesOk(t', objs', resident') && ObjsOk(objs, next) && ObjsOk(objs', next)
    requires Survives(t.frames, objs, t'.frames, objs') && x in objs'
    ensures Alike(Mem(LinksOf(objs), ContentsOf(t.frames, resident)), x,
                  Mem(LinksOf(objs'), ContentsOf(t'.frames, resident')), x)
    decreases x
  {
    hide FramesOk, ObjsOk, LinksOf, ContentsOf;
    LinksAt(objs, next, x);
    LinksAt(objs', next, x);
    forall q: nat
      ensures var c, c' := ContentsOf(t.frames, resident), ContentsOf(t'.frames, resident');
        ((x, q) in c' <==> (x, q) in c) && ((x, q) in c ==> c'[(x, q)] == c[(x, q)])
    {
      SurvivesPage(t, objs, resident, t', objs', resident', x, q);
    }
    var m := Mem(LinksOf(objs), ContentsOf(t.frames, resident));
    var m' := Mem(LinksOf(objs'), ContentsOf(t'.frames, resident'));
    if objs'[x].shadowed.Some? {
      var p := objs'[x].shadowed.value;
      SurvivesAlike(t, objs, resident, t', objs', resident', next, p);
      forall q
        ensures ReadIn(m', x, q) == ReadIn(m, x, q) && HeldIn(m', x, q) == HeldIn(m, x, q)
      {
        assert ReadIn(m', p, q) == ReadIn(m, p, q) && HeldIn(m', p, q) == HeldIn(m, p, q);
      }
    }
  }

  lemma SurvivesPage(t: FrameTable, objs: Objs, resident: Index, t': FrameTable, objs': Objs, resident': Index,
                     x: ObjId, q: nat)
    requires FramesOk(t, objs, resident) && FramesOk(t', objs', resident')
    requires Survives(t.frames, objs, t'.frames, objs') && x in objs'
    ensures var c, c' := ContentsOf(t.frames, resident), ContentsOf(t'.frames, resident');
      ((x, q) in c' <==> (x, q) in c) && ((x, q) in c ==> c'[(x, q)] == c[(x, q)])
  {
  }

  // ---------------------------------------------------------------------------------------------
  // Creating objects and taking references

  lemma NewObject(t: FrameTable, objs: Objs, resident: Index, next: ObjId, obj: MmObj)
    requires FramesOk(t, objs, resident) && ObjsOk(objs, next) && Quiet(t.frames, objs)
    requires obj.refcount == 1 && obj.nrespages == 0 && obj.respages == []
    requires obj.kind == Shadow <==> obj.shadowed.Some?
    requires obj.shadowed.Some? ==> obj.shadowed.value in objs
    ensures FramesOk(t, objs[next := obj], resident) && ObjsOk(objs[next := obj], next + 1)
    ensures Quiet(t.frames, objs[next := obj]) && next !in objs
    ensures LinksOf(objs[next := obj]) == LinksOf(objs)[next := obj.shadowed]
    ensures ExtOf(objs[next := obj]) == ExtOf(objs)[next := 1]
  {
    hide HashOk, ListsOk, IndexOk, PagesListed, Quiet;
    NewObjectFrames(t, objs, resident, next, obj);
    assert LinksOf(objs[next := obj]) == LinksOf(objs)[next := obj.shadowed];
    assert ExtOf(objs[next := obj]) == ExtOf(objs)[next := 1];
  }

  lemma NewObjectFrames(t: FrameTable, objs: Objs, resident: Index, o: ObjId, obj: MmObj)
    requires FramesOk(t, objs, resident) && Quiet(t.frames, objs) && o !in objs
    requires obj.nrespages == 0 && obj.respages == []
    ensures FramesOk(t, objs[o := obj], resident) && Quiet(t.frames, objs[o := obj])
  {
    hide HashOk, ListsOk, IndexOk;
    assert PagesOf(t.frames, o) == {};
  }

  /** anon_create: the objects that were there do not change, and the new one is all zeros. */
  method AnonCreate(k: Kernel, ghost refs: multiset<ObjId>) returns (o: ObjId)
    requires MemOk(k) && Conserved(LinksOf(k.objs), ExtOf(k.objs), refs)
    modifies k`objs, k`nextObj
    ensures MemOk(k) && Conserved(LinksOf(k.objs), ExtOf(k.objs), refs + multiset{o})
    ensures o == old(k.nextObj) && o !in old(k.objs) && k.nextObj == o + 1
    ensures k.objs == old(k.objs)[o := MmObj(Anon, 1, 0, [], None, o)]
    ensures forall x :: x in old(k.objs) ==> Alike(old(MemOf(k)), x, MemOf(k), x)
    ensures forall q :: ReadNow(k, o, q) == ZeroPage()
    ensures End(LinksOf(k.objs), o) == o
  {
    hide FramesOk, ObjsOk, Quiet, LinksOf, ExtOf, ContentsOf, Conserved, Alike;
    o := k.nextObj;
    NewObject(k.pf, k.objs, k.resident, o, MmObj(Anon, 1, 0, [], None, o));
    ChainsDescend(k.objs, k.nextObj);
    NewRoot(LinksOf(k.objs), ExtOf(k.objs), refs, o);
    NoStrayPages(k.pf, k.objs, k.resident);
    k.objs := k.objs[o := MmObj(Anon, 1, 0, [], None, o)];
    k.nextObj := o + 1;
    forall x | x in old(k.objs)
      ensures Alike(old(MemOf(k)), x, MemOf(k), x)
    {
      RootAlike(old(MemOf(k)), MemOf(k), o, x);
    }
  }

  lemma RootAlike(m: Mem, m': Mem, r: ObjId, x: ObjId)
    requires Descending(m.links) && r !in m.links && x in m.links && m' == Mem(m.links[r := None], m.contents)
    ensures Alike(m, x, m', x)
  {
    FreshRootOff(m.links, m.contents, r, x, 0);
    forall q
      ensures ReadIn(m', x, q) == ReadIn(m, x, q) && HeldIn(m', x, q) == HeldIn(m, x, q)
    {
      FreshRootOff(m.links, m.contents, r, x, q);
    }
    if Bare(m.links, m.contents, x) {
      FreshBare(m.links, m.contents, r, None, x);
    }
  }

  lemma ShadowAlike(m: Mem, m': Mem, s: ObjId, p: ObjId, x: ObjId)
    requires Descending(m.links) && s !in m.links && p in m.links && p < s && x in m.links
    requires m' == Mem(m.links[s := Some(p)], m.contents)
    ensures Alike(m, x, m', x)
  {
    FreshShadowEnd(m.links, s, p, x);
    forall q
      ensures ReadIn(m', x, q) == ReadIn(m, x, q) && HeldIn(m', x, q) == HeldIn(m, x, q)
    {
      FreshShadowOff(m.links, m.contents, s, p, x, q);
    }
    if Bare(m.links, m.contents, x) {
      FreshBare(m.links, m.contents, s, Some(p), x);
    }
  }

  lemma TopAlike(m: Mem, m': Mem, s: ObjId, p: ObjId)
    requires Descending(m.links) && s !in m.links && p in m.links && p < s
    requires m' == Mem(m.links[s := Some(p)], m.contents) && forall key :: key in m.contents ==> key.0 in m.links
    ensures Alike(m, p, m', s)
  {
    FreshShadowEnd(m.links, s, p, p);
    forall q
      ensures ReadIn(m', s, q) == ReadIn(m, p, q) && HeldIn(m', s, q) == HeldIn(m, p, q)
    {
      FreshShadow(m.links, m.contents, s, p, p, q);
    }
    if Bare(m.links, m.contents, p) {
      FreshBare(m.links, m.contents, s, Some(p), p);
    }
  }

  lemma NoStrayPages(t: FrameTable, objs: Objs, resident: Index)
    requires FramesOk(t, objs, resident)
    ensures forall key :: key in ContentsOf(t.frames, resident) ==> key.0 in objs
  {
  }

  /**
   * shadow_create with mmo_shadowed and mmo_bottom_obj set: the new shadow takes over one
   * reference to `p`, and its own reference goes to the caller.
   */
  method PushShadow(k: Kernel, p: ObjId, bottom: ObjId, ghost refs: multiset<ObjId>) returns (s: ObjId)
    requires MemOk(k) && Conserved(LinksOf(k.objs), ExtOf(k.objs), refs) && p in refs && p in k.objs
    modifies k`objs, k`nextObj
    ensures MemOk(k) && Conserved(LinksOf(k.objs), ExtOf(k.objs), refs - multiset{p} + multiset{s})
    ensures s == old(k.nextObj) && s !in old(k.objs) && k.nextObj == s + 1
    ensures k.objs == old(k.objs)[s := MmObj(Shadow, 1, 0, [], Some(p), bottom)]
    ensures forall x :: x in old(k.objs) ==> Alike(old(MemOf(k)), x, MemOf(k), x)
    ensures Alike(old(MemOf(k)), p, MemOf(k), s)
  {
    hide FramesOk, ObjsOk, Quiet, LinksOf, ExtOf, ContentsOf, Conserved, Alike;
    s := k.nextObj;
    var obj := MmObj(Shadow, 1, 0, [], Some(p), bottom);
    NewObject(k.pf, k.objs, k.resident, s, obj);
    ChainsDescend(k.objs, k.nextObj);
    LinksBelowNext(k.objs, k.nextObj);
    PushConserves(LinksOf(k.objs), ExtOf(k.objs), refs, s, p);
    NoStrayPages(k.pf, k.objs, k.resident);
    k.objs := k.objs[s := obj];
    k.nextObj := s + 1;
    forall x | x in old(k.objs)
      ensures Alike(old(MemOf(k)), x, MemOf(k), x)
    {
      ShadowAlike(old(MemOf(k)), MemOf(k), s, p, x);
    }
    TopAlike(old(MemOf(k)), MemOf(k), s, p);
  }

  lemma LinksBelowNext(objs: Objs, next: ObjId)
    requires ObjsOk(objs, next)
    ensures forall o :: o in objs ==> o < next
  {
  }

  /** shadow_ref and anon_ref. */
  method Ref(k: Kernel, o: ObjId, ghost refs: multiset<ObjId>)
    requires MemOk(k) && Conserved(LinksOf(k.objs), ExtOf(k.objs), refs) && o in k.objs
    modifies k`objs
    ensures MemOk(k) && Conserved(LinksOf(k.objs), ExtOf(k.objs), refs + multiset{o})
    ensures k.objs == old(k.objs)[o := old(k.objs)[o].(refcount := old(k.objs)[o].refcount + 1)]
    ensures MemOf(k) == old(MemOf(k))
  {
    hide FramesOk, ObjsOk, Quiet, LinksOf, ExtOf, Conserved;
    var obj := k.objs[o].(refcount := k.objs[o].refcount + 1);
    RefcountOnly(k.pf, k.objs, k.resident, o, obj.refcount);
    Recounted(k.objs, k.nextObj, o, obj);
    ExtAt(k.objs, refs, o);
    TakeRef(LinksOf(k.objs), ExtOf(k.objs), refs, o);
    k.objs := k.objs[o := obj];
  }
}
