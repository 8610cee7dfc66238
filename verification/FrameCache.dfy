/** The page-frame cache: hash chains, the allocated and pinned lists, and their counters. */
module FrameCache {
  import opened Lists
  import opened Chains
  import opened VmState

  /** Changing a frame's flags, pins or bytes moves it between no hash chains and no objects. */
  lemma SameIdentity(frames: Frames, frames': Frames, hash: seq<seq<FrameId>>, objs: Objs, resident: Index)
    requires frames'.Keys == frames.Keys
    requires forall f :: f in frames ==> KeyOf(frames'[f]) == KeyOf(frames[f])
    requires HashOk(frames, hash) && IndexOk(frames, resident) && PagesListed(frames, objs)
    ensures HashOk(frames', hash) && IndexOk(frames', resident) && PagesListed(frames', objs)
  {
    forall h | 0 <= h < |hash|
      ensures InBucket(frames', |hash|, h) == InBucket(frames, |hash|, h)
    {
    }
    forall o
      ensures PagesOf(frames', o) == PagesOf(frames, o)
    {
    }
  }

  lemma ListsSame(t: FrameTable, frames': Frames)
    requires ListsOk(t) && frames'.Keys == t.frames.Keys
    requires forall f :: f in frames' ==> frames'[f].pincount == t.frames[f].pincount
    ensures ListsOk(t.(frames := frames'))
  {
  }

  /** An unpinned frame moved to the back of the allocated list. */
  function Touched(t: FrameTable, f: FrameId): (t': FrameTable) {
    t.(allocList := Unlink(t.allocList, f) + [f])
  }

  lemma ListsTouched(t: FrameTable, f: FrameId)
    requires ListsOk(t) && f in t.frames && t.frames[f].pincount == 0
    ensures ListsOk(Touched(t, f))
  {
    var S := Unpinned(t.frames);
    UnlinkMember(t.allocList, S, f);
    EnumerationLength(t.allocList, S);
    LinkTail(Unlink(t.allocList, f), S - {f}, f);
    assert S - {f} + {f} == S;
  }

  lemma ChainHolds(t: FrameTable, resident: Index, o: ObjId, pn: nat)
    requires HashOk(t.frames, t.hash) && IndexOk(t.frames, resident)
    ensures |t.hash| > 0
    ensures var chain := t.hash[Bucket(o, pn, |t.hash|)];
      && (forall i :: 0 <= i < |chain| ==> chain[i] in t.frames)
      && ((o, pn) in resident ==> resident[(o, pn)] in chain)
  {
    var h := Bucket(o, pn, |t.hash|);
    var S := InBucket(t.frames, |t.hash|, h);
    EnumerationLength(t.hash[h], S);
    forall i | 0 <= i < |t.hash[h]|
      ensures t.hash[h][i] in t.frames
    {
      assert t.hash[h][i] in S;
    }
    if (o, pn) in resident {
      assert resident[(o, pn)] in S;
    }
  }

  /** pframe_get_resident: the one frame of (o, pn), sent to the back of the allocated list. */
  method GetResident(k: Kernel, o: ObjId, pn: nat) returns (r: Option<FrameId>)
    requires FramesOk(k.pf, k.objs, k.resident)
    modifies k`pf
    ensures FramesOk(k.pf, k.objs, k.resident)
    ensures r == if (o, pn) in k.resident then Some(k.resident[(o, pn)]) else None
    ensures r.Some? ==> r.value in old(k.pf.frames)
    ensures k.pf == old(k.pf).(allocList :=
      if r.Some? && old(k.pf.frames)[r.value].pincount == 0 then Unlink(old(k.pf.allocList), r.value) + [r.value]
      else old(k.pf.allocList))
  {
    hide HashOk, ListsOk, PagesListed;
    ChainHolds(k.pf, k.resident, o, pn);
    var chain := k.pf.hash[Bucket(o, pn, |k.pf.hash|)];
    var i := 0;
    while i < |chain|
      invariant 0 <= i <= |chain|
      invariant k.pf == old(k.pf)
      invariant forall j :: 0 <= j < i ==> KeyOf(k.pf.frames[chain[j]]) != (o, pn)
    {
      var f := chain[i];
      var fr := k.pf.frames[f];
      if fr.obj == o && fr.pagenum == pn {
        if fr.pincount == 0 {
          ListsTouched(k.pf, f);
          k.pf := k.pf.(allocList := Unlink(k.pf.allocList, f));
          k.pf := k.pf.(allocList := k.pf.allocList + [f]);
        }
        return Some(f);
      }
      i := i + 1;
    }
    r := None;
  }

  /** The state pframe_alloc leaves for a new frame `f` of page `pn` of `o`. */
  ghost function Allocated(t: FrameTable, o: ObjId, pn: nat, garbage: Page): (t': FrameTable)
    requires |t.hash| > 0
  {
    var f := t.next;
    var h := Bucket(o, pn, |t.hash|);
    t.(frames := t.frames[f := PFrame(o, pn, 0, false, false, garbage)],
       allocList := t.allocList + [f], nallocated := t.nallocated + 1,
       hash := t.hash[h := [f] + t.hash[h]], next := f + 1)
  }

  /** The object after it gains the resident page `f` and the reference that page holds. */
  function WithPage(obj: MmObj, f: FrameId): (r: MmObj) {
    obj.(refcount := obj.refcount + 1, nrespages := obj.nrespages + 1, respages := [f] + obj.respages)
  }

  /** Linking a frame into its hash chain. */
  lemma LinkHash(frames: Frames, hash: seq<seq<FrameId>>, f: FrameId, fr: PFrame)
    requires HashOk(frames, hash) && f !in frames
    ensures var b := Bucket(fr.obj, fr.pagenum, |hash|); HashOk(frames[f := fr], hash[b := [f] + hash[b]])
  {
  }

  lemma AllocLists(t: FrameTable, o: ObjId, pn: nat, garbage: Page)
    requires |t.hash| > 0 && ListsOk(t)
    ensures ListsOk(Allocated(t, o, pn, garbage))
  {
  }

  /** Linking a frame into the page list of its object. */
  lemma LinkPages(frames: Frames, objs: Objs, f: FrameId, fr: PFrame)
    requires PagesListed(frames, objs) && f !in frames && fr.obj in objs
    ensures PagesListed(frames[f := fr], objs[fr.obj := WithPage(objs[fr.obj], f)])
  {
    var o, frames' := fr.obj, frames[f := fr];
    var objs' := objs[o := WithPage(objs[o], f)];
    forall x | x in objs'
      ensures Enumerates(objs'[x].respages, PagesOf(frames', x)) && objs'[x].nrespages == |objs'[x].respages|
    {
      if x == o {
        assert PagesOf(frames', x) == PagesOf(frames, x) + {f};
        LinkHead(objs[o].respages, PagesOf(frames, o), f);
      } else {
        assert PagesOf(frames', x) == PagesOf(frames, x);
      }
    }
  }

  lemma NewFrame(t: FrameTable, resident: Index, o: ObjId, pn: nat, fr: PFrame)
    requires HashOk(t.frames, t.hash) && ListsOk(t) && IndexOk(t.frames, resident) && (o, pn) !in resident
    requires KeyOf(fr) == (o, pn)
    ensures |t.hash| > 0 && t.next !in t.frames && IndexOk(t.frames[t.next := fr], resident[(o, pn) := t.next])
  {
  }

  /** pframe_alloc: a new frame, linked into every list, holding one reference on its object. */
  method AllocFrame(k: Kernel, o: ObjId, pn: nat, garbage: Page) returns (f: FrameId)
    requires FramesOk(k.pf, k.objs, k.resident)
    requires o in k.objs && (o, pn) !in k.resident
    modifies k`pf, k`objs, k`resident
    ensures FramesOk(k.pf, k.objs, k.resident)
    ensures f == old(k.pf.next) && f !in old(k.pf.frames)
    ensures k.pf.frames == old(k.pf.frames)[f := PFrame(o, pn, 0, false, false, garbage)]
    ensures k.resident == old(k.resident)[(o, pn) := f]
    ensures k.objs == old(k.objs)[o := WithPage(old(k.objs[o]), f)]
    ensures k.pf.allocList == old(k.pf.allocList) + [f] && k.objs[o].respages == [f] + old(k.objs[o]).respages
  {
    hide HashOk, ListsOk, IndexOk, PagesListed;
    ghost var fr := PFrame(o, pn, 0, false, false, garbage);
    NewFrame(k.pf, k.resident, o, pn, fr);
    LinkHash(k.pf.frames, k.pf.hash, k.pf.next, fr);
    LinkPages(k.pf.frames, k.objs, k.pf.next, fr);
    AllocLists(k.pf, o, pn, garbage);
    f := k.pf.next;
    k.pf := k.pf.(next := f + 1);
    k.pf := k.pf.(nallocated := k.pf.nallocated + 1, allocList := k.pf.allocList + [f]);
    k.pf := k.pf.(frames := k.pf.frames[f := PFrame(o, pn, 0, false, false, garbage)]);
    var h := Bucket(o, pn, |k.pf.hash|);
    k.pf := k.pf.(hash := k.pf.hash[h := [f] + k.pf.hash[h]]);
    var obj := k.objs[o];
    obj := obj.(refcount := obj.refcount + 1);
    obj := obj.(nrespages := obj.nrespages + 1);
    obj := obj.(respages := [f] + obj.respages);
    k.objs := k.objs[o := obj];
    k.resident := k.resident[(o, pn) := f];
  }

  function WithPins(t: FrameTable, f: FrameId, pins: int): (frames: Frames)
    requires f in t.frames
  {
    t.frames[f := t.frames[f].(pincount := pins)]
  }

  /** The table after pframe_pin. */
  function PinnedTable(t: FrameTable, f: FrameId): (t': FrameTable)
    requires f in t.frames
  {
    var n := t.frames[f].pincount;
    var u := if n != 0 then t else
      t.(allocList := Unlink(t.allocList, f), pinnedList := t.pinnedList + [f],
         nallocated := t.nallocated - 1, npinned := t.npinned + 1);
    u.(frames := WithPins(t, f, n + 1))
  }

  /** The table after pframe_unpin. */
  function UnpinnedTable(t: FrameTable, f: FrameId): (t': FrameTable)
    requires f in t.frames
  {
    var n := t.frames[f].pincount;
    var u := if n != 1 then t else
      t.(pinnedList := Unlink(t.pinnedList, f), allocList := t.allocList + [f],
         nallocated := t.nallocated + 1, npinned := t.npinned - 1);
    u.(frames := WithPins(t, f, n - 1))
  }

  lemma ListsPin(t: FrameTable, f: FrameId)
    requires ListsOk(t) && f in t.frames
    ensures ListsOk(PinnedTable(t, f))
  {
    hide Enumerates, Unlink;
    var n := t.frames[f].pincount;
    var frames' := WithPins(t, f, n + 1);
    if n == 0 {
      UnlinkMember(t.allocList, Unpinned(t.frames), f);
      EnumerationLength(t.allocList, Unpinned(t.frames));
      LinkTail(t.pinnedList, Pinned(t.frames), f);
      assert Unpinned(frames') == Unpinned(t.frames) - {f};
      assert Pinned(frames') == Pinned(t.frames) + {f};
    } else {
      assert Unpinned(frames') == Unpinned(t.frames);
      assert Pinned(frames') == Pinned(t.frames);
    }
  }

  lemma ListsUnpin(t: FrameTable, f: FrameId)
    requires ListsOk(t) && f in t.frames && t.frames[f].pincount > 0
    ensures ListsOk(UnpinnedTable(t, f))
  {
    hide Enumerates, Unlink;
    var n := t.frames[f].pincount;
    var frames' := WithPins(t, f, n - 1);
    if n == 1 {
      UnlinkMember(t.pinnedList, Pinned(t.frames), f);
      EnumerationLength(t.pinnedList, Pinned(t.frames));
      LinkTail(t.allocList, Unpinned(t.frames), f);
      assert Pinned(frames') == Pinned(t.frames) - {f};
      assert Unpinned(frames') == Unpinned(t.frames) + {f};
    } else {
      assert Unpinned(frames') == Unpinned(t.frames);
      assert Pinned(frames') == Pinned(t.frames);
    }
  }

  /** pframe_pin. */
  method Pin(k: Kernel, f: FrameId)
    requires FramesOk(k.pf, k.objs, k.resident) && f in k.pf.frames
    modifies k`pf
    ensures FramesOk(k.pf, k.objs, k.resident)
    ensures k.pf == PinnedTable(old(k.pf), f)
    ensures k.pf.frames == old(k.pf.frames)[f := old(k.pf.frames[f]).(pincount := old(k.pf.frames[f]).pincount + 1)]
    ensures old(k.pf.frames[f]).pincount == 0 ==>
      k.pf.pinnedList == old(k.pf.pinnedList) + [f] && k.pf.allocList == Unlink(old(k.pf.allocList), f)
  {
    hide HashOk, ListsOk, IndexOk, PagesListed;
    ListsPin(k.pf, f);
    var n := k.pf.frames[f].pincount;
    var frames' := k.pf.frames[f := k.pf.frames[f].(pincount := n + 1)];
    SameIdentity(k.pf.frames, frames', k.pf.hash, k.objs, k.resident);
    if n == 0 {
      k.pf := k.pf.(allocList := Unlink(k.pf.allocList, f));
      k.pf := k.pf.(pinnedList := k.pf.pinnedList + [f]);
      k.pf := k.pf.(nallocated := k.pf.nallocated - 1, npinned := k.pf.npinned + 1);
    }
    k.pf := k.pf.(frames := frames');
  }

  /** pframe_unpin; the C assertion that the frame is pinned is the second precondition. */
  method Unpin(k: Kernel, f: FrameId)
    requires FramesOk(k.pf, k.objs, k.resident) && f in k.pf.frames
    requires k.pf.frames[f].pincount > 0
    modifies k`pf
    ensures FramesOk(k.pf, k.objs, k.resident)
    ensures k.pf == UnpinnedTable(old(k.pf), f)
    ensures k.pf.frames == old(k.pf.frames)[f := old(k.pf.frames[f]).(pincount := old(k.pf.frames[f]).pincount - 1)]
    ensures old(k.pf.frames[f]).pincount == 1 ==>
      k.pf.allocList == old(k.pf.allocList) + [f] && k.pf.pinnedList == Unlink(old(k.pf.pinnedList), f)
  {
    hide HashOk, ListsOk, IndexOk, PagesListed;
    ListsUnpin(k.pf, f);
    var n := k.pf.frames[f].pincount - 1;
    var frames' := k.pf.frames[f := k.pf.frames[f].(pincount := n)];
    SameIdentity(k.pf.frames, frames', k.pf.hash, k.objs, k.resident);
    if n == 0 {
      k.pf := k.pf.(pinnedList := Unlink(k.pf.pinnedList, f));
      k.pf := k.pf.(allocList := k.pf.allocList + [f]);
      k.pf := k.pf.(nallocated := k.pf.nallocated + 1, npinned := k.pf.npinned - 1);
    }
    k.pf := k.pf.(frames := frames');
  }

  /** Sets the dirty and busy bits and the bytes of a frame. */
  method SetFrame(k: Kernel, f: FrameId, dirty: bool, busy: bool, data: Page)
    requires FramesOk(k.pf, k.objs, k.resident) && f in k.pf.frames
    modifies k`pf
    ensures FramesOk(k.pf, k.objs, k.resident)
    ensures k.pf ==
      old(k.pf).(frames := old(k.pf.frames)[f := old(k.pf.frames[f]).(dirty := dirty, busy := busy, data := data)])
  {
    hide HashOk, ListsOk, IndexOk, PagesListed;
    var frames' := k.pf.frames[f := k.pf.frames[f].(dirty := dirty, busy := busy, data := data)];
    SameIdentity(k.pf.frames, frames', k.pf.hash, k.objs, k.resident);
    ListsSame(k.pf, frames');
    k.pf := k.pf.(frames := frames');
  }
}
