/** What growing the program break shows. */
module Breaks {
  import opened Lists
  import opened Chains
  import opened VmState
  import opened AreaList
  import opened AddressSpace
  import opened Removal
  import opened Mapping
  import Spec = EagerCopy
  import opened EagerCopy
  import Code = CopyOnWrite
  import opened CopyOnWrite
  import opened MemorySteps
  import opened Sharing
  import opened AfterSplit

  /** A page with other bytes than zeros is resident where growth would show page `pn`. */
  ghost predicate Stale(m: Mem, a: VmArea, pn: nat)
    requires a.start <= pn
  {
    var q := pn - a.start + a.off; HeldIn(m, a.obj, q) && ReadIn(m, a.obj, q) != ZeroPage()
  }

  /** Growth shows zeros exactly when no such page is resident. */
  lemma ShowsZeros(m: Mem, areas: Areas, begin: nat, end: nat)
    requires 0 < begin <= end && At(areas, begin - 1).Some?
    ensures var a := At(areas, begin - 1).value;
      (forall i :: 0 <= i < end - begin ==> Revealed(m, areas, begin, end)[i] == ZeroPage())
      <==> (forall pn: nat :: begin <= pn < end ==> !Stale(m, a, pn))
  {
    hide HeldIn, ReadIn;
    var a, pages := At(areas, begin - 1).value, Revealed(m, areas, begin, end);
    forall pn: nat | begin <= pn < end
      ensures pages[pn - begin] == ZeroPage() <==> !Stale(m, a, pn)
    {
      NotHeld(m, a.obj, pn - a.start + a.off);
    }
    if forall i :: 0 <= i < end - begin ==> pages[i] == ZeroPage() {
      forall pn: nat | begin <= pn < end
        ensures !Stale(m, a, pn)
      {
        assert pages[pn - begin] == ZeroPage();
      }
    } else {
      var i :| 0 <= i < end - begin && pages[i] != ZeroPage();
      assert Stale(m, a, begin + i);
    }
  }

  lemma NotHeld(m: Mem, o: ObjId, q: nat)
    ensures !HeldIn(m, o, q) ==> ReadIn(m, o, q) == ZeroPage()
  {
    if !HeldIn(m, o, q) {
      ReadNonResident(m.links, m.contents, o, q);
    }
  }

  lemma TrimMisses(areas: Areas, low: nat, high: nat, a: VmArea, end: nat, begin: nat)
    requires SpaceOk(areas, low, high) && a in areas && a.start < end < begin == a.end
    ensures forall b :: b in areas ==> !SplitBy(b, end, begin) && !CoveredBy(b, end, begin)
  {
  }

  /** A shrink that cuts the end off one area takes nothing else. */
  lemma TrimIsRemovable(k: Kernel, p: nat, a: VmArea, end: nat, begin: nat)
    requires VmOk(k) && p < |k.spaces| && a in k.spaces[p] && a.start < end < begin == a.end
    ensures Removable(k.objs, k.spaces, p, end, begin) && NoSplit(k.spaces[p], end, begin)
  {
    hide HoldsRefs, HasList, Freeable, Reached, AllRefs, LinksOf, Conserved, ExtOf, ObjsOk, Rooted, SpaceOk, SplitBy,
      CoveredBy, Uncovered;
    StartFacts(k, p);
    TrimMisses(k.spaces[p], k.low, k.high, a, end, begin);
    NoneCovered(k.spaces[p], end, begin);
    assert k.spaces[p := k.spaces[p]] == k.spaces;
    forall x | x in k.objs
      ensures Reached(LinksOf(k.objs), AllRefs(k.spaces), x)
    {
      Alive(k.objs, k.nextObj, AllRefs(k.spaces), x);
    }
  }

  /** The area with its end moved back shows the page that the whole area shows. */
  lemma SamePage(m: Mem, areas: Areas, low: nat, high: nat, i: nat, m1: Mem, b: VmArea, begin: nat, pn: nat)
    requires SpaceOk(areas, low, high) && i < |areas| && Covers(areas[i], pn) && SubArea(areas[i], b)
    requires b.start < b.end <= pn < begin && Alike(m, areas[i].obj, m1, areas[i].obj)
    ensures ViewIn(m1, [b.(end := begin)], pn) == ViewIn(m, areas, pn)
  {
    hide HeldIn, Bare, ReadIn, End, SpaceOk;
    AtUnique(areas, low, high, i, pn);
    assert At([b.(end := begin)], pn) == Some(b.(end := begin));
  }

  /** What was cut off the area comes back as it was. */
  lemma CameBack(m: Mem, areas: Areas, m1: Mem, areas1: Areas, areas2: Areas, low: nat, high: nat, a: VmArea, b: VmArea,
                 end: nat, begin: nat)
    requires SpaceOk(areas, low, high) && a in areas && a.start < end < begin == a.end
    requires Cut(m, areas, m1, areas1, end, begin) && SameTops(areas, areas1) && SpaceOk(areas1, low, high)
    requires Grew(m1, areas1, areas2, b, end, begin) && Alike(m, a.obj, m1, a.obj)
    ensures forall pn: nat :: ViewIn(m1, areas2, pn) == ViewIn(m, areas, pn)
  {
    hide Alike, ViewIn;
    var c :| c in areas && SubArea(c, b);
    SameAreaAt(areas, low, high, a, c, areas1, b, end);
    var i :| 0 <= i < |areas| && areas[i] == a;
    forall pn: nat
      ensures ViewIn(m1, areas2, pn) == ViewIn(m, areas, pn)
    {
      if end <= pn < begin {
        SamePage(m, areas, low, high, i, m1, b, begin, pn);
      }
    }
  }

  lemma SameAreaAt(areas: Areas, low: nat, high: nat, a: VmArea, c: VmArea, areas1: Areas, b: VmArea, end: nat)
    requires SpaceOk(areas, low, high) && a in areas && c in areas && a.start < end < a.end
    requires SpaceOk(areas1, low, high) && b in areas1 && b.end == end && SubArea(c, b)
    ensures c == a
  {
  }

  lemma DownFacts(areas: Areas, high: nat, brk: nat, startBrk: nat, addr: nat)
    requires startBrk <= addr < brk <= high * PAGE_SIZE && addr > 0 && PageAbove(addr) < PageAbove(brk)
    ensures !BrkRefused(areas, high, brk, startBrk, addr) && Shrinks(high, brk, startBrk, addr)
    ensures NoSplit(areas, PageAbove(addr), PageAbove(brk)) ==> BrkKeepsObjects(areas, high, brk, startBrk, addr)
  {
  }

  lemma UpFacts(areas: Areas, high: nat, brk: nat, startBrk: nat, addr: nat)
    requires startBrk <= brk < addr <= high * PAGE_SIZE && brk > 0 && PageAbove(brk) < PageAbove(addr)
    requires RangeFree(areas, PageAbove(brk), PageAbove(addr) - PageAbove(brk))
    ensures !BrkRefused(areas, high, brk, startBrk, addr) && !Shrinks(high, brk, startBrk, addr)
  {
  }

  lemma FreeAt(areas: Areas, lo: nat, hi: nat)
    requires lo <= hi && RangeFree(areas, lo, hi - lo)
    ensures forall pn: nat :: lo <= pn < hi ==> At(areas, pn).None?
  {
  }

  /** The area is still there below the cut, over the same object. */
  lemma StillThere(m: Mem, areas: Areas, m1: Mem, areas1: Areas, low: nat, high: nat, a: VmArea, end: nat, begin: nat)
    requires SpaceOk(areas, low, high) && a in areas && a.start < end < begin == a.end
    requires Cut(m, areas, m1, areas1, end, begin) && SameTops(areas, areas1)
    ensures At(areas1, end - 1).Some? && exists b :: b in areas1 && b.obj == a.obj
  {
    hide ReadIn, End;
    var i :| 0 <= i < |areas| && areas[i] == a;
    AtUnique(areas, low, high, i, end - 1);
    assert ViewIn(m1, areas1, end - 1) == ViewIn(m, areas, end - 1);
    var b := At(areas1, end - 1).value;
    var c :| c in areas && SubArea(c, b);
    var j :| 0 <= j < |areas| && areas[j] == c;
    assert j == i;
  }

  lemma KeptThere(k: Kernel, objs: Objs, next: ObjId, m: Mem, p: nat, a: VmArea)
    requires VmOk(k) && p < |k.spaces| && KeptTo(objs, next, m, k.objs, k.nextObj, MemOf(k)) && a.obj in objs
    requires exists b :: b in k.spaces[p] && b.obj == a.obj
    ensures Alike(m, a.obj, MemOf(k), a.obj)
  {
    hide HoldsRefs, Alike, AllRefs;
    HeldAreLive(k, multiset{});
  }

  /**
   * Down and up again: a heap that shrinks within its area and grows back shows the bytes it had,
   * whatever they are, so growing shows zeros only where there were zeros.
   */
  method ShrinkThenGrow(k: Kernel, p: nat, brk: nat, startBrk: nat, addr: nat, ghost a: VmArea)
    returns (ghost down: Areas)
    requires VmOk(k) && p < |k.spaces| && k.low * PAGE_SIZE <= startBrk <= addr < brk <= k.high * PAGE_SIZE && addr > 0
    requires a in k.spaces[p] && a.start < PageAbove(addr) < PageAbove(brk) == a.end
    modifies k`pf, k`objs, k`resident, k`nextObj, k`spaces
    ensures VmOk(k) && |k.spaces| == |old(k.spaces)| && OthersSame(old(MemOf(k)), MemOf(k), old(k.spaces), k.spaces, p)
    ensures forall pn: nat :: PageAbove(addr) <= pn < PageAbove(brk) ==> At(down, pn).None?
    ensures forall pn: nat :: ViewIn(MemOf(k), k.spaces[p], pn) == ViewIn(old(MemOf(k)), old(k.spaces)[p], pn)
  {
    hide HoldsRefs, MemOf, ViewIn, Cut, Grew, OthersSame, AllRefs, KeptTo, SameTops, SpaceOk, NoSplit, Removable,
      Alike, PageAbove, RangeFree, At;
    ghost var m, objs, next, areas := MemOf(k), k.objs, k.nextObj, k.spaces[p];
    var end, begin := PageAbove(addr), PageAbove(brk);
    SpaceIsOk(k, p);
    HeldAreLive(k, multiset{});
    TrimIsRemovable(k, p, a, end, begin);
    DownFacts(k.spaces[p], k.high, brk, startBrk, addr);
    var r, brk' := Brk(k, p, brk, startBrk, addr);
    ghost var m1, areas1, spaces1 := MemOf(k), k.spaces[p], k.spaces;
    down := areas1;
    SpaceIsOk(k, p);
    CutIsFree(m, areas, m1, areas1, end, begin - end);
    FreeAt(areas1, end, begin);
    StillThere(m, areas, m1, areas1, k.low, k.high, a, end, begin);
    KeptThere(k, objs, next, m, p, a);
    UpFacts(areas1, k.high, addr, startBrk, brk);
    var r', brk'' := Brk(k, p, addr, startBrk, brk);
    ghost var b :| Grew(m1, areas1, k.spaces[p], b, end, begin) && MemOf(k) == m1;
    CameBack(m, areas, m1, areas1, k.spaces[p], k.low, k.high, a, b, end, begin);
    OthersTransitive(m, m1, MemOf(k), old(k.spaces), spaces1, k.spaces, p);
  }

  /** The page that has been stored to is seen in its area. */
  lemma StoredView(k: Kernel, e: Eager, bytes: seq<nat>)
    requires Ready(k) && |k.spaces| == 1 && ThreeZeros(e) && MeaningOf(k) == Spec.Store(e, 0, 3, 0, bytes)
    requires 0 < |bytes| <= PAGE_SIZE
    ensures var v := ViewIn(MemOf(k), k.spaces[0], 3); v.Some? && v.value.contents[0] == bytes[0]
  {
    hide HoldsRefs, Apart, ReadIn, End, At, ZeroPage;
    CellAt(MemOf(k), k.spaces, 0, 3);
  }

  /**
   * A run from boot: store a 1, move the break down a page and up again, and the page that growth
   * brings into view still holds the 1.
   */
  method RegrownHeap() returns (k: Kernel)
    ensures VmOk(k) && |k.spaces| == 1
    ensures var v := ViewIn(MemOf(k), k.spaces[0], 3); v.Some? && v.value.contents[0] == 1
  {
    hide HoldsRefs, Apart, MemOf, Meaning, ThreeZeros, ViewIn, Unsplit, ZeroPage, SafeAt, OthersSame, At, Spec.Store;
    k := BootMapped();
    ghost var e, a := MeaningOf(k), k.spaces[0][0];
    UnsplitSafeAt(k, 0, 3);
    var r := Code.Store(k, 0, 3, 0, [1], ZeroPage());
    StoredView(k, e, [1]);
    assert a in k.spaces[0];
    ghost var down := ShrinkThenGrow(k, 0, 4 * PAGE_SIZE, PAGE_SIZE, 3 * PAGE_SIZE, a);
  }
}
