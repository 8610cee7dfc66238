/** Mapping, unmapping, the break, and exit refine the eager machine. */
module MemorySteps {
  import opened Lists
  import opened Chains
  import opened VmState
  import opened PageLookup
  import opened Objects
  import opened AreaList
  import opened AddressSpace
  import opened Removal
  import opened Sharing
  import opened Mapping
  import opened Upkeep
  import Spec = EagerCopy
  import opened EagerCopy
  import opened CopyOnWrite
  import ForkSpace
  import opened EagerRuns

  // ---------------------------------------------------------------------------------------------
  // Unmapping and exit

  lemma CutShows(m: Mem, spaces: seq<Areas>, m': Mem, spaces': seq<Areas>, p: nat, lo: nat, hi: nat)
    requires p < |spaces| == |spaces'| && OthersSame(m, m', spaces, spaces', p)
    requires Cut(m, spaces[p], m', spaces'[p], lo, hi)
    requires Apart(m, spaces)
    ensures Apart(m', spaces')
  {
    hide ViewIn, Apart;
    forall r, pn: nat | 0 <= r < |spaces'| && ViewIn(m', spaces'[r], pn).Some?
      ensures exists s, qn: nat :: 0 <= s < |spaces| && LikeView(ViewIn(m', spaces'[r], pn), ViewIn(m, spaces[s], qn))
    {
      if r != p {
        assert SameViews(m, m', spaces[r]);
      }
      assert LikeView(ViewIn(m', spaces'[r], pn), ViewIn(m, spaces[r], pn));
    }
    ApartKept(m, spaces, m', spaces');
  }

  lemma CutNamed(k: Kernel, objs: Objs, m: Mem, spaces: seq<Areas>, p: nat, lo: nat, hi: nat)
    requires VmOk(k) && p < |spaces| == |k.spaces| && OthersSame(m, MemOf(k), spaces, k.spaces, p)
    requires Cut(m, spaces[p], MemOf(k), k.spaces[p], lo, hi)
    requires forall o :: Names(SpacesOf(m, spaces), o) ==> o in objs
    requires forall x :: x in objs && x in k.objs ==> Alike(m, x, MemOf(k), x)
    ensures NamedSame(m, MemOf(k), SpacesOf(MemOf(k), k.spaces))
  {
    hide *;
    var cells' := SpacesOf(MemOf(k), k.spaces);
    LiveAreas(k);
    ReplacedCells(m, MemOf(k), spaces, k.spaces, p);
    CutCells(m, MemOf(k), spaces[p], k.spaces[p], lo, hi);
    forall o | Names(cells', o)
      ensures o in objs
    {
      WithoutFewer(CellsOf(m, spaces[p]), lo, hi);
      FewerNames(SpacesOf(m, spaces), p, CellsOf(MemOf(k), k.spaces[p]), o);
    }
    NamedKept(objs, m, k.objs, MemOf(k), cells');
  }

  lemma WithoutFewer(cells: Cells, lo: nat, hi: nat)
    ensures forall pn: nat :: pn in Without(cells, lo, hi) ==> pn in cells && Without(cells, lo, hi)[pn] == cells[pn]
  {
  }

  /**
   * munmap, whether or not it splits an area. After a split some area of the process leads to no
   * list, so the next fork of the process goes astray.
   */
  method UnmapRange(k: Kernel, p: nat, lo: nat, n: nat) returns (ok: bool, split: bool)
    requires Ready(k) && p < |k.spaces|
    modifies k`pf, k`objs, k`resident, k`nextObj, k`spaces
    ensures ok <==> Removable(old(k.objs), old(k.spaces), p, lo, lo + n)
    ensures ok ==>
      Ready(k) && MeaningOf(k) == Spec.Unmap(old(MeaningOf(k)), p, lo, lo + n) && |k.spaces| == |old(k.spaces)|
    ensures ok && Unsplit(old(k.objs), old(k.spaces)) && !split ==> Unsplit(k.objs, k.spaces)
    ensures split <==> !NoSplit(old(k.spaces)[p], lo, lo + n)
    ensures ok && split ==> Unlisted(k.objs, k.spaces[p])
  {
    hide HoldsRefs, MemOf, Apart, Cut, OthersSame, NoSplit, Unsplit, Meaning, Names, SpacesOf, Alike, Removable,
      Unlisted, SameTops;
    ghost var m := MemOf(k);
    LiveAreas(k);
    split := !NoSplit(k.spaces[p], lo, lo + n);
    ok := Mapping.Unmap(k, p, lo, n);
    if !ok {
      return;
    }
    CutShows(m, old(k.spaces), MemOf(k), k.spaces, p, lo, lo + n);
    CutNamed(k, old(k.objs), m, old(k.spaces), p, lo, lo + n);
    UnmapMeaning(m, MemOf(k), old(k.spaces), k.spaces, p, lo, lo + n);
  }

  lemma NothingShown(m: Mem, areas: Areas, m': Mem, low: nat, high: nat)
    requires SpaceOk(areas, low, high)
    ensures Cut(m, areas, m', [], 0, high)
  {
    forall pn: nat | pn >= high
      ensures At(areas, pn).None?
    {
    }
  }

  /** vmmap_destroy at exit. */
  method Exit(k: Kernel, p: nat) returns (ok: bool)
    requires Ready(k) && p < |k.spaces|
    modifies k`pf, k`objs, k`resident, k`spaces
    ensures ok <==> Exitable(old(k.objs), old(k.spaces), p)
    ensures ok ==> Ready(k) && MeaningOf(k) == Spec.Exit(old(MeaningOf(k)), p)
    ensures ok && Unsplit(old(k.objs), old(k.spaces)) ==> Unsplit(k.objs, k.spaces)
  {
    hide HoldsRefs, MemOf, Apart, Cut, OthersSame, Unsplit, Meaning, Names, SpacesOf, Alike, SpaceOk, AllRefs, Exitable;
    ghost var m := MemOf(k);
    LiveAreas(k);
    SpaceIsOk(k, p);
    ok := DestroySpace(k, p);
    if !ok {
      return;
    }
    HeldAreLive(k, multiset{});
    OthersKept(old(k.objs), k.nextObj, m, k.objs, k.nextObj, MemOf(k), old(k.spaces), k.spaces, p);
    NothingShown(m, old(k.spaces)[p], MemOf(k), k.low, k.high);
    CutShows(m, old(k.spaces), MemOf(k), k.spaces, p, 0, k.high);
    CutNamed(k, old(k.objs), m, old(k.spaces), p, 0, k.high);
    ExitMeaning(m, MemOf(k), old(k.spaces), p);
  }

  // ---------------------------------------------------------------------------------------------
  // Mapping

  function OutcomeOf(r: MapResult, o: ObjId, split: bool): (out: Outcome) {
    match r
    case Mapped(start) => MappedAt(start, o, split)
    case NoRoom => Fault
    case NullFault => Crash
    case MapAstray => Strayed
  }

  lemma CellMapped(m: Mem, areas: Areas)
    ensures forall pn: nat :: pn in CellsOf(m, areas) <==> At(areas, pn).Some?
  {
  }

  lemma FreeIsFree(m: Mem, areas: Areas, start: nat, n: nat)
    ensures RangeFree(areas, start, n) <==> FreeCells(CellsOf(m, areas), start, n)
  {
    hide CellsOf;
    CellMapped(m, areas);
    assert forall pn: nat :: start <= pn < start + n ==> (At(areas, pn).None? <==> pn !in CellsOf(m, areas));
  }

  /** Room among the areas is room among the cells they mean. */
  lemma FitsIsRoom(m: Mem, areas: Areas, b: Bounds, n: nat)
    ensures forall s: nat :: Fits(areas, b.low, b.high, s, n) <==> Room(CellsOf(m, areas), b, s, n)
  {
    hide CellsOf, RangeFree, FreeCells;
    forall s: nat
      ensures Fits(areas, b.low, b.high, s, n) <==> Room(CellsOf(m, areas), b, s, n)
    {
      FreeIsFree(m, areas, s, n);
    }
  }

  lemma MapSpot(m: Mem, spaces: seq<Areas>, p: nat, b: Bounds, lopage: nat, n: nat, dir: Dir, r: MapResult, o: ObjId,
                split: bool)
    requires p < |spaces|
    requires r.NoRoom? ==> lopage == 0 && forall s: nat :: !Fits(spaces[p], b.low, b.high, s, n)
    requires r.NullFault? ==> lopage == 0 && spaces[p] == [] && (dir == HiLo || n > b.high - b.low)
    requires r.Mapped? && lopage != 0 ==> r.start == lopage
    requires r.Mapped? && lopage == 0 && dir == HiLo ==> Highest(spaces[p], b.low, b.high, r.start, n)
    requires r.Mapped? && lopage == 0 && dir == LoHi ==> Lowest(spaces[p], b.low, b.high, r.start, n)
    ensures !r.MapAstray? ==> MapsAt(Meaning(m, spaces).spaces[p], b, lopage, n, dir, OutcomeOf(r, o, split))
  {
    FitsIsRoom(m, spaces[p], b, n);
    assert r.NullFault? ==> CellsOf(m, spaces[p]) == imap[];
    hide Fits, Room, CellsOf;
  }

  /** Every page shown comes from an object that exists. */
  lemma RootsLive(k: Kernel, p: nat, pn: nat)
    requires VmOk(k) && p < |k.spaces|
    ensures ViewIn(MemOf(k), k.spaces[p], pn).Some? ==> ViewIn(MemOf(k), k.spaces[p], pn).value.root in k.objs
  {
    hide Conserved, AllRefs, AllTops, SpacesOk, FramesOk, Quiet, ContentsOf, ReadIn;
    if At(k.spaces[p], pn).Some? {
      TopAt(k, multiset{}, p, At(k.spaces[p], pn).value);
      EndIsAnon(k.objs, k.nextObj, At(k.spaces[p], pn).value.obj);
    }
  }

  ghost predicate RootsIn(m: Mem, spaces: seq<Areas>, objs: Objs) {
    forall p, pn: nat :: 0 <= p < |spaces| && ViewIn(m, spaces[p], pn).Some? ==>
      ViewIn(m, spaces[p], pn).value.root in objs
  }

  lemma AllRootsLive(k: Kernel)
    requires VmOk(k)
    ensures RootsIn(MemOf(k), k.spaces, k.objs)
  {
    hide HoldsRefs, ViewIn;
    forall p, pn: nat | 0 <= p < |k.spaces| && ViewIn(MemOf(k), k.spaces[p], pn).Some?
      ensures ViewIn(MemOf(k), k.spaces[p], pn).value.root in k.objs
    {
      RootsLive(k, p, pn);
    }
  }

  /** What a page shows once zeros of `root` have been mapped over [start, start + n) of process `p`. */
  lemma MappedView(m: Mem, m': Mem, spaces: seq<Areas>, spaces': seq<Areas>, p: nat,
                   start: nat, n: nat, prot: Prot, private: bool, off: nat, root: ObjId, r: nat, pn: nat)
    requires p < |spaces| == |spaces'| && OthersSame(m, m', spaces, spaces', p) && r < |spaces|
    requires ZeroMapped(m, spaces[p], m', spaces'[p], start, n, prot, private, off, root)
    ensures var v := ViewIn(m', spaces'[r], pn);
      v == ViewIn(m, spaces[r], pn) || (v.Some? && v.value.root == root && v.value.private == private)
  {
    hide ViewIn, ZeroPage;
    if r != p {
      assert SameViews(m, m', spaces[r]);
    }
  }

  lemma MapApart(m: Mem, m': Mem, objs: Objs, spaces: seq<Areas>, spaces': seq<Areas>, p: nat,
                 start: nat, n: nat, prot: Prot, private: bool, off: nat, root: ObjId)
    requires p < |spaces| == |spaces'| && OthersSame(m, m', spaces, spaces', p) && Apart(m, spaces)
    requires ZeroMapped(m, spaces[p], m', spaces'[p], start, n, prot, private, off, root)
    requires RootsIn(m, spaces, objs) && root !in objs
    ensures Apart(m', spaces')
  {
    hide ViewIn, ZeroMapped, OthersSame;
    forall r, pn: nat, s, qn: nat | 0 <= r < |spaces'| && 0 <= s < |spaces'|
      ensures ViewsApart(ViewIn(m', spaces'[r], pn), ViewIn(m', spaces'[s], qn))
    {
      MappedView(m, m', spaces, spaces', p, start, n, prot, private, off, root, r, pn);
      MappedView(m, m', spaces, spaces', p, start, n, prot, private, off, root, s, qn);
      assert ViewsApart(ViewIn(m, spaces[r], pn), ViewIn(m, spaces[s], qn));
    }
  }

  lemma MapNamed(k: Kernel, objs: Objs, m: Mem, spaces: seq<Areas>, p: nat,
                 start: nat, n: nat, prot: Prot, private: bool, off: nat, root: ObjId, o: ObjId)
    requires VmOk(k) && p < |spaces| == |k.spaces| && OthersSame(m, MemOf(k), spaces, k.spaces, p)
    requires ZeroMapped(m, spaces[p], MemOf(k), k.spaces[p], start, n, prot, private, off, root)
    requires forall o :: Names(SpacesOf(m, spaces), o) ==> o in objs
    requires forall x :: x in objs && x in k.objs ==> Alike(m, x, MemOf(k), x)
    requires Names(SpacesOf(MemOf(k), k.spaces), o) && o != root
    ensures Alike(m, o, MemOf(k), o)
  {
    hide *;
    NamedLive(k, o);
    ReplacedCells(m, MemOf(k), spaces, k.spaces, p);
    PlacedCells(m, MemOf(k), spaces[p], k.spaces[p], start, n, prot, private, off, root);
    PlacedNames(SpacesOf(m, spaces), p, start, n, prot, private, off, root, o);
  }

  lemma AlikeReads(m: Mem, m': Mem, o: ObjId, q: nat)
    requires Alike(m, o, m', o)
    ensures ReadIn(m', o, q) == ReadIn(m, o, q)
  {
  }

  lemma ChosenKeeps(areas: Areas, n: nat)
    ensures KeepsObjects(areas, 0, n)
  {
  }

  /** mmap without a file, choosing its range or displacing what is there. */
  method MapRange(k: Kernel, p: nat, lopage: nat, n: nat, prot: Prot, private: bool, objoff: nat, dir: Dir)
    returns (r: MapResult, o: ObjId, split: bool)
    requires Ready(k) && p < |k.spaces| && n > 0 && k.low <= k.high
    requires lopage == 0 || (k.low <= lopage && lopage + n <= k.high)
    modifies k`pf, k`objs, k`resident, k`nextObj, k`spaces
    ensures r.MapAstray? <==> RoomAstray(old(k.objs), old(k.spaces), p, lopage, n)
    ensures !r.MapAstray? ==> Ready(k) && |k.spaces| == |old(k.spaces)|
    ensures !r.MapAstray? ==>
      MapsAt(old(MeaningOf(k)).spaces[p], Bounds(k.low, k.high), lopage, n, dir, OutcomeOf(r, o, split))
    ensures r.Mapped? ==> !Names(old(MeaningOf(k)).spaces, o)
    ensures !r.MapAstray? ==>
      MeaningOf(k) ==
        if r.Mapped? then MapZeros(old(MeaningOf(k)), p, r.start, n, prot, private, objoff, o) else old(MeaningOf(k))
    ensures !r.MapAstray? && Unsplit(old(k.objs), old(k.spaces)) && !split ==> Unsplit(k.objs, k.spaces)
    ensures split <==> !KeepsObjects(old(k.spaces)[p], lopage, n)
    ensures r.NoRoom? || r.NullFault? ==> !split
    ensures r.Mapped? ==>
      exists a :: a in k.spaces[p] && a.start == r.start && a.end == r.start + n && a.private == private
  {
    hide HoldsRefs, MemOf, Apart, OthersSame, Unsplit, Names, SpacesOf, Alike, KeepsObjects, ZeroMapped, RootsIn,
      Highest, Lowest, Fits, MapsAt, SharedOf, ReadIn, RoomAstray;
    ghost var m := MemOf(k);
    LiveAreas(k);
    AllRootsLive(k);
    split := !KeepsObjects(k.spaces[p], lopage, n);
    ChosenKeeps(k.spaces[p], n);
    r, o := MapAnon(k, p, lopage, n, prot, private, objoff, dir);
    MapSpot(m, old(k.spaces), p, Bounds(k.low, k.high), lopage, n, dir, r, o, split);
    if r.Mapped? {
      MapApart(m, MemOf(k), old(k.objs), old(k.spaces), k.spaces, p, r.start, n, prot, private, objoff, o);
      forall x, q | Names(SpacesOf(MemOf(k), k.spaces), x) && x != o
        ensures ReadIn(MemOf(k), x, q) == ReadIn(m, x, q)
      {
        MapNamed(k, old(k.objs), m, old(k.spaces), p, r.start, n, prot, private, objoff, o, x);
        AlikeReads(m, MemOf(k), x, q);
      }
      MapMeaning(m, MemOf(k), old(k.spaces), k.spaces, p, r.start, n, prot, private, objoff, o);
    }
  }

  // ---------------------------------------------------------------------------------------------
  // The program break

  /** What do_brk tests about the areas is what the eager machine tests about the cells. */
  lemma BrkTests(m: Mem, areas: Areas, high: nat, brk: nat, startBrk: nat, addr: nat)
    requires brk > 0
    ensures var r := BrkAnswer(CellsOf(m, areas), high, brk, startBrk, addr);
      && (r.NoMemory? <==> BrkRefused(areas, high, brk, startBrk, addr))
      && (r.Unset? <==> addr > 0 && !BrkRefused(areas, high, brk, startBrk, addr) && PageAbove(addr) == PageAbove(brk))
      && (r.NullArea? <==>
           && addr > 0 && !BrkRefused(areas, high, brk, startBrk, addr)
           && PageAbove(addr) > PageAbove(brk) && At(areas, PageAbove(brk) - 1).None?)
      && (r.Break? ==> r.ret == if addr == 0 then brk else addr)
  {
    CellMapped(m, areas);
    if addr > 0 && PageAbove(addr) > PageAbove(brk) {
      FreeIsFree(m, areas, PageAbove(brk), PageAbove(addr) - PageAbove(brk));
    }
    hide CellsOf, RangeFree, FreeCells, At;
  }

  lemma GrowShows(m: Mem, spaces: seq<Areas>, spaces': seq<Areas>, low: nat, high: nat, p: nat, a: VmArea, begin: nat,
                  end: nat)
    requires p < |spaces| == |spaces'| && OthersSame(m, m, spaces, spaces', p) && SpaceOk(spaces[p], low, high)
    requires Grew(m, spaces[p], spaces'[p], a, begin, end) && a.start < begin && Apart(m, spaces)
    ensures Apart(m, spaces')
  {
    AreaView(m, spaces[p], low, high, a, begin - 1);
    hide Apart, SpaceOk;
    forall r, pn: nat | 0 <= r < |spaces'| && ViewIn(m, spaces'[r], pn).Some?
      ensures exists s, qn: nat :: 0 <= s < |spaces| && LikeView(ViewIn(m, spaces'[r], pn), ViewIn(m, spaces[s], qn))
    {
      if r == p && begin <= pn < end {
        assert ViewIn(m, spaces'[p], pn) == ViewIn(m, [a.(end := end)], pn);
        assert LikeView(ViewIn(m, spaces'[r], pn), ViewIn(m, spaces[p], begin - 1));
      } else {
        if r != p { assert SameViews(m, m, spaces[r]); }
        assert LikeView(ViewIn(m, spaces'[r], pn), ViewIn(m, spaces[r], pn));
      }
    }
    ApartKept(m, spaces, m, spaces');
  }

  /** Growth of the break, once do_brk has allowed it. */
  lemma GrownBreak(k: Kernel, m: Mem, spaces: seq<Areas>, p: nat, a: VmArea, begin: nat, end: nat)
    requires VmOk(k) && MemOf(k) == m && Apart(m, spaces) && p < |spaces| == |k.spaces|
    requires OthersSame(m, m, spaces, k.spaces, p)
    requires SpaceOk(spaces[p], k.low, k.high) && Grew(m, spaces[p], k.spaces[p], a, begin, end) && begin < end
    requires RangeFree(spaces[p], begin, end - begin)
    ensures Ready(k) && a.start < begin && begin - 1 in Meaning(m, spaces).spaces[p]
    ensures var e := Meaning(m, spaces);
      MeaningOf(k) == e.(spaces := e.spaces[p := Grow(e.spaces[p], begin, Showing(m, a, begin, end))])
  {
    var i :| 0 <= i < |spaces[p]| && spaces[p][i] == a;
    assert a.start < a.end;
    hide HoldsRefs, MemOf, Apart, OthersSame, Grew, SpaceOk, RangeFree, Meaning, Grow;
    GrowShows(m, spaces, k.spaces, k.low, k.high, p, a, begin, end);
    GrowMeaning(m, spaces, k.spaces, k.low, k.high, p, a, begin, end);
  }

  /** The pages [begin, end) as the object of the area that ends at `begin` has them. */
  ghost function Revealed(m: Mem, areas: Areas, begin: nat, end: nat): (pages: seq<Page>)
    requires 0 < begin <= end
  {
    match At(areas, begin - 1)
    case Some(a) => Showing(m, a, begin, end)
    case None => []
  }

  /** What moving the break brings into view: nothing unless it grows. */
  ghost function Shown(m: Mem, areas: Areas, r: BrkResult, brk: nat, addr: nat): (pages: seq<Page>) {
    if r.Break? && brk > 0 && addr > 0 && PageAbove(addr) > PageAbove(brk) then
      Revealed(m, areas, PageAbove(brk), PageAbove(addr))
    else []
  }

  lemma ShownIs(m: Mem, areas: Areas, r: BrkResult, brk: nat, addr: nat)
    requires r.Break? && brk > 0 && addr > 0 && PageAbove(addr) > PageAbove(brk)
    ensures PageAbove(brk) > 0 && Shown(m, areas, r, brk, addr) == Revealed(m, areas, PageAbove(brk), PageAbove(addr))
  {
    hide Revealed;
  }

  lemma KeptIs(objs: Objs, next: ObjId, m: Mem, objs': Objs, next': ObjId, m': Mem)
    requires KeptTo(objs, next, m, objs', next', m')
    ensures forall x :: x in objs && x in objs' ==> Alike(m, x, m', x)
  {
    hide Alike;
  }

  lemma GrewAt(m: Mem, areas: Areas, low: nat, high: nat, areas': Areas, a: VmArea, begin: nat, end: nat)
    requires SpaceOk(areas, low, high) && Grew(m, areas, areas', a, begin, end) && begin <= end
    ensures begin > 0 && Revealed(m, areas, begin, end) == Showing(m, a, begin, end)
  {
    hide Showing, ViewIn;
    var i :| 0 <= i < |areas| && areas[i] == a;
    AtUnique(areas, low, high, i, begin - 1);
  }

  /** do_brk; `shown` are the bytes that growth brings into view. */
  method MoveBrk(k: Kernel, p: nat, brk: nat, startBrk: nat, addr: nat)
    returns (r: BrkResult, brk': nat, split: bool, ghost shown: seq<Page>)
    requires Ready(k) && p < |k.spaces| && k.low * PAGE_SIZE <= startBrk <= brk <= k.high * PAGE_SIZE && brk > 0
    modifies k`pf, k`objs, k`resident, k`nextObj, k`spaces
    ensures r.BrkAstray? <==> ShrinkAstray(old(k.objs), old(k.spaces), p, k.high, brk, startBrk, addr)
    ensures !r.BrkAstray? ==> Ready(k) && r == BrkAnswer(old(MeaningOf(k)).spaces[p], k.high, brk, startBrk, addr)
    ensures brk' == if r.Break? && addr > 0 then addr else brk
    ensures !r.BrkAstray? ==>
      MeaningOf(k) ==
        if r.Break? && addr > 0 then MoveBreak(old(MeaningOf(k)), p, brk, addr, shown) else old(MeaningOf(k))
    ensures shown == Shown(old(MemOf(k)), old(k.spaces)[p], r, brk, addr)
    ensures !r.BrkAstray? && Unsplit(old(k.objs), old(k.spaces)) && !split ==> Unsplit(k.objs, k.spaces)
    ensures split <==> !BrkKeepsObjects(old(k.spaces)[p], k.high, brk, startBrk, addr)
    ensures r.NullArea? ==> !split
  {
    hide HoldsRefs, MemOf, Apart, Cut, OthersSame, Unsplit, Names, SpacesOf, Alike, SharedOf, Grew, Grow,
      BrkKeepsObjects, BrkAnswer, BrkRefused, PageAbove, At, Showing, SpaceOk, Spec.Unmap, ShrinkAstray, Revealed,
      Shown, KeptTo, SameTops;
    ghost var m := MemOf(k);
    LiveAreas(k);
    SpaceIsOk(k, p);
    BrkTests(m, k.spaces[p], k.high, brk, startBrk, addr);
    split := !BrkKeepsObjects(k.spaces[p], k.high, brk, startBrk, addr);
    GrowthKeeps(k.spaces[p], k.high, brk, startBrk, addr);
    r, brk' := Brk(k, p, brk, startBrk, addr);
    shown := Shown(m, old(k.spaces)[p], r, brk, addr);
    if r.BrkAstray? {
      return;
    }
    BrkIs(old(MeaningOf(k)).spaces[p], k.high, brk, startBrk, addr, r);
    if r.Break? && addr > 0 {
      var begin, end := PageAbove(brk), PageAbove(addr);
      if end < begin {
        CutShows(m, old(k.spaces), MemOf(k), k.spaces, p, end, begin);
        KeptIs(old(k.objs), old(k.nextObj), m, k.objs, k.nextObj, MemOf(k));
        CutNamed(k, old(k.objs), m, old(k.spaces), p, end, begin);
        UnmapMeaning(m, MemOf(k), old(k.spaces), k.spaces, p, end, begin);
      } else {
        ghost var a :| Grew(m, old(k.spaces)[p], k.spaces[p], a, begin, end) && MemOf(k) == m;
        NotRefused(old(k.spaces)[p], k.high, brk, startBrk, addr);
        GrownBreak(k, m, old(k.spaces), p, a, begin, end);
        GrewAt(m, old(k.spaces)[p], k.low, k.high, k.spaces[p], a, begin, end);
        ShownIs(m, old(k.spaces)[p], r, brk, addr);
      }
    }
  }

  lemma GrowthKeeps(areas: Areas, high: nat, brk: nat, startBrk: nat, addr: nat)
    requires brk > 0
    ensures addr > 0 && PageAbove(addr) > PageAbove(brk) ==> BrkKeepsObjects(areas, high, brk, startBrk, addr)
  {
  }

  lemma NotRefused(areas: Areas, high: nat, brk: nat, startBrk: nat, addr: nat)
    requires brk > 0 && addr > 0 && !BrkRefused(areas, high, brk, startBrk, addr) && PageAbove(addr) > PageAbove(brk)
    ensures RangeFree(areas, PageAbove(brk), PageAbove(addr) - PageAbove(brk))
  {
  }

  /** An answer is determined by its kind and what it returns. */
  lemma BrkIs(cells: Cells, high: nat, brk: nat, startBrk: nat, addr: nat, r: BrkResult)
    requires var s := BrkAnswer(cells, high, brk, startBrk, addr);
      && !r.BrkAstray? && (s.NoMemory? <==> r.NoMemory?) && (s.Unset? <==> r.Unset?) && (s.NullArea? <==> r.NullArea?)
      && (s.Break? && r.Break? ==> s.ret == r.ret)
    ensures r == BrkAnswer(cells, high, brk, startBrk, addr)
  {
  }

  // ---------------------------------------------------------------------------------------------
  // The remaining steps

  /** vmmap_create for a new process. */
  method Spawn(k: Kernel)
    requires Ready(k)
    modifies k`spaces
    ensures Ready(k) && k.spaces == old(k.spaces) + [[]]
    ensures MeaningOf(k) == old(MeaningOf(k)).(spaces := old(MeaningOf(k)).spaces + [imap[]])
    ensures Unsplit(old(k.objs), old(k.spaces)) ==> Unsplit(k.objs, k.spaces)
  {
    hide MemOk, Conserved, LinksOf, ExtOf, AllRefs, AllTops, Meaning, Unsplit, MemOf, Apart, Rooted;
    AllRefsAppend(k.spaces, []);
    assert AllRefs(k.spaces + [[]]) + multiset{} == AllRefs(k.spaces) + multiset{};
    SpawnMeaning(MemOf(k), k.spaces);
    ForkSpace.AllTopsAppend(MemOf(k), k.objs, k.spaces, []);
    SpawnApart(MemOf(k), k.spaces);
    if Unsplit(k.objs, k.spaces) {
      ForkSpace.UnsplitAppend(k.objs, k.spaces);
    }
    k.spaces := k.spaces + [[]];
  }

  lemma SpawnApart(m: Mem, spaces: seq<Areas>)
    requires Apart(m, spaces)
    ensures Apart(m, spaces + [[]])
  {
    var spaces' := spaces + [[]];
    forall pn: nat
      ensures ViewIn(m, [], pn).None?
    {
    }
    hide ViewIn, Apart;
    forall r, pn: nat | 0 <= r < |spaces'| && ViewIn(m, spaces'[r], pn).Some?
      ensures exists s, qn: nat :: 0 <= s < |spaces| && LikeView(ViewIn(m, spaces'[r], pn), ViewIn(m, spaces[s], qn))
    {
      assert spaces'[r] == spaces[r] && LikeView(ViewIn(m, spaces'[r], pn), ViewIn(m, spaces[r], pn));
    }
    ApartKept(m, spaces, m, spaces');
  }

  /** sync: no process can tell. */
  method Sync(k: Kernel)
    requires Ready(k)
    modifies k`pf
    ensures Ready(k) && MeaningOf(k) == old(MeaningOf(k))
    ensures forall f :: f in k.pf.frames && k.pf.frames[f].pincount == 0 ==> !k.pf.frames[f].dirty
    ensures k.pf.frames.Keys == old(k.pf.frames).Keys
    ensures forall f :: f in k.pf.frames && k.pf.frames[f].pincount > 0 ==> k.pf.frames[f] == old(k.pf.frames)[f]
  {
    hide MemOk, Conserved, LinksOf, ExtOf, AllRefs, AllTops, Apart, Meaning, SpacesOk, ContentsOf, Rooted;
    CleanAll(k);
  }
}
