/** What becomes of a process after one of its areas has been split. */
module AfterSplit {
  import opened Lists
  import opened Chains
  import opened VmState
  import opened PageLookup
  import opened Objects
  import opened AreaList
  import opened AddressSpace
  import opened Removal
  import opened Sharing
  import opened Mapping
  import Spec = EagerCopy
  import opened EagerCopy
  import opened CopyOnWrite
  import opened EagerRuns
  import opened MemorySteps
  import opened MemoryRuns

  // ---------------------------------------------------------------------------------------------
  // Writes

  /** A search from below `o` does not come to `o`. */
  lemma {:induction false} ReadBeforeBelow(links: Links, c: Contents, b: ObjId, o: ObjId, q: nat)
    requires b < o
    ensures ReadBefore(links, c, b, o, q) == Some(Read(links, c, b, q))
    decreases b
  {
    match Below(links, b)
    case Some(p) => ReadBeforeBelow(links, c, p, o, q);
    case None =>
  }

  /**
   * Right after a split of an area over `o`: every page of the second half may be written, and of
   * the first half exactly those that were resident.
   */
  lemma SplitWrites(objs: Objs, objs': Objs, next': ObjId, c: Contents, o: ObjId, first: ObjId, second: ObjId, q: nat)
    requires PushedOver(objs, objs', o, first, first, second) && first < second && ObjsOk(objs', next')
    requires (first, q) !in c && (second, q) !in c
    ensures WriteSafe(objs', c, second, q)
    ensures WriteSafe(objs', c, first, q) <==> ResidentOnChain(LinksOf(objs'), c, o, q)
  {
    var links := LinksOf(objs');
    assert Below(links, first) == Some(o) && Below(links, second) == Some(o);
    if !ResidentOnChain(links, c, o, q) {
      ReadNonResident(links, c, first, q);
      ReadBeforeBelow(links, c, first, second, q);
    }
  }

  // ---------------------------------------------------------------------------------------------
  // Exit

  lemma {:induction false} RefsCount(spaces: seq<Areas>, p: nat, b: VmArea)
    requires p < |spaces| && b in spaces[p]
    ensures AllRefs(spaces[p := []])[b.obj] < AllRefs(spaces)[b.obj]
  {
    hide RefsOf, AllRefs;
    AllRefsUpdate(spaces, p, []);
    RefsMember(spaces[p], b);
    NoRefs();
    var n, n', r := AllRefs(spaces), AllRefs(spaces[p := []]), RefsOf(spaces[p]);
    assert (n' + r)[b.obj] == (n + multiset{})[b.obj];
  }

  /** Only its own process leads to the object of a private area. */
  lemma OwnObject(k: Kernel, p: nat, b: VmArea)
    requires Ready(k) && p < |k.spaces| && b in k.spaces[p] && b.private
    ensures b.obj in k.objs && !Reached(LinksOf(k.objs), AllRefs(k.spaces[p := []]), b.obj)
  {
    hide HoldsRefs, Apart, AllRefs, Clear, OnChain, LinksOf;
    PrivateClear(k, p, b);
    RefsCount(k.spaces, p, b);
    assert AllRefs(k.spaces) + multiset{} == AllRefs(k.spaces);
    forall a | a in AllRefs(k.spaces[p := []])
      ensures !OnChain(LinksOf(k.objs), a, b.obj)
    {
      OffChain(LinksOf(k.objs), a, b.obj);
    }
  }

  lemma HasPage(k: Kernel, f: FrameId)
    requires MemOk(k) && f in k.pf.frames
    ensures k.pf.frames[f].obj in k.objs && k.objs[k.pf.frames[f].obj].respages != []
  {
    hide HashOk, ListsOk, IndexOk, Quiet, ObjsOk;
    FrameFacts(k.pf, k.objs, k.resident, f);
  }

  lemma NoPagesYet(k: Kernel, o: ObjId, q: nat)
    requires MemOk(k) && o in k.objs && k.objs[o].respages == []
    ensures (o, q) !in ContentsOf(k.pf.frames, k.resident)
  {
    hide HashOk, ListsOk, Quiet, ObjsOk, Enumerates;
    NoPages(k.pf, k.objs, k.resident, o);
  }

  /**
   * For every private area that leads to a list: split it, write any page of the second half, and
   * the exit of the process goes astray.
   */
  method WrittenThenExit(k: Kernel, p: nat, i: nat, lo: nat, hi: nat, q: nat, garbage: Page) returns (ok: bool)
    requires Ready(k) && p < |k.spaces| && i < |k.spaces[p]| && k.spaces[p][i].private
    requires k.spaces[p][i].start < lo <= hi < k.spaces[p][i].end
    requires k.spaces[p][i].obj in k.objs && HasList(k.objs, k.spaces[p][i].obj)
    modifies k`pf, k`objs, k`resident, k`nextObj, k`spaces
    ensures !ok
  {
    hide HoldsRefs, Apart, MemOf, Halves, Replace, KeptTo, Alike, PushedOver, HasList, SameShape, Meaning, Exitable,
      ContentsOf, LinksOf, AllRefs, SpaceOk, Safe, MemOk;
    var a, areas := k.spaces[p][i], k.spaces[p];
    ghost var m, objs, next, spaces := MemOf(k), k.objs, k.nextObj, k.spaces;
    SpaceIsOk(k, p);
    HeldAreLive(k, multiset{});
    var done, first, second := SplitArea(k, p, i, lo, hi);
    KeptAlike(objs, next, m, k.objs, k.nextObj, MemOf(k), a.obj, first, first, second);
    SplitReady(k, m, spaces, p, i, lo, hi, first, second);
    var b := a.(start := hi, off := a.off + hi - a.start, obj := second);
    SecondHalf(areas, i, lo, hi, first, second);
    MemIsOk(k);
    SecondIsSafe(k, objs, a.obj, b, first, second, q);
    ghost var objs1 := k.objs;
    var f := WritablePage(k, p, b, q, garbage);
    ShapeList(objs1, k.objs, second);
    NotExitable(k, p, b, f);
    ok := MemorySteps.Exit(k, p);
  }

  /** For every area that leads to a list: split it, and a split of its first half goes astray. */
  method SplitTwice(k: Kernel, p: nat, i: nat, lo: nat, hi: nat, lo': nat, hi': nat) returns (ok: bool)
    requires VmOk(k) && p < |k.spaces| && i < |k.spaces[p]| && k.spaces[p][i].obj in k.objs
    requires k.spaces[p][i].start < lo' <= hi' < lo <= hi < k.spaces[p][i].end && HasList(k.objs, k.spaces[p][i].obj)
    modifies k`objs, k`nextObj, k`spaces
    ensures !ok
  {
    hide HoldsRefs, HasList;
    var first, second;
    ok, first, second := SplitArea(k, p, i, lo, hi);
    assert k.spaces[p][i] == old(k.spaces)[p][i].(end := lo, obj := first);
    ok, first, second := SplitArea(k, p, i, lo', hi');
  }

  lemma SecondHalf(areas: Areas, i: nat, lo: nat, hi: nat, first: ObjId, second: ObjId)
    requires i < |areas| && areas[i].start <= hi
    ensures var a := areas[i];
      a.(start := hi, off := a.off + hi - a.start, obj := second) in Replace(areas, i, Halves(a, lo, hi, first, second))
  {
    var part := Halves(areas[i], lo, hi, first, second);
    assert Replace(areas, i, part)[i + 1] == part[1];
  }

  lemma MemIsOk(k: Kernel)
    requires Ready(k)
    ensures MemOk(k)
  {
    hide MemOk;
  }

  lemma ShapeList(objs: Objs, objs': Objs, o: ObjId)
    requires SameShape(objs, objs') && o in objs
    ensures o in objs' && HasList(objs', o) == HasList(objs, o)
  {
  }

  lemma NotExitable(k: Kernel, p: nat, b: VmArea, f: FrameId)
    requires Ready(k) && p < |k.spaces| && b in k.spaces[p] && b.private && b.obj in k.objs && !HasList(k.objs, b.obj)
    requires f in k.pf.frames && k.pf.frames[f].obj == b.obj
    ensures !Exitable(k.objs, k.spaces, p)
  {
    hide MemOk, Conserved, AllTops, SpacesOk, Rooted, Apart, AllRefs, Reached, LinksOf, HasList;
    HasPage(k, f);
    OwnObject(k, p, b);
  }

  /** Every area of a split address space ends where one did before, and is private if that was. */
  lemma SplitFrom(m: Mem, m': Mem, areas: Areas, low: nat, high: nat, i: nat, lo: nat, hi: nat, first: ObjId,
                  second: ObjId, b: VmArea)
    returns (a: VmArea)
    requires SpaceOk(areas, low, high) && i < |areas| && areas[i].start <= hi
    requires Alike(m, areas[i].obj, m', first) && Alike(m, areas[i].obj, m', second)
    requires forall b :: b in areas ==> Alike(m, b.obj, m', b.obj)
    requires b in Replace(areas, i, Halves(areas[i], lo, hi, first, second))
    ensures a in areas && a.private == b.private && End(m'.links, b.obj) == End(m.links, a.obj) && a.start < a.end
  {
    hide HeldIn, ReadIn, Bare, End;
    a := if b in areas then b else areas[i];
    assert Alike(m, a.obj, m', a.obj);
  }

  lemma ViewRoot(m: Mem, areas: Areas, low: nat, high: nat, a: VmArea)
    requires SpaceOk(areas, low, high) && a in areas
    ensures var v := ViewIn(m, areas, a.start);
      v.Some? && v.value.private == a.private && v.value.root == End(m.links, a.obj)
  {
    hide ReadIn, End;
    var i :| 0 <= i < |areas| && areas[i] == a;
    AtUnique(areas, low, high, i, a.start);
  }

  lemma ViewArea(m: Mem, areas: Areas, pn: nat) returns (b: VmArea)
    requires ViewIn(m, areas, pn).Some?
    ensures var v := ViewIn(m, areas, pn).value; b in areas && b.private == v.private && End(m.links, b.obj) == v.root
  {
    hide ReadIn, End;
    b := At(areas, pn).value;
  }

  /** A split shows what was shown, so private and shared areas stay apart. */
  lemma SplitReady(k: Kernel, m: Mem, spaces: seq<Areas>, p: nat, i: nat, lo: nat, hi: nat, first: ObjId, second: ObjId)
    requires VmOk(k) && p < |spaces| == |k.spaces| && i < |spaces[p]| && Apart(m, spaces) && spaces[p][i].start <= hi
    requires SpaceOk(spaces[p], k.low, k.high)
    requires k.spaces == spaces[p := Replace(spaces[p], i, Halves(spaces[p][i], lo, hi, first, second))]
    requires Alike(m, spaces[p][i].obj, MemOf(k), first) && Alike(m, spaces[p][i].obj, MemOf(k), second)
    requires forall r, b :: 0 <= r < |spaces| && b in spaces[r] ==> Alike(m, b.obj, MemOf(k), b.obj)
    ensures Ready(k)
  {
    hide HoldsRefs, Apart, ViewIn, Halves, Replace, Alike, MemOf, SpaceOk, End;
    var m' := MemOf(k);
    forall r, pn: nat | 0 <= r < |k.spaces| && ViewIn(m', k.spaces[r], pn).Some?
      ensures exists s, qn: nat :: 0 <= s < |spaces| && LikeView(ViewIn(m', k.spaces[r], pn), ViewIn(m, spaces[s], qn))
    {
      if r == p {
        var b := ViewArea(m', k.spaces[p], pn);
        var a := SplitFrom(m, m', spaces[p], k.low, k.high, i, lo, hi, first, second, b);
        ViewRoot(m, spaces[p], k.low, k.high, a);
        assert LikeView(ViewIn(m', k.spaces[r], pn), ViewIn(m, spaces[p], a.start));
      } else {
        ViewsKept(m, m', spaces[r]);
        assert SameViews(m, m', spaces[r]);
        assert LikeView(ViewIn(m', k.spaces[r], pn), ViewIn(m, spaces[r], pn));
      }
    }
    ApartKept(m, spaces, m', k.spaces);
  }

  /** The second half, just made, may be written. */
  lemma SecondIsSafe(k: Kernel, objs: Objs, o: ObjId, b: VmArea, first: ObjId, second: ObjId, q: nat)
    requires MemOk(k) && PushedOver(objs, k.objs, o, first, first, second) && first < second && b.private
    requires b.obj == second
    ensures Safe(k.objs, k.pf.frames, b, q)
  {
    hide FramesOk, Quiet, ContentsOf, Safe, WriteSafe, LinksOf;
    NoPagesYet(k, first, q);
    NoPagesYet(k, second, q);
    SplitWrites(objs, k.objs, k.nextObj, ContentsOf(k.pf.frames, k.resident), o, first, second, q);
    SafeExact(k, b, q);
  }

  // ---------------------------------------------------------------------------------------------
  // Runs from boot

  lemma EmptyFacts(objs: Objs)
    ensures RangeFree([], 1, 3) && !RoomAstray(objs, [[]], 0, 1, 3) && KeepsObjects([], 1, 3)
  {
    hide Removable;
    assert forall pn: nat :: At([], pn).None?;
  }

  lemma ThreePages(o: ObjId, pn: nat)
    requires 1 <= pn < 4
    ensures var e := MapZeros(Eager([imap[]], imap[]), 0, 1, 3, Prot(true, true, false), true, 0, o);
      |e.spaces| == 1 && pn in e.spaces[0] && e.spaces[0][pn] == Own(Prot(true, true, false), ZeroPage())
  {
    hide ZeroPage, Names;
    var cells: Cells := WithZeros(imap[], 1, 3, Prot(true, true, false), true, 0, o);
    assert cells[pn] == ZeroCell(Prot(true, true, false), true, o, pn - 1);
  }

  ghost predicate ThreeZeros(e: Eager) {
    && |e.spaces| == 1
    && forall pn: nat :: 1 <= pn < 4 ==>
      pn in e.spaces[0] && e.spaces[0][pn] == Own(Prot(true, true, false), ZeroPage())
  }

  ghost predicate OneArea(areas: Areas) {
    |areas| == 1 && areas[0].start == 1 && areas[0].end == 4 && areas[0].private
  }

  lemma OnlyArea(areas: Areas, a: VmArea)
    requires SpaceOk(areas, 1, 4) && a in areas && a.start == 1 && a.end == 4 && a.private
    ensures OneArea(areas)
  {
    var i :| 0 <= i < |areas| && areas[i] == a;
    SameIndex(areas, i, 0);
    SameIndex(areas, i, |areas| - 1);
  }

  lemma SameIndex(areas: Areas, i: nat, j: nat)
    requires SpaceOk(areas, 1, 4) && i < |areas| && j < |areas| && areas[i].start == 1 && areas[i].end == 4
    ensures i == j
  {
    assert 1 <= areas[j].start < areas[j].end <= 4;
  }

  lemma ThreeMapped(o: ObjId)
    ensures ThreeZeros(MapZeros(Eager([imap[]], imap[]), 0, 1, 3, Prot(true, true, false), true, 0, o))
  {
    hide MapZeros, ZeroPage;
    forall pn: nat | 1 <= pn < 4 {
      ThreePages(o, pn);
    }
    ThreePages(o, 1);
  }

  /** A mapping that was asked for at page 1 is there, unless it went astray. */
  lemma MappedThere(cells: Cells, b: Bounds, r: MapResult, o: ObjId, split: bool)
    requires !r.MapAstray? && MapsAt(cells, b, 1, 3, HiLo, OutcomeOf(r, o, split))
    ensures r == Mapped(1)
  {
  }

  /** A process with three private pages, from page 1 on, that can be read and written. */
  method BootMapped() returns (k: Kernel)
    ensures Ready(k) && fresh(k) && |k.spaces| == 1 && k.low == 1 && k.high == 4 && Unsplit(k.objs, k.spaces)
    ensures OneArea(k.spaces[0]) && ThreeZeros(MeaningOf(k))
  {
    hide HoldsRefs, Apart, Unsplit, Meaning, MapsAt, RoomAstray, KeepsObjects, MapZeros, ThreeZeros, ZeroPage,
      FramesOk, ObjsOk, Quiet, OneArea, SpaceOk;
    k := new Kernel(1, 1, 4);
    BootReady(k);
    Spawn(k);
    ghost var e := MeaningOf(k);
    assert k.spaces == [[]] && e == Eager([imap[]], imap[]);
    EmptyFacts(k.objs);
    var r, o, split := MapRange(k, 0, 1, 3, Prot(true, true, false), true, 0, HiLo);
    MappedThere(e.spaces[0], Bounds(1, 4), r, o, split);
    ThreeMapped(o);
    SpaceIsOk(k, 0);
    ghost var a :| a in k.spaces[0] && a.start == 1 && a.end == 4 && a.private;
    OnlyArea(k.spaces[0], a);
  }

  lemma MiddleSplits(areas: Areas)
    requires OneArea(areas)
    ensures !NoSplit(areas, 2, 3)
  {
    assert SplitBy(areas[0], 2, 3);
  }

  /** A run from boot: map three pages, unmap the middle one, and fork, which goes astray. */
  method ForkAfterSplit() returns (out: Outcome)
    ensures out == Strayed
  {
    hide Ready, Unsplit, Meaning, OneArea, ThreeZeros, NoSplit, Removable, Unlisted, Spec.Unmap, MemOf, Legal, Next,
      ZeroPage;
    var k := BootMapped();
    MiddleSplits(k.spaces[0]);
    NotAstrayHere(k, Unmaps(0, 2, 1));
    var ok, split := UnmapRange(k, 0, 2, 1);
    ghost var shown;
    out, shown := Step(k, Forks(0), _ => ZeroPage());
  }

  lemma AllPrivate(m: Mem, areas: Areas)
    requires forall a :: a in areas ==> a.private
    ensures Apart(m, [areas])
  {
    forall pn: nat
      ensures ViewIn(m, areas, pn).Some? ==> ViewIn(m, areas, pn).value.private
    {
      if ViewIn(m, areas, pn).Some? {
        var b := ViewArea(m, areas, pn);
      }
    }
    hide ViewIn;
  }

  /**
   * A run from boot: map three pages, unmap the middle one and then the first, and fork: the fork
   * follows the mmo_bottom_obj of the area that is left, which has been freed.
   */
  method ForkAfterDrop() returns (out: Outcome, k: Kernel)
    ensures out == Strayed
  {
    hide HoldsRefs, Apart, Unsplit, Meaning, ThreeZeros, MemOf, Legal, Next, ZeroPage, HasList, WriteCopy, HeldIn,
      Halves, Replace;
    k := BootMapped();
    ghost var a := k.spaces[0][0];
    assert a in k.spaces[0];
    HeldAreLive(k, multiset{});
    ObjsBelowNext(k);
    UnsplitLists(k.objs, k.nextObj, k.spaces, a.obj);
    ghost var areas := k.spaces[0];
    var ok, first, second := SplitThenDrop(k, 0, 0, 2, 3);
    SecondLeft(areas, first, second);
    AllPrivate(MemOf(k), k.spaces[0]);
    assert k.spaces == [k.spaces[0]];
    LeftUnlisted(k.objs, k.spaces[0], first, second);
    ghost var shown;
    out, shown := Step(k, Forks(0), _ => ZeroPage());
  }

  lemma SecondLeft(areas: Areas, first: ObjId, second: ObjId)
    requires OneArea(areas)
    ensures Replace(areas, 0, Halves(areas[0], 2, 3, first, second)[1..]) ==
      [areas[0].(start := 3, off := areas[0].off + 2, obj := second)]
  {
  }

  lemma LeftUnlisted(objs: Objs, areas: Areas, first: ObjId, second: ObjId)
    requires |areas| == 1 && areas[0].obj == second && second in objs && objs[second].kind == Shadow
    requires objs[second].bottom == first
    requires first !in objs
    ensures Unlisted(objs, areas)
  {
    assert areas[0] in areas && !HasList(objs, second);
  }
}
