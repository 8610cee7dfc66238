/** vmmap_map, vmmap_destroy and do_brk. */
module Mapping {
  import opened Lists
  import opened Chains
  import opened VmState
  import opened PageLookup
  import opened Objects
  import opened AreaList
  import opened AddressSpace
  import opened Removal
  import opened Sharing

  /** `areas'` maps the pages of `a` by `a`, and the others as `areas` does. */
  ghost predicate Placed(areas: Areas, areas': Areas, a: VmArea) {
    forall pn: nat :: At(areas', pn) == if Covers(a, pn) then Some(a) else At(areas, pn)
  }

  lemma InsertPlaces(areas: Areas, i: nat, a: VmArea)
    requires a.start < a.end && RangeFree(areas, a.start, a.end - a.start) && i <= |areas|
    ensures Placed(areas, areas[..i] + [a] + areas[i..], a)
  {
    var r := areas[..i] + [a] + areas[i..];
    forall pn: nat
      ensures At(r, pn) == if Covers(a, pn) then Some(a) else At(areas, pn)
    {
      AtConcat(areas[..i] + [a], areas[i..], pn);
      AtConcat(areas[..i], [a], pn);
      assert areas == areas[..i] + areas[i..];
      AtConcat(areas[..i], areas[i..], pn);
      if Covers(a, pn) {
        assert At(areas, pn).None?;
      }
    }
  }

  /** Where [start, end) of `a` lies, the new list shows `a`; elsewhere it shows what it showed. */
  ghost predicate Overlaid(m: Mem, areas: Areas, m': Mem, areas': Areas, a: VmArea) {
    forall pn: nat :: ViewIn(m', areas', pn) == if Covers(a, pn) then ViewIn(m', [a], pn) else ViewIn(m, areas, pn)
  }

  /** vmmap_insert of an area whose object reference the caller holds. */
  method InsertArea(k: Kernel, p: nat, a: VmArea)
    requires HoldsRefs(k, multiset{a.obj}) && p < |k.spaces| && TopOk(MemOf(k), k.objs, a)
    requires k.low <= a.start < a.end <= k.high && RangeFree(k.spaces[p], a.start, a.end - a.start)
    modifies k`spaces
    ensures VmOk(k) && |k.spaces| == |old(k.spaces)| && k.spaces == old(k.spaces)[p := k.spaces[p]]
    ensures Placed(old(k.spaces)[p], k.spaces[p], a)
    ensures forall b :: b in k.spaces[p] ==> b == a || b in old(k.spaces)[p]
  {
    hide MemOk, Conserved, AllRefs, RefsOf, MemOf, RangeFree, Placed, TopOk;
    var areas := k.spaces[p];
    assert TopsOk(MemOf(k), k.objs, areas);
    var r := Insert(areas, a, k.low, k.high);
    ghost var i :| 0 <= i <= |areas| && r == areas[..i] + [a] + areas[i..];
    InsertRefs(areas, i, a);
    InsertPlaces(areas, i, a);
    SetAreas(k, p, r, multiset{a.obj}, multiset{});
  }

  lemma InsertRefs(areas: Areas, i: nat, a: VmArea)
    requires i <= |areas|
    ensures RefsOf(areas[..i] + [a] + areas[i..]) + multiset{} == RefsOf(areas) + multiset{a.obj}
  {
    hide RefsOf;
    RefsConcat(areas[..i] + [a], areas[i..]);
    RefsConcat(areas[..i], [a]);
    assert areas == areas[..i] + areas[i..];
    RefsConcat(areas[..i], areas[i..]);
    SingleRef(a);
  }

  /** The new objects of a mapping: an anonymous one, and a shadow over it if it is private. */
  ghost predicate Backed(objs: Objs, objs': Objs, o: ObjId, root: ObjId, private: bool) {
    var anon := objs[root := MmObj(Anon, 1, 0, [], None, root)];
    && root !in objs && o !in objs && (private <==> o != root)
    && objs' == if private then anon[o := MmObj(Shadow, 1, 0, [], Some(root), root)] else anon
  }

  /** A new object for an anonymous mapping: zeros, under a shadow when the mapping is private. */
  method NewBacking(k: Kernel, private: bool) returns (o: ObjId, ghost root: ObjId)
    requires VmOk(k)
    modifies k`objs, k`nextObj
    ensures HoldsRefs(k, multiset{o}) && Kept(k)
    ensures Backed(old(k.objs), k.objs, o, root, private) && End(LinksOf(k.objs), o) == root == old(k.nextObj)
    ensures Bare(LinksOf(k.objs), ContentsOf(k.pf.frames, k.resident), o)
    ensures forall q :: ReadIn(MemOf(k), o, q) == ZeroPage() && ReadIn(MemOf(k), root, q) == ZeroPage()
  {
    hide MemOk, Conserved, AllRefs, ExtOf, ContentsOf, SpacesOk, LinksOf, ReadIn, Alike, AllTops, End, Bare, Rooted,
      KeptTo;
    ObjsBelowNext(k);
    ghost var refs, m0 := AllRefs(k.spaces), MemOf(k);
    assert refs + multiset{} == refs;
    root := AnonCreate(k, refs);
    o := k.nextObj - 1;
    RootBare(k, root);
    ZerosNow(k, root);
    if private {
      ghost var m1 := MemOf(k);
      o := PushShadow(k, o, o, refs + multiset{root});
      assert refs + multiset{root} - multiset{root} + multiset{o} == refs + multiset{o};
      AlikeOn(m0, m1, MemOf(k), old(k.objs));
      AlikeZeros(m1, MemOf(k), root, o);
    }
    BackedKept(old(k.objs), old(k.nextObj), m0, k.objs, k.nextObj, MemOf(k), o, root, private);
    BackedTops(m0, old(k.objs), MemOf(k), k.objs, k.spaces);
    BackedRooted(old(k.objs), old(k.nextObj), m0, k.objs, k.nextObj, MemOf(k), o, root, private);
  }

  lemma AlikeOn(m0: Mem, m1: Mem, m2: Mem, objs: Objs)
    requires forall x :: x in objs ==> Alike(m0, x, m1, x) && Alike(m1, x, m2, x)
    ensures forall x :: x in objs ==> Alike(m0, x, m2, x)
  {
    hide Alike;
    forall x | x in objs
      ensures Alike(m0, x, m2, x)
    {
      AlikeStep(m0, x, m1, x, m2, x);
    }
  }

  lemma BackedKept(objs: Objs, next: ObjId, m: Mem, objs': Objs, next': ObjId, m': Mem, o: ObjId, root: ObjId,
                   private: bool)
    requires Backed(objs, objs', o, root, private) && next <= root && next <= o && next <= next'
    requires forall x :: x in objs ==> Alike(m, x, m', x)
    ensures KeptTo(objs, next, m, objs', next', m') && forall x :: x in objs ==> x in objs' && objs'[x] == objs[x]
  {
    hide Alike;
  }

  lemma BackedRooted(objs: Objs, next: ObjId, m: Mem, objs': Objs, next': ObjId, m': Mem, o: ObjId, root: ObjId,
                     private: bool)
    requires Rooted(objs, next) && Backed(objs, objs', o, root, private) && End(LinksOf(objs'), o) == root < next'
    requires KeptTo(objs, next, m, objs', next', m') && m.links == LinksOf(objs) && m'.links == LinksOf(objs')
    ensures Rooted(objs', next')
  {
    hide Rooted, KeptTo, LinksOf, End;
    RootedKept(objs, next, m, objs', next', m');
  }

  lemma RootBare(k: Kernel, o: ObjId)
    requires MemOk(k) && o in k.objs && k.objs[o].shadowed == None
    ensures Bare(LinksOf(k.objs), ContentsOf(k.pf.frames, k.resident), o)
  {
  }

  lemma ZerosNow(k: Kernel, o: ObjId)
    requires forall q :: ReadNow(k, o, q) == ZeroPage()
    ensures forall q :: ReadIn(MemOf(k), o, q) == ZeroPage()
  {
    forall q: nat
      ensures ReadIn(MemOf(k), o, q) == ZeroPage()
    {
      assert ReadNow(k, o, q) == ZeroPage();
    }
  }

  lemma AlikeZeros(m: Mem, m': Mem, root: ObjId, o: ObjId)
    requires Alike(m, root, m', o) && Alike(m, root, m', root) && End(m.links, root) == root
    requires Bare(m.links, m.contents, root)
    requires forall q :: ReadIn(m, root, q) == ZeroPage()
    ensures forall q :: ReadIn(m', o, q) == ZeroPage() && ReadIn(m', root, q) == ZeroPage()
    ensures End(m'.links, o) == root && Bare(m'.links, m'.contents, o)
  {
    hide ReadIn, End, Bare;
  }

  lemma BackedTops(m: Mem, objs: Objs, m': Mem, objs': Objs, spaces: seq<Areas>)
    requires AllTops(m, objs, spaces)
    requires forall x :: x in objs ==> x in objs' && objs'[x] == objs[x] && Alike(m, x, m', x)
    ensures AllTops(m', objs', spaces)
  {
    hide Bare, End, ReadIn, HeldIn;
    forall p, a | 0 <= p < |spaces| && a in spaces[p]
      ensures TopOk(m', objs', a)
    {
      assert TopsOk(m, objs, spaces[p]) && TopOk(m, objs, a) && Alike(m, a.obj, m', a.obj);
    }
  }

  /** MapAstray: an mmo_bottom_obj was followed that leads to no list of areas. */
  datatype MapResult = Mapped(start: nat) | NoRoom | NullFault | MapAstray

  lemma BackedUnsplit(m: Mem, objs: Objs, m': Mem, objs': Objs, spaces: seq<Areas>, spaces': seq<Areas>, a: VmArea,
                      root: ObjId)
    requires Unsplit(objs, spaces) && Backed(objs, objs', a.obj, root, a.private) && End(LinksOf(objs'), a.obj) == root
    requires m.links == LinksOf(objs) && m'.links == LinksOf(objs') && |spaces'| == |spaces|
    requires forall x :: x in objs ==> Alike(m, x, m', x)
    requires forall p, b :: 0 <= p < |spaces| && b in spaces'[p] ==> b == a || b in spaces[p]
    requires forall p, b :: 0 <= p < |spaces| && b in spaces[p] ==> b.obj in objs
    ensures Unsplit(objs', spaces')
  {
    hide LinksOf, End, Alike, Unsplit;
    UnsplitGrows(m, objs, m', objs', spaces, spaces', a);
  }

  /** The end of vmmap_map for an anonymous mapping, once the range is free. */
  method MapFree(k: Kernel, p: nat, start: nat, n: nat, prot: Prot, private: bool, off: nat)
    returns (ghost a: VmArea, ghost root: ObjId)
    requires VmOk(k) && p < |k.spaces| && n > 0
    requires k.low <= start && start + n <= k.high && RangeFree(k.spaces[p], start, n)
    modifies k`objs, k`nextObj, k`spaces
    ensures VmOk(k) && Kept(k) && |k.spaces| == |old(k.spaces)| && k.spaces == old(k.spaces)[p := k.spaces[p]]
    ensures a == VmArea(start, start + n, off, prot, private, a.obj)
    ensures Overlaid(old(MemOf(k)), old(k.spaces)[p], MemOf(k), k.spaces[p], a)
    ensures OthersSame(old(MemOf(k)), MemOf(k), old(k.spaces), k.spaces, p)
    ensures root == old(k.nextObj) && root !in old(k.objs) && root in k.objs && End(LinksOf(k.objs), a.obj) == root
    ensures forall q :: ReadIn(MemOf(k), a.obj, q) == ZeroPage() && ReadIn(MemOf(k), root, q) == ZeroPage()
    ensures Unsplit(old(k.objs), old(k.spaces)) ==> Unsplit(k.objs, k.spaces)
    ensures a in k.spaces[p]
  {
    hide MemOk, Conserved, AllRefs, RefsOf, ExtOf, ContentsOf, SpacesOk, LinksOf, ReadIn, SameViews, RangeFree, Placed,
      Alike, AllTops, Unsplit, End, Bare, Rooted;
    HeldAreLive(k, multiset{});
    ghost var m := MemOf(k);
    var o;
    o, root := NewBacking(k, private);
    forall r | 0 <= r < |k.spaces|
      ensures SameViews(m, MemOf(k), k.spaces[r])
    {
      ViewsKept(m, MemOf(k), k.spaces[r]);
    }
    a := VmArea(start, start + n, off, prot, private, o);
    InsertArea(k, p, VmArea(start, start + n, off, prot, private, o));
    if Unsplit(old(k.objs), old(k.spaces)) {
      BackedUnsplit(m, old(k.objs), MemOf(k), k.objs, old(k.spaces), k.spaces, a, root);
    }
    OverlaidAfter(m, MemOf(k), old(k.spaces)[p], k.spaces[p], a);
    PlacedMember(old(k.spaces)[p], k.spaces[p], a);
  }

  lemma PlacedMember(areas: Areas, areas': Areas, a: VmArea)
    requires Placed(areas, areas', a) && a.start < a.end
    ensures a in areas'
  {
    assert Covers(a, a.start) && At(areas', a.start) == Some(a);
  }

  lemma OverlaidAfter(m: Mem, m': Mem, areas: Areas, areas': Areas, a: VmArea)
    requires SameViews(m, m', areas) && Placed(areas, areas', a)
    ensures Overlaid(m, areas, m', areas', a)
  {
    hide Read, End;
    forall pn: nat
      ensures ViewIn(m', areas', pn) == if Covers(a, pn) then ViewIn(m', [a], pn) else ViewIn(m, areas, pn)
    {
      assert ViewIn(m', areas, pn) == ViewIn(m, areas, pn);
    }
  }

  lemma CutIsFree(m: Mem, whole: Areas, m': Mem, part: Areas, lo: nat, n: nat)
    requires Cut(m, whole, m', part, lo, lo + n)
    ensures RangeFree(part, lo, n)
  {
    forall pn: nat | lo <= pn < lo + n
      ensures At(part, pn).None?
    {
      assert ViewIn(m', part, pn) == None;
    }
  }

  /** The range of [start, start + n) of `a` goes to `a`; the rest of the old view stays. */
  lemma OverlaidCut(m: Mem, whole: Areas, m1: Mem, part: Areas, m': Mem, areas': Areas, a: VmArea)
    requires Cut(m, whole, m1, part, a.start, a.end) && Overlaid(m1, part, m', areas', a)
    ensures Overlaid(m, whole, m', areas', a)
  {
  }

  lemma FreeIsCut(m: Mem, areas: Areas, lo: nat, n: nat)
    requires RangeFree(areas, lo, n)
    ensures Cut(m, areas, m, areas, lo, lo + n)
  {
  }

  /** [start, start + n) shows zeros of `root` with the given attributes; the rest shows what it showed. */
  ghost predicate ZeroMapped(m: Mem, areas: Areas, m': Mem, areas': Areas, start: nat, n: nat, prot: Prot,
                             private: bool, off: nat, root: ObjId) {
    forall pn: nat :: ViewIn(m', areas', pn) ==
      if start <= pn < start + n then Some(PageView(prot, private, root, pn - start + off, ZeroPage()))
      else ViewIn(m, areas, pn)
  }

  lemma OverlaidZeros(m: Mem, areas: Areas, m': Mem, areas': Areas, a: VmArea)
    requires a.start <= a.end && Overlaid(m, areas, m', areas', a) && forall q :: ReadIn(m', a.obj, q) == ZeroPage()
    ensures ZeroMapped(m, areas, m', areas', a.start, a.end - a.start, a.prot, a.private, a.off, End(m'.links, a.obj))
  {
  }

  lemma OthersTransitive(m: Mem, m1: Mem, m': Mem, spaces: seq<Areas>, spaces1: seq<Areas>, spaces': seq<Areas>, p: nat)
    requires OthersSame(m, m1, spaces, spaces1, p) && OthersSame(m1, m', spaces1, spaces', p)
    ensures OthersSame(m, m', spaces, spaces', p)
  {
  }

  /** Choosing a range splits no area; unmapping one may. */
  predicate KeepsObjects(areas: Areas, lopage: nat, n: nat) {
    lopage == 0 || NoSplit(areas, lopage, lopage + n)
  }

  /** vmmap_remove again, with what it keeps when no area is split. */
  method Unmap(k: Kernel, p: nat, lo: nat, n: nat) returns (ok: bool)
    requires VmOk(k) && p < |k.spaces|
    modifies k`pf, k`objs, k`resident, k`nextObj, k`spaces
    ensures ok <==> Removable(old(k.objs), old(k.spaces), p, lo, lo + n)
    ensures ok ==> VmOk(k) && Kept(k)
    ensures ok ==> |k.spaces| == |old(k.spaces)| && k.spaces == old(k.spaces)[p := k.spaces[p]]
    ensures ok ==> Cut(old(MemOf(k)), old(k.spaces)[p], MemOf(k), k.spaces[p], lo, lo + n)
    ensures ok ==> OthersSame(old(MemOf(k)), MemOf(k), old(k.spaces), k.spaces, p)
    ensures ok && NoSplit(old(k.spaces)[p], lo, lo + n) ==> SameTops(old(k.spaces)[p], k.spaces[p])
    ensures ok && NoSplit(old(k.spaces)[p], lo, lo + n) && Unsplit(old(k.objs), old(k.spaces)) ==>
      Unsplit(k.objs, k.spaces)
    ensures ok && !NoSplit(old(k.spaces)[p], lo, lo + n) ==> Unlisted(k.objs, k.spaces[p])
  {
    hide HoldsRefs, LinksOf, ContentsOf, Cut, OthersSame, NoSplit, Unsplit, SameTops, Alike, Removable, Unlisted;
    ok := Remove(k, p, lo, n);
    if ok && NoSplit(old(k.spaces)[p], lo, lo + n) && Unsplit(old(k.objs), old(k.spaces)) {
      TopsStay(old(k.spaces), k.spaces, p);
      UnsplitSurvives(old(MemOf(k)), old(k.objs), MemOf(k), k.objs, old(k.spaces), k.spaces);
    }
  }

  lemma TopsStay(spaces: seq<Areas>, spaces': seq<Areas>, p: nat)
    requires p < |spaces| == |spaces'| && spaces' == spaces[p := spaces'[p]] && SameTops(spaces[p], spaces'[p])
    ensures forall r :: 0 <= r < |spaces| ==> SameTops(spaces[r], spaces'[r])
  {
    forall r | 0 <= r < |spaces|
      ensures SameTops(spaces[r], spaces'[r])
    {
      if r != p {
        assert forall b :: b in spaces[r] ==> SubArea(b, b);
      }
    }
  }

  /** Unmapping the range for a mapping does not go well. */
  ghost predicate RoomAstray(objs: Objs, spaces: seq<Areas>, p: nat, lopage: nat, n: nat)
    requires p < |spaces|
  {
    lopage != 0 && !RangeFree(spaces[p], lopage, n) && !Removable(objs, spaces, p, lopage, lopage + n)
  }

  /** The first half of vmmap_map: a range that is free by now, chosen or made so. */
  method MakeRoom(k: Kernel, p: nat, lopage: nat, n: nat, dir: Dir) returns (r: MapResult)
    requires VmOk(k) && p < |k.spaces| && n > 0 && k.low <= k.high
    requires lopage == 0 || (k.low <= lopage && lopage + n <= k.high)
    modifies k`pf, k`objs, k`resident, k`nextObj, k`spaces
    ensures r.MapAstray? <==> RoomAstray(old(k.objs), old(k.spaces), p, lopage, n)
    ensures !r.MapAstray? ==>
      VmOk(k) && Kept(k) && |k.spaces| == |old(k.spaces)| && k.spaces == old(k.spaces)[p := k.spaces[p]]
    ensures r.NoRoom? ==> lopage == 0 && forall s: nat :: !Fits(old(k.spaces)[p], k.low, k.high, s, n)
    ensures r.NullFault? <==> lopage == 0 && old(k.spaces)[p] == [] && (dir == HiLo || n > k.high - k.low)
    ensures r.NoRoom? || r.NullFault? || lopage == 0 ==>
      k.spaces == old(k.spaces) && k.objs == old(k.objs) && MemOf(k) == old(MemOf(k)) && k.nextObj == old(k.nextObj)
    ensures r.Mapped? && lopage != 0 ==> r.start == lopage
    ensures r.Mapped? && lopage == 0 && dir == HiLo ==> Highest(old(k.spaces)[p], k.low, k.high, r.start, n)
    ensures r.Mapped? && lopage == 0 && dir == LoHi ==> Lowest(old(k.spaces)[p], k.low, k.high, r.start, n)
    ensures r.Mapped? ==> k.low <= r.start && r.start + n <= k.high && RangeFree(k.spaces[p], r.start, n)
    ensures r.Mapped? ==> Cut(old(MemOf(k)), old(k.spaces)[p], MemOf(k), k.spaces[p], r.start, r.start + n)
    ensures !r.MapAstray? ==> OthersSame(old(MemOf(k)), MemOf(k), old(k.spaces), k.spaces, p)
    ensures !r.MapAstray? && KeepsObjects(old(k.spaces)[p], lopage, n) && Unsplit(old(k.objs), old(k.spaces)) ==>
      Unsplit(k.objs, k.spaces)
  {
    hide MemOk, Conserved, AllRefs, MemOf, ViewIn, RangeFree, Cut, Unsplit, AllTops, Alike, Removable, Rooted;
    AllAlike(MemOf(k));
    if lopage != 0 {
      var empty := IsRangeEmpty(k.spaces[p], lopage, n, k.low, k.high);
      if empty {
        FreeIsCut(MemOf(k), k.spaces[p], lopage, n);
      } else {
        var ok := Unmap(k, p, lopage, n);
        if !ok {
          return MapAstray;
        }
        CutIsFree(old(MemOf(k)), old(k.spaces)[p], MemOf(k), k.spaces[p], lopage, n);
      }
      r := Mapped(lopage);
    } else {
      var found := FindRange(k.spaces[p], k.low, k.high, n, dir);
      match found
      case Start(start) =>
        FreeIsCut(MemOf(k), k.spaces[p], start, n);
        r := Mapped(start);
      case NoRange => r := NoRoom;
      case NullDereference => r := NullFault;
    }
  }

  /**
   * vmmap_map without a file. With `lopage` 0 it picks the range, and displaces nothing;
   * otherwise it first unmaps the range. The range then shows zeros of a new object `root`, and
   * nothing else changes.
   */
  method MapAnon(k: Kernel, p: nat, lopage: nat, n: nat, prot: Prot, private: bool, off: nat, dir: Dir)
    returns (r: MapResult, root: ObjId)
    requires VmOk(k) && p < |k.spaces| && n > 0 && k.low <= k.high
    requires lopage == 0 || (k.low <= lopage && lopage + n <= k.high)
    modifies k`pf, k`objs, k`resident, k`nextObj, k`spaces
    ensures r.MapAstray? <==> RoomAstray(old(k.objs), old(k.spaces), p, lopage, n)
    ensures !r.MapAstray? ==>
      VmOk(k) && Kept(k) && |k.spaces| == |old(k.spaces)| && k.spaces == old(k.spaces)[p := k.spaces[p]]
    ensures r.NoRoom? ==> lopage == 0 && forall s: nat :: !Fits(old(k.spaces)[p], k.low, k.high, s, n)
    ensures r.NullFault? <==> lopage == 0 && old(k.spaces)[p] == [] && (dir == HiLo || n > k.high - k.low)
    ensures r.NoRoom? || r.NullFault? ==>
      k.spaces == old(k.spaces) && MemOf(k) == old(MemOf(k)) && k.objs == old(k.objs)
    ensures r.Mapped? && lopage != 0 ==> r.start == lopage
    ensures r.Mapped? && lopage == 0 && dir == HiLo ==> Highest(old(k.spaces)[p], k.low, k.high, r.start, n)
    ensures r.Mapped? && lopage == 0 && dir == LoHi ==> Lowest(old(k.spaces)[p], k.low, k.high, r.start, n)
    ensures r.Mapped? ==>
      ZeroMapped(old(MemOf(k)), old(k.spaces)[p], MemOf(k), k.spaces[p], r.start, n, prot, private, off, root)
    ensures r.Mapped? ==> root !in old(k.objs) && root in k.objs && forall q :: ReadIn(MemOf(k), root, q) == ZeroPage()
    ensures r.Mapped? ==>
      exists a :: a in k.spaces[p] && a.start == r.start && a.end == r.start + n && a.private == private
    ensures !r.MapAstray? ==> OthersSame(old(MemOf(k)), MemOf(k), old(k.spaces), k.spaces, p)
    ensures !r.MapAstray? && KeepsObjects(old(k.spaces)[p], lopage, n) && Unsplit(old(k.objs), old(k.spaces)) ==>
      Unsplit(k.objs, k.spaces)
  {
    hide HoldsRefs, MemOf, ViewIn, RangeFree, Cut, OthersSame, Fits, Placed, Unsplit, Alike, ReadIn, SpacesOk,
      RoomAstray;
    ObjsBelowNext(k);
    ghost var m := MemOf(k);
    root := 0;
    r := MakeRoom(k, p, lopage, n, dir);
    if r.Mapped? {
      ghost var m1, spaces1, objs1, next1 := MemOf(k), k.spaces, k.objs, k.nextObj;
      root := k.nextObj;
      ghost var a, top := MapFree(k, p, r.start, n, prot, private, off);
      KeptOn(old(k.objs), old(k.nextObj), m, objs1, next1, m1, k.objs, k.nextObj, MemOf(k));
      OverlaidCut(m, old(k.spaces)[p], m1, spaces1[p], MemOf(k), k.spaces[p], a);
      LinksOfMem(k);
      OverlaidZeros(m, old(k.spaces)[p], MemOf(k), k.spaces[p], a);
      OthersTransitive(m, m1, MemOf(k), old(k.spaces), spaces1, k.spaces, p);
    }
  }

  /** Everything that only process `p` leads to can be freed. */
  ghost predicate Exitable(objs: Objs, spaces: seq<Areas>, p: nat)
    requires p < |spaces|
  {
    Droppable(objs, AllRefs(spaces[p := []]))
  }

  lemma OtherRefs(spaces: seq<Areas>, p: nat, areas: Areas)
    requires p < |spaces|
    ensures Within(AllRefs(spaces[p := []]), AllRefs(spaces[p := areas]))
  {
    hide RefsOf, AllRefs;
    AllRefsUpdate(spaces[p := areas], p, []);
    assert spaces[p := areas][p := []] == spaces[p := []];
    NoRefs();
    var n, n' := AllRefs(spaces[p := []]), AllRefs(spaces[p := areas]);
    forall a | a in n
      ensures a in n'
    {
      assert (n + RefsOf(areas))[a] == (n' + multiset{})[a];
    }
  }

  /** One area could not be dropped: then not all of them can. */
  lemma ExitFails(objs0: Objs, next0: ObjId, m0: Mem, spaces0: seq<Areas>, p: nat, objs: Objs, next: ObjId, m: Mem,
                  spaces: seq<Areas>)
    requires KeptTo(objs0, next0, m0, objs, next, m) && m0.links == LinksOf(objs0) && m.links == LinksOf(objs)
    requires Rooted(objs0, next0) && ObjsOk(objs, next) && objs.Keys <= objs0.Keys
    requires p < |spaces0| == |spaces| && spaces == spaces0[p := spaces[p]] && spaces[p] != []
    requires forall r, a :: 0 <= r < |spaces| && a in spaces[r] ==> a.obj in objs
    requires !Droppable(objs, AllRefs(spaces[p := Replace(spaces[p], 0, [])]))
    ensures !Exitable(objs0, spaces0, p)
  {
    hide KeptTo, Rooted, ObjsOk, LinksOf, Droppable, AllRefs, Within;
    LiveNow(objs, spaces, p, 0);
    assert spaces[p := Replace(spaces[p], 0, [])] == spaces0[p := Replace(spaces[p], 0, [])];
    OtherRefs(spaces0, p, Replace(spaces[p], 0, []));
    StuckObject(objs0, next0, m0, objs, next, m, AllRefs(spaces[p := Replace(spaces[p], 0, [])]),
                AllRefs(spaces0[p := []]));
  }

  /** What has gone so far could be freed, and so could what went now. */
  lemma GoneOn(objs0: Objs, next0: ObjId, m0: Mem, objs: Objs, next: ObjId, m: Mem, objs': Objs, refs: multiset<ObjId>)
    requires KeptTo(objs0, next0, m0, objs, next, m) && m0.links == LinksOf(objs0) && m.links == LinksOf(objs)
    requires Rooted(objs0, next0) && ObjsOk(objs, next) && forall x :: x in objs0 && x !in objs ==> Freeable(objs0, x)
    requires Droppable(objs, refs) && forall x :: x in objs ==> (x in objs' <==> Reached(LinksOf(objs), refs, x))
    ensures forall x :: x in objs0 && x !in objs' ==> Freeable(objs0, x)
  {
    hide KeptTo, Rooted, ObjsOk, LinksOf, Droppable, Freeable, Reached;
    GoneFreed(objs, objs', refs);
    forall x | x in objs0 && x !in objs'
      ensures Freeable(objs0, x)
    {
      if x in objs { ListKept(objs0, next0, m0, objs, next, m, x); }
    }
  }

  /**
   * vmmap_destroy: gives back every area of the address space. The result is false exactly when
   * a page that only this process leads to cannot be freed.
   */
  method DestroySpace(k: Kernel, p: nat) returns (ok: bool)
    requires VmOk(k) && p < |k.spaces|
    modifies k`pf, k`objs, k`resident, k`spaces
    ensures ok <==> Exitable(old(k.objs), old(k.spaces), p)
    ensures ok ==> VmOk(k) && Kept(k) && k.objs.Keys <= old(k.objs).Keys
    ensures ok ==> k.spaces == old(k.spaces)[p := []]
    ensures ok && Unsplit(old(k.objs), old(k.spaces)) ==> Unsplit(k.objs, k.spaces)
  {
    hide HoldsRefs, LinksOf, ContentsOf, Alike, Unsplit, SameTops, Freeable, Droppable, Reached, AllRefs, ObjsOk,
      Rooted, Conserved, KeptTo, Replace, Exitable, ExtOf;
    ghost var m := MemOf(k);
    StartFacts(k, p);
    KeptSame(k.objs, k.nextObj, m);
    while |k.spaces[p]| > 0
      invariant VmOk(k) && Kept(k) && k.objs.Keys <= old(k.objs).Keys
      invariant |k.spaces| == |old(k.spaces)| && k.spaces == old(k.spaces)[p := k.spaces[p]]
      invariant forall x :: x in old(k.objs) && x !in k.objs ==> Freeable(old(k.objs), x)
      decreases |k.spaces[p]|
    {
      ghost var m1, objs1, spaces1 := MemOf(k), k.objs, k.spaces;
      StartFacts(k, p);
      HeldAreLive(k, multiset{});
      ok := DropArea(k, p, 0);
      ReplaceFirst(spaces1[p]);
      if !ok {
        ExitFails(old(k.objs), old(k.nextObj), m, old(k.spaces), p, objs1, k.nextObj, m1, spaces1);
        return;
      }
      GoneOn(old(k.objs), old(k.nextObj), m, objs1, k.nextObj, m1, k.objs, AllRefs(k.spaces));
      KeptOn(old(k.objs), old(k.nextObj), m, objs1, k.nextObj, m1, k.objs, k.nextObj, MemOf(k));
    }
    ok := true;
    StartFacts(k, p);
    assert k.spaces == old(k.spaces)[p := []];
    LeftOver(old(k.objs), old(k.nextObj), m, k.objs, k.nextObj, MemOf(k), AllRefs(k.spaces));
    assert Exitable(old(k.objs), old(k.spaces), p) by { ExitableIs(old(k.objs), old(k.spaces), p); }
    if Unsplit(old(k.objs), old(k.spaces)) {
      NoTops(old(k.spaces)[p]);
      TopsStay(old(k.spaces), k.spaces, p);
      UnsplitSurvives(m, old(k.objs), MemOf(k), k.objs, old(k.spaces), k.spaces);
    }
  }

  lemma ReplaceFirst(areas: Areas)
    requires areas != []
    ensures Replace(areas, 0, []) == areas[1..]
  {
  }

  lemma LeftOver(objs0: Objs, next0: ObjId, m0: Mem, objs: Objs, next: ObjId, m: Mem, refs: multiset<ObjId>)
    requires KeptTo(objs0, next0, m0, objs, next, m) && objs.Keys <= objs0.Keys
    requires ObjsOk(objs, next) && Conserved(LinksOf(objs), ExtOf(objs), refs)
    requires forall x :: x in objs0 && x !in objs ==> Freeable(objs0, x)
    ensures Droppable(objs0, refs) && forall x :: x in objs ==> Alike(m0, x, m, x) && SameKinds(objs0, objs)
  {
    hide Alike, ObjsOk, Conserved, LinksOf, ExtOf, Freeable, Droppable;
    AllGone(objs0, objs, next, refs);
  }

  lemma ExitableIs(objs: Objs, spaces: seq<Areas>, p: nat)
    requires p < |spaces| && Droppable(objs, AllRefs(spaces[p := []]))
    ensures Exitable(objs, spaces, p)
  {
  }

  lemma NoTops(areas: Areas)
    ensures SameTops(areas, [])
  {
  }

  lemma LinksOfMem(k: Kernel)
    ensures MemOf(k).links == LinksOf(k.objs)
  {
  }

  // ---------------------------------------------------------------------------------------------
  // do_brk

  datatype BrkResult = Break(ret: nat) | NoMemory | Unset | NullArea | BrkAstray

  function PageAbove(addr: nat): (pn: nat)
    requires addr > 0
    ensures (pn - 1) * PAGE_SIZE < addr <= pn * PAGE_SIZE
  {
    (addr - 1) / PAGE_SIZE + 1
  }

  /** do_brk refuses: out of bounds, below the start of the heap, or growing into a mapping. */
  ghost predicate BrkRefused(areas: Areas, high: nat, brk: nat, startBrk: nat, addr: nat)
    requires brk > 0
  {
    addr > 0 &&
    (|| addr > high * PAGE_SIZE || addr < startBrk
     || (PageAbove(addr) > PageAbove(brk) && !RangeFree(areas, PageAbove(brk), PageAbove(addr) - PageAbove(brk))))
  }

  /** The area that ended at page `begin` now ends at `end`; all other pages are as they were. */
  ghost predicate Grew(m: Mem, areas: Areas, areas': Areas, a: VmArea, begin: nat, end: nat) {
    && a in areas && a.end == begin
    && (forall pn: nat :: ViewIn(m, areas', pn) ==
         if begin <= pn < end then ViewIn(m, [a.(end := end)], pn) else ViewIn(m, areas, pn))
  }

  lemma GrowOk(areas: Areas, low: nat, high: nat, i: nat, begin: nat, end: nat)
    requires SpaceOk(areas, low, high) && i < |areas| && 0 < begin < end <= high
    requires Covers(areas[i], begin - 1) && RangeFree(areas, begin, end - begin)
    ensures areas[i].end == begin
    ensures SpaceOk(areas[i := areas[i].(end := end)], low, high)
    ensures RefsOf(areas[i := areas[i].(end := end)]) == RefsOf(areas)
  {
    hide RefsOf, RangeFree;
    forall j | 0 <= j < |areas|
      ensures Misses(areas[j], begin, end - begin)
    {
      RangeFreeMisses(areas, low, high, begin, end - begin, j);
    }
    GrowRefs(areas, i, end);
  }

  lemma GrowRefs(areas: Areas, i: nat, end: nat)
    requires i < |areas|
    ensures RefsOf(areas[i := areas[i].(end := end)]) == RefsOf(areas)
  {
    hide RefsOf;
    var part := [areas[i].(end := end)];
    SingleRef(part[0]);
    ReplaceAccounting(areas, i, part, multiset{}, multiset{});
    assert RefsOf(Replace(areas, i, part)) + multiset{} == RefsOf(Replace(areas, i, part));
    assert areas[i := areas[i].(end := end)] == Replace(areas, i, part);
  }

  lemma GrowViews(m: Mem, areas: Areas, low: nat, high: nat, i: nat, begin: nat, end: nat)
    requires SpaceOk(areas, low, high) && i < |areas| && areas[i].start < areas[i].end == begin < end
    requires SpaceOk(areas[i := areas[i].(end := end)], low, high)
    ensures Grew(m, areas, areas[i := areas[i].(end := end)], areas[i], begin, end)
  {
    hide SpaceOk, ReadIn;
    var a', areas' := areas[i].(end := end), areas[i := areas[i].(end := end)];
    forall pn: nat
      ensures ViewIn(m, areas', pn) == if begin <= pn < end then ViewIn(m, [a'], pn) else ViewIn(m, areas, pn)
    {
      if Covers(a', pn) {
        AtUnique(areas', low, high, i, pn);
        if Covers(areas[i], pn) { AtUnique(areas, low, high, i, pn); }
      } else if j :| 0 <= j < |areas| && Covers(areas[j], pn) {
        AtUnique(areas, low, high, j, pn);
        AtUnique(areas', low, high, j, pn);
      }
    }
  }

  /** The growth branch of do_brk: moves vma_end of the area found just below the break. */
  method ExtendArea(k: Kernel, p: nat, i: nat, begin: nat, end: nat)
    requires VmOk(k) && p < |k.spaces| && i < |k.spaces[p]| && 0 < begin < end <= k.high
    requires Covers(k.spaces[p][i], begin - 1) && RangeFree(k.spaces[p], begin, end - begin)
    modifies k`spaces
    ensures VmOk(k) && |k.spaces| == |old(k.spaces)| && k.spaces == old(k.spaces)[p := k.spaces[p]]
    ensures Grew(MemOf(k), old(k.spaces)[p], k.spaces[p], old(k.spaces)[p][i], begin, end)
    ensures Unsplit(k.objs, old(k.spaces)) ==> Unsplit(k.objs, k.spaces)
  {
    hide MemOk, Conserved, AllRefs, RefsOf, MemOf, ViewIn, RangeFree, Grew, SpaceOk, BottomOk, TopsOk;
    var areas := k.spaces[p];
    GrowOk(areas, k.low, k.high, i, begin, end);
    SpaceAt(k, p, i);
    GrowViews(MemOf(k), areas, k.low, k.high, i, begin, end);
    ExtendedTops(MemOf(k), k.objs, areas, i, end);
    SetAreas(k, p, areas[i := areas[i].(end := end)], multiset{}, multiset{});
    assert Direct(k.objs, areas) ==> Direct(k.objs, k.spaces[p]);
  }

  lemma ExtendedTops(m: Mem, objs: Objs, areas: Areas, i: nat, end: nat)
    requires TopsOk(m, objs, areas) && i < |areas|
    ensures TopsOk(m, objs, areas[i := areas[i].(end := end)])
  {
    hide Bare;
    assert areas[i] in areas;
  }

  lemma OthersReflexive(m: Mem, spaces: seq<Areas>, spaces': seq<Areas>, p: nat)
    requires p < |spaces| == |spaces'| && spaces' == spaces[p := spaces'[p]]
    ensures OthersSame(m, m, spaces, spaces', p)
  {
  }

  /** do_brk moves the break down past a page boundary: it unmaps. */
  predicate Shrinks(high: nat, brk: nat, startBrk: nat, addr: nat)
    requires brk > 0
  {
    0 < addr <= high * PAGE_SIZE && startBrk <= addr && PageAbove(addr) < PageAbove(brk)
  }

  /** A shrink that unmaps the middle of an area splits it. */
  predicate BrkKeepsObjects(areas: Areas, high: nat, brk: nat, startBrk: nat, addr: nat)
    requires brk > 0
  {
    Shrinks(high, brk, startBrk, addr) ==> NoSplit(areas, PageAbove(addr), PageAbove(brk))
  }

  /** Unmapping what a shrink gives up does not go well. */
  ghost predicate ShrinkAstray(objs: Objs, spaces: seq<Areas>, p: nat, high: nat, brk: nat, startBrk: nat, addr: nat)
    requires p < |spaces| && brk > 0
  {
    Shrinks(high, brk, startBrk, addr) && !Removable(objs, spaces, p, PageAbove(addr), PageAbove(brk))
  }

  /**
   * do_brk on the address space of process `p`. `Unset` is the return of 0 that sets neither the
   * break nor its result, taken when the break stays within its page. Growth extends the area
   * that ends at the break, and nothing else; shrinking unmaps whole pages, and nothing else.
   */
  method Brk(k: Kernel, p: nat, brk: nat, startBrk: nat, addr: nat) returns (r: BrkResult, brk': nat)
    requires VmOk(k) && p < |k.spaces| && k.low * PAGE_SIZE <= startBrk <= brk <= k.high * PAGE_SIZE && brk > 0
    modifies k`pf, k`objs, k`resident, k`nextObj, k`spaces
    ensures r.BrkAstray? <==> ShrinkAstray(old(k.objs), old(k.spaces), p, k.high, brk, startBrk, addr)
    ensures !r.BrkAstray? ==>
      VmOk(k) && Kept(k) && |k.spaces| == |old(k.spaces)| && k.spaces == old(k.spaces)[p := k.spaces[p]]
    ensures !r.BrkAstray? ==> OthersSame(old(MemOf(k)), MemOf(k), old(k.spaces), k.spaces, p)
    ensures r.NoMemory? <==> BrkRefused(old(k.spaces)[p], k.high, brk, startBrk, addr)
    ensures r.Unset? <==>
      addr > 0 && !BrkRefused(old(k.spaces)[p], k.high, brk, startBrk, addr) && PageAbove(addr) == PageAbove(brk)
    ensures r.NullArea? <==>
      && addr > 0 && !BrkRefused(old(k.spaces)[p], k.high, brk, startBrk, addr)
      && PageAbove(addr) > PageAbove(brk) && At(old(k.spaces)[p], PageAbove(brk) - 1).None?
    ensures r.Break? ==> r.ret == (if addr == 0 then brk else addr)
    ensures brk' == if r.Break? && addr > 0 then addr else brk
    ensures !r.BrkAstray? && (!r.Break? || addr == 0) ==> k.spaces == old(k.spaces) && MemOf(k) == old(MemOf(k))
    ensures r.Break? && addr > 0 ==> PageAbove(addr) != PageAbove(brk)
    ensures r.Break? && addr > 0 && PageAbove(addr) < PageAbove(brk) ==>
      Cut(old(MemOf(k)), old(k.spaces)[p], MemOf(k), k.spaces[p], PageAbove(addr), PageAbove(brk))
    ensures r.Break? && addr > 0 && PageAbove(addr) > PageAbove(brk) ==>
      exists a :: Grew(old(MemOf(k)), old(k.spaces)[p], k.spaces[p], a, PageAbove(brk), PageAbove(addr))
        && MemOf(k) == old(MemOf(k))
    ensures r.Break? && BrkKeepsObjects(old(k.spaces)[p], k.high, brk, startBrk, addr) ==>
      Shrinks(k.high, brk, startBrk, addr) ==> SameTops(old(k.spaces)[p], k.spaces[p])
    ensures !r.BrkAstray? && BrkKeepsObjects(old(k.spaces)[p], k.high, brk, startBrk, addr) ==>
      Unsplit(old(k.objs), old(k.spaces)) ==> Unsplit(k.objs, k.spaces)
  {
    hide HoldsRefs, MemOf, ViewIn, RangeFree, Grew, Cut, Unsplit, Alike, OthersSame, NoSplit, At, Removable, SameTops;
    OthersReflexive(MemOf(k), k.spaces, k.spaces, p);
    AllAlike(MemOf(k));
    if addr == 0 {
      return Break(brk), brk;
    }
    if addr > k.high * PAGE_SIZE {
      return NoMemory, brk;
    }
    if addr < startBrk {
      return NoMemory, brk;
    }
    var begin, end := PageAbove(brk), PageAbove(addr);
    if begin != end {
      if end < begin {
        var ok := Unmap(k, p, end, begin - end);
        if !ok {
          return BrkAstray, brk;
        }
        return Break(addr), addr;
      } else {
        var area := Lookup(k.spaces[p], begin - 1);
        SpaceIsOk(k, p);
        var empty := IsRangeEmpty(k.spaces[p], begin, end - begin, k.low, k.high);
        if empty {
          if area.None? {
            return NullArea, brk;
          }
          assert Covers(k.spaces[p][area.value], begin - 1);
          ExtendArea(k, p, area.value, begin, end);
          OthersReflexive(MemOf(k), old(k.spaces), k.spaces, p);
          return Break(addr), addr;
        } else {
          return NoMemory, brk;
        }
      }
    }
    return Unset, brk;
  }

  lemma SpaceIsOk(k: Kernel, p: nat)
    requires VmOk(k) && p < |k.spaces|
    ensures SpaceOk(k.spaces[p], k.low, k.high)
  {
  }
}
