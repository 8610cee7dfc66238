/** Address spaces over the object store: mapping, unmapping and the program break. */
module AddressSpace {
  import opened Lists
  import opened Chains
  import opened VmState
  import opened PageLookup
  import opened Objects
  import opened AreaList

  // ---------------------------------------------------------------------------------------------
  // References held by areas

  ghost function RefsOf(areas: Areas): (r: multiset<ObjId>) {
    if areas == [] then multiset{} else multiset{areas[0].obj} + RefsOf(areas[1..])
  }

  ghost function AllRefs(spaces: seq<Areas>): (r: multiset<ObjId>) {
    if spaces == [] then multiset{} else RefsOf(spaces[0]) + AllRefs(spaces[1..])
  }

  lemma {:induction false} RefsConcat(a: Areas, b: Areas)
    ensures RefsOf(a + b) == RefsOf(a) + RefsOf(b)
  {
    if a == [] {
      assert a + b == b;
    } else {
      assert (a + b)[1..] == a[1..] + b;
      RefsConcat(a[1..], b);
    }
  }

  lemma {:induction false} RefsMember(areas: Areas, a: VmArea)
    requires a in areas
    ensures a.obj in RefsOf(areas)
  {
    if a != areas[0] {
      RefsMember(areas[1..], a);
    }
  }

  lemma {:induction false} AllRefsUpdate(spaces: seq<Areas>, p: nat, areas: Areas)
    requires p < |spaces|
    ensures RefsOf(spaces[p]) <= AllRefs(spaces)
    ensures AllRefs(spaces[p := areas]) + RefsOf(spaces[p]) == AllRefs(spaces) + RefsOf(areas)
  {
    hide RefsOf;
    if p == 0 {
      assert spaces[p := areas][1..] == spaces[1..];
    } else {
      assert spaces[p := areas][1..] == spaces[1..][p - 1 := areas];
      AllRefsUpdate(spaces[1..], p - 1, areas);
      AddFirst(RefsOf(spaces[0]), AllRefs(spaces[1..][p - 1 := areas]), RefsOf(spaces[p]), AllRefs(spaces[1..]),
               RefsOf(areas));
    }
  }

  lemma AddFirst(x: multiset<ObjId>, a: multiset<ObjId>, b: multiset<ObjId>, c: multiset<ObjId>, d: multiset<ObjId>)
    requires a + b == c + d
    ensures (x + a) + b == (x + c) + d
  {
    assert (x + a) + b == x + (a + b);
    assert (x + c) + d == x + (c + d);
  }

  lemma {:induction false} AllRefsAppend(spaces: seq<Areas>, areas: Areas)
    ensures AllRefs(spaces + [areas]) == AllRefs(spaces) + RefsOf(areas)
  {
    if spaces == [] {
      assert spaces + [areas] == [areas];
    } else {
      assert (spaces + [areas])[1..] == spaces[1..] + [areas];
      AllRefsAppend(spaces[1..], areas);
    }
  }

  lemma {:induction false} RefHasArea(areas: Areas, o: ObjId) returns (a: VmArea)
    requires o in RefsOf(areas)
    ensures a in areas && a.obj == o
  {
    if areas[0].obj == o {
      a := areas[0];
    } else {
      a := RefHasArea(areas[1..], o);
    }
  }

  lemma {:induction false} RefHasSpace(spaces: seq<Areas>, o: ObjId) returns (p: nat, a: VmArea)
    requires o in AllRefs(spaces)
    ensures p < |spaces| && a in spaces[p] && a.obj == o
  {
    if o in RefsOf(spaces[0]) {
      p := 0;
      a := RefHasArea(spaces[0], o);
    } else {
      p, a := RefHasSpace(spaces[1..], o);
      p := p + 1;
    }
  }

  // ---------------------------------------------------------------------------------------------
  // The invariant, and what a process sees

  /**
   * A private area has a shadow on top that only this area refers to. Above the last object of a
   * shared area no shadow holds a page, so that all who share it read and write the same pages.
   */
  ghost predicate TopOk(m: Mem, objs: Objs, a: VmArea) {
    && a.obj in objs
    && if a.private then objs[a.obj].kind == Shadow && objs[a.obj].refcount == objs[a.obj].nrespages + 1
       else Bare(m.links, m.contents, a.obj)
  }

  ghost predicate TopsOk(m: Mem, objs: Objs, areas: Areas) {
    forall a :: a in areas ==> TopOk(m, objs, a)
  }

  ghost predicate AllTops(m: Mem, objs: Objs, spaces: seq<Areas>) {
    forall p :: 0 <= p < |spaces| ==> TopsOk(m, objs, spaces[p])
  }

  ghost predicate SpacesOk(spaces: seq<Areas>, low: nat, high: nat) {
    forall p :: 0 <= p < |spaces| ==> SpaceOk(spaces[p], low, high)
  }

  /** If mmo_bottom_obj leads to a list, then to that of the last object of the chain. */
  ghost predicate RootedAt(objs: Objs, next: ObjId, x: ObjId) {
    x in objs && objs[x].kind == Shadow ==>
      objs[x].bottom < next && (HasList(objs, x) ==> objs[x].bottom == End(LinksOf(objs), x))
  }

  ghost predicate Rooted(objs: Objs, next: ObjId) {
    forall x {:trigger RootedAt(objs, next, x)} :: RootedAt(objs, next, x)
  }

  /** Frames, objects and areas agree while code holds the references `held` besides the areas'. */
  ghost predicate HoldsRefs(k: Kernel, held: multiset<ObjId>)
    reads k
  {
    && MemOk(k)
    && Conserved(LinksOf(k.objs), ExtOf(k.objs), AllRefs(k.spaces) + held)
    && AllTops(MemOf(k), k.objs, k.spaces)
    && SpacesOk(k.spaces, k.low, k.high)
    && Rooted(k.objs, k.nextObj)
  }

  ghost predicate VmOk(k: Kernel)
    reads k
  {
    HoldsRefs(k, multiset{})
  }

  datatype PageView = PageView(prot: Prot, private: bool, root: ObjId, objpage: nat, contents: Page)

  /** What mapping `areas` gives at page `pn`: protection, last object, page of it, and bytes read. */
  ghost function ViewIn(m: Mem, areas: Areas, pn: nat): (v: Option<PageView>) {
    match At(areas, pn)
    case None => None
    case Some(a) =>
      var q := pn - a.start + a.off;
      Some(PageView(a.prot, a.private, End(m.links, a.obj), q, ReadIn(m, a.obj, q)))
  }

  lemma ViewConcat(m: Mem, a: Areas, b: Areas, pn: nat)
    ensures ViewIn(m, a + b, pn) == if ViewIn(m, a, pn).Some? then ViewIn(m, a, pn) else ViewIn(m, b, pn)
  {
    AtConcat(a, b, pn);
  }

  /** Objects in both stores have the same kind, the same pages and the same place in their chain. */
  ghost predicate SameKinds(objs: Objs, objs': Objs) {
    forall x :: x in objs && x in objs' ==> objs'[x] == objs[x].(refcount := objs'[x].refcount)
  }

  /** Objects that exist before and after are unchanged; new objects are new and have no pages. */
  ghost predicate KeptTo(objs: Objs, next: ObjId, m: Mem, objs': Objs, next': ObjId, m': Mem) {
    && (forall x :: x in objs && x in objs' ==> Alike(m, x, m', x))
    && (forall x :: x in objs' && x !in objs ==> x >= next && objs'[x].respages == [])
    && next' >= next && SameKinds(objs, objs')
  }

  twostate predicate Kept(k: Kernel)
    reads k`pf, k`objs, k`nextObj, k`resident
  {
    KeptTo(old(k.objs), old(k.nextObj), old(MemOf(k)), k.objs, k.nextObj, MemOf(k))
  }

  /** What is kept in two steps is kept. */
  lemma KeptOn(objs: Objs, next: ObjId, m: Mem, objs1: Objs, next1: ObjId, m1: Mem, objs2: Objs, next2: ObjId, m2: Mem)
    requires KeptTo(objs, next, m, objs1, next1, m1) && KeptTo(objs1, next1, m1, objs2, next2, m2)
    requires forall x :: x in objs ==> x < next
    ensures KeptTo(objs, next, m, objs2, next2, m2)
  {
    hide Alike;
    forall x | x in objs && x in objs2
      ensures Alike(m, x, m2, x)
    {
      AlikeStep(m, x, m1, x, m2, x);
    }
  }

  lemma KeptSame(objs: Objs, next: ObjId, m: Mem)
    ensures KeptTo(objs, next, m, objs, next, m)
  {
    AllAlike(m);
    hide Alike;
  }

  lemma RootedKept(objs: Objs, next: ObjId, m: Mem, objs': Objs, next': ObjId, m': Mem)
    requires KeptTo(objs, next, m, objs', next', m') && m.links == LinksOf(objs) && m'.links == LinksOf(objs')
    requires Rooted(objs, next) && forall x :: x in objs' && x !in objs ==> RootedAt(objs', next', x)
    ensures Rooted(objs', next')
  {
    hide LinksOf, End, ReadIn, HeldIn, Bare;
    forall x
      ensures RootedAt(objs', next', x)
    {
      if x in objs && x in objs' {
        assert RootedAt(objs, next, x) && Alike(m, x, m', x);
      }
    }
  }

  /** Whether an object leads to a list does not change while it exists. */
  lemma ListKept(objs: Objs, next: ObjId, m: Mem, objs': Objs, next': ObjId, m': Mem, x: ObjId)
    requires KeptTo(objs, next, m, objs', next', m') && m.links == LinksOf(objs) && m'.links == LinksOf(objs')
    requires Rooted(objs, next) && ObjsOk(objs', next') && x in objs && x in objs'
    ensures HasList(objs', x) == HasList(objs, x) && Freeable(objs', x) == Freeable(objs, x)
  {
    hide End, ReadIn, HeldIn, Bare;
    assert RootedAt(objs, next, x) && Alike(m, x, m', x);
    EndOnChain(m'.links, x);
    OnChainLive(m'.links, x, End(m'.links, x));
  }

  /** `areas` looks the same in both states of the memory. */
  ghost predicate SameViews(m: Mem, m': Mem, areas: Areas) {
    forall pn: nat :: ViewIn(m', areas, pn) == ViewIn(m, areas, pn)
  }

  /** Every other process sees what it saw. */
  ghost predicate OthersSame(m: Mem, m': Mem, spaces: seq<Areas>, spaces': seq<Areas>, p: nat) {
    && |spaces'| == |spaces|
    && forall r :: 0 <= r < |spaces| && r != p ==> spaces'[r] == spaces[r] && SameViews(m, m', spaces[r])
  }

  lemma ViewsKept(m: Mem, m': Mem, areas: Areas)
    requires forall a :: a in areas ==> Alike(m, a.obj, m', a.obj)
    ensures SameViews(m, m', areas)
  {
  }

  lemma AllAlike(m: Mem)
    ensures forall x :: Alike(m, x, m, x)
  {
  }

  lemma SpaceAt(k: Kernel, p: nat, i: nat)
    requires VmOk(k) && p < |k.spaces| && i < |k.spaces[p]|
    ensures k.low <= k.spaces[p][i].start < k.spaces[p][i].end <= k.high
  {
  }

  lemma OthersKept(objs: Objs, next: ObjId, m: Mem, objs': Objs, next': ObjId, m': Mem, spaces: seq<Areas>,
                   spaces': seq<Areas>, p: nat)
    requires KeptTo(objs, next, m, objs', next', m') && p < |spaces| == |spaces'| && spaces' == spaces[p := spaces'[p]]
    requires forall r, a :: 0 <= r < |spaces| && a in spaces[r] ==> a.obj in objs
    requires forall r, a :: 0 <= r < |spaces'| && a in spaces'[r] ==> a.obj in objs'
    ensures OthersSame(m, m', spaces, spaces', p)
  {
    hide KeptTo, SameViews;
    forall r | 0 <= r < |spaces| && r != p
      ensures spaces'[r] == spaces[r] && SameViews(m, m', spaces[r])
    {
      assert spaces'[r] == spaces[r];
      KeptViews(objs, next, m, objs', next', m', spaces[r]);
    }
  }

  lemma KeptViews(objs: Objs, next: ObjId, m: Mem, objs': Objs, next': ObjId, m': Mem, areas: Areas)
    requires KeptTo(objs, next, m, objs', next', m') && forall a :: a in areas ==> a.obj in objs && a.obj in objs'
    ensures SameViews(m, m', areas)
  {
    hide Alike, SameViews;
    ViewsKept(m, m', areas);
  }

  lemma BelowNext(k: Kernel)
    requires MemOk(k)
    ensures forall x :: x in k.objs ==> x < k.nextObj
  {
  }

  lemma ObjsBelowNext(k: Kernel)
    requires VmOk(k)
    ensures forall x :: x in k.objs ==> x < k.nextObj
    ensures ObjsOk(k.objs, k.nextObj)
  {
    hide FramesOk, Quiet;
  }

  lemma {:induction false} HeldAreLive(k: Kernel, held: multiset<ObjId>)
    requires HoldsRefs(k, held)
    ensures forall o :: o in held ==> o in k.objs
    ensures forall p, a :: 0 <= p < |k.spaces| && a in k.spaces[p] ==> a.obj in AllRefs(k.spaces) && a.obj in k.objs
  {
    hide TopOk;
    forall p, a | 0 <= p < |k.spaces| && a in k.spaces[p]
      ensures a.obj in AllRefs(k.spaces) && a.obj in k.objs
    {
      RefsMember(k.spaces[p], a);
      AllRefsUpdate(k.spaces, p, []);
      assert a.obj in AllRefs(k.spaces) + held;
    }
    assert forall o :: o in held ==> o in AllRefs(k.spaces) + held;
  }

  /** An object exists exactly while the chain of some area of some process reaches it. */
  lemma LiveIffMapped(k: Kernel, x: ObjId)
    requires VmOk(k)
    ensures x in k.objs <==>
      exists p, a :: 0 <= p < |k.spaces| && a in k.spaces[p] && OnChain(LinksOf(k.objs), a.obj, x)
  {
    hide FramesOk, Quiet, AllTops, SpacesOk, AllRefs;
    var links, refs := LinksOf(k.objs), AllRefs(k.spaces);
    assert refs + multiset{} == refs;
    LiveIffReachable(links, ExtOf(k.objs), refs, x);
    HeldAreLive(k, multiset{});
    if x in k.objs {
      assert x in links;
      var o :| o in refs && OnChain(links, o, x);
      var p, a := RefHasSpace(k.spaces, o);
    }
    if p, a :| 0 <= p < |k.spaces| && a in k.spaces[p] && OnChain(links, a.obj, x) {
      assert a.obj in refs && x in links;
    }
  }

  // ---------------------------------------------------------------------------------------------
  // Keeping the tops of areas

  /** `y` is no more referred to than `x` was. */
  ghost predicate NotMoreHeld(objs: Objs, x: ObjId, objs': Objs, y: ObjId) {
    && x in objs && y in objs' && objs'[y].kind == objs[x].kind
    && objs'[y].refcount - objs'[y].nrespages <= objs[x].refcount - objs[x].nrespages
  }

  lemma TopKept(m: Mem, objs: Objs, m': Mem, objs': Objs, refs: multiset<ObjId>, a: VmArea, b: VmArea)
    requires TopOk(m, objs, a) && b.private == a.private && b.obj in objs'
    requires a.private ==> NotMoreHeld(objs, a.obj, objs', b.obj) && Conserved(LinksOf(objs'), ExtOf(objs'), refs)
    requires Alike(m, a.obj, m', b.obj)
    ensures TopOk(m', objs', b)
  {
    if a.private {
      ExtAt(objs', refs, b.obj);
    }
  }

  // ---------------------------------------------------------------------------------------------
  // Giving back a reference

  lemma SurvivorTops(m: Mem, objs: Objs, m': Mem, objs': Objs, refs: multiset<ObjId>, spaces: seq<Areas>)
    requires AllTops(m, objs, spaces) && Conserved(LinksOf(objs'), ExtOf(objs'), refs)
    requires forall x :: x in objs' ==> NotMoreHeld(objs, x, objs', x) && Alike(m, x, m', x)
    requires forall p, a :: 0 <= p < |spaces| && a in spaces[p] ==> a.obj in objs'
    ensures AllTops(m', objs', spaces)
  {
    hide TopOk, NotMoreHeld, Alike, Conserved, LinksOf, ExtOf;
    forall p, a | 0 <= p < |spaces| && a in spaces[p]
      ensures TopOk(m', objs', a)
    {
      assert TopsOk(m, objs, spaces[p]);
      TopKept(m, objs, m', objs', refs, a, a);
    }
  }

  lemma RefsAreLive(objs: Objs, spaces: seq<Areas>)
    requires Conserved(LinksOf(objs), ExtOf(objs), AllRefs(spaces) + multiset{})
    ensures forall p, a :: 0 <= p < |spaces| && a in spaces[p] ==> a.obj in objs
  {
    forall p, a | 0 <= p < |spaces| && a in spaces[p]
      ensures a.obj in objs
    {
      RefsMember(spaces[p], a);
      AllRefsUpdate(spaces, p, []);
      assert a.obj in AllRefs(spaces) + multiset{} && a.obj in LinksOf(objs);
    }
  }

  lemma PutLowers(objs: Objs, objs': Objs, frames: Frames, frames': Frames, refs: multiset<ObjId>,
                  refs': multiset<ObjId>, o: ObjId, x: ObjId)
    requires Conserved(LinksOf(objs), ExtOf(objs), refs) && Conserved(LinksOf(objs'), ExtOf(objs'), refs')
    requires ExtOf(objs') == Drop(ExtOf(objs), LinksOf(objs), o) && Survives(frames, objs, frames', objs') && x in objs'
    ensures NotMoreHeld(objs, x, objs', x)
  {
    DropLowers(ExtOf(objs), LinksOf(objs), o, x);
    ExtAt(objs', refs', x);
    ExtAt(objs, refs, x);
  }

  /** Every object that no reference of `refs` leads to can be freed. */
  ghost predicate Droppable(objs: Objs, refs: multiset<ObjId>) {
    forall x :: x in objs && !Reached(LinksOf(objs), refs, x) ==> Freeable(objs, x)
  }

  lemma DropExact(objs: Objs, next: ObjId, refs: multiset<ObjId>, o: ObjId, refs': multiset<ObjId>)
    requires ObjsOk(objs, next) && Conserved(LinksOf(objs), ExtOf(objs), refs) && o in refs
    requires refs' == refs - multiset{o}
    ensures forall x :: x in objs ==> (x in Drop(ExtOf(objs), LinksOf(objs), o) <==> Reached(LinksOf(objs), refs', x))
    ensures Freeing(objs, Drop(ExtOf(objs), LinksOf(objs), o).Keys) <==> Droppable(objs, refs')
  {
    hide Reached, Drop, Freeable, Conserved;
    forall x | x in objs
      ensures x in Drop(ExtOf(objs), LinksOf(objs), o) <==> Reached(LinksOf(objs), refs', x)
    {
      DropLeavesReached(LinksOf(objs), ExtOf(objs), refs, o, x);
    }
  }

  /**
   * A put by the virtual-memory code, which holds `o` besides the areas. It leaves the objects
   * that the areas lead to; the result is false exactly when a page of another object cannot be
   * freed.
   */
  method DropRef(k: Kernel, o: ObjId) returns (ok: bool)
    requires HoldsRefs(k, multiset{o})
    modifies k`pf, k`objs, k`resident
    ensures ok <==> Droppable(old(k.objs), AllRefs(k.spaces))
    ensures ok ==> VmOk(k) && Kept(k) && k.objs.Keys <= old(k.objs).Keys
    ensures ok ==>
      forall x :: x in old(k.objs) ==> (x in k.objs <==> Reached(LinksOf(old(k.objs)), AllRefs(k.spaces), x))
    ensures o in old(k.objs) && (ok ==> (o !in k.objs <==> old(k.objs[o].refcount == k.objs[o].nrespages + 1)))
  {
    hide FramesOk, ObjsOk, Quiet, LinksOf, ExtOf, ContentsOf, Conserved, AllRefs, SpacesOk, AllTops, Alike,
      NotMoreHeld, Drop, Rooted, Reached, Freeing, Droppable;
    HeldAreLive(k, multiset{o});
    ghost var refs := AllRefs(k.spaces) + multiset{o};
    assert refs - multiset{o} == AllRefs(k.spaces);
    DropExact(k.objs, k.nextObj, refs, o, AllRefs(k.spaces));
    ok := Put(k, o, refs);
    if !ok {
      return;
    }
    ExtKeys(k.objs);
    assert refs - multiset{o} == AllRefs(k.spaces) + multiset{};
    forall x | x in k.objs
      ensures Alike(old(MemOf(k)), x, MemOf(k), x) && NotMoreHeld(old(k.objs), x, k.objs, x)
    {
      SurvivesAlike(old(k.pf), old(k.objs), old(k.resident), k.pf, k.objs, k.resident, k.nextObj, x);
      PutLowers(old(k.objs), k.objs, old(k.pf.frames), k.pf.frames, refs, AllRefs(k.spaces) + multiset{}, o, x);
    }
    RefsAreLive(k.objs, k.spaces);
    SurvivorTops(old(MemOf(k)), old(k.objs), MemOf(k), k.objs, AllRefs(k.spaces) + multiset{}, k.spaces);
    LastPut(old(k.objs), k.objs, refs, o);
    RootedKept(old(k.objs), k.nextObj, old(MemOf(k)), k.objs, k.nextObj, MemOf(k));
  }

  lemma LastPut(objs: Objs, objs': Objs, refs: multiset<ObjId>, o: ObjId)
    requires Conserved(LinksOf(objs), ExtOf(objs), refs) && o in objs
    requires ExtOf(objs') == Drop(ExtOf(objs), LinksOf(objs), o)
    ensures o !in objs' <==> objs[o].refcount == objs[o].nrespages + 1
  {
    ExtAt(objs, refs, o);
    assert o in objs' <==> o in ExtOf(objs');
  }

  // ---------------------------------------------------------------------------------------------
  // Changing the area list

  lemma Accounting(spaces: seq<Areas>, p: nat, areas: Areas, held: multiset<ObjId>, held': multiset<ObjId>)
    requires p < |spaces| && RefsOf(areas) + held' == RefsOf(spaces[p]) + held
    ensures AllRefs(spaces[p := areas]) + held' == AllRefs(spaces) + held
  {
    hide RefsOf, AllRefs;
    AllRefsUpdate(spaces, p, areas);
    var n, n', r, r' := AllRefs(spaces), AllRefs(spaces[p := areas]), RefsOf(spaces[p]), RefsOf(areas);
    forall o: ObjId
      ensures (n' + held')[o] == (n + held)[o]
    {
      assert (n' + r)[o] == (n + r')[o];
      assert (r' + held')[o] == (r + held)[o];
    }
  }

  /** Replaces the area list of one process; the references it holds move to or from the caller. */
  method SetAreas(k: Kernel, p: nat, areas: Areas, ghost held: multiset<ObjId>, ghost held': multiset<ObjId>)
    requires HoldsRefs(k, held) && p < |k.spaces|
    requires RefsOf(areas) + held' == RefsOf(k.spaces[p]) + held
    requires SpaceOk(areas, k.low, k.high) && TopsOk(MemOf(k), k.objs, areas)
    modifies k`spaces
    ensures HoldsRefs(k, held') && k.spaces == old(k.spaces)[p := areas]
  {
    hide MemOk, Conserved, LinksOf, ExtOf, RefsOf, AllRefs, SpaceOk, TopsOk, MemOf;
    Accounting(k.spaces, p, areas, held, held');
    k.spaces := k.spaces[p := areas];
  }

  ghost function Replace(areas: Areas, i: nat, part: Areas): (r: Areas)
    requires i < |areas|
  {
    areas[..i] + part + areas[i + 1..]
  }

  lemma RefsReplace(areas: Areas, i: nat, part: Areas)
    requires i < |areas|
    ensures RefsOf(Replace(areas, i, part)) + multiset{areas[i].obj} == RefsOf(areas) + RefsOf(part)
  {
    assert areas == areas[..i] + [areas[i]] + areas[i + 1..];
    RefsConcat(areas[..i] + [areas[i]], areas[i + 1..]);
    RefsConcat(areas[..i], [areas[i]]);
    RefsConcat(areas[..i] + part, areas[i + 1..]);
    RefsConcat(areas[..i], part);
    assert RefsOf([areas[i]]) == multiset{areas[i].obj};
  }

  /** Parts that stay within the area they replace keep the list well formed. */
  lemma SpaceReplace(areas: Areas, i: nat, part: Areas, low: nat, high: nat)
    requires SpaceOk(areas, low, high) && i < |areas| && SpaceOk(part, areas[i].start, areas[i].end)
    ensures SpaceOk(Replace(areas, i, part), low, high)
  {
  }

  // ---------------------------------------------------------------------------------------------
  // vmmap_remove

  lemma ReplaceAccounting(areas: Areas, i: nat, part: Areas, held: multiset<ObjId>, held': multiset<ObjId>)
    requires i < |areas| && RefsOf(part) + held' == multiset{areas[i].obj} + held
    ensures RefsOf(Replace(areas, i, part)) + held' == RefsOf(areas) + held
  {
    RefsReplace(areas, i, part);
    hide RefsOf;
    var n, n', r, r' := RefsOf(areas), RefsOf(Replace(areas, i, part)), multiset{areas[i].obj}, RefsOf(part);
    forall o: ObjId
      ensures (n' + held')[o] == (n + held)[o]
    {
      assert (n' + r)[o] == (n + r')[o];
      assert (r' + held')[o] == (r + held)[o];
    }
  }

  /** Replaces one area by parts of it. */
  method ReplaceArea(k: Kernel, p: nat, i: nat, part: Areas, ghost held: multiset<ObjId>, ghost held': multiset<ObjId>)
    requires HoldsRefs(k, held) && p < |k.spaces| && i < |k.spaces[p]|
    requires RefsOf(part) + held' == multiset{k.spaces[p][i].obj} + held
    requires SpaceOk(part, k.spaces[p][i].start, k.spaces[p][i].end) && TopsOk(MemOf(k), k.objs, part)
    modifies k`spaces
    ensures HoldsRefs(k, held')
    ensures k.spaces == old(k.spaces)[p := Replace(old(k.spaces)[p], i, part)]
  {
    hide MemOk, Conserved, RefsOf, AllRefs, SpaceOk, TopOk, MemOf;
    var areas := k.spaces[p];
    ReplaceAccounting(areas, i, part, held, held');
    SpaceReplace(areas, i, part, k.low, k.high);
    assert TopsOk(MemOf(k), k.objs, areas);
    SetAreas(k, p, areas[..i] + part + areas[i + 1..], held, held');
  }

  lemma SingleRef(a: VmArea)
    ensures RefsOf([a]) == multiset{a.obj}
  {
  }

  /** Case 4: the range contains the area. */
  method DropArea(k: Kernel, p: nat, i: nat) returns (ok: bool)
    requires VmOk(k) && p < |k.spaces| && i < |k.spaces[p]|
    modifies k`pf, k`objs, k`resident, k`spaces
    ensures k.spaces == old(k.spaces)[p := Replace(old(k.spaces)[p], i, [])]
    ensures ok <==> Droppable(old(k.objs), AllRefs(k.spaces))
    ensures ok ==> VmOk(k) && Kept(k) && k.objs.Keys <= old(k.objs).Keys
    ensures ok ==>
      forall x :: x in old(k.objs) ==> (x in k.objs <==> Reached(LinksOf(old(k.objs)), AllRefs(k.spaces), x))
    ensures ok ==> var o := old(k.spaces)[p][i].obj;
      o in old(k.objs) && (o !in k.objs <==> old(k.objs)[o].refcount == old(k.objs)[o].nrespages + 1)
  {
    hide MemOk, Conserved, AllRefs, MemOf, AllTops, Rooted, Droppable, Reached, LinksOf;
    var o := k.spaces[p][i].obj;
    ReplaceArea(k, p, i, [], multiset{}, multiset{o});
    ok := DropRef(k, o);
  }

  /**
   * Two fresh shadows over `o`, which an area pointed at until now: `o` gains a reference and
   * both references to it pass to the shadows. `self` makes the first shadow the bottom object.
   */
  method PushTwo(k: Kernel, o: ObjId, self: bool, ghost refs: multiset<ObjId>) returns (first: ObjId, second: ObjId)
    requires MemOk(k) && Conserved(LinksOf(k.objs), ExtOf(k.objs), refs) && o in refs && o in k.objs
    modifies k`objs, k`nextObj
    ensures MemOk(k) && Kept(k)
    ensures Conserved(LinksOf(k.objs), ExtOf(k.objs), refs - multiset{o} + multiset{first, second})
    ensures PushedOver(old(k.objs), k.objs, o, if self then first else old(k.objs[o].bottom), first, second)
    ensures first < second < k.nextObj
    ensures Alike(old(MemOf(k)), o, MemOf(k), first) && Alike(old(MemOf(k)), o, MemOf(k), second)
  {
    hide MemOk, Conserved, LinksOf, ExtOf, MemOf, Alike, KeptTo, PushedOver;
    BelowNext(k);
    var bottom := if self then k.nextObj else k.objs[o].bottom;
    ghost var m0 := MemOf(k);
    Ref(k, o, refs);
    first := PushShadow(k, o, bottom, refs + multiset{o});
    ghost var m1 := MemOf(k);
    second := PushShadow(k, o, bottom, refs + multiset{o} - multiset{o} + multiset{first});
    forall x | x in old(k.objs)
      ensures Alike(m0, x, MemOf(k), x)
    {
      AlikeStep(m0, x, m1, x, MemOf(k), x);
    }
    AlikeStep(m0, o, m1, first, MemOf(k), first);
    AlikeStep(m0, o, m1, o, MemOf(k), second);
    PushedIs(old(k.objs), k.objs, o, bottom, first, second);
    PushedKept(old(k.objs), old(k.nextObj), m0, k.objs, k.nextObj, MemOf(k), o, bottom, first, second);
    assert refs + multiset{o} - multiset{o} + multiset{first} - multiset{o} + multiset{second}
        == refs - multiset{o} + multiset{first, second};
  }

  lemma PushedIs(objs: Objs, objs': Objs, o: ObjId, bottom: ObjId, first: ObjId, second: ObjId)
    requires o in objs && first !in objs && second !in objs && first != second
    requires objs' == objs[o := objs[o].(refcount := objs[o].refcount + 1)]
      [first := MmObj(Shadow, 1, 0, [], Some(o), bottom)][second := MmObj(Shadow, 1, 0, [], Some(o), bottom)]
    ensures PushedOver(objs, objs', o, bottom, first, second)
  {
  }

  lemma PushedKept(objs: Objs, next: ObjId, m: Mem, objs': Objs, next': ObjId, m': Mem, o: ObjId, bottom: ObjId,
                   first: ObjId, second: ObjId)
    requires PushedOver(objs, objs', o, bottom, first, second) && next <= first && next <= second && next <= next'
    requires forall x :: x in objs ==> Alike(m, x, m', x)
    ensures KeptTo(objs, next, m, objs', next', m')
  {
    hide Alike;
  }

  lemma AlikeStep(m0: Mem, x: ObjId, m1: Mem, y: ObjId, m2: Mem, z: ObjId)
    requires Alike(m0, x, m1, y) && Alike(m1, y, m2, z)
    ensures Alike(m0, x, m2, z)
  {
    hide End, Bare;
  }

  /** `first` and `second` are new shadows over `o`, both with `bottom` as their bottom object. */
  ghost predicate PushedOver(objs: Objs, objs': Objs, o: ObjId, bottom: ObjId, first: ObjId, second: ObjId) {
    && o in objs && first !in objs && second !in objs && first != second
    && objs' == objs[o := objs[o].(refcount := objs[o].refcount + 1)]
         [first := MmObj(Shadow, 1, 0, [], Some(o), bottom)][second := MmObj(Shadow, 1, 0, [], Some(o), bottom)]
  }

  /** A private area refers to its shadow alone; no other area does, whoever else holds `held`. */
  lemma {:induction false} AloneOnTop(objs: Objs, refs: multiset<ObjId>, o: ObjId)
    requires Conserved(LinksOf(objs), ExtOf(objs), refs) && o in refs && o in objs
    requires objs[o].refcount == objs[o].nrespages + 1
    ensures refs[o] == 1 && forall s :: s in objs ==> objs[s].shadowed != Some(o)
  {
    ExtAt(objs, refs, o);
    assert Above(LinksOf(objs), o) == {};
    forall s | s in objs
      ensures objs[s].shadowed != Some(o)
    {
      assert s !in Above(LinksOf(objs), o);
    }
  }

  /** After the push, an area over anything but `o`, or over one of the shadows, has a good top. */
  lemma PushedTop(m: Mem, objs: Objs, m': Mem, objs': Objs, a: VmArea, bottom: ObjId, first: ObjId, second: ObjId,
                  b: VmArea)
    requires PushedOver(objs, objs', a.obj, bottom, first, second) && TopOk(m, objs, a)
    requires (b.private == a.private && b.obj in {first, second}) ||
      (TopOk(m, objs, b) && (b.private ==> b.obj != a.obj))
    requires forall x :: x in objs ==> Alike(m, x, m', x)
    requires Alike(m, a.obj, m', first) && Alike(m, a.obj, m', second)
    ensures TopOk(m', objs', b)
  {
    assert b.obj in objs ==> Alike(m, b.obj, m', b.obj);
  }

  /** The areas that point at `first` and `second`, and all those that were there, but not to `a`'s object alone. */
  lemma PushedTops(m: Mem, objs: Objs, m': Mem, objs': Objs, a: VmArea, bottom: ObjId, first: ObjId, second: ObjId,
                   refs: multiset<ObjId>, all: seq<Areas>, all': seq<Areas>)
    requires PushedOver(objs, objs', a.obj, bottom, first, second) && TopOk(m, objs, a)
    requires Conserved(LinksOf(objs), ExtOf(objs), refs) && a.obj in refs && AllTops(m, objs, all) && |all'| == |all|
    requires forall r, b :: 0 <= r < |all| && b in all'[r] ==>
      b in all[r] || (b.private == a.private && b.obj in {first, second})
    requires forall r, b :: 0 <= r < |all| && b in all'[r] ==> b.obj in refs - multiset{a.obj} + multiset{first, second}
    requires forall x :: x in objs ==> Alike(m, x, m', x)
    requires Alike(m, a.obj, m', first) && Alike(m, a.obj, m', second)
    ensures AllTops(m', objs', all')
  {
    hide Conserved, LinksOf, ExtOf, TopOk, Alike, PushedOver;
    forall r, b | 0 <= r < |all| && b in all'[r]
      ensures TopOk(m', objs', b)
    {
      if b in all[r] {
        assert TopsOk(m, objs, all[r]);
        if b.private && b.obj == a.obj {
          TopAlone(m, objs, refs, b);
          PushedIsNew(objs, objs', a.obj, bottom, first, second);
          assert false;
        }
      }
      PushedTop(m, objs, m', objs', a, bottom, first, second, b);
    }
  }

  lemma TopAlone(m: Mem, objs: Objs, refs: multiset<ObjId>, a: VmArea)
    requires TopOk(m, objs, a) && a.private && Conserved(LinksOf(objs), ExtOf(objs), refs) && a.obj in refs
    ensures a.obj in objs && objs[a.obj].kind == Shadow
    ensures refs[a.obj] == 1 && forall s :: s in objs ==> objs[s].shadowed != Some(a.obj)
  {
    AloneOnTop(objs, refs, a.obj);
  }

  lemma PushedIsNew(objs: Objs, objs': Objs, o: ObjId, bottom: ObjId, first: ObjId, second: ObjId)
    requires PushedOver(objs, objs', o, bottom, first, second)
    ensures first != o && second != o
  {
  }

  function Halves(a: VmArea, lo: nat, hi: nat, first: ObjId, second: ObjId): (part: Areas)
    requires a.start <= hi
  {
    [a.(end := lo, obj := first), a.(start := hi, off := a.off + hi - a.start, obj := second)]
  }

  lemma HalvesCount(a: VmArea, lo: nat, hi: nat, first: ObjId, second: ObjId)
    requires a.start <= hi
    ensures |Halves(a, lo, hi, first, second)| == 2 && Halves(a, lo, hi, first, second)[0].obj == first
  {
  }

  lemma HalvesOk(areas: Areas, i: nat, lo: nat, hi: nat, first: ObjId, second: ObjId, low: nat, high: nat)
    requires SpaceOk(areas, low, high) && i < |areas| && areas[i].start < lo <= hi < areas[i].end
    ensures RefsOf(Halves(areas[i], lo, hi, first, second)) == multiset{first, second}
    ensures SpaceOk(Replace(areas, i, Halves(areas[i], lo, hi, first, second)), low, high)
  {
    var part := Halves(areas[i], lo, hi, first, second);
    assert part == [part[0]] + [part[1]];
    RefsConcat([part[0]], [part[1]]);
    SingleRef(part[0]);
    SingleRef(part[1]);
    SpaceReplace(areas, i, part, low, high);
  }

  lemma ReplaceRefs(spaces: seq<Areas>, p: nat, i: nat, part: Areas)
    requires p < |spaces| && i < |spaces[p]|
    ensures AllRefs(spaces[p := Replace(spaces[p], i, part)]) ==
      AllRefs(spaces) - multiset{spaces[p][i].obj} + RefsOf(part)
  {
    hide RefsOf, AllRefs;
    var areas := Replace(spaces[p], i, part);
    AllRefsUpdate(spaces, p, areas);
    RefsReplace(spaces[p], i, part);
    RefsMember(spaces[p], spaces[p][i]);
    var n, n' := AllRefs(spaces), AllRefs(spaces[p := areas]);
    var r, r', o := RefsOf(spaces[p]), RefsOf(areas), multiset{spaces[p][i].obj};
    forall x: ObjId
      ensures n'[x] == (n - o + RefsOf(part))[x]
    {
      assert (n' + r)[x] == (n + r')[x];
      assert (r' + o)[x] == (r + RefsOf(part))[x];
    }
  }

  /** The areas of the other processes, and of this one but the area at `i`, are those there were. */
  lemma HalvesFrom(spaces: seq<Areas>, p: nat, i: nat, lo: nat, hi: nat, first: ObjId, second: ObjId, r: nat, b: VmArea)
    requires p < |spaces| && i < |spaces[p]| && spaces[p][i].start <= hi && r < |spaces|
    requires b in spaces[p := Replace(spaces[p], i, Halves(spaces[p][i], lo, hi, first, second))][r]
    ensures b in spaces[r] || (b.private == spaces[p][i].private && b.obj in {first, second})
  {
  }

  /**
   * Case 1: the range lies inside the area. Two shadows go over the object, one for each part.
   * mmobj_bottom_obj is taken of the first shadow before it shadows anything, so both shadows
   * get the first shadow as their mmo_bottom_obj. The new area goes on the list of the old
   * object; the result is false exactly when mmobj_bottom_vmas leads to none.
   */
  method SplitArea(k: Kernel, p: nat, i: nat, lo: nat, hi: nat) returns (ok: bool, first: ObjId, second: ObjId)
    requires VmOk(k) && p < |k.spaces| && i < |k.spaces[p]|
    requires k.spaces[p][i].start < lo <= hi < k.spaces[p][i].end
    modifies k`objs, k`nextObj, k`spaces
    ensures old(k.spaces)[p][i].obj in old(k.objs) && (ok <==> HasList(old(k.objs), old(k.spaces)[p][i].obj))
    ensures ok ==> VmOk(k) && Kept(k)
    ensures k.spaces ==
      old(k.spaces)[p := Replace(old(k.spaces)[p], i, Halves(old(k.spaces)[p][i], lo, hi, first, second))]
    ensures PushedOver(old(k.objs), k.objs, old(k.spaces)[p][i].obj, first, first, second)
    ensures first in k.objs && !HasList(k.objs, first) && second in k.objs && !HasList(k.objs, second) && first < second
    ensures ok ==> var o := old(k.spaces)[p][i].obj;
      Alike(old(MemOf(k)), o, MemOf(k), first) && Alike(old(MemOf(k)), o, MemOf(k), second)
  {
    hide MemOk, Conserved, AllRefs, LinksOf, ExtOf, ContentsOf, SpacesOk, Replace, Halves, AllTops, Alike, TopOk,
      PushedOver, KeptTo, Rooted;
    HeldAreLive(k, multiset{});
    var areas, a := k.spaces[p], k.spaces[p][i];
    ghost var refs := AllRefs(k.spaces);
    assert refs + multiset{} == refs;
    TopAt(k, multiset{}, p, a);
    first, second := PushTwo(k, a.obj, true, refs);
    SplitLists(k.spaces, p, i, lo, hi, first, second, k.low, k.high);
    k.spaces := k.spaces[p := SplitAt(areas, i, Halves(a, lo, hi, first, second))];
    PushedLists(old(k.objs), k.objs, a.obj, first, first, second);
    ok := HasList(k.objs, a.obj);
    if !ok {
      return;
    }
    PushedRooted(old(k.objs), old(k.nextObj), old(MemOf(k)), k.objs, k.nextObj, MemOf(k), a.obj, first, second);
    KeptAlike(old(k.objs), old(k.nextObj), old(MemOf(k)), k.objs, k.nextObj, MemOf(k), a.obj, first, first, second);
    PushedTops(old(MemOf(k)), old(k.objs), MemOf(k), k.objs, a, first, first, second, refs, old(k.spaces), k.spaces);
  }

  /** The shadows of a split lead to no list; whether another object does stays the same. */
  lemma PushedLists(objs: Objs, objs': Objs, o: ObjId, bottom: ObjId, first: ObjId, second: ObjId)
    requires PushedOver(objs, objs', o, bottom, first, second)
    ensures first in objs' && second in objs'
    ensures forall x :: x in objs ==> x in objs' && HasList(objs', x) == HasList(objs, x)
    ensures bottom == first ==> !HasList(objs', first) && !HasList(objs', second)
  {
  }

  lemma PushedRooted(objs: Objs, next: ObjId, m: Mem, objs': Objs, next': ObjId, m': Mem, o: ObjId, first: ObjId,
                     second: ObjId)
    requires PushedOver(objs, objs', o, first, first, second) && KeptTo(objs, next, m, objs', next', m')
    requires first < next'
    requires m.links == LinksOf(objs) && m'.links == LinksOf(objs') && Rooted(objs, next)
    ensures Rooted(objs', next')
  {
    hide Rooted, KeptTo, LinksOf, End;
    PushedLists(objs, objs', o, first, first, second);
    RootedKept(objs, next, m, objs', next', m');
  }

  /** The list with the parts in the place of the area. */
  function SplitAt(areas: Areas, i: nat, part: Areas): (r: Areas)
    requires i < |areas|
    ensures r == Replace(areas, i, part)
  {
    areas[..i] + part + areas[i + 1..]
  }

  lemma SplitLists(spaces: seq<Areas>, p: nat, i: nat, lo: nat, hi: nat, first: ObjId, second: ObjId, low: nat,
                   high: nat)
    requires p < |spaces| && i < |spaces[p]| && SpacesOk(spaces, low, high)
    requires spaces[p][i].start < lo <= hi < spaces[p][i].end
    ensures var a := spaces[p][i];
      var spaces' := spaces[p := Replace(spaces[p], i, Halves(a, lo, hi, first, second))];
      && SpacesOk(spaces', low, high)
      && AllRefs(spaces') + multiset{} == AllRefs(spaces) - multiset{a.obj} + multiset{first, second}
      && (forall r, b :: 0 <= r < |spaces| && b in spaces'[r] ==>
           b in spaces[r] || (b.private == a.private && b.obj in {first, second}))
      && (forall r, b :: 0 <= r < |spaces| && b in spaces'[r] ==>
           b.obj in AllRefs(spaces) - multiset{a.obj} + multiset{first, second})
  {
    hide AllRefs, RefsOf, Halves, Replace, SpaceOk;
    var areas, a := spaces[p], spaces[p][i];
    var part := Halves(a, lo, hi, first, second);
    var spaces' := spaces[p := Replace(areas, i, part)];
    assert SpaceOk(areas, low, high);
    HalvesOk(areas, i, lo, hi, first, second, low, high);
    ReplaceRefs(spaces, p, i, part);
    assert AllRefs(spaces') == AllRefs(spaces) - multiset{a.obj} + multiset{first, second};
    forall r, b: VmArea | 0 <= r < |spaces| && b in spaces'[r]
      ensures b in spaces[r] || (b.private == a.private && b.obj in {first, second})
      ensures b.obj in AllRefs(spaces')
    {
      HalvesFrom(spaces, p, i, lo, hi, first, second, r, b);
      AreaRefs(spaces', r, b);
    }
  }

  lemma KeptAlike(objs: Objs, next: ObjId, m: Mem, objs': Objs, next': ObjId, m': Mem, o: ObjId, bottom: ObjId,
                  first: ObjId, second: ObjId)
    requires PushedOver(objs, objs', o, bottom, first, second) && KeptTo(objs, next, m, objs', next', m')
    ensures forall x :: x in objs ==> x in objs' && Alike(m, x, m', x)
  {
    hide Alike;
  }

  lemma TopAt(k: Kernel, held: multiset<ObjId>, p: nat, a: VmArea)
    requires HoldsRefs(k, held) && p < |k.spaces| && a in k.spaces[p]
    ensures TopOk(MemOf(k), k.objs, a) && a.obj in k.objs
  {
    assert TopsOk(MemOf(k), k.objs, k.spaces[p]);
  }

  lemma AreaRefs(spaces: seq<Areas>, p: nat, a: VmArea)
    requires p < |spaces| && a in spaces[p]
    ensures a.obj in AllRefs(spaces)
  {
    RefsMember(spaces[p], a);
    AllRefsUpdate(spaces, p, []);
  }

  /** `part` shows what `whole` showed, except that the pages of [lo, hi) are gone. */
  ghost predicate Cut(m: Mem, whole: Areas, m': Mem, part: Areas, lo: nat, hi: nat) {
    forall pn: nat :: ViewIn(m', part, pn) == if lo <= pn < hi then None else ViewIn(m, whole, pn)
  }

  /** Cases 2 and 3: the area shrinks in place to [start, end), and its offset follows its start. */
  method TrimArea(k: Kernel, p: nat, i: nat, start: nat, end: nat)
    requires VmOk(k) && p < |k.spaces| && i < |k.spaces[p]|
    requires k.spaces[p][i].start <= start < end <= k.spaces[p][i].end
    modifies k`spaces
    ensures VmOk(k)
    ensures k.spaces == old(k.spaces)[p := Replace(old(k.spaces)[p], i, [Trimmed(old(k.spaces)[p][i], start, end)])]
  {
    hide MemOk, Conserved, RefsOf, AllRefs, MemOf, AllTops;
    var part := [Trimmed(k.spaces[p][i], start, end)];
    SingleRef(part[0]);
    TopAt(k, multiset{}, p, k.spaces[p][i]);
    ReplaceArea(k, p, i, part, multiset{}, multiset{});
  }

  function Trimmed(a: VmArea, start: nat, end: nat): (r: VmArea)
    requires a.start <= start
  {
    a.(off := a.off + start - a.start, start := start, end := end)
  }
}
