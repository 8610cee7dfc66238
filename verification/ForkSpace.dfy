/** do_fork over shadow objects refines the eager machine, which copies every private page. */
module ForkSpace {
  import opened Lists
  import opened Chains
  import opened VmState
  import opened PageLookup
  import opened Objects
  import opened AreaList
  import opened AddressSpace
  import opened Removal
  import opened Sharing
  import opened Mapping
  import opened EagerCopy
  import opened CopyOnWrite

  /** `b` maps the same pages as `a`, and its object is now like `a`'s was. */
  ghost predicate Twin(m: Mem, a: VmArea, m': Mem, b: VmArea) {
    b == a.(obj := b.obj) && Alike(m, a.obj, m', b.obj)
  }

  ghost predicate Twins(m: Mem, areas: Areas, m': Mem, areas': Areas) {
    |areas'| == |areas| && forall i :: 0 <= i < |areas| ==> Twin(m, areas[i], m', areas'[i])
  }

  lemma {:induction false} TwinAt(m: Mem, areas: Areas, m': Mem, areas': Areas, pn: nat)
    requires Twins(m, areas, m', areas')
    ensures At(areas', pn).Some? <==> At(areas, pn).Some?
    ensures At(areas, pn).Some? ==> Twin(m, At(areas, pn).value, m', At(areas', pn).value)
  {
    hide Alike;
    if areas != [] {
      assert Twin(m, areas[0], m', areas'[0]);
      TwinAt(m, areas[1..], m', areas'[1..], pn);
    }
  }

  lemma TwinView(m: Mem, areas: Areas, m': Mem, areas': Areas, pn: nat)
    requires Twins(m, areas, m', areas')
    ensures ViewIn(m', areas', pn) == ViewIn(m, areas, pn)
  {
    hide ReadIn, Twins, At, End, Bare;
    TwinAt(m, areas, m', areas', pn);
  }

  /** In the middle of do_fork, with `done` the areas of the child that have their object. */
  ghost predicate Forking(k: Kernel, done: Areas, unsplit: bool)
    reads k
  {
    && HoldsRefs(k, RefsOf(done)) && TopsOk(MemOf(k), k.objs, done)
    && (unsplit ==> Unsplit(k.objs, k.spaces + [done]))
  }

  twostate predicate KeepsAll(k: Kernel)
    reads k`pf, k`objs, k`resident
  {
    forall x :: x in old(k.objs) ==> x in k.objs && Alike(old(MemOf(k)), x, MemOf(k), x)
  }

  lemma ForkRefs(spaces: seq<Areas>, p: nat, i: nat, done: Areas, first: ObjId, second: ObjId)
    requires p < |spaces| && i < |spaces[p]|
    ensures var a := spaces[p][i];
      && a.obj in AllRefs(spaces)
      && AllRefs(spaces[p := spaces[p][i := a.(obj := first)]]) + RefsOf(done + [a.(obj := second)])
         == AllRefs(spaces) + RefsOf(done) - multiset{a.obj} + multiset{first, second}
  {
    hide AllRefs, RefsOf;
    var a := spaces[p][i];
    var part := [a.(obj := first)];
    assert Replace(spaces[p], i, part) == spaces[p][i := part[0]];
    ReplaceRefs(spaces, p, i, part);
    SingleRef(part[0]);
    RefsConcat(done, [a.(obj := second)]);
    SingleRef(a.(obj := second));
    AreaRefs(spaces, p, a);
  }

  lemma AllTopsAppend(m: Mem, objs: Objs, spaces: seq<Areas>, done: Areas)
    ensures AllTops(m, objs, spaces + [done]) <==> AllTops(m, objs, spaces) && TopsOk(m, objs, done)
  {
    hide TopsOk;
    var all := spaces + [done];
    assert all[|spaces|] == done && forall r :: 0 <= r < |spaces| ==> all[r] == spaces[r];
  }

  /** The areas of the parent and of the child after the step, and where they come from. */
  lemma ForkedFrom(spaces: seq<Areas>, p: nat, i: nat, done: Areas, first: ObjId, second: ObjId, r: nat, b: VmArea)
    requires p < |spaces| && i < |spaces[p]| && r <= |spaces|
    requires var a := spaces[p][i];
      b in (spaces[p := spaces[p][i := a.(obj := first)]] + [done + [a.(obj := second)]])[r]
    ensures var a := spaces[p][i]; b in (spaces + [done])[r] || (b.private == a.private && b.obj in {first, second})
    ensures var a := spaces[p][i];
      b.obj in AllRefs(spaces[p := spaces[p][i := a.(obj := first)]]) + RefsOf(done + [a.(obj := second)])
  {
    hide AllRefs, RefsOf;
    var a := spaces[p][i];
    var spaces', done' := spaces[p := spaces[p][i := a.(obj := first)]], done + [a.(obj := second)];
    if r == |spaces| {
      RefsMember(done', b);
    } else {
      AreaRefs(spaces', r, b);
    }
  }

  lemma ForkTops(m: Mem, objs: Objs, m': Mem, objs': Objs, spaces: seq<Areas>, p: nat, i: nat, done: Areas,
                 first: ObjId, second: ObjId)
    requires p < |spaces| && i < |spaces[p]| && AllTops(m, objs, spaces + [done])
    requires Conserved(LinksOf(objs), ExtOf(objs), AllRefs(spaces) + RefsOf(done))
    requires var a := spaces[p][i]; a.obj in objs && PushedOver(objs, objs', a.obj, objs[a.obj].bottom, first, second)
    requires forall x :: x in objs ==> Alike(m, x, m', x)
    requires var a := spaces[p][i]; Alike(m, a.obj, m', first) && Alike(m, a.obj, m', second)
    ensures var a := spaces[p][i];
      AllTops(m', objs', spaces[p := spaces[p][i := a.(obj := first)]] + [done + [a.(obj := second)]])
  {
    hide AllRefs, RefsOf, Conserved, LinksOf, ExtOf, TopOk, Alike, PushedOver;
    var a := spaces[p][i];
    var all, all' := spaces + [done], spaces[p := spaces[p][i := a.(obj := first)]] + [done + [a.(obj := second)]];
    ForkRefs(spaces, p, i, done, first, second);
    assert TopsOk(m, objs, all[p]) && a in all[p];
    forall r, b: VmArea | 0 <= r < |all| && b in all'[r]
      ensures b in all[r] || (b.private == a.private && b.obj in {first, second})
      ensures b.obj in AllRefs(spaces) + RefsOf(done) - multiset{a.obj} + multiset{first, second}
    {
      ForkedFrom(spaces, p, i, done, first, second, r, b);
    }
    PushedTops(m, objs, m', objs', a, objs[a.obj].bottom, first, second, AllRefs(spaces) + RefsOf(done), all, all');
  }

  lemma PushedBottoms(m: Mem, objs: Objs, m': Mem, objs': Objs, o: ObjId, first: ObjId, second: ObjId)
    requires o in objs && PushedOver(objs, objs', o, objs[o].bottom, first, second) && objs[o].kind == Shadow
    requires m.links == LinksOf(objs) && m'.links == LinksOf(objs') && forall x :: x in objs ==> BottomOk(objs, x)
    requires forall x :: x in objs ==> Alike(m, x, m', x)
    requires Alike(m, o, m', first) && Alike(m, o, m', second)
    ensures forall x :: x in objs' ==> BottomOk(objs', x)
  {
    hide End, LinksOf, Bare, ReadIn, HeldIn;
    assert BottomOk(objs, o);
    forall x | x in objs'
      ensures BottomOk(objs', x)
    {
      if x in objs { assert BottomOk(objs, x) && Alike(m, x, m', x); }
    }
  }

  /** The new shadows take mmo_bottom_obj from the object below them. */
  lemma ForkRooted(objs: Objs, next: ObjId, m: Mem, objs': Objs, next': ObjId, m': Mem, o: ObjId, first: ObjId,
                   second: ObjId)
    requires o in objs && PushedOver(objs, objs', o, objs[o].bottom, first, second) && objs[o].kind == Shadow
    requires Rooted(objs, next)
    requires KeptTo(objs, next, m, objs', next', m') && m.links == LinksOf(objs) && m'.links == LinksOf(objs')
    requires Alike(m, o, m', first) && Alike(m, o, m', second)
    ensures Rooted(objs', next')
  {
    hide Rooted, KeptTo, LinksOf, End, Bare, ReadIn, HeldIn, HasList;
    PushedLists(objs, objs', o, objs[o].bottom, first, second);
    assert next <= next' by { NextGrows(objs, next, m, objs', next', m'); }
    assert RootedAt(objs, next, o) by { RootedIs(objs, next, o); }
    ForkLists(objs, objs', o, first, second);
    RootedKept(objs, next, m, objs', next', m');
  }

  lemma NextGrows(objs: Objs, next: ObjId, m: Mem, objs': Objs, next': ObjId, m': Mem)
    requires KeptTo(objs, next, m, objs', next', m')
    ensures next <= next'
  {
    hide Alike;
  }

  lemma RootedIs(objs: Objs, next: ObjId, x: ObjId)
    requires Rooted(objs, next)
    ensures RootedAt(objs, next, x)
  {
    hide RootedAt;
  }

  /** The shadows of a fork lead where the object below them leads. */
  lemma ForkLists(objs: Objs, objs': Objs, o: ObjId, first: ObjId, second: ObjId)
    requires o in objs && PushedOver(objs, objs', o, objs[o].bottom, first, second) && objs[o].kind == Shadow
    ensures first in objs' && second in objs' && HasList(objs', first) == HasList(objs', second) == HasList(objs, o)
  {
  }

  lemma ForkUnsplit(m: Mem, objs: Objs, m': Mem, objs': Objs, spaces: seq<Areas>, p: nat, i: nat, done: Areas,
                    first: ObjId, second: ObjId)
    requires p < |spaces| && i < |spaces[p]| && spaces[p][i].private && AllTops(m, objs, spaces + [done])
    requires Unsplit(objs, spaces + [done])
    requires var a := spaces[p][i];
      a.obj in objs && objs[a.obj].kind == Shadow && PushedOver(objs, objs', a.obj, objs[a.obj].bottom, first, second)
    requires m.links == LinksOf(objs) && m'.links == LinksOf(objs')
    requires forall x :: x in objs ==> Alike(m, x, m', x)
    requires var a := spaces[p][i]; Alike(m, a.obj, m', first) && Alike(m, a.obj, m', second)
    ensures var a := spaces[p][i];
      Unsplit(objs', spaces[p := spaces[p][i := a.(obj := first)]] + [done + [a.(obj := second)]])
  {
    hide LinksOf, Alike, BottomOk, Bare;
    var a := spaces[p][i];
    var all, all' := spaces + [done], spaces[p := spaces[p][i := a.(obj := first)]] + [done + [a.(obj := second)]];
    PushedBottoms(m, objs, m', objs', a.obj, first, second);
    forall r | 0 <= r < |all'|
      ensures Direct(objs', all'[r])
    {
      assert Direct(objs, all[r]) && TopsOk(m, objs, all[r]);
      forall b: VmArea | b in all'[r] && !b.private
        ensures b in all[r]
      {
      }
    }
  }

  /**
   * A private area: two shadows over its object, one for each process. They lead to a list
   * exactly when the object does.
   */
  method ForkPrivate(k: Kernel, p: nat, i: nat, ghost done: Areas, ghost unsplit: bool) returns (second: ObjId)
    requires Forking(k, done, unsplit) && p < |k.spaces| && i < |k.spaces[p]| && k.spaces[p][i].private
    modifies k`objs, k`nextObj, k`spaces
    ensures |k.spaces| == |old(k.spaces)| && |k.spaces[p]| == |old(k.spaces)[p]|
    ensures k.spaces == old(k.spaces)[p := old(k.spaces)[p][i := k.spaces[p][i]]]
    ensures Forking(k, done + [old(k.spaces)[p][i].(obj := second)], unsplit) && KeepsAll(k)
    ensures var a := old(k.spaces)[p][i];
      Twin(old(MemOf(k)), a, MemOf(k), k.spaces[p][i]) && Twin(old(MemOf(k)), a, MemOf(k), a.(obj := second))
    ensures ListsStay(old(k.objs), k.objs) && old(k.spaces)[p][i].obj in old(k.objs) && k.spaces[p][i].obj in k.objs
    ensures HasList(k.objs, k.spaces[p][i].obj) == HasList(old(k.objs), old(k.spaces)[p][i].obj)
  {
    hide MemOk, Conserved, AllRefs, RefsOf, LinksOf, ExtOf, ContentsOf, AllTops, TopsOk, TopOk, Unsplit, Alike,
      SpaceOk, Rooted, HasList, PushedOver, KeptTo;
    ghost var m := MemOf(k);
    var a := k.spaces[p][i];
    var o := a.obj;
    ghost var refs := AllRefs(k.spaces) + RefsOf(done);
    ForkRefs(k.spaces, p, i, done, 0, 0);
    TopAt(k, RefsOf(done), p, a);
    assert o in refs;
    TopAlone(m, k.objs, refs, a);
    AllTopsAppend(m, k.objs, k.spaces, done);
    var first;
    first, second := PushTwo(k, o, false, refs);
    ForkRefs(k.spaces, p, i, done, first, second);
    ghost var done' := done + [a.(obj := second)];
    PushedLists(old(k.objs), k.objs, o, old(k.objs[o].bottom), first, second);
    ForkLists(old(k.objs), k.objs, o, first, second);
    KeptAlike(old(k.objs), old(k.nextObj), m, k.objs, k.nextObj, MemOf(k), o, old(k.objs[o].bottom), first, second);
    ForkRooted(old(k.objs), old(k.nextObj), m, k.objs, k.nextObj, MemOf(k), o, first, second);
    ForkTops(m, old(k.objs), MemOf(k), k.objs, k.spaces, p, i, done, first, second);
    if unsplit {
      ForkUnsplit(m, old(k.objs), MemOf(k), k.objs, k.spaces, p, i, done, first, second);
    }
    SpaceTwin(k.spaces[p], i, first, k.low, k.high);
    k.spaces := k.spaces[p := k.spaces[p][i := a.(obj := first)]];
    AllTopsAppend(MemOf(k), k.objs, k.spaces, done');
  }

  lemma SpaceTwin(areas: Areas, i: nat, o: ObjId, low: nat, high: nat)
    requires i < |areas| && SpaceOk(areas, low, high)
    ensures SpaceOk(areas[i := areas[i].(obj := o)], low, high)
  {
  }

  /** Another reference to the object of a shared area leaves the tops of all areas good. */
  lemma RecountTops(m: Mem, objs: Objs, all: seq<Areas>, p: nat, a: VmArea, n: int)
    requires AllTops(m, objs, all) && p < |all| && a in all[p] && !a.private && a.obj in objs
    requires Conserved(LinksOf(objs), ExtOf(objs), AllRefs(all))
    ensures AllTops(m, objs[a.obj := objs[a.obj].(refcount := n)], all)
  {
    hide Conserved, LinksOf, ExtOf, AllRefs, Bare;
    forall r, b | 0 <= r < |all| && b in all[r]
      ensures TopOk(m, objs[a.obj := objs[a.obj].(refcount := n)], b)
    {
      assert TopsOk(m, objs, all[r]) && TopOk(m, objs, b);
      if b.private && b.obj == a.obj {
        AreaRefs(all, r, b);
        TopAlone(m, objs, AllRefs(all), b);
        OneArea(all, p, a, r, b);
      }
    }
  }

  lemma RecountUnsplit(objs: Objs, o: ObjId, n: int, all: seq<Areas>)
    requires o in objs && Unsplit(objs, all) && LinksOf(objs[o := objs[o].(refcount := n)]) == LinksOf(objs)
    ensures Unsplit(objs[o := objs[o].(refcount := n)], all)
  {
    hide LinksOf, End;
    var objs' := objs[o := objs[o].(refcount := n)];
    forall x | x in objs'
      ensures BottomOk(objs', x)
    {
      assert BottomOk(objs, x);
    }
    forall r | 0 <= r < |all|
      ensures Direct(objs', all[r])
    {
      assert Direct(objs, all[r]);
    }
  }

  lemma RecountRooted(objs: Objs, next: ObjId, o: ObjId, n: int)
    requires o in objs && Rooted(objs, next) && LinksOf(objs[o := objs[o].(refcount := n)]) == LinksOf(objs)
    ensures Rooted(objs[o := objs[o].(refcount := n)], next)
  {
    hide LinksOf, End;
    var objs' := objs[o := objs[o].(refcount := n)];
    forall x
      ensures RootedAt(objs', next, x)
    {
      assert RootedAt(objs, next, x);
    }
  }

  /** Whether an object leads to a list is as it was. */
  ghost predicate ListsStay(objs: Objs, objs': Objs) {
    forall x :: x in objs ==> x in objs' && HasList(objs', x) == HasList(objs, x)
  }

  lemma DoneAppend(m: Mem, objs: Objs, spaces: seq<Areas>, p: nat, done: Areas, a: VmArea, unsplit: bool)
    requires AllTops(m, objs, spaces) && TopsOk(m, objs, done) && p < |spaces| && a in spaces[p]
    requires unsplit ==> Unsplit(objs, spaces + [done])
    ensures TopsOk(m, objs, done + [a]) && (unsplit ==> Unsplit(objs, spaces + [done + [a]]))
  {
    hide TopOk, BottomOk;
    assert TopsOk(m, objs, spaces[p]);
    if unsplit {
      var all, all' := spaces + [done], spaces + [done + [a]];
      assert Direct(objs, all[p]) && Direct(objs, all[|spaces|]);
      forall r | 0 <= r < |all'|
        ensures Direct(objs, all'[r])
      {
        assert Direct(objs, all[r]);
      }
    }
  }

  /** A shared area: the child's area gets a reference to the same object. */
  method ForkShared(k: Kernel, p: nat, i: nat, ghost done: Areas, ghost unsplit: bool) returns (o: ObjId)
    requires Forking(k, done, unsplit) && p < |k.spaces| && i < |k.spaces[p]| && !k.spaces[p][i].private
    modifies k`objs
    ensures Forking(k, done + [k.spaces[p][i].(obj := o)], unsplit) && KeepsAll(k)
    ensures var a := k.spaces[p][i];
      Twin(old(MemOf(k)), a, MemOf(k), a) && Twin(old(MemOf(k)), a, MemOf(k), a.(obj := o))
    ensures ListsStay(old(k.objs), k.objs) && k.spaces[p][i].obj in old(k.objs)
  {
    hide MemOk, Conserved, AllRefs, RefsOf, LinksOf, ExtOf, ContentsOf, AllTops, TopsOk, TopOk, Unsplit, Alike,
      SpacesOk, Rooted;
    ghost var a, m := k.spaces[p][i], MemOf(k);
    o := k.spaces[p][i].obj;
    TopAt(k, RefsOf(done), p, a);
    ghost var refs, all := AllRefs(k.spaces) + RefsOf(done), k.spaces + [done];
    AllRefsAppend(k.spaces, done);
    AllTopsAppend(m, k.objs, k.spaces, done);
    assert all[p] == k.spaces[p];
    RecountTops(m, k.objs, all, p, a, k.objs[o].refcount + 1);
    Ref(k, o, refs);
    RecountRooted(old(k.objs), k.nextObj, o, k.objs[o].refcount);
    RefsConcat(done, [a]);
    SingleRef(a);
    assert refs + multiset{o} == AllRefs(k.spaces) + RefsOf(done + [a]);
    AllTopsAppend(m, k.objs, k.spaces, done);
    if unsplit {
      RecountUnsplit(old(k.objs), o, k.objs[o].refcount, all);
    }
    DoneAppend(m, k.objs, k.spaces, p, done, a, unsplit);
    AllAlike(m);
    assert a.(obj := o) == a;
  }

  // The whole loop

  lemma TwinsStep(m0: Mem, orig: Areas, m: Mem, areas: Areas, m': Mem, areas': Areas, i: nat)
    requires Twins(m0, orig, m, areas) && i < |areas| && |areas'| == |areas| && areas' == areas[i := areas'[i]]
    requires Twin(m, areas[i], m', areas'[i])
    requires forall b :: b in areas ==> Alike(m, b.obj, m', b.obj)
    ensures Twins(m0, orig, m', areas')
  {
    hide Alike;
    forall j | 0 <= j < |areas|
      ensures Twin(m0, orig[j], m', areas'[j])
    {
      assert Twin(m0, orig[j], m, areas[j]);
      AlikeStep(m0, orig[j].obj, m, areas[j].obj, m', areas'[j].obj);
    }
  }

  lemma TwinsGrow(m0: Mem, orig: Areas, m: Mem, done: Areas, m': Mem, b: VmArea, c: VmArea)
    requires |done| < |orig| && Twins(m0, orig[..|done|], m, done)
    requires Twin(m0, orig[|done|], m, b) && Twin(m, b, m', c)
    requires forall b :: b in done ==> Alike(m, b.obj, m', b.obj)
    ensures Twins(m0, orig[..|done| + 1], m', done + [c])
  {
    hide Alike;
    forall j | 0 <= j <= |done|
      ensures Twin(m0, orig[j], m', (done + [c])[j])
    {
      if j < |done| {
        assert Twin(m0, orig[..|done|][j], m, done[j]);
        AlikeStep(m0, orig[j].obj, m, done[j].obj, m', done[j].obj);
      } else {
        AlikeStep(m0, orig[j].obj, m, b.obj, m', c.obj);
      }
    }
  }

  ghost predicate KeptFrom(k: Kernel, objs0: Objs, m0: Mem)
    reads k`pf, k`objs, k`resident
  {
    forall x :: x in objs0 ==> x in k.objs && Alike(m0, x, MemOf(k), x)
  }

  /** The loop of do_fork: `orig` is the parent's areas, the rest the state at the start. */
  ghost predicate ForkInv(k: Kernel, p: nat, objs0: Objs, m0: Mem, orig: Areas, done: Areas, unsplit: bool)
    reads k
  {
    && KeptFrom(k, objs0, m0)
    && Forking(k, done, unsplit) && p < |k.spaces| && |done| <= |orig|
    && Twins(m0, orig, MemOf(k), k.spaces[p])
    && Twins(m0, orig[..|done|], MemOf(k), done)
  }

  lemma DoneLive(k: Kernel, done: Areas, unsplit: bool)
    requires Forking(k, done, unsplit)
    ensures forall r, b :: 0 <= r < |k.spaces| && b in k.spaces[r] ==> b.obj in k.objs
    ensures forall b :: b in done ==> b.obj in k.objs
  {
    assert forall r :: 0 <= r < |k.spaces| ==> TopsOk(MemOf(k), k.objs, k.spaces[r]);
  }

  lemma KeptOnward(objs0: Objs, m0: Mem, objs1: Objs, m1: Mem, objs2: Objs, m2: Mem)
    requires forall x :: x in objs0 ==> x in objs1 && Alike(m0, x, m1, x)
    requires forall x :: x in objs1 ==> x in objs2 && Alike(m1, x, m2, x)
    ensures forall x :: x in objs0 ==> x in objs2 && Alike(m0, x, m2, x)
  {
    hide Alike;
    forall x | x in objs0
      ensures Alike(m0, x, m2, x)
    {
      AlikeStep(m0, x, m1, x, m2, x);
    }
  }

  /**
   * One round of the loop. The child's area goes on the list that the parent's area leads to;
   * the result is false exactly when there is none.
   */
  method ForkArea(k: Kernel, p: nat, private: bool, ghost objs0: Objs, ghost m0: Mem, ghost orig: Areas,
                  ghost done: Areas, ghost unsplit: bool, i: nat) returns (ok: bool, o: ObjId)
    requires ForkInv(k, p, objs0, m0, orig, done, unsplit) && i == |done| < |orig| && private == orig[i].private
    modifies k`objs, k`nextObj, k`spaces
    ensures i < |old(k.spaces)[p]| && old(k.spaces)[p][i].obj in old(k.objs)
    ensures (ok <==> HasList(old(k.objs), old(k.spaces)[p][i].obj))
    ensures ok ==> |k.spaces| == |old(k.spaces)| && k.spaces == old(k.spaces)[p := k.spaces[p]]
    ensures ok ==>
      |k.spaces[p]| == |old(k.spaces)[p]| && forall j :: i < j < |k.spaces[p]| ==> k.spaces[p][j] == old(k.spaces)[p][j]
    ensures ok ==>
      ForkInv(k, p, objs0, m0, orig, done + [orig[i].(obj := o)], unsplit) && ListsStay(old(k.objs), k.objs)
  {
    hide Forking, Twin, MemOf, Alike, HasList;
    DoneLive(k, done, unsplit);
    ghost var a, m, areas, objs := k.spaces[p][i], MemOf(k), k.spaces[p], k.objs;
    TwinBounds(m0, orig[i], m, a);
    if private {
      o := ForkPrivate(k, p, i, done, unsplit);
    } else {
      o := ForkShared(k, p, i, done, unsplit);
    }
    DoneLive(k, done + [a.(obj := o)], unsplit);
    ok := HasList(k.objs, k.spaces[p][i].obj);
    if !ok {
      return;
    }
    KeptOnward(objs0, m0, objs, m, k.objs, MemOf(k));
    TwinsStep(m0, orig, m, areas, MemOf(k), k.spaces[p], i);
    TwinsGrow(m0, orig, m, done, MemOf(k), a, a.(obj := o));
    hide Twins;
  }

  lemma TwinBounds(m0: Mem, a: VmArea, m: Mem, b: VmArea)
    requires Twin(m0, a, m, b)
    ensures b == a.(obj := b.obj)
  {
  }

  /** vmmap_clone: the areas without their objects. */
  method CloneMap(areas: Areas, unset: ObjId) returns (clone: Areas)
    ensures |clone| == |areas| && forall i :: 0 <= i < |areas| ==> clone[i] == areas[i].(obj := unset)
  {
    clone := [];
    for i := 0 to |areas|
      invariant |clone| == i && forall j :: 0 <= j < i ==> clone[j] == areas[j].(obj := unset)
    {
      clone := clone + [areas[i].(obj := unset)];
    }
  }

  lemma ForkStart(k: Kernel, p: nat)
    requires Ready(k) && p < |k.spaces|
    ensures ForkInv(k, p, k.objs, MemOf(k), k.spaces[p], [], Unsplit(k.objs, k.spaces))
  {
    hide MemOk, AllRefs, Conserved, AllTops, SpacesOk, Alike, Unsplit, MemOf;
    var orig := k.spaces[p];
    assert orig[..0] == [] && RefsOf([]) == multiset{};
    AllAlike(MemOf(k));
    if Unsplit(k.objs, k.spaces) {
      UnsplitAppend(k.objs, k.spaces);
    }
  }

  lemma UnsplitAppend(objs: Objs, spaces: seq<Areas>)
    requires Unsplit(objs, spaces)
    ensures Unsplit(objs, spaces + [[]])
  {
    hide BottomOk;
    var all := spaces + [[]];
    forall r | 0 <= r < |all|
      ensures Direct(objs, all[r])
    {
      assert r < |spaces| ==> Direct(objs, spaces[r]);
    }
  }

  /** The area found through the child's start page is the one at the same place. */
  lemma SamePlace(areas: Areas, low: nat, high: nat, i: nat, j: nat)
    requires SpaceOk(areas, low, high) && i < |areas| && j < |areas|
    requires At(areas, areas[i].start) == Some(areas[j])
    ensures i == j
  {
  }

  lemma CloneOk(m0: Mem, orig: Areas, m: Mem, clone: Areas, areas: Areas, low: nat, high: nat)
    requires Twins(m0, orig, m, clone) && Twins(m0, orig, m, areas) && SpaceOk(areas, low, high)
    ensures SpaceOk(clone, low, high)
  {
    hide Alike;
    forall i | 0 <= i < |areas|
      ensures clone[i].start == areas[i].start && clone[i].end == areas[i].end
    {
      assert Twin(m0, orig[i], m, clone[i]) && Twin(m0, orig[i], m, areas[i]);
    }
    hide Twins;
  }

  /** Everybody sees what they saw, and the child what the parent sees. */
  lemma ForkedViews(m: Mem, m0: Mem, spaces: seq<Areas>, p: nat, clone: Areas, spaces0: seq<Areas>, r: nat)
    requires p < |spaces0| == |spaces| && spaces == spaces0[p := spaces[p]] && r <= |spaces|
    requires Twins(m0, spaces0[p], m, spaces[p]) && Twins(m0, spaces0[p], m, clone)
    requires forall r, b :: 0 <= r < |spaces0| && b in spaces0[r] ==> Alike(m0, b.obj, m, b.obj)
    ensures forall pn: nat ::
      ViewIn(m, (spaces + [clone])[r], pn) == ViewIn(m0, spaces0[if r == |spaces| then p else r], pn)
  {
    hide Twins, ViewIn, Alike, SameViews;
    if r == |spaces| {
      forall pn: nat
        ensures ViewIn(m, clone, pn) == ViewIn(m0, spaces0[p], pn)
      {
        TwinView(m0, spaces0[p], m, clone, pn);
      }
    } else if r == p {
      forall pn: nat
        ensures ViewIn(m, spaces[p], pn) == ViewIn(m0, spaces0[p], pn)
      {
        TwinView(m0, spaces0[p], m, spaces[p], pn);
      }
    } else {
      ViewsKept(m0, m, spaces0[r]);
      SameViewsAll(m0, m, spaces0[r]);
    }
  }

  lemma SameViewsAll(m: Mem, m': Mem, areas: Areas)
    requires SameViews(m, m', areas)
    ensures forall pn: nat :: ViewIn(m', areas, pn) == ViewIn(m, areas, pn)
  {
    hide ViewIn;
  }

  lemma ViewsToCells(m: Mem, areas: Areas, m': Mem, areas': Areas)
    requires forall pn: nat :: ViewIn(m', areas', pn) == ViewIn(m, areas, pn)
    ensures CellsOf(m', areas') == CellsOf(m, areas)
  {
    hide ViewIn;
  }

  lemma ForkedApart(m: Mem, m0: Mem, spaces': seq<Areas>, p: nat, spaces0: seq<Areas>)
    requires p < |spaces0| && |spaces'| == |spaces0| + 1 && Apart(m0, spaces0)
    requires forall r, pn: nat :: 0 <= r < |spaces'| ==>
      ViewIn(m, spaces'[r], pn) == ViewIn(m0, spaces0[if r == |spaces0| then p else r], pn)
    ensures Apart(m, spaces')
  {
    hide ViewIn;
    forall r, pn: nat | 0 <= r < |spaces'| && ViewIn(m, spaces'[r], pn).Some?
      ensures exists s, qn: nat :: 0 <= s < |spaces0| && LikeView(ViewIn(m, spaces'[r], pn), ViewIn(m0, spaces0[s], qn))
    {
      var s := if r == |spaces0| then p else r;
      assert LikeView(ViewIn(m, spaces'[r], pn), ViewIn(m0, spaces0[s], pn));
    }
    ApartKept(m0, spaces0, m, spaces');
  }

  /** Ends do_fork: the child's map, now complete, joins the others. */
  method AddSpace(k: Kernel, p: nat, clone: Areas, ghost objs0: Objs, ghost m0: Mem, ghost spaces0: seq<Areas>,
                  ghost unsplit: bool)
    requires p < |spaces0| && ForkInv(k, p, objs0, m0, spaces0[p], clone, unsplit) && |clone| == |spaces0[p]|
    requires |k.spaces| == |spaces0| && k.spaces == spaces0[p := k.spaces[p]] && Apart(m0, spaces0)
    requires forall r, b :: 0 <= r < |spaces0| && b in spaces0[r] ==> b.obj in objs0
    requires forall o :: Names(SpacesOf(m0, spaces0), o) ==> o in objs0
    modifies k`spaces
    ensures Ready(k) && k.spaces == old(k.spaces) + [clone] && (unsplit ==> Unsplit(k.objs, k.spaces))
    ensures MeaningOf(k) == EagerCopy.Fork(Meaning(m0, spaces0), p)
  {
    hide MemOk, Conserved, AllRefs, RefsOf, AllTops, Twins, SpaceOk, MemOf, Meaning, Unsplit, Apart, Alike, Names,
      SpacesOf, ViewIn, CellsOf;
    ghost var orig, m := spaces0[p], MemOf(k);
    assert orig[..|clone|] == orig;
    AllRefsAppend(k.spaces, clone);
    assert AllRefs(k.spaces + [clone]) + multiset{} == AllRefs(k.spaces) + RefsOf(clone);
    CloneOk(m0, orig, m, clone, k.spaces[p], k.low, k.high);
    AllTopsAppend(m, k.objs, k.spaces, clone);
    forall r | 0 <= r <= |spaces0|
      ensures forall pn: nat ::
        ViewIn(m, (k.spaces + [clone])[r], pn) == ViewIn(m0, spaces0[if r == |spaces0| then p else r], pn)
      ensures CellsOf(m, (k.spaces + [clone])[r]) == CellsOf(m0, spaces0[if r == |spaces0| then p else r])
    {
      ForkedViews(m, m0, k.spaces, p, clone, spaces0, r);
      ViewsToCells(m0, spaces0[if r == |spaces0| then p else r], m, (k.spaces + [clone])[r]);
    }
    ForkedApart(m, m0, k.spaces + [clone], p, spaces0);
    NamedKept(objs0, m0, k.objs, m, SpacesOf(m0, spaces0));
    k.spaces := k.spaces + [clone];
    ForkMeaning(m0, m, spaces0, k.spaces, p);
  }

  /** The first `i` areas have led to a list, and the others are as they were. */
  ghost predicate Forked(objs0: Objs, orig: Areas, i: nat, objs: Objs, areas: Areas) {
    && i <= |orig| == |areas| && ListsStay(objs0, objs)
    && (forall j :: 0 <= j < |orig| ==> orig[j].obj in objs0)
    && (forall j :: 0 <= j < i ==> HasList(objs0, orig[j].obj))
    && (forall j :: i <= j < |orig| ==> areas[j] == orig[j])
  }

  lemma NoneForked(objs: Objs, areas: Areas)
    requires forall a :: a in areas ==> a.obj in objs
    ensures Forked(objs, areas, 0, objs, areas)
  {
  }

  lemma NextForked(objs0: Objs, orig: Areas, i: nat, objs: Objs, areas: Areas)
    requires Forked(objs0, orig, i, objs, areas) && i < |orig|
    ensures |areas| == |orig| && areas[i] == orig[i] && orig[i].obj in objs0 && orig[i].obj in objs
    ensures HasList(objs, orig[i].obj) == HasList(objs0, orig[i].obj)
    ensures !HasList(objs0, orig[i].obj) ==> Unlisted(objs0, orig)
  {
    hide HasList;
    assert orig[i] in orig;
  }

  lemma ForkedOn(objs0: Objs, orig: Areas, i: nat, objs: Objs, areas: Areas, objs': Objs, areas': Areas)
    requires Forked(objs0, orig, i, objs, areas) && i < |orig| && orig[i].obj in objs0 && HasList(objs0, orig[i].obj)
    requires ListsStay(objs, objs') && |areas'| == |areas| && forall j :: i < j < |areas| ==> areas'[j] == areas[j]
    ensures Forked(objs0, orig, i + 1, objs', areas')
  {
    hide HasList;
  }

  lemma AllForked(objs0: Objs, orig: Areas, objs: Objs, areas: Areas)
    requires Forked(objs0, orig, |orig|, objs, areas)
    ensures !Unlisted(objs0, orig)
  {
    hide HasList;
  }

  /**
   * do_fork: the child sees the memory of the parent at this moment and, by the steps of the
   * eager machine, neither sees any later private store of the other. The result is none exactly
   * when some area of the parent leads to no list.
   */
  method Fork(k: Kernel, p: nat) returns (child: Option<nat>)
    requires Ready(k) && p < |k.spaces|
    modifies k`objs, k`nextObj, k`spaces
    ensures child.None? <==> Unlisted(old(k.objs), old(k.spaces)[p])
    ensures child.Some? ==> Ready(k) && child.value == |old(k.spaces)| && |k.spaces| == child.value + 1
    ensures child.Some? ==> MeaningOf(k) == EagerCopy.Fork(old(MeaningOf(k)), p)
    ensures child.Some? && Unsplit(old(k.objs), old(k.spaces)) ==> Unsplit(k.objs, k.spaces)
  {
    hide ForkInv, HoldsRefs, Meaning, MemOf, At, SpaceOk, Apart, Unsplit, Names, SpacesOf, HasList, Forked, ListsStay,
      Unlisted;
    ghost var objs0, m0, orig, unsplit := k.objs, MemOf(k), k.spaces[p], Unsplit(k.objs, k.spaces);
    LiveAreas(k);
    ForkStart(k, p);
    NoneForked(k.objs, k.spaces[p]);
    var clone := CloneMap(k.spaces[p], 0);
    var i := 0;
    assert clone[..0] == [];
    while i < |clone|
      invariant 0 <= i <= |clone| == |orig|
      invariant |k.spaces| == |old(k.spaces)| && k.spaces == old(k.spaces)[p := k.spaces[p]]
      invariant ForkInv(k, p, objs0, m0, orig, clone[..i], unsplit)
      invariant forall j :: i <= j < |clone| ==> clone[j] == orig[j].(obj := 0)
      invariant Forked(objs0, orig, i, k.objs, k.spaces[p])
    {
      ghost var objs, areas := k.objs, k.spaces[p];
      NextForked(objs0, orig, i, objs, areas);
      ForkPlaces(k, p, objs0, m0, orig, clone[..i], unsplit);
      var j := Lookup(k.spaces[p], clone[i].start);
      SamePlace(k.spaces[p], k.low, k.high, i, j.value);
      var ok, o := ForkArea(k, p, clone[i].private, objs0, m0, orig, clone[..i], unsplit, j.value);
      if !ok {
        return None;
      }
      ForkedOn(objs0, orig, i, objs, areas, k.objs, k.spaces[p]);
      assert clone[..i] + [orig[i].(obj := o)] == clone[i := clone[i].(obj := o)][..i + 1];
      clone := clone[i := clone[i].(obj := o)];
      i := i + 1;
    }
    assert clone[..i] == clone;
    AllForked(objs0, orig, k.objs, k.spaces[p]);
    child := Some(|k.spaces|);
    AddSpace(k, p, clone, objs0, m0, old(k.spaces), unsplit);
  }

  /** The areas of the parent keep their places while fork replaces their objects. */
  lemma ForkPlaces(k: Kernel, p: nat, objs0: Objs, m0: Mem, orig: Areas, done: Areas, unsplit: bool)
    requires ForkInv(k, p, objs0, m0, orig, done, unsplit) && |done| < |orig|
    ensures SpaceOk(k.spaces[p], k.low, k.high) && |k.spaces[p]| == |orig|
    ensures k.spaces[p][|done|].start == orig[|done|].start
    ensures At(k.spaces[p], orig[|done|].start).Some?
  {
    hide MemOk, Conserved, AllTops, TopsOk, Unsplit, Alike, KeptFrom;
    assert Twin(m0, orig[|done|], MemOf(k), k.spaces[p][|done|]);
    assert Covers(k.spaces[p][|done|], orig[|done|].start);
  }
}
