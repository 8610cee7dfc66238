/** vmmap_remove: unmapping a range of pages, and what a split leaves behind. */
module Removal {
  import opened Lists
  import opened Chains
  import opened VmState
  import opened PageLookup
  import opened Objects
  import opened AreaList
  import opened AddressSpace

  lemma HalvesCut(m: Mem, m': Mem, a: VmArea, lo: nat, hi: nat, first: ObjId, second: ObjId)
    requires a.start < lo <= hi < a.end
    requires Alike(m, a.obj, m', first) && Alike(m, a.obj, m', second)
    ensures Cut(m, [a], m', Halves(a, lo, hi, first, second), lo, hi)
  {
    var part := Halves(a, lo, hi, first, second);
    forall pn: nat
      ensures ViewIn(m', part, pn) == if lo <= pn < hi then None else ViewIn(m, [a], pn)
    {
      assert part[1..] == [part[1]];
      assert At(part[1..], pn) == if Covers(part[1], pn) then Some(part[1]) else None;
    }
  }

  lemma TrimmedCut(m: Mem, a: VmArea, start: nat, end: nat, lo: nat, hi: nat)
    requires a.start <= start < end <= a.end
    requires (start == a.start && end == lo && a.end <= hi) || (start == hi && end == a.end && lo <= a.start)
    ensures Cut(m, [a], m, [Trimmed(a, start, end)], lo, hi) && SameTops([a], [Trimmed(a, start, end)])
  {
    hide ReadIn, End;
    OneTop(a, [Trimmed(a, start, end)]);
  }

  lemma MissedCut(m: Mem, a: VmArea, lo: nat, hi: nat)
    requires a.end <= lo || hi <= a.start
    ensures Cut(m, [a], m, [a], lo, hi)
  {
  }

  lemma WholeCut(m: Mem, m': Mem, a: VmArea, lo: nat, hi: nat)
    requires lo <= a.start && a.end <= hi
    ensures Cut(m, [a], m', [], lo, hi)
  {
  }

  predicate SplitBy(a: VmArea, lo: nat, hi: nat) { a.start < lo && hi < a.end }

  predicate CoveredBy(a: VmArea, lo: nat, hi: nat) { lo <= a.start && a.end <= hi }

  predicate NoSplit(areas: Areas, lo: nat, hi: nat) {
    forall a :: a in areas ==> !SplitBy(a, lo, hi)
  }

  /** Every area of `part` is what is left of one of `whole`. */
  ghost predicate SameTops(whole: Areas, part: Areas) {
    forall b :: b in part ==> exists a :: a in whole && SubArea(a, b)
  }

  /** `b` is what is left of `a`: fewer pages, each the same page of the same object. */
  ghost predicate SubArea(a: VmArea, b: VmArea) {
    && b == a.(start := b.start, end := b.end, off := b.off)
    && a.start <= b.start && b.end <= a.end && b.off - b.start == a.off - a.start
  }

  /** `whole` has been cut down to `part`; without a split, no object was made on the way. */
  ghost predicate Removed(m: Mem, keys: set<ObjId>, whole: Areas, m': Mem, keys': set<ObjId>, part: Areas, lo: nat,
                          hi: nat) {
    && Cut(m, whole, m', part, lo, hi)
    && (NoSplit(whole, lo, hi) ==> SameTops(whole, part) && keys' <= keys)
  }

  lemma OneTop(a: VmArea, part: Areas)
    requires forall b :: b in part ==> SubArea(a, b)
    ensures SameTops([a], part)
  {
    assert a in [a];
  }

  /** What the loop does with one area goes well: it has a list if it is split, and what goes can be freed. */
  ghost predicate RoundOk(objs: Objs, spaces: seq<Areas>, p: nat, i: nat, lo: nat, hi: nat)
    requires p < |spaces| && i < |spaces[p]|
  {
    var a := spaces[p][i];
    && (SplitBy(a, lo, hi) ==> a.obj in objs && HasList(objs, a.obj))
    && (CoveredBy(a, lo, hi) ==> Droppable(objs, AllRefs(spaces[p := Replace(spaces[p], i, [])])))
  }

  /** What is left of `a`: it refers to the object of `a`, or to new shadows, which have no list. */
  ghost predicate PartOk(objs: Objs, objs': Objs, a: VmArea, part: Areas, lo: nat, hi: nat) {
    && (!SplitBy(a, lo, hi) ==> RefsOf(part) == if CoveredBy(a, lo, hi) then multiset{} else multiset{a.obj})
    && (SplitBy(a, lo, hi) ==> exists b :: b in part && b.obj in objs' && !HasList(objs', b.obj))
    && (forall x :: x in objs && x !in objs' ==> Freeable(objs, x))
  }

  /** The body of the loop of vmmap_remove for the area at `i`, which it replaces by `part`. */
  method RemoveStep(k: Kernel, p: nat, i: nat, lo: nat, hi: nat) returns (ok: bool, ghost part: Areas, len: nat)
    requires VmOk(k) && p < |k.spaces| && i < |k.spaces[p]| && lo <= hi
    modifies k`pf, k`objs, k`resident, k`nextObj, k`spaces
    ensures ok <==> RoundOk(old(k.objs), old(k.spaces), p, i, lo, hi)
    ensures ok ==> VmOk(k) && Kept(k)
    ensures ok ==> k.spaces == old(k.spaces)[p := Replace(old(k.spaces)[p], i, part)] && |part| == len
    ensures ok ==> Removed(old(MemOf(k)), old(k.objs).Keys, [old(k.spaces)[p][i]], MemOf(k), k.objs.Keys, part, lo, hi)
    ensures ok ==> PartOk(old(k.objs), k.objs, old(k.spaces)[p][i], part, lo, hi)
  {
    hide HoldsRefs, MemOf, Cut, Alike, PushedOver, SameTops, SubArea, KeptTo, Halves, Trimmed, AllRefs, Reached,
      Droppable, Freeable, RefsOf, PartOk, HasList;
    var a := k.spaces[p][i];
    assert a.start < a.end by { SpaceAt(k, p, i); }
    ghost var m := MemOf(k);
    KeptSame(k.objs, k.nextObj, m);
    SingleRef(a);
    assert SubArea(a, a) by { SubSelf(a); }
    ok, part, len := true, [a], 1;
    if lo > a.start {
      if hi < a.end {
        var first, second;
        ok, first, second := SplitArea(k, p, i, lo, hi);
        if !ok {
          return;
        }
        HalvesCut(m, MemOf(k), a, lo, hi, first, second);
        assert a in [a] && SplitBy(a, lo, hi);
        part, len := Halves(a, lo, hi, first, second), 2;
        HalvesCount(a, lo, hi, first, second);
        NoneGone(old(k.objs), k.objs, a.obj, first, first, second);
        PartSplit(old(k.objs), k.objs, a, part, lo, hi);
      } else if lo < a.end && hi >= a.end {
        TrimArea(k, p, i, a.start, lo);
        TrimmedCut(MemOf(k), a, a.start, lo, lo, hi);
        part := [Trimmed(a, a.start, lo)];
        TrimmedRef(a, a.start, lo);
        PartKept(k.objs, a, part, lo, hi);
      } else {
        MissedCut(MemOf(k), a, lo, hi);
        OneTop(a, part);
        PartKept(k.objs, a, part, lo, hi);
      }
    } else {
      if hi >= a.end {
        ok := DropArea(k, p, i);
        if !ok {
          return;
        }
        WholeCut(m, MemOf(k), a, lo, hi);
        part, len := [], 0;
        OneTop(a, part);
        GoneFreed(old(k.objs), k.objs, AllRefs(k.spaces));
        PartGone(old(k.objs), k.objs, a, lo, hi);
      } else if hi < a.end && hi > a.start {
        TrimArea(k, p, i, hi, a.end);
        TrimmedCut(MemOf(k), a, hi, a.end, lo, hi);
        part := [Trimmed(a, hi, a.end)];
        TrimmedRef(a, hi, a.end);
        PartKept(k.objs, a, part, lo, hi);
      } else {
        MissedCut(MemOf(k), a, lo, hi);
        OneTop(a, part);
        PartKept(k.objs, a, part, lo, hi);
      }
    }
    assert part == [a] ==> k.spaces[p] == Replace(old(k.spaces)[p], i, part);
  }

  lemma SubSelf(a: VmArea)
    ensures SubArea(a, a)
  {
  }

  lemma PartKept(objs: Objs, a: VmArea, part: Areas, lo: nat, hi: nat)
    requires !SplitBy(a, lo, hi) && !CoveredBy(a, lo, hi) && RefsOf(part) == multiset{a.obj}
    ensures PartOk(objs, objs, a, part, lo, hi)
  {
  }

  lemma PartGone(objs: Objs, objs': Objs, a: VmArea, lo: nat, hi: nat)
    requires CoveredBy(a, lo, hi) && a.start < a.end && forall x :: x in objs && x !in objs' ==> Freeable(objs, x)
    ensures PartOk(objs, objs', a, [], lo, hi)
  {
    NoRefs();
  }

  lemma PartSplit(objs: Objs, objs': Objs, a: VmArea, part: Areas, lo: nat, hi: nat)
    requires SplitBy(a, lo, hi) && objs.Keys <= objs'.Keys && part != [] && part[0].obj in objs'
    requires !HasList(objs', part[0].obj)
    ensures PartOk(objs, objs', a, part, lo, hi)
  {
    assert part[0] in part;
  }

  lemma NoneGone(objs: Objs, objs': Objs, o: ObjId, bottom: ObjId, first: ObjId, second: ObjId)
    requires PushedOver(objs, objs', o, bottom, first, second)
    ensures objs.Keys <= objs'.Keys
  {
  }

  lemma GoneFreed(objs: Objs, objs': Objs, refs: multiset<ObjId>)
    requires Droppable(objs, refs) && forall x :: x in objs ==> (x in objs' <==> Reached(LinksOf(objs), refs, x))
    ensures forall x :: x in objs && x !in objs' ==> Freeable(objs, x)
  {
    hide Reached, Freeable;
  }

  lemma TrimmedRef(a: VmArea, start: nat, end: nat)
    requires a.start <= start
    ensures RefsOf([Trimmed(a, start, end)]) == multiset{a.obj}
  {
    SingleRef(Trimmed(a, start, end));
  }

  lemma NoRefs()
    ensures RefsOf([]) == multiset{}
  {
  }

  /** The same step, seen from the areas already passed, which it leaves as they were. */
  method RemoveAt(k: Kernel, p: nat, i: nat, lo: nat, hi: nat, ghost done: Areas, ghost rest: Areas)
    returns (ok: bool, ghost part: Areas, len: nat)
    requires VmOk(k) && p < |k.spaces| && lo <= hi
    requires k.spaces[p] == done + rest && i == |done| && rest != []
    modifies k`pf, k`objs, k`resident, k`nextObj, k`spaces
    ensures ok <==> RoundOk(old(k.objs), old(k.spaces), p, i, lo, hi)
    ensures ok ==> VmOk(k) && Kept(k)
    ensures ok ==> k.spaces == old(k.spaces)[p := done + part + rest[1..]] && |part| == len
    ensures ok ==> Removed(old(MemOf(k)), old(k.objs).Keys, [rest[0]], MemOf(k), k.objs.Keys, part, lo, hi)
    ensures ok ==> SameViews(old(MemOf(k)), MemOf(k), done) && PartOk(old(k.objs), k.objs, rest[0], part, lo, hi)
  {
    hide HoldsRefs, AllRefs, MemOf, SameViews, Removed, KeptTo, RoundOk, PartOk;
    HeldAreLive(k, multiset{});
    ok, part, len := RemoveStep(k, p, i, lo, hi);
    if !ok {
      return;
    }
    assert Replace(done + rest, i, part) == done + part + rest[1..];
    HeldAreLive(k, multiset{});
    assert forall a :: a in done ==> a in k.spaces[p];
    KeptViews(old(k.objs), old(k.nextObj), old(MemOf(k)), k.objs, k.nextObj, MemOf(k), done);
  }

  lemma RemovedExtends(m0: Mem, keys0: set<ObjId>, m: Mem, keys: set<ObjId>, m': Mem, keys': set<ObjId>,
                       done: Areas, part: Areas, prefix: Areas, a: VmArea, lo: nat, hi: nat)
    requires Removed(m0, keys0, prefix, m, keys, done, lo, hi) && SameViews(m, m', done)
    requires SameViews(m0, m, [a]) && Removed(m, keys, [a], m', keys', part, lo, hi)
    ensures Removed(m0, keys0, prefix + [a], m', keys', done + part, lo, hi)
  {
    hide Cut, SameViews;
    CutExtends(m0, m, m', done, part, prefix, a, lo, hi);
    if NoSplit(prefix + [a], lo, hi) {
      assert NoSplit(prefix, lo, hi) && NoSplit([a], lo, hi);
      SameTopsExtends(prefix, done, [a], part);
    }
  }

  lemma SameTopsExtends(whole: Areas, part: Areas, whole': Areas, part': Areas)
    requires SameTops(whole, part) && SameTops(whole', part')
    ensures SameTops(whole + whole', part + part')
  {
    forall b | b in part + part'
      ensures exists a :: a in whole + whole' && SubArea(a, b)
    {
      if b in part {
        var a :| a in whole && SubArea(a, b);
        assert a in whole + whole';
      } else {
        var a :| a in whole' && SubArea(a, b);
        assert a in whole + whole';
      }
    }
  }

  lemma CutExtends(m0: Mem, m: Mem, m': Mem, done: Areas, part: Areas, prefix: Areas, a: VmArea, lo: nat, hi: nat)
    requires Cut(m0, prefix, m, done, lo, hi) && SameViews(m, m', done)
    requires SameViews(m0, m, [a]) && Cut(m, [a], m', part, lo, hi)
    ensures Cut(m0, prefix + [a], m', done + part, lo, hi)
  {
    forall pn: nat
      ensures ViewIn(m', done + part, pn) == if lo <= pn < hi then None else ViewIn(m0, prefix + [a], pn)
    {
      ViewConcat(m', done, part, pn);
      ViewConcat(m0, prefix, [a], pn);
      assert ViewIn(m', done, pn) == ViewIn(m, done, pn);
      assert ViewIn(m, [a], pn) == ViewIn(m0, [a], pn);
    }
  }

  // ---------------------------------------------------------------------------------------------
  // When the whole loop goes well

  /** The areas that the range does not contain, which vmmap_remove keeps in some form. */
  function Uncovered(areas: Areas, lo: nat, hi: nat): (r: Areas) {
    if areas == [] then []
    else
      var a := areas[|areas| - 1];
      Uncovered(areas[..|areas| - 1], lo, hi) + if CoveredBy(a, lo, hi) then [] else [a]
  }

  /**
   * vmmap_remove goes well: an area that it splits leads to a list, and so does every object with
   * resident pages that only the areas inside the range lead to.
   */
  ghost predicate Removable(objs: Objs, spaces: seq<Areas>, p: nat, lo: nat, hi: nat)
    requires p < |spaces|
  {
    && (forall a :: a in spaces[p] && SplitBy(a, lo, hi) && a.obj in objs ==> HasList(objs, a.obj))
    && Droppable(objs, AllRefs(spaces[p := Uncovered(spaces[p], lo, hi)]))
  }

  ghost predicate Unlisted(objs: Objs, areas: Areas) {
    exists b :: b in areas && b.obj in objs && !HasList(objs, b.obj)
  }

  /** How far the loop has come with the first `j` areas, of which it has made `done`. */
  ghost predicate Progress(objs0: Objs, areas0: Areas, lo: nat, hi: nat, j: nat, objs: Objs, done: Areas) {
    && j <= |areas0|
    && (forall a :: a in areas0[..j] && SplitBy(a, lo, hi) && a.obj in objs0 ==> HasList(objs0, a.obj))
    && (forall x :: x in objs0 && x !in objs ==> Freeable(objs0, x))
    && (NoSplit(areas0[..j], lo, hi) ==> RefsOf(done) == RefsOf(Uncovered(areas0[..j], lo, hi)))
    && (!NoSplit(areas0[..j], lo, hi) ==> Unlisted(objs, done))
  }

  lemma ProgressStart(objs0: Objs, areas0: Areas, lo: nat, hi: nat)
    ensures Progress(objs0, areas0, lo, hi, 0, objs0, [])
  {
    assert areas0[..0] == [];
  }

  /** One more area has gone well. */
  lemma ProgressOn(objs0: Objs, next0: ObjId, m0: Mem, areas0: Areas, lo: nat, hi: nat, j: nat, objs: Objs,
                   next: ObjId, m: Mem, done: Areas, objs': Objs, next': ObjId, m': Mem, part: Areas)
    requires Progress(objs0, areas0, lo, hi, j, objs, done) && j < |areas0| && areas0[j].obj in objs
    requires areas0[j].obj in objs0
    requires KeptTo(objs0, next0, m0, objs, next, m) && KeptTo(objs, next, m, objs', next', m')
    requires m0.links == LinksOf(objs0) && m.links == LinksOf(objs) && m'.links == LinksOf(objs')
    requires Rooted(objs0, next0) && Rooted(objs, next) && ObjsOk(objs, next) && ObjsOk(objs', next')
    requires SplitBy(areas0[j], lo, hi) ==> HasList(objs, areas0[j].obj)
    requires PartOk(objs, objs', areas0[j], part, lo, hi) && forall b :: b in done ==> b.obj in objs'
    ensures Progress(objs0, areas0, lo, hi, j + 1, objs', done + part)
  {
    hide KeptTo, Rooted, ObjsOk, LinksOf, HasList, Freeable, RefsOf, Uncovered;
    var a := areas0[j];
    assert areas0[..j + 1] == areas0[..j] + [a];
    ListKept(objs0, next0, m0, objs, next, m, a.obj);
    forall x | x in objs0 && x !in objs'
      ensures Freeable(objs0, x)
    {
      if x in objs { ListKept(objs0, next0, m0, objs, next, m, x); }
    }
    if NoSplit(areas0[..j + 1], lo, hi) {
      assert forall b :: b in areas0[..j] ==> b in areas0[..j + 1];
      assert a in areas0[..j + 1];
      UncoveredOn(areas0[..j], a, done, part, lo, hi);
    } else if !NoSplit(areas0[..j], lo, hi) {
      var b :| b in done && b.obj in objs && !HasList(objs, b.obj);
      ListKept(objs, next, m, objs', next', m', b.obj);
      assert b in done + part;
    } else {
      assert SplitBy(a, lo, hi);
      var b :| b in part && b.obj in objs' && !HasList(objs', b.obj);
      assert b in done + part;
    }
  }

  lemma UncoveredOn(areas: Areas, a: VmArea, done: Areas, part: Areas, lo: nat, hi: nat)
    requires RefsOf(done) == RefsOf(Uncovered(areas, lo, hi))
    requires RefsOf(part) == if CoveredBy(a, lo, hi) then multiset{} else multiset{a.obj}
    ensures RefsOf(done + part) == RefsOf(Uncovered(areas + [a], lo, hi))
  {
    hide RefsOf;
    assert (areas + [a])[..|areas|] == areas;
    var tail := if CoveredBy(a, lo, hi) then [] else [a];
    RefsConcat(done, part);
    RefsConcat(Uncovered(areas, lo, hi), tail);
    SingleRef(a);
    NoRefs();
  }

  lemma {:induction false} UncoveredMember(areas: Areas, lo: nat, hi: nat, a: VmArea)
    ensures a in Uncovered(areas, lo, hi) <==> a in areas && !CoveredBy(a, lo, hi)
  {
    if areas != [] {
      UncoveredMember(areas[..|areas| - 1], lo, hi, a);
      assert areas == areas[..|areas| - 1] + [areas[|areas| - 1]];
    }
  }

  /** A range inside one area contains no other. */
  lemma SplitsOrCovers(areas: Areas, low: nat, high: nat, lo: nat, hi: nat)
    requires SpaceOk(areas, low, high) && lo <= hi
    ensures NoSplit(areas, lo, hi) || forall b :: b in areas ==> !CoveredBy(b, lo, hi)
  {
  }

  /** Objects that are there in both stores are reached in both or in none. */
  lemma ReachedKept(objs: Objs, objs': Objs, next': ObjId, refs: multiset<ObjId>, x: ObjId)
    requires SameKinds(objs, objs') && objs'.Keys <= objs.Keys && ObjsOk(objs', next')
    requires forall a :: a in refs ==> a in objs'
    ensures Reached(LinksOf(objs), refs, x) <==> Reached(LinksOf(objs'), refs, x)
  {
    hide OnChain;
    forall a | a in refs
      ensures OnChain(LinksOf(objs), a, x) == OnChain(LinksOf(objs'), a, x)
    {
      KeptChain(LinksOf(objs), LinksOf(objs'), a, x);
    }
  }

  ghost predicate Within(few: multiset<ObjId>, many: multiset<ObjId>) {
    forall a :: a in few ==> a in many
  }

  lemma FewerReach(links: Links, refs: multiset<ObjId>, refs': multiset<ObjId>, x: ObjId)
    requires !Reached(links, refs, x) && Within(refs', refs)
    ensures !Reached(links, refs', x)
  {
  }

  /** An object that cannot be freed and goes now is one that nothing kept leads to. */
  lemma StuckObject(objs0: Objs, next0: ObjId, m0: Mem, objs: Objs, next: ObjId, m: Mem, refs: multiset<ObjId>,
                    refs0: multiset<ObjId>)
    requires KeptTo(objs0, next0, m0, objs, next, m) && m0.links == LinksOf(objs0) && m.links == LinksOf(objs)
    requires Rooted(objs0, next0) && ObjsOk(objs, next) && objs.Keys <= objs0.Keys
    requires !Droppable(objs, refs) && (forall a :: a in refs ==> a in objs) && Within(refs0, refs)
    ensures !Droppable(objs0, refs0)
  {
    hide Reached, Rooted, ObjsOk, Alike, Freeable, LinksOf;
    var x :| x in objs && !Reached(LinksOf(objs), refs, x) && !Freeable(objs, x);
    ListKept(objs0, next0, m0, objs, next, m, x);
    ReachedKept(objs0, objs, next, refs, x);
    FewerReach(LinksOf(objs0), refs, refs0, x);
  }

  /** Everything that no kept reference leads to has been freed, and could be. */
  lemma AllGone(objs0: Objs, objs: Objs, next: ObjId, refs: multiset<ObjId>)
    requires SameKinds(objs0, objs) && objs.Keys <= objs0.Keys && ObjsOk(objs, next)
    requires Conserved(LinksOf(objs), ExtOf(objs), refs)
    requires forall x :: x in objs0 && x !in objs ==> Freeable(objs0, x)
    ensures Droppable(objs0, refs)
  {
    hide Freeable, Reached;
    forall x | x in objs0 && !Reached(LinksOf(objs0), refs, x)
      ensures Freeable(objs0, x)
    {
      ReachedKept(objs0, objs, next, refs, x);
      Alive(objs, next, refs, x);
    }
  }

  lemma Alive(objs: Objs, next: ObjId, refs: multiset<ObjId>, x: ObjId)
    requires ObjsOk(objs, next) && Conserved(LinksOf(objs), ExtOf(objs), refs)
    ensures x in objs <==> Reached(LinksOf(objs), refs, x)
  {
    LiveIffReachable(LinksOf(objs), ExtOf(objs), refs, x);
  }

  /** References of areas that the range does not contain are still held when the loop is at `j`. */
  lemma KeptRefs(spaces0: seq<Areas>, p: nat, lo: nat, hi: nat, j: nat, done: Areas)
    requires p < |spaces0| && j < |spaces0[p]| && CoveredBy(spaces0[p][j], lo, hi)
    requires RefsOf(done) == RefsOf(Uncovered(spaces0[p][..j], lo, hi))
    ensures Within(AllRefs(spaces0[p := Uncovered(spaces0[p], lo, hi)]),
                   AllRefs(spaces0[p := done + spaces0[p][j + 1..]]))
  {
    hide RefsOf, AllRefs, Uncovered;
    var areas := spaces0[p];
    var kept, now := spaces0[p := Uncovered(areas, lo, hi)], spaces0[p := done + areas[j + 1..]];
    forall a | a in AllRefs(kept)
      ensures a in AllRefs(now)
    {
      var r, b := RefHasSpace(kept, a);
      if r != p {
        assert b in now[r];
        AreaRefs(now, r, b);
      } else {
        UncoveredMember(areas, lo, hi, b);
        RefsConcat(done, areas[j + 1..]);
        AllRefsUpdate(now, p, []);
        assert areas == areas[..j] + [areas[j]] + areas[j + 1..];
        if b in areas[..j] {
          UncoveredMember(areas[..j], lo, hi, b);
          RefsMember(Uncovered(areas[..j], lo, hi), b);
        } else {
          RefsMember(areas[j + 1..], b);
        }
        assert a in RefsOf(now[p]);
      }
    }
  }

  lemma LiveNow(objs: Objs, spaces: seq<Areas>, p: nat, i: nat)
    requires p < |spaces| && i < |spaces[p]| && forall r, a :: 0 <= r < |spaces| && a in spaces[r] ==> a.obj in objs
    ensures forall o :: o in AllRefs(spaces[p := Replace(spaces[p], i, [])]) ==> o in objs
  {
    hide AllRefs;
    var spaces' := spaces[p := Replace(spaces[p], i, [])];
    forall o | o in AllRefs(spaces')
      ensures o in objs
    {
      var r, a := RefHasSpace(spaces', o);
      assert a in spaces[r];
    }
  }

  /** A round that does not go well means that the whole does not. */
  lemma RoundFails(objs0: Objs, next0: ObjId, m0: Mem, spaces0: seq<Areas>, p: nat, lo: nat, hi: nat, j: nat,
                   objs: Objs, next: ObjId, m: Mem, done: Areas, spaces: seq<Areas>, low: nat, high: nat)
    requires Scanning(spaces0, p, j, done, spaces) && |done| < |spaces[p]| && lo <= hi && SpaceOk(spaces0[p], low, high)
    requires Progress(objs0, spaces0[p], lo, hi, j, objs, done)
    requires (NoSplit(spaces0[p][..j], lo, hi) ==> objs.Keys <= objs0.Keys)
    requires KeptTo(objs0, next0, m0, objs, next, m) && m0.links == LinksOf(objs0) && m.links == LinksOf(objs)
    requires Rooted(objs0, next0) && ObjsOk(objs, next)
    requires forall r, a :: 0 <= r < |spaces0| && a in spaces0[r] ==> a.obj in objs0
    requires forall r, a :: 0 <= r < |spaces| && a in spaces[r] ==> a.obj in objs
    requires !RoundOk(objs, spaces, p, |done|, lo, hi)
    ensures !Removable(objs0, spaces0, p, lo, hi)
  {
    hide KeptTo, Rooted, ObjsOk, LinksOf, HasList, Droppable, RefsOf, AllRefs, Uncovered, Scanning;
    ScanFacts(spaces0, p, j, done, spaces);
    var a := spaces0[p][j];
    assert spaces[p][|done|] == a;
    if SplitBy(a, lo, hi) && !HasList(objs, a.obj) {
      ListKept(objs0, next0, m0, objs, next, m, a.obj);
    } else {
      SplitsOrCovers(spaces0[p], low, high, lo, hi);
      KeptRefs(spaces0, p, lo, hi, j, done);
      LiveNow(objs, spaces, p, |done|);
      ScanDrop(spaces0, p, j, done, spaces);
      StuckObject(objs0, next0, m0, objs, next, m, AllRefs(spaces0[p := done + spaces0[p][j + 1..]]),
                  AllRefs(spaces0[p := Uncovered(spaces0[p], lo, hi)]));
    }
  }

  lemma ScanDrop(spaces0: seq<Areas>, p: nat, j: nat, done: Areas, spaces: seq<Areas>)
    requires Scanning(spaces0, p, j, done, spaces) && j < |spaces0[p]|
    ensures p < |spaces| && |done| < |spaces[p]|
    ensures spaces[p := Replace(spaces[p], |done|, [])] == spaces0[p := done + spaces0[p][j + 1..]]
  {
    assert Replace(spaces[p], |done|, []) == done + spaces0[p][j + 1..];
  }

  lemma SameRefs(spaces: seq<Areas>, p: nat, areas: Areas)
    requires p < |spaces| && RefsOf(spaces[p]) == RefsOf(areas)
    ensures AllRefs(spaces[p := areas]) == AllRefs(spaces)
  {
    hide RefsOf, AllRefs;
    AllRefsUpdate(spaces, p, areas);
    var n, n', r := AllRefs(spaces), AllRefs(spaces[p := areas]), RefsOf(areas);
    forall o: ObjId
      ensures n'[o] == n[o]
    {
      assert (n' + r)[o] == (n + r)[o];
    }
  }

  lemma NoneCovered(areas: Areas, lo: nat, hi: nat)
    requires forall b :: b in areas ==> !CoveredBy(b, lo, hi)
    ensures Uncovered(areas, lo, hi) == areas
  {
    if areas != [] {
      NoneCovered(areas[..|areas| - 1], lo, hi);
      assert areas == areas[..|areas| - 1] + [areas[|areas| - 1]];
    }
  }

  /** When every round has gone well, the whole has. */
  lemma RoundsDone(objs0: Objs, next0: ObjId, m0: Mem, spaces0: seq<Areas>, p: nat, lo: nat, hi: nat,
                   objs: Objs, next: ObjId, m: Mem, spaces: seq<Areas>, low: nat, high: nat)
    requires p < |spaces0| == |spaces| && spaces == spaces0[p := spaces[p]] && lo <= hi
    requires SpaceOk(spaces0[p], low, high)
    requires Progress(objs0, spaces0[p], lo, hi, |spaces0[p]|, objs, spaces[p])
    requires KeptTo(objs0, next0, m0, objs, next, m)
    requires NoSplit(spaces0[p], lo, hi) ==> objs.Keys <= objs0.Keys
    requires ObjsOk(objs0, next0) && Conserved(LinksOf(objs0), ExtOf(objs0), AllRefs(spaces0))
    requires ObjsOk(objs, next) && Conserved(LinksOf(objs), ExtOf(objs), AllRefs(spaces))
    ensures Removable(objs0, spaces0, p, lo, hi)
    ensures !NoSplit(spaces0[p], lo, hi) ==> Unlisted(objs, spaces[p])
  {
    hide Alike, ObjsOk, LinksOf, HasList, RefsOf, AllRefs, Uncovered, Conserved, Freeable, Reached, Unlisted;
    var areas := spaces0[p];
    assert areas[..|areas|] == areas;
    if NoSplit(areas, lo, hi) {
      SameRefs(spaces, p, Uncovered(areas, lo, hi));
      assert spaces[p := Uncovered(areas, lo, hi)] == spaces0[p := Uncovered(areas, lo, hi)];
      AllGone(objs0, objs, next, AllRefs(spaces));
    } else {
      SplitsOrCovers(areas, low, high, lo, hi);
      NoneCovered(areas, lo, hi);
      assert spaces0[p := areas] == spaces0;
      forall x | x in objs0
        ensures Reached(LinksOf(objs0), AllRefs(spaces0), x)
      {
        Alive(objs0, next0, AllRefs(spaces0), x);
      }
    }
  }

  /**
   * vmmap_remove: unmaps exactly the pages of the range. Every other page keeps its protection,
   * its page of the object and the bytes read there, in this process and in all others. The
   * result is false exactly when it comes to an mmo_bottom_obj that leads to no list.
   */
  method Remove(k: Kernel, p: nat, lo: nat, n: nat) returns (ok: bool)
    requires VmOk(k) && p < |k.spaces|
    modifies k`pf, k`objs, k`resident, k`nextObj, k`spaces
    ensures ok <==> Removable(old(k.objs), old(k.spaces), p, lo, lo + n)
    ensures ok ==> VmOk(k) && Kept(k)
    ensures ok ==> |k.spaces| == |old(k.spaces)| && k.spaces == old(k.spaces)[p := k.spaces[p]]
    ensures ok ==>
      Removed(old(MemOf(k)), old(k.objs).Keys, old(k.spaces)[p], MemOf(k), k.objs.Keys, k.spaces[p], lo, lo + n)
    ensures ok ==> OthersSame(old(MemOf(k)), MemOf(k), old(k.spaces), k.spaces, p)
    ensures ok && !NoSplit(old(k.spaces)[p], lo, lo + n) ==> Unlisted(k.objs, k.spaces[p])
  {
    hide HoldsRefs, MemOf, SameViews, Removed, KeptTo, AllRefs, Scanning, Progress, Removable, NoSplit, Unlisted,
      OthersSame, SpaceOk, Rooted, ObjsOk, Conserved, LinksOf, ExtOf;
    var hi := lo + n;
    ghost var spaces0, m0, keys0 := k.spaces, MemOf(k), k.objs.Keys;
    ghost var done, j := [], 0;
    StartFacts(k, p);
    CutNothing(m0, keys0, lo, hi);
    KeptSame(k.objs, k.nextObj, m0);
    ScanStart(spaces0, p);
    ProgressStart(k.objs, spaces0[p], lo, hi);
    HeldAreLive(k, multiset{});
    var i := 0;
    while i < |k.spaces[p]|
      invariant VmOk(k) && Kept(k) && |k.spaces| == |spaces0|
      invariant j <= |spaces0[p]| && Scanning(spaces0, p, j, done, k.spaces) && i == |done|
      invariant Removed(m0, keys0, spaces0[p][..j], MemOf(k), k.objs.Keys, done, lo, hi)
      invariant Progress(old(k.objs), spaces0[p], lo, hi, j, k.objs, done)
      decreases |spaces0[p]| - j
    {
      var len;
      ok, len, done := RemoveRound(k, p, i, lo, hi, spaces0, old(k.objs), old(k.nextObj), m0, j, done);
      if !ok {
        return;
      }
      j, i := j + 1, i + len;
    }
    ScanFacts(spaces0, p, j, done, k.spaces);
    HeldAreLive(k, multiset{});
    OthersKept(old(k.objs), old(k.nextObj), m0, k.objs, k.nextObj, MemOf(k), spaces0, k.spaces, p);
    StartFacts(k, p);
    KeysShrink(m0, keys0, spaces0[p], MemOf(k), k.objs.Keys, k.spaces[p], lo, hi);
    RoundsDone(old(k.objs), old(k.nextObj), m0, spaces0, p, lo, hi, k.objs, k.nextObj, MemOf(k), k.spaces, k.low,
               k.high);
    return true;
  }

  lemma StartFacts(k: Kernel, p: nat)
    requires VmOk(k) && p < |k.spaces|
    ensures ObjsOk(k.objs, k.nextObj) && Rooted(k.objs, k.nextObj) && SpaceOk(k.spaces[p], k.low, k.high)
    ensures Conserved(LinksOf(k.objs), ExtOf(k.objs), AllRefs(k.spaces)) && forall x :: x in k.objs ==> x < k.nextObj
    ensures MemOf(k).links == LinksOf(k.objs)
  {
    hide FramesOk, Quiet, Conserved, AllRefs;
    assert AllRefs(k.spaces) + multiset{} == AllRefs(k.spaces);
  }

  lemma KeysShrink(m: Mem, keys: set<ObjId>, whole: Areas, m': Mem, keys': set<ObjId>, part: Areas, lo: nat, hi: nat)
    requires Removed(m, keys, whole, m', keys', part, lo, hi)
    ensures NoSplit(whole, lo, hi) ==> keys' <= keys
  {
  }

  /** One round of the loop, seen from the start of it: `objs0` to `m0` are the state there. */
  method RemoveRound(k: Kernel, p: nat, i: nat, lo: nat, hi: nat, ghost spaces0: seq<Areas>, ghost objs0: Objs,
                     ghost next0: ObjId, ghost m0: Mem, ghost j: nat, ghost done: Areas)
    returns (ok: bool, len: nat, ghost done': Areas)
    requires VmOk(k) && lo <= hi && p < |k.spaces| == |spaces0| && i == |done| < |k.spaces[p]|
    requires j <= |spaces0[p]| && Scanning(spaces0, p, j, done, k.spaces) && SpaceOk(spaces0[p], k.low, k.high)
    requires Removed(m0, objs0.Keys, spaces0[p][..j], MemOf(k), k.objs.Keys, done, lo, hi)
    requires KeptTo(objs0, next0, m0, k.objs, k.nextObj, MemOf(k)) && forall x :: x in objs0 ==> x < next0
    requires forall r, a :: 0 <= r < |spaces0| && a in spaces0[r] ==> a.obj in objs0
    requires Progress(objs0, spaces0[p], lo, hi, j, k.objs, done) && Rooted(objs0, next0) && m0.links == LinksOf(objs0)
    modifies k`pf, k`objs, k`resident, k`nextObj, k`spaces
    ensures !ok ==> !Removable(objs0, spaces0, p, lo, hi)
    ensures ok ==>
      VmOk(k) && KeptTo(objs0, next0, m0, k.objs, k.nextObj, MemOf(k)) && |done'| == i + len && |k.spaces| == |spaces0|
    ensures ok ==> j < |spaces0[p]| && Scanning(spaces0, p, j + 1, done', k.spaces)
    ensures ok ==> Removed(m0, objs0.Keys, spaces0[p][..j + 1], MemOf(k), k.objs.Keys, done', lo, hi)
    ensures ok ==> Progress(objs0, spaces0[p], lo, hi, j + 1, k.objs, done')
  {
    hide HoldsRefs, MemOf, SameViews, Removed, KeptTo, AllRefs, Scanning, Progress, PartOk, Rooted, Removable, NoSplit,
      Conserved, ObjsOk, LinksOf, ExtOf, Droppable, HasList;
    ghost var m, keys, objs, next, spaces := MemOf(k), k.objs.Keys, k.objs, k.nextObj, k.spaces;
    ScanFacts(spaces0, p, j, done, k.spaces);
    ghost var rest := spaces0[p][j..];
    HeldAreLive(k, multiset{});
    StartFacts(k, p);
    KeptViews(objs0, next0, m0, objs, next, m, [rest[0]]);
    KeysShrink(m0, objs0.Keys, spaces0[p][..j], m, keys, done, lo, hi);
    ghost var part;
    done' := done;
    ok, part, len := RemoveAt(k, p, i, lo, hi, done, rest);
    if !ok {
      RoundFails(objs0, next0, m0, spaces0, p, lo, hi, j, objs, next, m, done, spaces, k.low, k.high);
      return;
    }
    KeptOn(objs0, next0, m0, objs, next, m, k.objs, k.nextObj, MemOf(k));
    RemovedExtends(m0, objs0.Keys, m, keys, MemOf(k), k.objs.Keys, done, part, spaces0[p][..j], rest[0], lo, hi);
    ScanNext(spaces0, p, j, done, part);
    StartFacts(k, p);
    HeldAreLive(k, multiset{});
    assert forall b :: b in done ==> b in k.spaces[p];
    ProgressOn(objs0, next0, m0, spaces0[p], lo, hi, j, objs, next, m, done, k.objs, k.nextObj, MemOf(k), part);
    done' := done + part;
  }

  /** The scan of vmmap_remove has made `done` of the first `j` areas of process `p`. */
  ghost predicate Scanning(spaces0: seq<Areas>, p: nat, j: nat, done: Areas, spaces: seq<Areas>) {
    p < |spaces0| && j <= |spaces0[p]| && spaces == spaces0[p := done + spaces0[p][j..]]
  }

  lemma ScanStart(spaces0: seq<Areas>, p: nat)
    requires p < |spaces0|
    ensures Scanning(spaces0, p, 0, [], spaces0) && spaces0[p][..0] == []
  {
    assert [] + spaces0[p][0..] == spaces0[p];
  }

  lemma ScanFacts(spaces0: seq<Areas>, p: nat, j: nat, done: Areas, spaces: seq<Areas>)
    requires Scanning(spaces0, p, j, done, spaces)
    ensures p < |spaces0| == |spaces| && j <= |spaces0[p]| && spaces[p] == done + spaces0[p][j..]
    ensures spaces == spaces0[p := spaces[p]]
    ensures |done| < |spaces[p]| <==> j < |spaces0[p]|
    ensures |done| < |spaces[p]| ==>
      spaces0[p][j] in spaces[p] && spaces0[p][j..] != [] && spaces0[p][j..][0] == spaces0[p][j]
    ensures |done| >= |spaces[p]| ==> spaces[p] == done && spaces0[p][..j] == spaces0[p]
  {
    if j < |spaces0[p]| {
      assert spaces[p][|done|] == spaces0[p][j];
    } else {
      assert spaces0[p][j..] == [] && done + [] == done;
    }
  }

  lemma ScanNext(spaces0: seq<Areas>, p: nat, j: nat, done: Areas, part: Areas)
    requires p < |spaces0| && j < |spaces0[p]|
    ensures Scanning(spaces0, p, j + 1, done + part,
                     spaces0[p := done + spaces0[p][j..]][p := done + part + spaces0[p][j..][1..]])
    ensures spaces0[p][..j + 1] == spaces0[p][..j] + [spaces0[p][j]]
  {
    assert spaces0[p][j..][1..] == spaces0[p][j + 1..];
  }

  lemma CutNothing(m: Mem, keys: set<ObjId>, lo: nat, hi: nat)
    ensures Removed(m, keys, [], m, keys, [], lo, hi)
  {
  }

  // ---------------------------------------------------------------------------------------------
  // What a split leaves behind

  /**
   * An area is split and its first part unmapped: the first shadow goes, and mmo_bottom_obj of
   * the second one is left pointing at it. A write to any page of the second part that the old
   * object did not hold then follows freed memory.
   */
  method SplitThenDrop(k: Kernel, p: nat, i: nat, lo: nat, hi: nat) returns (ok: bool, first: ObjId, second: ObjId)
    requires VmOk(k) && p < |k.spaces| && i < |k.spaces[p]|
    requires k.spaces[p][i].start < lo <= hi < k.spaces[p][i].end
    modifies k`pf, k`objs, k`resident, k`nextObj, k`spaces
    ensures old(k.spaces)[p][i].obj in old(k.objs) && (ok <==> HasList(old(k.objs), old(k.spaces)[p][i].obj))
    ensures ok ==> VmOk(k) && second in k.objs && k.objs[second].kind == Shadow
    ensures ok ==> k.objs[second].bottom == first && first !in k.objs
    ensures ok ==>
      k.spaces == old(k.spaces)[p := Replace(old(k.spaces)[p], i,
                                             Halves(old(k.spaces)[p][i], lo, hi, first, second)[1..])]
    ensures ok ==> var o := old(k.spaces)[p][i].obj;
      forall q: nat, garbage: Page :: !HeldIn(old(MemOf(k)), o, q) ==>
        WriteCopy(k.objs, ContentsOf(k.pf.frames, k.resident), second, q, garbage) == Freed
  {
    hide HoldsRefs, MemOf, Alike, AllRefs, WriteCopy, HeldIn, Halves, Replace, KeptTo, Droppable, Reached, LinksOf,
      Conserved, ObjsOk, Rooted;
    ghost var o, m0, areas := k.spaces[p][i].obj, MemOf(k), k.spaces[p];
    ok, first, second := SplitArea(k, p, i, lo, hi);
    if !ok {
      return;
    }
    HalvesPlaced(areas, i, lo, hi, first, second);
    ghost var m1, objs1, next1, spaces1 := MemOf(k), k.objs, k.nextObj, k.spaces;
    StartFacts(k, p);
    ok := DropArea(k, p, i);
    HalfDrops(old(k.objs), objs1, next1, spaces1, p, i, o, first, second, Halves(areas[i], lo, hi, first, second)[1]);
    HeldAreLive(k, multiset{});
    assert Halves(areas[i], lo, hi, first, second)[1] in k.spaces[p];
    SplitLeaves(old(k.objs), objs1, k.objs, next1, k.nextObj, m1, MemOf(k), o, first, second);
    DanglingWrites(k, second);
    AlikeStep(m0, o, m1, second, MemOf(k), second);
    forall q: nat
      ensures HeldIn(MemOf(k), second, q) == HeldIn(m0, o, q)
    {
      HeldSame(m0, o, MemOf(k), second, q);
    }
  }

  /** Dropping the first half frees the first shadow alone, and it has no pages. */
  lemma HalfDrops(objs: Objs, objs1: Objs, next1: ObjId, spaces1: seq<Areas>, p: nat, i: nat, o: ObjId, first: ObjId,
                  second: ObjId, b: VmArea)
    requires PushedOver(objs, objs1, o, first, first, second) && p < |spaces1| && i < |spaces1[p]|
    requires spaces1[p][i].obj == first
    requires ObjsOk(objs1, next1) && Conserved(LinksOf(objs1), ExtOf(objs1), AllRefs(spaces1))
    requires b in Replace(spaces1[p], i, []) && b.obj == second
    ensures Droppable(objs1, AllRefs(spaces1[p := Replace(spaces1[p], i, [])]))
  {
    hide AllRefs, RefsOf, Conserved, ExtOf, Replace;
    var links, refs, spaces2 := LinksOf(objs1), AllRefs(spaces1), spaces1[p := Replace(spaces1[p], i, [])];
    ReplaceRefs(spaces1, p, i, []);
    NoRefs();
    AreaRefs(spaces2, p, b);
    assert Below(links, first) == Below(links, second) == Some(o);
    forall x | x in objs1 && x != first
      ensures Reached(links, AllRefs(spaces2), x)
    {
      Alive(objs1, next1, refs, x);
      var a :| a in refs && OnChain(links, a, x);
      if a == first {
        assert OnChain(links, second, x);
      } else {
        assert a in AllRefs(spaces2);
      }
    }
  }

  lemma HalvesPlaced(areas: Areas, i: nat, lo: nat, hi: nat, first: ObjId, second: ObjId)
    requires i < |areas| && areas[i].start < lo <= hi < areas[i].end
    ensures var part := Halves(areas[i], lo, hi, first, second);
      var split := Replace(areas, i, part);
      && |part| == 2 && i < |split| && split[i].obj == first
      && Replace(split, i, []) == Replace(areas, i, part[1..])
      && part[1] in Replace(areas, i, part[1..]) && part[1].obj == second
  {
    var part := Halves(areas[i], lo, hi, first, second);
    var split := Replace(areas, i, part);
    assert split[..i] == areas[..i] && split[i + 1..] == part[1..] + areas[i + 1..];
    assert part[1..] == [part[1]];
  }

  /** Of the two shadows of a split, the first is gone and the second is there as it was made. */
  lemma SplitLeaves(objs: Objs, objs1: Objs, objs2: Objs, next1: ObjId, next2: ObjId, m1: Mem, m2: Mem, o: ObjId,
                    first: ObjId, second: ObjId)
    requires PushedOver(objs, objs1, o, first, first, second) && KeptTo(objs1, next1, m1, objs2, next2, m2)
    requires second in objs2
    ensures first in objs1 && objs1[first].refcount == objs1[first].nrespages + 1
    ensures objs2[second].kind == Shadow && objs2[second].bottom == first && Alike(m1, second, m2, second)
  {
    hide Alike;
  }

  lemma HeldSame(m: Mem, x: ObjId, m': Mem, y: ObjId, q: nat)
    requires Alike(m, x, m', y)
    ensures HeldIn(m', y, q) == HeldIn(m, x, q)
  {
  }

  lemma DanglingWrites(k: Kernel, s: ObjId)
    requires VmOk(k) && s in k.objs && k.objs[s].kind == Shadow && k.objs[s].bottom !in k.objs
    ensures forall q: nat, garbage: Page :: !HeldIn(MemOf(k), s, q) ==>
      WriteCopy(k.objs, ContentsOf(k.pf.frames, k.resident), s, q, garbage) == Freed
  {
    hide Conserved, SpacesOk, AllTops, Quiet, FramesOk;
    LinksAt(k.objs, k.nextObj, s);
  }
}
