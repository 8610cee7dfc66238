/** Private and shared areas never end in the same object, and what holds until an area is split. */
module Sharing {
  import opened Lists
  import opened Chains
  import opened VmState
  import opened PageLookup
  import opened Objects
  import opened AreaList
  import opened AddressSpace
  import opened Removal

  // ---------------------------------------------------------------------------------------------
  // Private and shared memory

  /** No page shown through a private area ends in the last object of a shared area. */
  ghost predicate Apart(m: Mem, spaces: seq<Areas>) {
    forall p, pn: nat, r, qn: nat :: 0 <= p < |spaces| && 0 <= r < |spaces| ==>
      ViewsApart(ViewIn(m, spaces[p], pn), ViewIn(m, spaces[r], qn))
  }

  ghost predicate ViewsApart(v: Option<PageView>, w: Option<PageView>) {
    v.Some? && w.Some? && v.value.private != w.value.private ==> v.value.root != w.value.root
  }

  /** Every page shown is shown as some page was before. */
  ghost predicate ShowsOnly(m: Mem, spaces: seq<Areas>, m': Mem, spaces': seq<Areas>) {
    forall p, pn: nat :: 0 <= p < |spaces'| && ViewIn(m', spaces'[p], pn).Some? ==>
      exists r, qn: nat :: 0 <= r < |spaces| && LikeView(ViewIn(m', spaces'[p], pn), ViewIn(m, spaces[r], qn))
  }

  ghost predicate LikeView(v: Option<PageView>, w: Option<PageView>) {
    v.Some? && w.Some? && v.value.private == w.value.private && v.value.root == w.value.root
  }

  lemma ApartKept(m: Mem, spaces: seq<Areas>, m': Mem, spaces': seq<Areas>)
    requires Apart(m, spaces) && ShowsOnly(m, spaces, m', spaces')
    ensures Apart(m', spaces')
  {
    hide ViewIn;
    forall p, pn: nat, r, qn: nat | 0 <= p < |spaces'| && 0 <= r < |spaces'|
      ensures ViewsApart(ViewIn(m', spaces'[p], pn), ViewIn(m', spaces'[r], qn))
    {
      var v, w := ViewIn(m', spaces'[p], pn), ViewIn(m', spaces'[r], qn);
      if v.Some? && w.Some? {
        var i, in': nat :| 0 <= i < |spaces| && LikeView(v, ViewIn(m, spaces[i], in'));
        var j, jn: nat :| 0 <= j < |spaces| && LikeView(w, ViewIn(m, spaces[j], jn));
        assert ViewsApart(ViewIn(m, spaces[i], in'), ViewIn(m, spaces[j], jn));
      }
    }
  }

  /** Two areas that are not both private or both shared end in different objects. */
  lemma EndsApart(m: Mem, spaces: seq<Areas>, low: nat, high: nat, p: nat, a: VmArea, r: nat, b: VmArea)
    requires Apart(m, spaces) && SpacesOk(spaces, low, high)
    requires p < |spaces| && a in spaces[p] && r < |spaces| && b in spaces[r] && a.private != b.private
    ensures End(m.links, a.obj) != End(m.links, b.obj)
  {
    var i :| 0 <= i < |spaces[p]| && spaces[p][i] == a;
    var j :| 0 <= j < |spaces[r]| && spaces[r][j] == b;
    assert SpaceOk(spaces[p], low, high) && SpaceOk(spaces[r], low, high);
    AtUnique(spaces[p], low, high, i, a.start);
    AtUnique(spaces[r], low, high, j, b.start);
    assert ViewsApart(ViewIn(m, spaces[p], a.start), ViewIn(m, spaces[r], b.start));
  }

  // ---------------------------------------------------------------------------------------------
  // Until an area is split

  /** mmo_bottom_obj is right everywhere, and shared areas point straight at their last object. */
  ghost predicate Unsplit(objs: Objs, spaces: seq<Areas>) {
    && (forall o :: o in objs ==> BottomOk(objs, o))
    && forall p :: 0 <= p < |spaces| ==> Direct(objs, spaces[p])
  }

  ghost predicate Direct(objs: Objs, areas: Areas) {
    forall a :: a in areas && !a.private && a.obj in objs ==> objs[a.obj].kind == Anon
  }

  /** Then every object leads to a list. */
  lemma UnsplitLists(objs: Objs, next: ObjId, spaces: seq<Areas>, x: ObjId)
    requires ObjsOk(objs, next) && Unsplit(objs, spaces) && x in objs
    ensures HasList(objs, x) && Freeable(objs, x)
  {
    assert BottomOk(objs, x);
    EndIsAnon(objs, next, x);
  }

  /** Putting objects back keeps it, for areas over objects that backed areas before. */
  lemma UnsplitSurvives(m: Mem, objs: Objs, m': Mem, objs': Objs, spaces: seq<Areas>, spaces': seq<Areas>)
    requires m.links == LinksOf(objs) && m'.links == LinksOf(objs') && SameKinds(objs, objs') && objs'.Keys <= objs.Keys
    requires Unsplit(objs, spaces) && |spaces'| == |spaces|
    requires forall x :: x in objs' ==> Alike(m, x, m', x)
    requires forall p :: 0 <= p < |spaces| ==> SameTops(spaces[p], spaces'[p])
    ensures Unsplit(objs', spaces')
  {
    hide LinksOf, End, Bare, ReadIn, HeldIn;
    forall o | o in objs'
      ensures BottomOk(objs', o)
    {
      assert BottomOk(objs, o);
    }
    forall p | 0 <= p < |spaces'|
      ensures Direct(objs', spaces'[p])
    {
      assert SameTops(spaces[p], spaces'[p]) && Direct(objs, spaces[p]);
    }
  }

  /** The store gained objects with good bottoms, and the areas are old ones or `a`. */
  lemma UnsplitGrows(m: Mem, objs: Objs, m': Mem, objs': Objs, spaces: seq<Areas>, spaces': seq<Areas>, a: VmArea)
    requires m.links == LinksOf(objs) && m'.links == LinksOf(objs') && SameKinds(objs, objs') && objs.Keys <= objs'.Keys
    requires Unsplit(objs, spaces) && |spaces'| == |spaces|
    requires forall x :: x in objs ==> Alike(m, x, m', x)
    requires forall x :: x in objs' && x !in objs ==> BottomOk(objs', x)
    requires !a.private && a.obj in objs' ==> objs'[a.obj].kind == Anon
    requires forall p, b :: 0 <= p < |spaces| && b in spaces'[p] ==> b == a || b in spaces[p]
    requires forall p, b :: 0 <= p < |spaces| && b in spaces[p] ==> b.obj in objs
    ensures Unsplit(objs', spaces')
  {
    hide LinksOf, End, Bare, ReadIn, HeldIn;
    forall o | o in objs'
      ensures BottomOk(objs', o)
    {
      if o in objs { assert BottomOk(objs, o); }
    }
    forall p | 0 <= p < |spaces'|
      ensures Direct(objs', spaces'[p])
    {
      assert Direct(objs, spaces[p]);
    }
  }
}
