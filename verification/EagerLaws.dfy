/** The eager machine seen from outside: what a load finds after each of its operations. */
module EagerLaws {
  import opened Lists
  import opened Chains
  import opened VmState
  import opened Mapping
  import Spec = EagerCopy
  import opened EagerCopy
  import opened EagerRuns

  /** Process `p` has page `pn` mapped, with this protection and these bytes. */
  ghost predicate Shows(e: Eager, p: nat, pn: nat, prot: Prot, page: Page) {
    p < |e.spaces| && pn in e.spaces[p] && e.spaces[p][pn].prot == prot && BytesAt(e, p, pn) == page
  }

  ghost predicate Mapped(e: Eager, p: nat, pn: nat) { p < |e.spaces| && pn in e.spaces[p] }

  /** Page `pn` of `p` and page `qn` of `r` are the same memory. */
  ghost predicate SamePage(e: Eager, p: nat, pn: nat, r: nat, qn: nat)
    requires Mapped(e, p, pn) && Mapped(e, r, qn)
  {
    || (p == r && pn == qn)
    || (&& e.spaces[p][pn].Shared? && e.spaces[r][qn].Shared?
        && e.spaces[p][pn].obj == e.spaces[r][qn].obj && e.spaces[p][pn].page == e.spaces[r][qn].page)
  }

  /** A fork gives the child what the parent has, and nobody else anything. */
  lemma ForkShows(e: Eager, p: nat, r: nat, pn: nat, prot: Prot, page: Page)
    requires p < |e.spaces|
    ensures Shows(Spec.Fork(e, p), r, pn, prot, page) <==> Shows(e, if r == |e.spaces| then p else r, pn, prot, page)
  {
  }

  /** A store to a writable page is seen byte for byte wherever that memory is mapped, and nowhere else. */
  lemma StoreShows(e: Eager, p: nat, pn: nat, off: nat, bytes: seq<nat>, r: nat, qn: nat)
    requires Mapped(e, p, pn) && Mapped(e, r, qn) && off + |bytes| <= PAGE_SIZE
    ensures var e' := Spec.Store(e, p, pn, off, bytes);
      && |e'.spaces| == |e.spaces| && Mapped(e', r, qn) && e'.spaces[r][qn].prot == e.spaces[r][qn].prot
      && forall i :: 0 <= i < PAGE_SIZE ==>
        BytesAt(e', r, qn)[i] ==
          if e.spaces[p][pn].prot.write && SamePage(e, p, pn, r, qn) && off <= i < off + |bytes| then bytes[i - off]
          else BytesAt(e, r, qn)[i]
  {
    var e' := Spec.Store(e, p, pn, off, bytes);
    if e.spaces[p][pn].prot.write {
      var page := Splice(BytesAt(e, p, pn), off, bytes);
      PutShows(e, p, pn, page, r, qn);
    }
  }

  lemma PutShows(e: Eager, p: nat, pn: nat, page: Page, r: nat, qn: nat)
    requires Mapped(e, p, pn) && Mapped(e, r, qn)
    ensures var e' := PutPage(e, p, pn, page);
      && |e'.spaces| == |e.spaces| && Mapped(e', r, qn) && e'.spaces[r][qn].prot == e.spaces[r][qn].prot
      && BytesAt(e', r, qn) == (if SamePage(e, p, pn, r, qn) then page else BytesAt(e, r, qn))
      && (SamePage(e, p, pn, r, qn) ==> BytesAt(e, r, qn) == BytesAt(e, p, pn))
  {
  }

  /** Stores map and unmap nothing. */
  lemma StoreMapsNothing(e: Eager, p: nat, pn: nat, off: nat, bytes: seq<nat>, r: nat, qn: nat)
    requires p < |e.spaces|
    ensures Mapped(Spec.Store(e, p, pn, off, bytes), r, qn) <==> Mapped(e, r, qn)
  {
  }

  /** What is left of the shared pages shows what it showed. */
  lemma ForgetShows(spaces: seq<Cells>, e: Eager, r: nat, pn: nat)
    requires r < |spaces| && pn in spaces[r] && r < |e.spaces| && pn in e.spaces[r] && spaces[r][pn] == e.spaces[r][pn]
    ensures BytesAt(Forget(spaces, e.shared), r, pn) == BytesAt(e, r, pn)
  {
    assert spaces[r][pn].Shared? ==> NamedAt(spaces[r], pn, spaces[r][pn].obj);
  }

  /** An unmapping takes the pages of the range from that process, and changes nothing else. */
  lemma UnmapShows(e: Eager, p: nat, lo: nat, hi: nat, r: nat, pn: nat, prot: Prot, page: Page)
    requires p < |e.spaces|
    ensures Shows(Spec.Unmap(e, p, lo, hi), r, pn, prot, page) <==>
      Shows(e, r, pn, prot, page) && !(r == p && lo <= pn < hi)
  {
    var spaces := e.spaces[p := Without(e.spaces[p], lo, hi)];
    if r < |spaces| && pn in spaces[r] {
      ForgetShows(spaces, e, r, pn);
    }
  }

  /** An exit takes all pages from that process, and changes nothing else. */
  lemma ExitShows(e: Eager, p: nat, r: nat, pn: nat, prot: Prot, page: Page)
    requires p < |e.spaces|
    ensures Shows(Spec.Exit(e, p), r, pn, prot, page) <==> Shows(e, r, pn, prot, page) && r != p
  {
    var spaces := e.spaces[p := imap[]];
    if r < |spaces| && pn in spaces[r] {
      ForgetShows(spaces, e, r, pn);
    }
  }

  /** The cells and shared pages that a mapping makes. */
  lemma MappedCells(e: Eager, p: nat, start: nat, n: nat, prot: Prot, private: bool, off: nat, o: ObjId, pn: nat)
    requires p < |e.spaces|
    ensures var cells, shared := WithZeros(e.spaces[p], start, n, prot, private, off, o), ZeroShared(e.shared, o);
      && (start <= pn < start + n ==> pn in cells && cells[pn] == ZeroCell(prot, private, o, pn - start + off))
      && (!(start <= pn < start + n) ==> (pn in cells <==> pn in e.spaces[p]))
      && (!(start <= pn < start + n) && pn in cells ==> cells[pn] == e.spaces[p][pn])
      && (forall q: nat :: (o, q) in shared && shared[(o, q)] == ZeroPage())
      && (forall x: ObjId, q: nat :: x != o ==> ((x, q) in shared <==> (x, q) in e.shared))
      && (forall x: ObjId, q: nat :: x != o && (x, q) in e.shared ==> shared[(x, q)] == e.shared[(x, q)])
  {
    hide ZeroPage;
  }

  /** A mapping shows zeros in its range, with the protection asked for, and changes nothing else. */
  lemma MapShows(e: Eager, p: nat, start: nat, n: nat, given: Prot, private: bool, off: nat, o: ObjId, r: nat, pn: nat,
                 prot: Prot, page: Page)
    requires p < |e.spaces| && !Names(e.spaces, o)
    ensures Shows(MapZeros(e, p, start, n, given, private, off, o), r, pn, prot, page) <==>
      if r == p && start <= pn < start + n then prot == given && page == ZeroPage() else Shows(e, r, pn, prot, page)
  {
    hide ZeroPage, WithZeros, ZeroShared;
    MappedCells(e, p, start, n, given, private, off, o, pn);
    var cells, shared := WithZeros(e.spaces[p], start, n, given, private, off, o), ZeroShared(e.shared, o);
    var spaces := e.spaces[p := cells];
    if r < |spaces| && pn in spaces[r] {
      ForgetShows(spaces, Eager(spaces, shared), r, pn);
      assert Mapped(e, r, pn) && e.spaces[r][pn].Shared? ==> NamedAt(e.spaces[r], pn, e.spaces[r][pn].obj);
    }
  }

  /** Two pages of a mapping are the same memory only if it is shared and they are one page. */
  lemma MapIsFresh(e: Eager, p: nat, start: nat, n: nat, prot: Prot, private: bool, off: nat, o: ObjId, pn: nat,
                   r: nat, qn: nat)
    requires p < |e.spaces| && !Names(e.spaces, o) && start <= pn < start + n
    requires Mapped(MapZeros(e, p, start, n, prot, private, off, o), r, qn)
    ensures var e' := MapZeros(e, p, start, n, prot, private, off, o);
      Mapped(e', p, pn) && (SamePage(e', p, pn, r, qn) ==> r == p && qn == pn)
  {
    hide ZeroPage, WithZeros, ZeroShared;
    MappedCells(e, p, start, n, prot, private, off, o, pn);
    MappedCells(e, p, start, n, prot, private, off, o, qn);
    assert Mapped(e, r, qn) && e.spaces[r][qn].Shared? ==> NamedAt(e.spaces[r], qn, e.spaces[r][qn].obj);
  }

  lemma LongerCells(cells: Cells, begin: nat, shown: seq<Page>, pn: nat)
    requires begin > 0 && begin - 1 in cells
    ensures var grown, c := Grow(cells, begin, shown), cells[begin - 1];
      if begin <= pn < begin + |shown| then
        && pn in grown && grown[pn].prot == c.prot
        && (c.Own? ==> grown[pn] == Own(c.prot, shown[pn - begin]))
        && (c.Shared? ==> grown[pn] == Shared(c.prot, c.obj, c.page + pn + 1 - begin))
      else (pn in grown <==> pn in cells) && (pn in cells ==> grown[pn] == cells[pn])
  {
    var grown := Grow(cells, begin, shown);
    if begin <= pn < begin + |shown| {
      assert pn in grown;
      assert grown[pn] == Further(cells[begin - 1], pn - begin + 1, shown[pn - begin]);
    }
  }

  /** A growing break shows the bytes it is given where it maps private pages, and changes nothing else. */
  lemma GrowShows(e: Eager, p: nat, brk: nat, addr: nat, shown: seq<Page>, r: nat, pn: nat)
    requires p < |e.spaces| && brk > 0 && addr > 0 && PageAbove(brk) < PageAbove(addr)
    requires Mapped(e, p, PageAbove(brk) - 1) && |shown| == PageAbove(addr) - PageAbove(brk)
    requires r < |e.spaces|
    ensures var e', c := MoveBreak(e, p, brk, addr, shown), e.spaces[p][PageAbove(brk) - 1];
      && |e'.spaces| == |e.spaces| && e'.shared == e.shared
      && if r == p && PageAbove(brk) <= pn < PageAbove(addr) then
           && pn in e'.spaces[r] && e'.spaces[r][pn].prot == c.prot
           && (c.Own? ==> e'.spaces[r][pn] == Own(c.prot, shown[pn - PageAbove(brk)]))
           && (c.Shared? ==> e'.spaces[r][pn] == Shared(c.prot, c.obj, c.page + pn + 1 - PageAbove(brk)))
         else (pn in e'.spaces[r] <==> pn in e.spaces[r]) && (pn in e.spaces[r] ==> e'.spaces[r][pn] == e.spaces[r][pn])
  {
    hide PageAbove, Grow;
    var begin := PageAbove(brk);
    var cells := Grow(e.spaces[p], begin, shown);
    LongerCells(e.spaces[p], begin, shown, pn);
    assert MoveBreak(e, p, brk, addr, shown) == e.(spaces := e.spaces[p := cells]);
  }
}
