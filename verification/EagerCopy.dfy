/**
 * The specification of fork: memory in which every private page belongs to one process, fork
 * copies the whole address space, and shared pages are named rather than owned.
 */
module EagerCopy {
  import opened Lists
  import opened Chains
  import opened VmState
  import opened AreaList
  import opened AddressSpace
  import opened Mapping

  datatype Cell = Own(prot: Prot, bytes: Page) | Shared(prot: Prot, obj: ObjId, page: nat)

  type Cells = imap<nat, Cell>
  type SharedPages = imap<(ObjId, nat), Page>

  datatype Eager = Eager(spaces: seq<Cells>, shared: SharedPages)

  /** Some address space names the shared object `o`. */
  ghost predicate Names(spaces: seq<Cells>, o: ObjId) {
    exists p, pn: nat :: 0 <= p < |spaces| && NamedAt(spaces[p], pn, o)
  }

  ghost predicate NamedAt(cells: Cells, pn: nat, o: ObjId) {
    pn in cells && cells[pn].Shared? && cells[pn].obj == o
  }

  /** Shared objects that no address space names any more are gone. */
  ghost function Forget(spaces: seq<Cells>, shared: SharedPages): (e: Eager) {
    Eager(spaces, imap key | key in shared && Names(spaces, key.0) :: shared[key])
  }

  /** memcpy of `bytes` into a page at `off`; a copy that would leave the page does nothing. */
  function Splice(page: Page, off: nat, bytes: seq<nat>): (r: Page)
    ensures off + |bytes| <= PAGE_SIZE ==>
      forall i :: 0 <= i < PAGE_SIZE ==> r[i] == if off <= i < off + |bytes| then bytes[i - off] else page[i]
    ensures off + |bytes| > PAGE_SIZE ==> r == page
  {
    if off + |bytes| <= |page| then page[..off] + bytes + page[off + |bytes|..] else page
  }

  // ---------------------------------------------------------------------------------------------
  // The operations

  ghost function Fork(e: Eager, p: nat): (e': Eager)
    requires p < |e.spaces|
  {
    e.(spaces := e.spaces + [e.spaces[p]])
  }

  /** The bytes of a mapped page. */
  ghost function BytesAt(e: Eager, p: nat, pn: nat): (page: Page)
    requires p < |e.spaces| && pn in e.spaces[p]
  {
    match e.spaces[p][pn]
    case Own(_, bytes) => bytes
    case Shared(_, o, q) => if (o, q) in e.shared then e.shared[(o, q)] else ZeroPage()
  }

  /** handle_pagefault resolves a fault for this access. */
  ghost predicate Allowed(e: Eager, p: nat, pn: nat, write: bool, exec: bool)
    requires p < |e.spaces|
  {
    pn in e.spaces[p] && if write then e.spaces[p][pn].prot.write else exec || e.spaces[p][pn].prot.read
  }

  /** The page is mapped with a protection that permits the access. */
  ghost predicate Permitted(e: Eager, p: nat, pn: nat, write: bool, exec: bool)
    requires p < |e.spaces|
  {
    && pn in e.spaces[p]
    && (write ==> e.spaces[p][pn].prot.write)
    && (exec ==> e.spaces[p][pn].prot.exec)
    && (!write && !exec ==> e.spaces[p][pn].prot.read)
  }

  /** PROT_EXEC is never looked at: faults are judged right exactly when that makes no difference. */
  lemma ExecNotChecked(e: Eager, p: nat, pn: nat, write: bool, exec: bool)
    requires p < |e.spaces|
    ensures (Allowed(e, p, pn, write, exec) <==> Permitted(e, p, pn, write, exec)) <==>
      !(exec && pn in e.spaces[p] && !e.spaces[p][pn].prot.exec && (write ==> e.spaces[p][pn].prot.write))
  {
  }

  /** An instruction fetch from a page that is not executable is let through. */
  lemma ExecWitness()
    ensures var e := Eager([imap[0 := Own(Prot(true, false, false), ZeroPage())]], imap[]);
      Allowed(e, 0, 0, false, true) && !Permitted(e, 0, 0, false, true)
  {
  }

  ghost function WithCell(cells: Cells, pn: nat, c: Cell): (r: Cells) { cells[pn := c] }

  /** A mapped page gets new bytes, whatever its protection. */
  ghost function PutPage(e: Eager, p: nat, pn: nat, page: Page): (e': Eager)
    requires p < |e.spaces| && pn in e.spaces[p]
  {
    match e.spaces[p][pn]
    case Own(prot, _) => e.(spaces := e.spaces[p := WithCell(e.spaces[p], pn, Own(prot, page))])
    case Shared(_, o, q) => e.(shared := e.shared[(o, q) := page])
  }

  ghost function Store(e: Eager, p: nat, pn: nat, off: nat, bytes: seq<nat>): (e': Eager)
    requires p < |e.spaces|
  {
    if Allowed(e, p, pn, true, false) then PutPage(e, p, pn, Splice(BytesAt(e, p, pn), off, bytes)) else e
  }

  ghost function Without(cells: Cells, lo: nat, hi: nat): (r: Cells) {
    imap pn: nat | pn in cells && !(lo <= pn < hi) :: cells[pn]
  }

  ghost function Unmap(e: Eager, p: nat, lo: nat, hi: nat): (e': Eager)
    requires p < |e.spaces|
  {
    Forget(e.spaces[p := Without(e.spaces[p], lo, hi)], e.shared)
  }

  ghost function Exit(e: Eager, p: nat): (e': Eager)
    requires p < |e.spaces|
  {
    Forget(e.spaces[p := imap[]], e.shared)
  }

  ghost function ZeroCell(prot: Prot, private: bool, o: ObjId, page: nat): (c: Cell) {
    if private then Own(prot, ZeroPage()) else Shared(prot, o, page)
  }

  ghost function WithZeros(cells: Cells, start: nat, n: nat, prot: Prot, private: bool, off: nat,
                           o: ObjId): (r: Cells) {
    imap pn: nat | pn in cells || start <= pn < start + n ::
      if start <= pn < start + n then ZeroCell(prot, private, o, pn - start + off) else cells[pn]
  }

  ghost function ZeroShared(shared: SharedPages, o: ObjId): (r: SharedPages) {
    imap key: (ObjId, nat) | key in shared || key.0 == o :: if key.0 == o then ZeroPage() else shared[key]
  }

  /** Zeros over [start, start + n): the process's own, or those of the new shared object `o`. */
  ghost function MapZeros(e: Eager, p: nat, start: nat, n: nat, prot: Prot, private: bool, off: nat,
                          o: ObjId): (e': Eager)
    requires p < |e.spaces|
  {
    Forget(e.spaces[p := WithZeros(e.spaces[p], start, n, prot, private, off, o)], ZeroShared(e.shared, o))
  }

  /** The cell `n` pages further on; `bytes` are its bytes when it is the process's own. */
  ghost function Further(c: Cell, n: nat, bytes: Page): (r: Cell) {
    match c
    case Own(prot, _) => Own(prot, bytes)
    case Shared(prot, o, q) => Shared(prot, o, q + n)
  }

  /** The mapping of page `begin` - 1 goes on to `begin` + |shown|. */
  ghost function Grow(cells: Cells, begin: nat, shown: seq<Page>): (r: Cells)
    requires begin > 0 && begin - 1 in cells
  {
    imap pn: nat | pn in cells || begin <= pn < begin + |shown| ::
      if begin <= pn < begin + |shown| then Further(cells[begin - 1], pn - begin + 1, shown[pn - begin]) else cells[pn]
  }

  // ---------------------------------------------------------------------------------------------
  // What the kernel's state means

  ghost function CellOf(v: PageView): (c: Cell) {
    if v.private then Own(v.prot, v.contents) else Shared(v.prot, v.root, v.objpage)
  }

  ghost function CellsOf(m: Mem, areas: Areas): (cells: Cells) {
    imap pn: nat | ViewIn(m, areas, pn).Some? :: CellOf(ViewIn(m, areas, pn).value)
  }

  ghost function SpacesOf(m: Mem, spaces: seq<Areas>): (r: seq<Cells>)
    ensures |r| == |spaces|
    ensures forall p :: 0 <= p < |spaces| ==> r[p] == CellsOf(m, spaces[p])
  {
    seq(|spaces|, p requires 0 <= p < |spaces| => CellsOf(m, spaces[p]))
  }

  ghost function SharedOf(m: Mem, cells: seq<Cells>): (r: SharedPages) {
    imap key: (ObjId, nat) | Names(cells, key.0) :: ReadIn(m, key.0, key.1)
  }

  ghost function Meaning(m: Mem, spaces: seq<Areas>): (e: Eager) {
    Eager(SpacesOf(m, spaces), SharedOf(m, SpacesOf(m, spaces)))
  }

  lemma NamedBy(cells: seq<Cells>, p: nat, pn: nat, o: ObjId)
    requires p < |cells| && NamedAt(cells[p], pn, o)
    ensures Names(cells, o)
  {
  }

  /** What a mapped page means: its area's protection, and the bytes of the object or its last one. */
  lemma CellAt(m: Mem, spaces: seq<Areas>, p: nat, pn: nat)
    requires p < |spaces|
    ensures pn in Meaning(m, spaces).spaces[p] <==> At(spaces[p], pn).Some?
    ensures At(spaces[p], pn).Some? ==>
      var a := At(spaces[p], pn).value; var q := pn - a.start + a.off; var e := End(m.links, a.obj);
      && Meaning(m, spaces).spaces[p][pn] ==
         (if a.private then Own(a.prot, ReadIn(m, a.obj, q)) else Shared(a.prot, e, q))
      && BytesAt(Meaning(m, spaces), p, pn) == ReadIn(m, if a.private then a.obj else e, q)
  {
    hide ReadIn, At, Names, SpacesOf, End;
    var cells: seq<Cells> := SpacesOf(m, spaces);
    if At(spaces[p], pn).Some? && !At(spaces[p], pn).value.private {
      NamedBy(cells, p, pn, End(m.links, At(spaces[p], pn).value.obj));
    }
  }

  /** A shared object that is named is the last object of a shared area. */
  lemma NamedIsEnd(m: Mem, spaces: seq<Areas>, o: ObjId)
    requires Names(SpacesOf(m, spaces), o)
    ensures exists p, a :: 0 <= p < |spaces| && a in spaces[p] && !a.private && End(m.links, a.obj) == o
  {
    hide ReadIn, End;
    var p, pn: nat :| 0 <= p < |spaces| && NamedAt(SpacesOf(m, spaces)[p], pn, o);
    assert At(spaces[p], pn).value in spaces[p];
  }

  ghost predicate NamedSame(m: Mem, m': Mem, cells: seq<Cells>) {
    forall o, q :: Names(cells, o) ==> ReadIn(m', o, q) == ReadIn(m, o, q)
  }

  lemma CellsSame(m: Mem, m': Mem, areas: Areas)
    requires SameViews(m, m', areas)
    ensures CellsOf(m', areas) == CellsOf(m, areas)
  {
    hide ViewIn;
    forall pn: nat
      ensures ViewIn(m', areas, pn) == ViewIn(m, areas, pn)
    {
    }
  }

  lemma SharedSame(m: Mem, m': Mem, cells: seq<Cells>)
    requires NamedSame(m, m', cells)
    ensures SharedOf(m', cells) == SharedOf(m, cells)
  {
    hide Names, ReadIn;
  }

  /** Memory in which every process sees the same, and shared objects read the same, means the same. */
  lemma MeaningSame(m: Mem, m': Mem, spaces: seq<Areas>)
    requires forall p :: 0 <= p < |spaces| ==> SameViews(m, m', spaces[p])
    requires NamedSame(m, m', SpacesOf(m, spaces))
    ensures Meaning(m', spaces) == Meaning(m, spaces)
  {
    hide CellsOf, ReadIn, SharedOf, SameViews, NamedSame;
    forall p | 0 <= p < |spaces|
      ensures CellsOf(m', spaces[p]) == CellsOf(m, spaces[p])
    {
      CellsSame(m, m', spaces[p]);
    }
    assert SpacesOf(m', spaces) == SpacesOf(m, spaces);
    SharedSame(m, m', SpacesOf(m, spaces));
  }

  ghost predicate SharedRight(m: Mem, cells: seq<Cells>, shared: SharedPages) {
    forall key: (ObjId, nat) :: Names(cells, key.0) ==> key in shared && shared[key] == ReadIn(m, key.0, key.1)
  }

  /** With `shared` right about every shared object still named, the state means its cells. */
  lemma ForgetMeaning(m: Mem, spaces: seq<Areas>, shared: SharedPages)
    requires SharedRight(m, SpacesOf(m, spaces), shared)
    ensures Meaning(m, spaces) == Forget(SpacesOf(m, spaces), shared)
  {
    hide Names, ReadIn, SpacesOf;
    assert SharedOf(m, SpacesOf(m, spaces)) == Forget(SpacesOf(m, spaces), shared).shared;
  }

  lemma ReplacedCells(m: Mem, m': Mem, spaces: seq<Areas>, spaces': seq<Areas>, p: nat)
    requires p < |spaces| && OthersSame(m, m', spaces, spaces', p)
    ensures SpacesOf(m', spaces') == SpacesOf(m, spaces)[p := CellsOf(m', spaces'[p])]
  {
    hide CellsOf, SameViews;
    forall r | 0 <= r < |spaces| && r != p
      ensures CellsOf(m', spaces'[r]) == CellsOf(m, spaces[r])
    {
      CellsSame(m, m', spaces[r]);
    }
  }

  // ---------------------------------------------------------------------------------------------
  // Unmapping

  /** Taking cells away from a process takes names away, and adds none. */
  lemma FewerNames(cells: seq<Cells>, p: nat, fewer: Cells, o: ObjId)
    requires p < |cells| && forall pn: nat :: pn in fewer ==> pn in cells[p] && fewer[pn] == cells[p][pn]
    requires Names(cells[p := fewer], o)
    ensures Names(cells, o)
  {
    var r, pn: nat :| 0 <= r < |cells| && NamedAt(cells[p := fewer][r], pn, o);
    assert NamedAt(cells[r], pn, o);
  }

  lemma CutCells(m: Mem, m': Mem, whole: Areas, part: Areas, lo: nat, hi: nat)
    requires Cut(m, whole, m', part, lo, hi)
    ensures CellsOf(m', part) == Without(CellsOf(m, whole), lo, hi)
  {
    hide ViewIn;
    forall pn: nat
      ensures ViewIn(m', part, pn) == if lo <= pn < hi then None else ViewIn(m, whole, pn)
    {
    }
  }

  lemma FewerMeaning(m: Mem, m': Mem, spaces: seq<Areas>, spaces': seq<Areas>, p: nat)
    requires p < |spaces| == |spaces'| && OthersSame(m, m', spaces, spaces', p)
    requires NamedSame(m, m', SpacesOf(m', spaces'))
    requires var cells, fewer := CellsOf(m, spaces[p]), CellsOf(m', spaces'[p]);
      forall pn: nat :: pn in fewer ==> pn in cells && fewer[pn] == cells[pn]
    ensures Meaning(m', spaces') == Forget(SpacesOf(m, spaces)[p := CellsOf(m', spaces'[p])], Meaning(m, spaces).shared)
  {
    hide CellsOf, Names, ReadIn, OthersSame;
    ReplacedCells(m, m', spaces, spaces', p);
    var cells, shared := SpacesOf(m, spaces), Meaning(m, spaces).shared;
    forall key: (ObjId, nat) | Names(SpacesOf(m', spaces'), key.0)
      ensures key in shared && shared[key] == ReadIn(m', key.0, key.1)
    {
      FewerNames(cells, p, CellsOf(m', spaces'[p]), key.0);
    }
    ForgetMeaning(m', spaces', shared);
  }

  lemma UnmapMeaning(m: Mem, m': Mem, spaces: seq<Areas>, spaces': seq<Areas>, p: nat, lo: nat, hi: nat)
    requires p < |spaces| == |spaces'| && OthersSame(m, m', spaces, spaces', p)
    requires NamedSame(m, m', SpacesOf(m', spaces'))
    requires Cut(m, spaces[p], m', spaces'[p], lo, hi)
    ensures Meaning(m', spaces') == Unmap(Meaning(m, spaces), p, lo, hi)
  {
    hide CellsOf, ReadIn, Cut, OthersSame, NamedSame;
    CutCells(m, m', spaces[p], spaces'[p], lo, hi);
    FewerMeaning(m, m', spaces, spaces', p);
  }

  lemma ExitMeaning(m: Mem, m': Mem, spaces: seq<Areas>, p: nat)
    requires p < |spaces| && OthersSame(m, m', spaces, spaces[p := []], p)
    requires NamedSame(m, m', SpacesOf(m', spaces[p := []]))
    ensures Meaning(m', spaces[p := []]) == Exit(Meaning(m, spaces), p)
  {
    assert CellsOf(m', []) == imap[];
    hide CellsOf, OthersSame, NamedSame;
    FewerMeaning(m, m', spaces, spaces[p := []], p);
  }

  // ---------------------------------------------------------------------------------------------
  // Mapping

  lemma PlacedCells(m: Mem, m': Mem, areas: Areas, areas': Areas, start: nat, n: nat, prot: Prot, private: bool,
                    off: nat, root: ObjId)
    requires ZeroMapped(m, areas, m', areas', start, n, prot, private, off, root)
    ensures CellsOf(m', areas') == WithZeros(CellsOf(m, areas), start, n, prot, private, off, root)
  {
    hide ViewIn, ZeroPage;
    var cells, cells' := CellsOf(m, areas), CellsOf(m', areas');
    forall pn: nat
      ensures pn in cells' <==> pn in cells || start <= pn < start + n
      ensures start <= pn < start + n ==> cells'[pn] == ZeroCell(prot, private, root, pn - start + off)
      ensures pn in cells && !(start <= pn < start + n) ==> cells'[pn] == cells[pn]
    {
      assert ViewIn(m', areas', pn) ==
        if start <= pn < start + n then Some(PageView(prot, private, root, pn - start + off, ZeroPage()))
        else ViewIn(m, areas, pn);
    }
    hide CellsOf, ZeroCell;
  }

  lemma PlacedNames(cells: seq<Cells>, p: nat, start: nat, n: nat, prot: Prot, private: bool, off: nat, new': ObjId,
                    o: ObjId)
    requires p < |cells| && Names(cells[p := WithZeros(cells[p], start, n, prot, private, off, new')], o) && o != new'
    ensures Names(cells, o)
  {
    var cells' := cells[p := WithZeros(cells[p], start, n, prot, private, off, new')];
    var r, pn: nat :| 0 <= r < |cells| && NamedAt(cells'[r], pn, o);
    assert NamedAt(cells[r], pn, o);
  }

  lemma MapMeaning(m: Mem, m': Mem, spaces: seq<Areas>, spaces': seq<Areas>, p: nat,
                   start: nat, n: nat, prot: Prot, private: bool, off: nat, root: ObjId)
    requires p < |spaces| == |spaces'| && OthersSame(m, m', spaces, spaces', p)
    requires ZeroMapped(m, spaces[p], m', spaces'[p], start, n, prot, private, off, root)
    requires forall q :: ReadIn(m', root, q) == ZeroPage()
    requires forall o, q :: Names(SpacesOf(m', spaces'), o) && o != root ==> ReadIn(m', o, q) == ReadIn(m, o, q)
    ensures Meaning(m', spaces') == MapZeros(Meaning(m, spaces), p, start, n, prot, private, off, root)
  {
    hide CellsOf, ReadIn, ZeroMapped, Names, WithZeros, ZeroPage, SpacesOf, Forget, OthersSame;
    PlacedCells(m, m', spaces[p], spaces'[p], start, n, prot, private, off, root);
    ReplacedCells(m, m', spaces, spaces', p);
    var shared := ZeroShared(Meaning(m, spaces).shared, root);
    forall key: (ObjId, nat) | Names(SpacesOf(m', spaces'), key.0)
      ensures key in shared && shared[key] == ReadIn(m', key.0, key.1)
    {
      if key.0 != root {
        PlacedNames(SpacesOf(m, spaces), p, start, n, prot, private, off, root, key.0);
      }
    }
    ForgetMeaning(m', spaces', shared);
  }

  // ---------------------------------------------------------------------------------------------
  // Changes that name the same shared objects

  /** The same names, and the same bytes under them but for what `shared` says. */
  lemma RenamedMeaning(m: Mem, m': Mem, spaces: seq<Areas>, spaces': seq<Areas>)
    requires forall o :: Names(SpacesOf(m', spaces'), o) <==> Names(SpacesOf(m, spaces), o)
    requires NamedSame(m, m', SpacesOf(m, spaces))
    ensures Meaning(m', spaces') == Eager(SpacesOf(m', spaces'), Meaning(m, spaces).shared)
  {
    hide Names, ReadIn, SpacesOf;
    assert SharedOf(m', SpacesOf(m', spaces')) == SharedOf(m, SpacesOf(m, spaces));
  }

  lemma ForkNames(cells: seq<Cells>, p: nat, o: ObjId)
    requires p < |cells|
    ensures Names(cells + [cells[p]], o) <==> Names(cells, o)
  {
    var cells' := cells + [cells[p]];
    if Names(cells', o) {
      var r, pn: nat :| 0 <= r < |cells'| && NamedAt(cells'[r], pn, o);
      NamedBy(cells, if r == |cells| then p else r, pn, o);
    }
    if Names(cells, o) {
      var r, pn: nat :| 0 <= r < |cells| && NamedAt(cells[r], pn, o);
      NamedBy(cells', r, pn, o);
    }
  }

  lemma ForkMeaning(m: Mem, m': Mem, spaces: seq<Areas>, spaces': seq<Areas>, p: nat)
    requires p < |spaces| && |spaces'| == |spaces| + 1
    requires forall r :: 0 <= r < |spaces| ==> CellsOf(m', spaces'[r]) == CellsOf(m, spaces[r])
    requires CellsOf(m', spaces'[|spaces|]) == CellsOf(m, spaces[p])
    requires NamedSame(m, m', SpacesOf(m, spaces))
    ensures Meaning(m', spaces') == Fork(Meaning(m, spaces), p)
  {
    hide Names, CellsOf, ReadIn, NamedSame, SpacesOf, SharedOf;
    var cells, cells' := SpacesOf(m, spaces), SpacesOf(m', spaces');
    assert cells' == cells + [cells[p]];
    forall o
      ensures Names(cells', o) <==> Names(cells, o)
    {
      ForkNames(cells, p, o);
    }
    RenamedMeaning(m, m', spaces, spaces');
  }

  lemma SpawnNames(cells: seq<Cells>, o: ObjId)
    ensures Names(cells + [imap[]], o) <==> Names(cells, o)
  {
    var cells': seq<Cells> := cells + [imap[]];
    if Names(cells', o) {
      var r, pn: nat :| 0 <= r < |cells'| && NamedAt(cells'[r], pn, o);
      NamedBy(cells, r, pn, o);
    }
    if Names(cells, o) {
      var r, pn: nat :| 0 <= r < |cells| && NamedAt(cells[r], pn, o);
      NamedBy(cells', r, pn, o);
    }
  }

  lemma SpawnMeaning(m: Mem, spaces: seq<Areas>)
    ensures Meaning(m, spaces + [[]]) == Meaning(m, spaces).(spaces := Meaning(m, spaces).spaces + [imap[]])
  {
    var cells, cells' := SpacesOf(m, spaces), SpacesOf(m, spaces + [[]]);
    assert CellsOf(m, []) == imap[];
    assert cells' == cells + [imap[]];
    hide SpacesOf, Names;
    forall o
      ensures Names(cells', o) <==> Names(cells, o)
    {
      SpawnNames(cells, o);
    }
    RenamedMeaning(m, m, spaces, spaces + [[]]);
  }

  lemma GrowNamed(cells: Cells, begin: nat, shown: seq<Page>, pn: nat, o: ObjId)
    requires begin > 0 && begin - 1 in cells && NamedAt(Grow(cells, begin, shown), pn, o)
    ensures NamedAt(cells, if begin <= pn < begin + |shown| then begin - 1 else pn, o)
  {
    if begin <= pn < begin + |shown| {
      assert Grow(cells, begin, shown)[pn] == Further(cells[begin - 1], pn - begin + 1, shown[pn - begin]);
    }
  }

  /** Growing a mapping names nothing new. */
  lemma GrowNames(cells: seq<Cells>, p: nat, begin: nat, shown: seq<Page>, o: ObjId)
    requires p < |cells| && begin > 0 && begin - 1 in cells[p]
    requires forall pn: nat | begin <= pn < begin + |shown| :: pn !in cells[p]
    ensures Names(cells[p := Grow(cells[p], begin, shown)], o) <==> Names(cells, o)
  {
    var cells' := cells[p := Grow(cells[p], begin, shown)];
    if Names(cells', o) {
      var r, pn: nat :| 0 <= r < |cells'| && NamedAt(cells'[r], pn, o);
      if r == p { GrowNamed(cells[p], begin, shown, pn, o); }
      NamedBy(cells, r, if r == p && begin <= pn < begin + |shown| then begin - 1 else pn, o);
    }
    if Names(cells, o) {
      var r, pn: nat :| 0 <= r < |cells| && NamedAt(cells[r], pn, o);
      NamedBy(cells', r, pn, o);
    }
  }

  /** The bytes that the pages from `begin` on show once the area `a` reaches to `end`. */
  ghost function Showing(m: Mem, a: VmArea, begin: nat, end: nat): (shown: seq<Page>)
    requires a.start <= begin <= end
    ensures |shown| == end - begin
    ensures forall i :: 0 <= i < |shown| ==> shown[i] == ReadIn(m, a.obj, begin + i - a.start + a.off)
    decreases end - begin
  {
    if begin == end then [] else [ReadIn(m, a.obj, begin - a.start + a.off)] + Showing(m, a, begin + 1, end)
  }

  lemma AreaView(m: Mem, areas: Areas, low: nat, high: nat, a: VmArea, pn: nat)
    requires SpaceOk(areas, low, high) && a in areas && Covers(a, pn)
    ensures ViewIn(m, areas, pn) ==
      Some(PageView(a.prot, a.private, End(m.links, a.obj), pn - a.start + a.off,
                    ReadIn(m, a.obj, pn - a.start + a.off)))
  {
    hide ReadIn, End;
    var i :| 0 <= i < |areas| && areas[i] == a;
    AtUnique(areas, low, high, i, pn);
  }

  lemma GrownCell(m: Mem, areas: Areas, low: nat, high: nat, a: VmArea, begin: nat, end: nat, pn: nat)
    requires SpaceOk(areas, low, high) && a in areas && a.start < a.end == begin <= pn < end
    ensures begin - 1 in CellsOf(m, areas)
    ensures var v := ViewIn(m, [a.(end := end)], pn);
      && v.Some?
      && CellOf(v.value) == Further(CellsOf(m, areas)[begin - 1], pn - begin + 1, Showing(m, a, begin, end)[pn - begin])
  {
    hide ReadIn, End, ViewIn, Showing, SpaceOk;
    AreaView(m, areas, low, high, a, begin - 1);
    AreaView(m, [a.(end := end)], a.start, end, a.(end := end), pn) by { OneSpace(a.(end := end)); }
    assert Showing(m, a, begin, end)[pn - begin] == ReadIn(m, a.obj, begin + (pn - begin) - a.start + a.off);
  }

  lemma OneSpace(a: VmArea)
    requires a.start < a.end
    ensures SpaceOk([a], a.start, a.end)
  {
  }

  lemma GrownCells(m: Mem, areas: Areas, areas': Areas, low: nat, high: nat, a: VmArea, begin: nat, end: nat)
    requires SpaceOk(areas, low, high) && Grew(m, areas, areas', a, begin, end) && begin < end && a.start < begin
    ensures begin - 1 in CellsOf(m, areas)
    ensures CellsOf(m, areas') == Grow(CellsOf(m, areas), begin, Showing(m, a, begin, end))
  {
    hide ViewIn, SpaceOk, Further, CellOf, Showing;
    var cells, cells', shown := CellsOf(m, areas), CellsOf(m, areas'), Showing(m, a, begin, end);
    GrownCell(m, areas, low, high, a, begin, end, begin);
    forall pn: nat
      ensures pn in cells' <==> pn in cells || begin <= pn < end
      ensures begin <= pn < end ==> cells'[pn] == Further(cells[begin - 1], pn - begin + 1, shown[pn - begin])
      ensures pn in cells && !(begin <= pn < end) ==> cells'[pn] == cells[pn]
    {
      assert ViewIn(m, areas', pn) ==
        if begin <= pn < end then ViewIn(m, [a.(end := end)], pn) else ViewIn(m, areas, pn);
      if begin <= pn < end {
        GrownCell(m, areas, low, high, a, begin, end, pn);
      }
    }
    hide CellsOf, Grew;
  }

  lemma GrowMeaning(m: Mem, spaces: seq<Areas>, spaces': seq<Areas>, low: nat, high: nat, p: nat, a: VmArea, begin: nat,
                    end: nat)
    requires p < |spaces| == |spaces'| && OthersSame(m, m, spaces, spaces', p) && SpaceOk(spaces[p], low, high)
    requires Grew(m, spaces[p], spaces'[p], a, begin, end) && begin < end && a.start < begin
    requires RangeFree(spaces[p], begin, end - begin)
    ensures begin - 1 in Meaning(m, spaces).spaces[p]
    ensures var e := Meaning(m, spaces);
      Meaning(m, spaces') == e.(spaces := e.spaces[p := Grow(e.spaces[p], begin, Showing(m, a, begin, end))])
  {
    var cells := SpacesOf(m, spaces);
    forall pn: nat | begin <= pn < end
      ensures pn !in cells[p]
    {
      assert At(spaces[p], pn).None?;
    }
    hide CellsOf, ReadIn, Names, OthersSame, Grew, SpaceOk, RangeFree;
    GrownCells(m, spaces[p], spaces'[p], low, high, a, begin, end);
    ReplacedCells(m, m, spaces, spaces', p);
    forall o
      ensures Names(SpacesOf(m, spaces'), o) <==> Names(cells, o)
    {
      GrowNames(cells, p, begin, Showing(m, a, begin, end), o);
    }
    RenamedMeaning(m, m, spaces, spaces');
  }

  // ---------------------------------------------------------------------------------------------
  // Writing

  /** Changing one owned cell changes no names. */
  lemma SameNames(cells: seq<Cells>, p: nat, pn: nat, c: Cell, o: ObjId)
    requires p < |cells| && pn in cells[p] && cells[p][pn].Own? && c.Own?
    ensures Names(cells[p := WithCell(cells[p], pn, c)], o) <==> Names(cells, o)
  {
    var cells' := cells[p := WithCell(cells[p], pn, c)];
    if Names(cells', o) {
      var r, n: nat :| 0 <= r < |cells'| && NamedAt(cells'[r], n, o);
      NamedBy(cells, r, n, o);
    }
    if Names(cells, o) {
      var r, n: nat :| 0 <= r < |cells| && NamedAt(cells[r], n, o);
      NamedBy(cells', r, n, o);
    }
  }

  ghost predicate SameButAt(m: Mem, m': Mem, areas: Areas, pn: nat, page: Page) {
    && ViewIn(m, areas, pn).Some?
    && forall n: nat :: (ViewIn(m', areas, n) ==
      if n == pn then Some(ViewIn(m, areas, pn).value.(contents := page)) else ViewIn(m, areas, n))
  }

  lemma WrittenCells(m: Mem, m': Mem, areas: Areas, pn: nat, page: Page)
    requires SameButAt(m, m', areas, pn, page) && ViewIn(m, areas, pn).value.private
    ensures pn in CellsOf(m, areas) && CellsOf(m, areas)[pn].Own?
    ensures CellsOf(m', areas) == WithCell(CellsOf(m, areas), pn, Own(CellsOf(m, areas)[pn].prot, page))
  {
    hide ViewIn;
    forall n: nat
      ensures ViewIn(m', areas, n) ==
        if n == pn then Some(ViewIn(m, areas, pn).value.(contents := page)) else ViewIn(m, areas, n)
    {
    }
  }

  /** A write that only one private page shows is a store to that page. */
  lemma PrivateStore(m: Mem, m': Mem, spaces: seq<Areas>, p: nat, pn: nat, page: Page)
    requires p < |spaces| && OthersSame(m, m', spaces, spaces, p)
    requires SameButAt(m, m', spaces[p], pn, page) && ViewIn(m, spaces[p], pn).value.private
    requires NamedSame(m, m', SpacesOf(m, spaces))
    ensures pn in Meaning(m, spaces).spaces[p]
    ensures Meaning(m', spaces) == PutPage(Meaning(m, spaces), p, pn, page)
  {
    hide ReadIn, Names, CellsOf, ViewIn, SameButAt, OthersSame, NamedSame;
    var cells := SpacesOf(m, spaces);
    WrittenCells(m, m', spaces[p], pn, page);
    ReplacedCells(m, m', spaces, spaces, p);
    forall o
      ensures Names(SpacesOf(m', spaces), o) <==> Names(cells, o)
    {
      SameNames(cells, p, pn, Own(cells[p][pn].prot, page), o);
    }
    RenamedMeaning(m, m', spaces, spaces);
  }

  /** The two views differ at most in the bytes of a shared page. */
  ghost predicate SameCell(v: Option<PageView>, w: Option<PageView>) {
    if v.Some? && w.Some? then CellOf(v.value) == CellOf(w.value) else v == w
  }

  lemma UnwrittenCells(m: Mem, m': Mem, areas: Areas)
    requires SameCells(m, m', areas)
    ensures CellsOf(m', areas) == CellsOf(m, areas)
  {
    hide ViewIn, CellOf;
    forall pn: nat
      ensures SameCell(ViewIn(m', areas, pn), ViewIn(m, areas, pn))
    {
    }
  }

  ghost predicate NamedSameBut(m: Mem, m': Mem, cells: seq<Cells>, key: (ObjId, nat), page: Page) {
    forall x: ObjId, r: nat :: Names(cells, x) ==> ReadIn(m', x, r) == if (x, r) == key then page else ReadIn(m, x, r)
  }

  lemma WrittenShared(m: Mem, m': Mem, cells: seq<Cells>, key: (ObjId, nat), page: Page)
    requires Names(cells, key.0) && NamedSameBut(m, m', cells, key, page)
    ensures SharedOf(m', cells) == SharedOf(m, cells)[key := page]
  {
    hide Names, ReadIn;
  }

  ghost predicate SameCells(m: Mem, m': Mem, areas: Areas) {
    forall n: nat :: SameCell(ViewIn(m', areas, n), ViewIn(m, areas, n))
  }

  /** A write to page `q` of a shared object, which no private page shows, is a store to that page. */
  lemma SharedStore(m: Mem, m': Mem, spaces: seq<Areas>, p: nat, pn: nat, key: (ObjId, nat), page: Page)
    requires p < |spaces| && forall r :: 0 <= r < |spaces| ==> SameCells(m, m', spaces[r])
    requires var v := ViewIn(m, spaces[p], pn); v.Some? && !v.value.private && (v.value.root, v.value.objpage) == key
    requires NamedSameBut(m, m', SpacesOf(m, spaces), key, page)
    ensures pn in Meaning(m, spaces).spaces[p]
    ensures Meaning(m', spaces) == PutPage(Meaning(m, spaces), p, pn, page)
  {
    var cells: seq<Cells> := SpacesOf(m, spaces);
    hide ReadIn, Names, ViewIn, SpacesOf, NamedSameBut, SameCells;
    NamedBy(cells, p, pn, key.0);
    forall r | 0 <= r < |spaces|
      ensures CellsOf(m', spaces[r]) == CellsOf(m, spaces[r])
    {
      UnwrittenCells(m, m', spaces[r]);
    }
    assert cells[p][pn] == CellOf(ViewIn(m, spaces[p], pn).value);
    hide CellsOf;
    assert SpacesOf(m', spaces) == cells;
    WrittenShared(m, m', cells, key, page);
  }
}
