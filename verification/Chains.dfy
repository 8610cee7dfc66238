/**
 * The theory of shadow chains, on values.
 *
 * A memory object is a number; a newer object has a larger number. `Links` says which object each
 * live object shadows, `Contents` holds the bytes of the resident pages, and `Ext` counts, for
 * each live object, the references that are not held by its own resident pages
 * (mmo_refcount - mmo_nrespages).
 */
module Chains {
  import opened Lists

  type ObjId = nat
  type Page = s: seq<nat> | |s| == PAGE_SIZE witness Zeros(PAGE_SIZE)
  type Links = map<ObjId, Option<ObjId>>
  type Contents = map<(ObjId, nat), Page>
  type Ext = map<ObjId, int>

  const PAGE_SIZE: nat := 4096

  function Zeros(n: nat): (page: seq<nat>)
    ensures |page| == n && forall i :: 0 <= i < n ==> page[i] == 0
  {
    if n == 0 then [] else Zeros(n - 1) + [0]
  }

  function ZeroPage(): (page: Page) { Zeros(PAGE_SIZE) }

  /** Every shadow points at a live, older object; so no chain has a cycle. */
  ghost predicate Descending(links: Links) {
    forall o :: o in links && links[o].Some? ==> links[o].value in links && links[o].value < o
  }

  /** The older object directly below `o`, when there is one. */
  function Below(links: Links, o: ObjId): (p: Option<ObjId>)
    ensures p.Some? ==> p.value < o
  {
    if o in links && links[o].Some? && links[o].value < o then links[o] else None
  }

  /** What a reader of page `pn` through `o` sees: the first resident page down the chain. */
  function Read(links: Links, contents: Contents, o: ObjId, pn: nat): (page: Page)
    decreases o
  {
    if (o, pn) in contents then contents[(o, pn)]
    else match Below(links, o)
      case Some(p) => Read(links, contents, p, pn)
      case None => ZeroPage()
  }

  /** The last object of the chain that starts at `o`. */
  function End(links: Links, o: ObjId): (e: ObjId)
    ensures e <= o
    decreases o
  {
    match Below(links, o)
    case Some(p) => End(links, p)
    case None => o
  }

  /** `x` lies on the chain that starts at `o`. */
  predicate OnChain(links: Links, o: ObjId, x: ObjId)
    decreases o
  {
    o == x || (match Below(links, o)
               case Some(p) => OnChain(links, p, x)
               case None => false)
  }

  /** Some object of the chain from `o` holds page `pn`. */
  predicate ResidentOnChain(links: Links, contents: Contents, o: ObjId, pn: nat)
    decreases o
  {
    (o, pn) in contents || (match Below(links, o)
                            case Some(p) => ResidentOnChain(links, contents, p, pn)
                            case None => false)
  }

  lemma {:induction false} ReadNonResident(links: Links, contents: Contents, o: ObjId, pn: nat)
    requires !ResidentOnChain(links, contents, o, pn)
    ensures Read(links, contents, o, pn) == ZeroPage()
    decreases o
  {
    match Below(links, o)
    case Some(p) => ReadNonResident(links, contents, p, pn);
    case None =>
  }

  /** Reading depends only on the chain: links and pages of objects off the chain do not matter. */
  lemma {:induction false} ReadAgrees(links: Links, contents: Contents, links': Links, contents': Contents, o: ObjId,
                                      pn: nat)
    requires forall x: ObjId :: OnChain(links, o, x) ==>
      && Below(links, x) == Below(links', x)
      && ((x, pn) in contents <==> (x, pn) in contents')
      && ((x, pn) in contents ==> contents[(x, pn)] == contents'[(x, pn)])
    ensures Read(links, contents, o, pn) == Read(links', contents', o, pn)
    decreases o
  {
    assert OnChain(links, o, o);
    match Below(links, o)
    case Some(p) =>
      forall x | OnChain(links, p, x)
        ensures OnChain(links, o, x)
      {
      }
      ReadAgrees(links, contents, links', contents', p, pn);
    case None =>
  }

  lemma {:induction false} OnChainLive(links: Links, o: ObjId, x: ObjId)
    requires Descending(links) && o in links && OnChain(links, o, x)
    ensures x in links && x <= o
    decreases o
  {
    if o != x {
      OnChainLive(links, Below(links, o).value, x);
    }
  }

  lemma {:induction false} EndOnChain(links: Links, o: ObjId)
    ensures OnChain(links, o, End(links, o)) && Below(links, End(links, o)).None?
    decreases o
  {
    match Below(links, o)
    case Some(p) => EndOnChain(links, p);
    case None =>
  }

  /** An object that nothing shadows lies only on the chain that starts at it. */
  lemma {:induction false} OffChain(links: Links, o: ObjId, x: ObjId)
    requires forall s :: s in links ==> links[s] != Some(x)
    requires o != x
    ensures !OnChain(links, o, x)
    decreases o
  {
    match Below(links, o)
    case Some(p) => OffChain(links, p, x);
    case None =>
  }

  /** Writing page `pn` of an object that nothing shadows is seen only through that object. */
  lemma WriteIsPrivate(links: Links, contents: Contents, top: ObjId, pn: nat, page: Page, o: ObjId, q: nat)
    requires forall s :: s in links ==> links[s] != Some(top)
    ensures Read(links, contents[(top, pn) := page], o, q) ==
      if (o, q) == (top, pn) then page else Read(links, contents, o, q)
  {
    var contents' := contents[(top, pn) := page];
    if o == top {
      if q != pn {
        match Below(links, o)
        case Some(p) =>
          OffChain(links, p, top);
          ReadAgrees(links, contents, links, contents', p, q);
        case None =>
      }
    } else {
      OffChain(links, o, top);
      ReadAgrees(links, contents, links, contents', o, q);
    }
  }

  /** Writing a page of a last object is not seen through chains that end elsewhere. */
  lemma {:induction false} WriteAtEnd(links: Links, contents: Contents, e: ObjId, pn: nat, page: Page, o: ObjId, q: nat)
    requires Below(links, e).None? && End(links, o) != e
    ensures Read(links, contents[(e, pn) := page], o, q) == Read(links, contents, o, q)
    decreases o
  {
    match Below(links, o)
    case Some(p) => WriteAtEnd(links, contents, e, pn, page, p, q);
    case None =>
  }

  /**
   * A page lookup kept the resident pages, and made resident at most page `pn` of `o`, with
   * bytes `page`, and page `pn` of `e`, with zeros.
   */
  ghost predicate LookedUp(c: Contents, c': Contents, o: ObjId, page: Page, e: ObjId, pn: nat) {
    && (forall key :: key in c ==> key in c' && c'[key] == c[key])
    && (forall key :: key in c' && key !in c ==>
         (key == (o, pn) && c'[key] == page) || (key == (e, pn) && c'[key] == ZeroPage()))
  }

  /** A lookup whose page is what a read would have found anyway changes no read. */
  lemma {:induction false} LookupUnseen(links: Links, c: Contents, c': Contents, o: ObjId, e: ObjId, pn: nat, x: ObjId,
                                        q: nat)
    requires Below(links, e).None?
    requires LookedUp(c, c', o, Read(links, c, o, pn), e, pn)
    ensures Read(links, c', x, q) == Read(links, c, x, q)
    decreases x
  {
    if (x, q) !in c' {
      match Below(links, x)
      case Some(p) => LookupUnseen(links, c, c', o, e, pn, p, q);
      case None =>
    }
  }

  /** A fresh shadow without pages reads as the object it shadows; other objects are unaffected. */
  lemma {:induction false} FreshShadow(links: Links, contents: Contents, s: ObjId, p: ObjId, o: ObjId, q: nat)
    requires Descending(links) && s !in links && p in links && p < s
    requires forall k :: k in contents ==> k.0 in links
    ensures o in links ==> Read(links[s := Some(p)], contents, o, q) == Read(links, contents, o, q)
    ensures Read(links[s := Some(p)], contents, s, q) == Read(links, contents, p, q)
    ensures ResidentOnChain(links[s := Some(p)], contents, s, q) == ResidentOnChain(links, contents, p, q)
  {
    if o in links {
      FreshShadowOff(links, contents, s, p, o, q);
    }
    FreshShadowOff(links, contents, s, p, p, q);
  }

  lemma {:induction false} FreshShadowOff(links: Links, contents: Contents, s: ObjId, p: ObjId, o: ObjId, q: nat)
    requires Descending(links) && s !in links && o in links
    ensures Read(links[s := Some(p)], contents, o, q) == Read(links, contents, o, q)
    ensures ResidentOnChain(links[s := Some(p)], contents, o, q) == ResidentOnChain(links, contents, o, q)
    decreases o
  {
    if (o, q) !in contents {
      match Below(links, o)
      case Some(r) => FreshShadowOff(links, contents, s, p, r, q);
      case None =>
    }
  }

  lemma {:induction false} FreshShadowEnd(links: Links, s: ObjId, p: ObjId, o: ObjId)
    requires Descending(links) && s !in links && p in links && p < s && o in links
    ensures End(links[s := Some(p)], o) == End(links, o)
    ensures o == p ==> End(links[s := Some(p)], s) == End(links, p)
    decreases o
  {
    match Below(links, o)
    case Some(r) => FreshShadowEnd(links, s, p, r);
    case None =>
  }

  lemma {:induction false} FreshRootOff(links: Links, contents: Contents, r: ObjId, o: ObjId, q: nat)
    requires Descending(links) && r !in links && o in links
    ensures Read(links[r := None], contents, o, q) == Read(links, contents, o, q)
    ensures ResidentOnChain(links[r := None], contents, o, q) == ResidentOnChain(links, contents, o, q)
    ensures End(links[r := None], o) == End(links, o)
    decreases o
  {
    match Below(links, o)
    case Some(p) => FreshRootOff(links, contents, r, p, q);
    case None =>
  }

  // ---------------------------------------------------------------------------------------------
  // shadow_fillpage

  /**
   * The bytes shadow_fillpage copies into the frame of page `pn` of `o`, which is already in the
   * hash with whatever bytes it held: the first resident page strictly below `o`, and otherwise
   * what a read lookup through mmo_bottom_obj finds.
   */
  function Filled(links: Links, contents: Contents, o: ObjId, bottom: ObjId, pn: nat): (page: Page) {
    match Below(links, o)
    case Some(p) =>
      if ResidentOnChain(links, contents, p, pn) then Read(links, contents, p, pn)
      else Read(links, contents, bottom, pn)
    case None => Read(links, contents, bottom, pn)
  }

  /** The contents once a frame for page `pn` of `o` has entered the hash with arbitrary bytes. */
  function HalfFilled(contents: Contents, o: ObjId, pn: nat, garbage: Page): (r: Contents) {
    contents[(o, pn) := garbage]
  }

  /** A page placed in `o` is not found by a search that starts below `o`. */
  lemma {:induction false} BelowIgnores(links: Links, contents: Contents, o: ObjId, p: ObjId, pn: nat, page: Page)
    requires p < o
    ensures ResidentOnChain(links, HalfFilled(contents, o, pn, page), p, pn) == ResidentOnChain(links, contents, p, pn)
    ensures Read(links, HalfFilled(contents, o, pn, page), p, pn) == Read(links, contents, p, pn)
    decreases p
  {
    match Below(links, p)
    case Some(q) => BelowIgnores(links, contents, o, q, pn, page);
    case None =>
  }

  /** With mmo_bottom_obj at the end of the chain, the copy is what a read would have returned. */
  lemma FillFaithful(links: Links, contents: Contents, o: ObjId, pn: nat, garbage: Page)
    requires Below(links, o).Some? && (o, pn) !in contents
    ensures Filled(links, HalfFilled(contents, o, pn, garbage), o, End(links, o), pn) == Read(links, contents, o, pn)
  {
    var p := Below(links, o).value;
    BelowIgnores(links, contents, o, p, pn, garbage);
    if !ResidentOnChain(links, contents, p, pn) {
      EndOnChain(links, o);
      ReadNonResident(links, contents, p, pn);
      EndNonResident(links, contents, p, pn);
    }
  }

  lemma {:induction false} EndNonResident(links: Links, contents: Contents, o: ObjId, pn: nat)
    requires !ResidentOnChain(links, contents, o, pn)
    ensures (End(links, o), pn) !in contents
    decreases o
  {
    match Below(links, o)
    case Some(p) => EndNonResident(links, contents, p, pn);
    case None =>
  }

  /** What a search for page `pn` from `b` on finds, unless it meets `o` first. */
  function ReadBefore(links: Links, contents: Contents, b: ObjId, o: ObjId, pn: nat): (page: Option<Page>)
    decreases b
  {
    if b == o then None
    else if (b, pn) in contents then Some(contents[(b, pn)])
    else match Below(links, b)
      case Some(p) => ReadBefore(links, contents, p, o, pn)
      case None => Some(ZeroPage())
  }

  /** With the half-filled page in the hash, a search that meets `o` finds what the frame held. */
  lemma {:induction false} ReadHalfFilled(links: Links, contents: Contents, b: ObjId, o: ObjId, pn: nat, garbage: Page)
    ensures Read(links, HalfFilled(contents, o, pn, garbage), b, pn) ==
      match ReadBefore(links, contents, b, o, pn) case Some(page) => page case None => garbage
    decreases b
  {
    match Below(links, b)
    case Some(p) => ReadHalfFilled(links, contents, p, o, pn, garbage);
    case None =>
  }

  function OnePage(): (page: Page)
    ensures page != ZeroPage()
  {
    assert ZeroPage()[0] == 0;
    ZeroPage()[0 := 1]
  }

  /**
   * For every mmo_bottom_obj `b`: the copy is what a read would have returned, whatever the frame
   * held, exactly when some object below holds the page, or a search from `b` on finds zeros
   * before it comes to `o`.
   */
  lemma FillExact(links: Links, contents: Contents, o: ObjId, b: ObjId, pn: nat)
    requires Below(links, o).Some? && (o, pn) !in contents
    ensures (forall garbage: Page ::
              Filled(links, HalfFilled(contents, o, pn, garbage), o, b, pn) == Read(links, contents, o, pn))
      <==> (|| ResidentOnChain(links, contents, Below(links, o).value, pn)
            || ReadBefore(links, contents, b, o, pn) == Some(ZeroPage()))
  {
    var p := Below(links, o).value;
    forall garbage: Page
      ensures ResidentOnChain(links, HalfFilled(contents, o, pn, garbage), p, pn) ==
        ResidentOnChain(links, contents, p, pn)
      ensures Read(links, HalfFilled(contents, o, pn, garbage), p, pn) == Read(links, contents, p, pn)
      ensures Read(links, HalfFilled(contents, o, pn, garbage), b, pn) ==
        match ReadBefore(links, contents, b, o, pn) case Some(page) => page case None => garbage
    {
      BelowIgnores(links, contents, o, p, pn, garbage);
      ReadHalfFilled(links, contents, b, o, pn, garbage);
    }
    if !ResidentOnChain(links, contents, p, pn) {
      ReadNonResident(links, contents, p, pn);
      assert Filled(links, HalfFilled(contents, o, pn, OnePage()), o, b, pn) ==
        match ReadBefore(links, contents, b, o, pn) case Some(page) => page case None => OnePage();
    }
  }

  /** The smallest failure: page 0 of shadow 2, its own bottom, over an object with no page. */
  lemma SplitWriteLosesZeros(garbage: Page)
    ensures var links := map[1 := None, 2 := Some(1)];
      Filled(links, HalfFilled(map[], 2, 0, garbage), 2, 2, 0) == garbage && Read(links, map[], 2, 0) == ZeroPage()
  {
    var links: Links := map[1 := None, 2 := Some(1)];
    assert Below(links, 2) == Some(1) && Below(links, 1) == None;
    assert !ResidentOnChain(links, HalfFilled(map[], 2, 0, garbage), 1, 0);
    assert Read(links, map[], 1, 0) == ZeroPage();
  }

  // ---------------------------------------------------------------------------------------------
  // Chains without pages

  /** No shadow on the chain from `o` holds a page: reading through it is reading its end. */
  ghost predicate Bare(links: Links, contents: Contents, o: ObjId)
    decreases o
  {
    match Below(links, o)
    case Some(p) => (forall q :: (o, q) !in contents) && Bare(links, contents, p)
    case None => true
  }

  lemma {:induction false} BareReads(links: Links, contents: Contents, o: ObjId, q: nat)
    requires Bare(links, contents, o)
    ensures Read(links, contents, o, q) == Read(links, contents, End(links, o), q)
    decreases o
  {
    match Below(links, o)
    case Some(p) => BareReads(links, contents, p, q);
    case None =>
  }

  lemma {:induction false} FreshBare(links: Links, contents: Contents, s: ObjId, below: Option<ObjId>, o: ObjId)
    requires Descending(links) && s !in links && o in links && Bare(links, contents, o)
    ensures Bare(links[s := below], contents, o)
    decreases o
  {
    match Below(links, o)
    case Some(p) => FreshBare(links, contents, s, below, p);
    case None =>
  }

  /** A page off the chain, or at the end of a chain, leaves it bare. */
  lemma {:induction false} StaysBare(links: Links, c: Contents, c': Contents, x: ObjId)
    requires Bare(links, c, x)
    requires forall key :: key in c' && key !in c ==> Below(links, key.0).None? || !OnChain(links, x, key.0)
    ensures Bare(links, c', x)
    decreases x
  {
    match Below(links, x)
    case Some(p) =>
      forall key | key in c' && key !in c
        ensures Below(links, key.0).None? || !OnChain(links, p, key.0)
      {
      }
      StaysBare(links, c, c', p);
    case None =>
  }

  // ---------------------------------------------------------------------------------------------
  // Reference counts

  /** The shadows directly above `o`. */
  ghost function Above(links: Links, o: ObjId): (shadows: set<ObjId>) {
    set s | s in links && links[s] == Some(o)
  }

  /**
   * Reference conservation: with `refs` the references held by address-space areas (and by code
   * that is still running), every live object is counted once per area and once per shadow
   * directly above it, and at least once.
   */
  ghost predicate Conserved(links: Links, ext: Ext, refs: multiset<ObjId>) {
    && ext.Keys == links.Keys
    && (forall o :: o in refs ==> o in links)
    && (forall o :: o in links ==> ext[o] == refs[o] + |Above(links, o)| && ext[o] >= 1)
  }

  lemma TakeRef(links: Links, ext: Ext, refs: multiset<ObjId>, o: ObjId)
    requires Conserved(links, ext, refs) && o in links
    ensures Conserved(links, ext[o := ext[o] + 1], refs + multiset{o})
  {
  }

  lemma NewRoot(links: Links, ext: Ext, refs: multiset<ObjId>, r: ObjId)
    requires Descending(links) && Conserved(links, ext, refs) && r !in links
    ensures Conserved(links[r := None], ext[r := 1], refs + multiset{r})
  {
    hide Above;
    var links', ext', refs' := links[r := None], ext[r := 1], refs + multiset{r};
    forall x | x in links'
      ensures ext'[x] == refs'[x] + |Above(links', x)| && ext'[x] >= 1
    {
      AboveNewRoot(links, r, x);
      assert refs'[x] == refs[x] + if x == r then 1 else 0;
      if x != r { assert ext[x] == refs[x] + |Above(links, x)|; }
    }
  }

  lemma AboveNewRoot(links: Links, r: ObjId, x: ObjId)
    requires Descending(links) && r !in links
    ensures Above(links[r := None], x) == Above(links, x) && Above(links, r) == {}
  {
  }

  lemma AbovePushed(links: Links, s: ObjId, p: ObjId, x: ObjId)
    requires Descending(links) && s !in links
    ensures |Above(links[s := Some(p)], x)| == |Above(links, x)| + (if x == p then 1 else 0)
    ensures Above(links, s) == {}
  {
    assert Above(links[s := Some(p)], x) == Above(links, x) + (if x == p then {s} else {});
  }

  /** Pushing a fresh shadow on a reference: the shadow holds the old one, the caller the new. */
  lemma PushConserves(links: Links, ext: Ext, refs: multiset<ObjId>, s: ObjId, p: ObjId)
    requires Descending(links) && Conserved(links, ext, refs) && s !in links && p in refs && p < s
    ensures Descending(links[s := Some(p)])
    ensures Conserved(links[s := Some(p)], ext[s := 1], refs - multiset{p} + multiset{s})
  {
    hide Above;
    forall x
      ensures |Above(links[s := Some(p)], x)| == |Above(links, x)| + (if x == p then 1 else 0)
      ensures Above(links, s) == {}
    {
      AbovePushed(links, s, p, x);
    }
  }

  /** What a put leaves: the count drops, or the object goes and the put passes to the one below. */
  ghost function Drop(ext: Ext, links: Links, o: ObjId): (r: Ext)
    ensures r.Keys <= ext.Keys
    decreases o
  {
    if o !in ext then ext
    else if ext[o] != 1 then ext[o := ext[o] - 1]
    else match Below(links, o)
      case Some(p) => Drop(ext, links, p) - {o}
      case None => ext - {o}
  }

  function Keep(links: Links, live: set<ObjId>): (r: Links) {
    map o | o in links && o in live :: links[o]
  }

  /** A put at `p` does not look at newer objects. */
  lemma {:induction false} DropSkips(ext: Ext, links: Links, p: ObjId, o: ObjId)
    requires p < o
    ensures Drop(ext - {o}, links - {o}, p) == Drop(ext, links, p) - {o}
    ensures o in ext ==> o in Drop(ext, links, p) && Drop(ext, links, p)[o] == ext[o]
    decreases p
  {
    if p in ext && ext[p] == 1 {
      assert Below(links - {o}, p) == Below(links, p);
      match Below(links, p)
      case Some(q) => DropSkips(ext, links, q, o);
      case None =>
    }
  }

  lemma AboveWithout(links: Links, o: ObjId, x: ObjId)
    requires o in links
    ensures |Above(links - {o}, x)| == |Above(links, x)| - (if links[o] == Some(x) then 1 else 0)
  {
    assert Above(links - {o}, x) == Above(links, x) - {o};
  }

  /** The references held once the last one to `o` has been spent on destroying `o`. */
  ghost function Handed(links: Links, refs: multiset<ObjId>, o: ObjId): (r: multiset<ObjId>)
    requires o in links
  {
    refs - multiset{o} + (match links[o] case Some(p) => multiset{p} case None => multiset{})
  }

  lemma DestroyTop(links: Links, ext: Ext, refs: multiset<ObjId>, o: ObjId)
    requires Descending(links) && Conserved(links, ext, refs) && o in refs && ext[o] == 1
    ensures Descending(links - {o})
    ensures Conserved(links - {o}, ext - {o}, Handed(links, refs, o))
  {
    hide Above, Handed;
    assert refs[o] == 1 && |Above(links, o)| == 0;
    NothingAbove(links, o);
    var links', ext', refs' := links - {o}, ext - {o}, Handed(links, refs, o);
    forall x
      ensures x in refs' ==> x in links'
      ensures x in links' ==> ext'[x] == refs'[x] + |Above(links', x)| && ext'[x] >= 1
    {
      HandedCount(links, refs, o, x);
      AboveWithout(links, o, x);
      if x in links' { assert ext[x] == refs[x] + |Above(links, x)|; }
    }
  }

  lemma NothingAbove(links: Links, o: ObjId)
    requires |Above(links, o)| == 0
    ensures forall s :: s in links ==> links[s] != Some(o)
  {
    forall s | s in links
      ensures links[s] != Some(o)
    {
      assert s !in Above(links, o);
    }
  }

  lemma HandedCount(links: Links, refs: multiset<ObjId>, o: ObjId, x: ObjId)
    requires o in links && refs[o] == 1
    ensures Handed(links, refs, o)[x] == (if x == o then 0 else refs[x]) + (if links[o] == Some(x) then 1 else 0)
  {
  }

  lemma DropPasses(links: Links, ext: Ext, o: ObjId, p: ObjId)
    requires Descending(links) && o in links && links[o] == Some(p) && o in ext && ext[o] == 1
    ensures Drop(ext, links, o) == Drop(ext - {o}, links - {o}, p)
    ensures Keep(links, Drop(ext, links, o).Keys) == Keep(links - {o}, Drop(ext, links, o).Keys)
  {
    DropSkips(ext, links, p, o);
  }

  lemma KeepWithout(links: Links, ext: Ext, o: ObjId)
    requires ext.Keys == links.Keys
    ensures Keep(links, (ext - {o}).Keys) == links - {o}
  {
  }

  lemma DropCounts(links: Links, ext: Ext, refs: multiset<ObjId>, o: ObjId)
    requires Conserved(links, ext, refs) && o in refs && ext[o] != 1
    ensures Keep(links, ext[o := ext[o] - 1].Keys) == links
    ensures Conserved(links, ext[o := ext[o] - 1], refs - multiset{o})
  {
  }

  /** Giving back one reference conserves the rest, however far the destruction cascades. */
  lemma {:induction false} DropConserves(links: Links, ext: Ext, refs: multiset<ObjId>, o: ObjId)
    requires Descending(links) && Conserved(links, ext, refs) && o in refs
    ensures Descending(Keep(links, Drop(ext, links, o).Keys))
    ensures Conserved(Keep(links, Drop(ext, links, o).Keys), Drop(ext, links, o), refs - multiset{o})
    decreases o
  {
    if ext[o] != 1 {
      DropCounts(links, ext, refs, o);
    } else {
      DestroyTop(links, ext, refs, o);
      match links[o]
      case Some(p) =>
        DropPasses(links, ext, o, p);
        var refs' := Handed(links, refs, o);
        DropConserves(links - {o}, ext - {o}, refs', p);
        assert refs' - multiset{p} == refs - multiset{o};
      case None =>
        KeepWithout(links, ext, o);
    }
  }

  lemma {:induction false} DropLowers(ext: Ext, links: Links, o: ObjId, x: ObjId)
    ensures x in Drop(ext, links, o) ==> x in ext && Drop(ext, links, o)[x] <= ext[x]
    decreases o
  {
    if o in ext && ext[o] == 1 {
      match Below(links, o)
      case Some(p) => DropLowers(ext, links, p, x);
      case None =>
    }
  }

  /** `x` is reached from `o` through objects that nothing else refers to. */
  ghost predicate HeldOnlyThrough(ext: Ext, links: Links, o: ObjId, x: ObjId)
    decreases o
  {
    && o in ext && ext[o] == 1
    && (o == x || (match Below(links, o)
                   case Some(p) => HeldOnlyThrough(ext, links, p, x)
                   case None => false))
  }

  /** A put frees exactly the prefix of the chain that nobody else holds. */
  lemma {:induction false} DropFreesPrefix(ext: Ext, links: Links, o: ObjId, x: ObjId)
    ensures x in ext && x !in Drop(ext, links, o) <==> HeldOnlyThrough(ext, links, o, x)
    decreases o
  {
    if o in ext && ext[o] == 1 {
      match Below(links, o)
      case Some(p) => DropFreesPrefix(ext, links, p, x);
      case None =>
    }
  }

  /** Under conservation an object is live exactly when some held reference reaches it. */
  lemma LiveIffReachable(links: Links, ext: Ext, refs: multiset<ObjId>, x: ObjId)
    requires Descending(links) && Conserved(links, ext, refs)
    ensures x in links <==> exists a :: a in refs && OnChain(links, a, x)
  {
    if x in links {
      var newest := Newest(links.Keys);
      var a := Holder(links, ext, refs, x, newest);
    }
    if a :| a in refs && OnChain(links, a, x) {
      OnChainLive(links, a, x);
    }
  }

  /** Some reference of `refs` leads to `x`. */
  ghost predicate Reached(links: Links, refs: multiset<ObjId>, x: ObjId) {
    exists a :: a in refs && OnChain(links, a, x)
  }

  lemma {:induction false} KeptChain(links: Links, links': Links, o: ObjId, x: ObjId)
    requires Descending(links') && o in links' && forall y :: y in links' ==> y in links && links[y] == links'[y]
    ensures OnChain(links, o, x) == OnChain(links', o, x)
    decreases o
  {
    if links'[o].Some? {
      KeptChain(links, links', links'[o].value, x);
    }
  }

  /** A put of `o` leaves exactly the objects that the other references lead to. */
  lemma DropLeavesReached(links: Links, ext: Ext, refs: multiset<ObjId>, o: ObjId, x: ObjId)
    requires Descending(links) && Conserved(links, ext, refs) && o in refs && x in links
    ensures x in Drop(ext, links, o) <==> Reached(links, refs - multiset{o}, x)
  {
    hide OnChain, Drop;
    DropConserves(links, ext, refs, o);
    var links', refs' := Keep(links, Drop(ext, links, o).Keys), refs - multiset{o};
    LiveIffReachable(links', Drop(ext, links, o), refs', x);
    if a :| a in refs' && OnChain(links', a, x) {
      KeptChain(links, links', a, x);
    }
    if a :| a in refs' && OnChain(links, a, x) {
      KeptChain(links, links', a, x);
    }
  }

  lemma {:induction false} Newest(live: set<ObjId>) returns (n: ObjId)
    ensures forall o :: o in live ==> o <= n
  {
    n := 0;
    if live != {} {
      var o :| o in live;
      var m := Newest(live - {o});
      n := if o < m then m else o;
      assert forall x :: x in live ==> x == o || x in live - {o};
    }
  }

  /** Climbs from `x` to an object that is held directly. */
  lemma {:induction false} Holder(links: Links, ext: Ext, refs: multiset<ObjId>, x: ObjId, newest: ObjId)
    returns (a: ObjId)
    requires Descending(links) && Conserved(links, ext, refs) && x in links
    requires forall o :: o in links ==> o <= newest
    ensures a in refs && OnChain(links, a, x)
    decreases newest - x
  {
    if x in refs {
      a := x;
    } else {
      assert |Above(links, x)| >= 1;
      var s :| s in Above(links, x);
      a := Holder(links, ext, refs, s, newest);
      OnChainStep(links, a, s, x);
    }
  }

  lemma {:induction false} OnChainStep(links: Links, a: ObjId, s: ObjId, x: ObjId)
    requires OnChain(links, a, s) && Below(links, s) == Some(x)
    ensures OnChain(links, a, x)
    decreases a
  {
    if a != s {
      OnChainStep(links, Below(links, a).value, s, x);
    }
  }
}
