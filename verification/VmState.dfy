/**
 * The state behind the virtual-memory code: page frames, memory objects and address spaces.
 *
 * Pointers are numbers into the maps of class Kernel, which holds the C code's globals. A freed
 * structure leaves its map, so a use after free is a failed map lookup.
 */
module VmState {
  import opened Lists
  import opened Chains

  type FrameId = nat
  type Frames = map<FrameId, PFrame>
  type Objs = map<ObjId, MmObj>
  type Index = map<(ObjId, nat), FrameId>

  datatype Kind = Shadow | Anon

  datatype MmObj = MmObj(
    kind: Kind, refcount: int, nrespages: int, respages: seq<FrameId>,
    shadowed: Option<ObjId>, bottom: ObjId)

  datatype PFrame = PFrame(
    obj: ObjId, pagenum: nat, pincount: int, dirty: bool, busy: bool, data: Page)

  /** The globals of pframe.c; `next` is the address of the next frame to be allocated. */
  datatype FrameTable = FrameTable(
    frames: Frames, hash: seq<seq<FrameId>>, allocList: seq<FrameId>, pinnedList: seq<FrameId>,
    nallocated: int, npinned: int, next: FrameId)

  datatype Prot = Prot(read: bool, write: bool, exec: bool)

  /** Pages [start, end) of an address space, backed by pages of `obj` from `off` on. */
  datatype VmArea = VmArea(start: nat, end: nat, off: nat, prot: Prot, private: bool, obj: ObjId)

  class Kernel {
    var pf: FrameTable
    var objs: Objs
    var nextObj: ObjId
    var spaces: seq<seq<VmArea>>
    // the page numbers of USER_MEM_LOW and USER_MEM_HIGH
    const low: nat
    const high: nat
    // the plain set of resident pages, which the lists and the hash must agree with
    ghost var resident: Index

    constructor (hashSize: nat, low: nat, high: nat)
      requires hashSize > 0 && low <= high
      ensures FramesOk(pf, objs, resident) && ObjsOk(objs, nextObj) && Quiet(pf.frames, objs)
      ensures objs == map[] && spaces == [] && this.low == low && this.high == high
    {
      pf := FrameTable(map[], seq(hashSize, _ => []), [], [], 0, 0, 0);
      objs, nextObj, spaces, resident := map[], 1, [], map[];
      this.low, this.high := low, high;
    }
  }

  // ---------------------------------------------------------------------------------------------
  // The frame index

  /** hash_page, on 32-bit addresses. */
  function Bucket(o: ObjId, pn: nat, size: nat): (h: nat)
    requires size > 0
    ensures h < size
  {
    (o + pn) % 0x1_0000_0000 % size
  }

  function KeyOf(fr: PFrame): (ObjId, nat) { (fr.obj, fr.pagenum) }

  ghost function InBucket(frames: Frames, size: nat, h: nat): (r: set<FrameId>)
    requires size > 0
  {
    set f | f in frames && Bucket(frames[f].obj, frames[f].pagenum, size) == h
  }

  ghost function PagesOf(frames: Frames, o: ObjId): (r: set<FrameId>) {
    set f | f in frames && frames[f].obj == o
  }

  ghost function Unpinned(frames: Frames): (r: set<FrameId>) {
    set f | f in frames && frames[f].pincount == 0
  }

  ghost function Pinned(frames: Frames): (r: set<FrameId>) {
    set f | f in frames && frames[f].pincount > 0
  }

  /** Each frame is in its own hash chain, once, and in no other. */
  ghost predicate HashOk(frames: Frames, hash: seq<seq<FrameId>>) {
    && |hash| > 0
    && forall h :: 0 <= h < |hash| ==> Enumerates(hash[h], InBucket(frames, |hash|, h))
  }

  /** Each frame is on the pinned list when it is pinned, else on the allocated list. */
  ghost predicate ListsOk(t: FrameTable) {
    && Enumerates(t.allocList, Unpinned(t.frames))
    && Enumerates(t.pinnedList, Pinned(t.frames))
    && t.nallocated == |t.allocList| && t.npinned == |t.pinnedList|
    && (forall f :: f in t.frames ==> f < t.next && t.frames[f].pincount >= 0)
  }

  /** One frame per (object, page number), and that frame is the one the plain map names. */
  ghost predicate IndexOk(frames: Frames, resident: Index) {
    && (forall f :: f in frames ==> KeyOf(frames[f]) in resident && resident[KeyOf(frames[f])] == f)
    && (forall key :: key in resident ==> resident[key] in frames && KeyOf(frames[resident[key]]) == key)
  }

  /** Each object lists exactly its resident pages. */
  ghost predicate PagesListed(frames: Frames, objs: Objs) {
    && (forall f :: f in frames ==> frames[f].obj in objs)
    && forall o :: o in objs ==>
      Enumerates(objs[o].respages, PagesOf(frames, o)) && objs[o].nrespages == |objs[o].respages|
  }

  ghost predicate FramesOk(t: FrameTable, objs: Objs, resident: Index) {
    && HashOk(t.frames, t.hash)
    && ListsOk(t)
    && IndexOk(t.frames, resident)
    && PagesListed(t.frames, objs)
  }

  // ---------------------------------------------------------------------------------------------
  // Objects

  ghost function LinksOf(objs: Objs): (links: Links) {
    map o | o in objs :: objs[o].shadowed
  }

  ghost function ExtOf(objs: Objs): (ext: Ext) {
    map o | o in objs :: objs[o].refcount - objs[o].nrespages
  }

  ghost function ContentsOf(frames: Frames, resident: Index): (contents: Contents) {
    map key | key in resident && resident[key] in frames :: frames[resident[key]].data
  }

  ghost predicate ObjsOk(objs: Objs, next: ObjId) {
    && (forall o :: o in objs ==> o < next && (objs[o].kind == Shadow <==> objs[o].shadowed.Some?))
    && Descending(LinksOf(objs))
  }

  /**
   * mmobj_bottom_vmas(o): an object that shadows nothing has the list itself, for a shadow
   * mmo_bottom_obj is followed. Only an anonymous object that is in use holds a list there.
   */
  predicate HasList(objs: Objs, o: ObjId)
    requires o in objs
  {
    objs[o].kind == Anon || (objs[o].bottom in objs && objs[objs[o].bottom].kind == Anon)
  }

  /** Cleaning and freeing the pages of `o` walks that list once for each of them. */
  predicate Freeable(objs: Objs, o: ObjId)
    requires o in objs
  {
    objs[o].respages == [] || HasList(objs, o)
  }

  /** Between steps: a shadow's page is dirty and pinned once, an anonymous page is not pinned. */
  ghost predicate QuietFrame(fr: PFrame, objs: Objs) {
    && !fr.busy && fr.obj in objs
    && (objs[fr.obj].kind == Shadow ==> fr.dirty && fr.pincount == 1)
    && (objs[fr.obj].kind == Anon ==> fr.pincount == 0)
  }

  ghost predicate Quiet(frames: Frames, objs: Objs) {
    forall f :: f in frames ==> QuietFrame(frames[f], objs)
  }

  /** What decides reads: the chains and the resident bytes. */
  datatype Mem = Mem(links: Links, contents: Contents)

  ghost function MemOf(k: Kernel): (m: Mem)
    reads k`pf, k`objs, k`resident
  {
    Mem(LinksOf(k.objs), ContentsOf(k.pf.frames, k.resident))
  }

  ghost function ReadIn(m: Mem, o: ObjId, pn: nat): (page: Page) {
    Read(m.links, m.contents, o, pn)
  }

  ghost predicate HeldIn(m: Mem, o: ObjId, pn: nat) {
    ResidentOnChain(m.links, m.contents, o, pn)
  }

  /** `y` now is like `x` then: the same pages, the same last object, and bare if `x` was. */
  ghost predicate Alike(m: Mem, x: ObjId, m': Mem, y: ObjId) {
    && (forall q :: ReadIn(m', y, q) == ReadIn(m, x, q))
    && (forall q :: HeldIn(m', y, q) == HeldIn(m, x, q))
    && End(m'.links, y) == End(m.links, x)
    && (Bare(m.links, m.contents, x) ==> Bare(m'.links, m'.contents, y))
  }

  /** What a reader of page `pn` of `o` sees in the current state. */
  ghost function ReadNow(k: Kernel, o: ObjId, pn: nat): (page: Page)
    reads k`pf, k`objs, k`resident
  {
    ReadIn(MemOf(k), o, pn)
  }

  ghost predicate MemOk(k: Kernel)
    reads k`pf, k`objs, k`nextObj, k`resident
  {
    && FramesOk(k.pf, k.objs, k.resident)
    && ObjsOk(k.objs, k.nextObj)
    && Quiet(k.pf.frames, k.objs)
  }
}
