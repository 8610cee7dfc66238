/** Whole runs of the virtual-memory system, against whole runs of the eager machine. */
module MemoryRuns {
  import opened Lists
  import opened Chains
  import opened VmState
  import opened PageLookup
  import opened AreaList
  import opened AddressSpace
  import opened Removal
  import opened Sharing
  import opened Mapping
  import Spec = EagerCopy
  import opened EagerCopy
  import Code = CopyOnWrite
  import opened CopyOnWrite
  import ForkSpace
  import opened KernelAccess
  import opened EagerRuns
  import opened MemorySteps

  // ---------------------------------------------------------------------------------------------
  // Runs of the kernel

  /** The arguments that the calls assert of their callers, and 32 bits for addresses and sizes. */
  predicate ArgsOk(op: Op, low: nat, high: nat) {
    && (op.Maps? ==> op.n > 0 && (op.lopage == 0 || (low <= op.lopage && op.lopage + op.n <= high)))
    && (op.Brks? ==> low * PAGE_SIZE <= op.startBrk <= op.brk <= high * PAGE_SIZE && op.brk > 0)
    && (op.KernelReads? ==> Words(op.vaddr, op.count))
    && (op.KernelWrites? ==> Words(op.vaddr, |op.buf|))
  }

  /** What decides whether a step goes astray, and what growing the break shows. */
  datatype Snap = Snap(objs: Objs, spaces: seq<Areas>, mem: Mem)

  ghost function SnapOf(k: Kernel): (s: Snap)
    reads k
  {
    Snap(k.objs, k.spaces, MemOf(k))
  }

  /**
   * The step follows an mmo_bottom_obj that leads to no list of areas: a fork of a process with an
   * area that leads to none, or an operation that splits such an area or frees a page whose object
   * leads to none.
   */
  ghost predicate GoesAstray(s: Snap, op: Op, high: nat) {
    !op.Spawns? && !op.Syncs? && op.p < |s.spaces| &&
    match op
    case Forks(p) => Unlisted(s.objs, s.spaces[p])
    case Maps(p, lopage, n, _, _, _, _) => RoomAstray(s.objs, s.spaces, p, lopage, n)
    case Unmaps(p, lo, n) => !Removable(s.objs, s.spaces, p, lo, lo + n)
    case Brks(p, brk, startBrk, addr) => brk > 0 && ShrinkAstray(s.objs, s.spaces, p, high, brk, startBrk, addr)
    case Exits(p) => !Exitable(s.objs, s.spaces, p)
    case _ => false
  }

  /** The step unmaps the inside of an area, and so cuts it in two. */
  ghost predicate CutsArea(s: Snap, op: Op, high: nat) {
    !op.Spawns? && !op.Syncs? && op.p < |s.spaces| &&
    match op
    case Maps(p, lopage, n, _, _, _, _) => !KeepsObjects(s.spaces[p], lopage, n)
    case Unmaps(p, lo, n) => !NoSplit(s.spaces[p], lo, lo + n)
    case Brks(p, brk, startBrk, addr) => brk > 0 && !BrkKeepsObjects(s.spaces[p], high, brk, startBrk, addr)
    case _ => false
  }

  /** The bytes that a step brings into view by growing a private mapping. */
  ghost function ShownBy(s: Snap, op: Op, out: Outcome): (pages: seq<Page>) {
    if op.Brks? && op.p < |s.spaces| && out.Broke? then Shown(s.mem, s.spaces[op.p], out.r, op.brk, op.addr) else []
  }

  /** It never happens as long as no area has been split. */
  lemma UnsplitNotAstray(k: Kernel, op: Op, high: nat)
    requires VmOk(k) && Unsplit(k.objs, k.spaces)
    ensures !GoesAstray(SnapOf(k), op, high)
  {
    hide HoldsRefs, Unsplit, HasList, Freeable, Reached, AllRefs, MemOf, SplitBy, RangeFree, Uncovered;
    ObjsBelowNext(k);
    forall x | x in k.objs
      ensures HasList(k.objs, x) && Freeable(k.objs, x)
    {
      UnsplitLists(k.objs, k.nextObj, k.spaces, x);
    }
  }

  /** The write that the step stopped short of is one that is not safe. */
  ghost predicate UnsafeHere(k: Kernel, op: Op, out: Outcome)
    reads k
  {
    match op
    case Stores(p, pn, _, _) => p < |k.spaces| && !SafeAt(k, p, pn)
    case KernelReads(p, vaddr, count) =>
      && p < |k.spaces| && out.CopiedOut? && out.n < |ReadPlan(vaddr, count)|
      && !SafeAt(k, p, ReadPlan(vaddr, count)[out.n].pn)
    case KernelWrites(p, vaddr, buf) =>
      && p < |k.spaces| && out.CopiedIn? && out.n < |WritePlan(vaddr, |buf|)|
      && !SafeAt(k, p, WritePlan(vaddr, |buf|)[out.n].pn)
    case _ => false
  }

  lemma UnsplitNotUnsafe(k: Kernel, op: Op, out: Outcome)
    requires VmOk(k) && Unsplit(k.objs, k.spaces)
    ensures !UnsafeHere(k, op, out)
  {
    hide HoldsRefs, Unsplit, SafeAt, Plan;
    match op
    case Stores(p, pn, _, _) => if p < |k.spaces| { UnsplitSafeAt(k, p, pn); }
    case KernelReads(p, vaddr, count) =>
      if p < |k.spaces| && out.CopiedOut? && out.n < |ReadPlan(vaddr, count)| {
        UnsplitSafeAt(k, p, ReadPlan(vaddr, count)[out.n].pn);
      }
    case KernelWrites(p, vaddr, buf) =>
      if p < |k.spaces| && out.CopiedIn? && out.n < |WritePlan(vaddr, |buf|)| {
        UnsplitSafeAt(k, p, WritePlan(vaddr, |buf|)[out.n].pn);
      }
    case _ =>
  }

  lemma StillUnsplit(objs: Objs, objs': Objs, spaces: seq<Areas>)
    requires SameShape(objs, objs')
    ensures Unsplit(objs, spaces) ==> Unsplit(objs', spaces)
  {
    hide SameShape, Unsplit;
    if Unsplit(objs, spaces) {
      ShapeUnsplit(objs, objs', spaces);
    }
  }

  lemma WasRead(k: Kernel, e: Eager, p: nat, vaddr: nat, count: nat, n: nat, buf: seq<nat>, ending: Ending)
    requires MeaningOf(k) == e && p < |k.spaces|
    requires HasRead(e, p, ReadPlan(vaddr, count), n, buf) && Ended(k, p, ReadPlan(vaddr, count), count, n, ending)
    requires n <= |ReadPlan(vaddr, count)| && forall i :: 0 <= i < n ==> FitsAt(ReadPlan(vaddr, count), i, count)
    ensures p < |e.spaces| && Through(e, p, ReadPlan(vaddr, count), count, n, ending)
    ensures ending.Stopped? ==> n < |ReadPlan(vaddr, count)| && !SafeAt(k, p, ReadPlan(vaddr, count)[n].pn)
  {
    hide Plan, Meaning, SafeAt, Fetch, FitsAt;
  }

  lemma WasWritten(k: Kernel, e: Eager, p: nat, vaddr: nat, buf: seq<nat>, rest: seq<nat>, n: nat, ending: Ending)
    requires p < |k.spaces| && HasWritten(e, MeaningOf(k), p, WritePlan(vaddr, |buf|), n, buf, rest)
    requires Ended(k, p, WritePlan(vaddr, |buf|), |buf|, n, ending)
    requires n <= |WritePlan(vaddr, |buf|)| && forall i :: 0 <= i < n ==> FitsAt(WritePlan(vaddr, |buf|), i, |buf|)
    ensures p < |e.spaces| && Through(e, p, WritePlan(vaddr, |buf|), |buf|, n, ending)
    ensures MeaningOf(k) == Written(e, p, vaddr, buf, n)
    ensures ending.Stopped? ==> n < |WritePlan(vaddr, |buf|)| && !SafeAt(k, p, WritePlan(vaddr, |buf|)[n].pn)
  {
    hide Plan, Meaning, SafeAt, Deposit, Total, FitsAt;
    StillMapped(e, p, WritePlan(vaddr, |buf|), buf, n);
  }

  method LoadStep(k: Kernel, p: nat, pn: nat, exec: bool, noise: nat -> Page) returns (out: Outcome)
    requires Ready(k) && p < |k.spaces|
    modifies k`pf, k`objs, k`resident
    ensures Ready(k) && Legal(old(MeaningOf(k)), Bounds(k.low, k.high), Loads(p, pn, exec), out) && !out.Strayed?
    ensures !Splits(out)
    ensures !IsUnsafe(out)
    ensures MeaningOf(k) == Next(old(MeaningOf(k)), Loads(p, pn, exec), out, [])
    ensures Unsplit(old(k.objs), k.spaces) ==> Unsplit(k.objs, k.spaces)
  {
    hide Ready, Meaning, Allowed, BytesAt, SameShape, Unsplit;
    var r := Load(k, p, pn, exec, noise(0));
    out := if r.Some? then Loaded(r.value) else Fault;
    StillUnsplit(old(k.objs), k.objs, k.spaces);
  }

  method StoreStep(k: Kernel, p: nat, pn: nat, off: nat, bytes: seq<nat>, noise: nat -> Page) returns (out: Outcome)
    requires Ready(k) && p < |k.spaces|
    modifies k`pf, k`objs, k`resident
    ensures Ready(k) && Legal(old(MeaningOf(k)), Bounds(k.low, k.high), Stores(p, pn, off, bytes), out) && !out.Strayed?
    ensures !Splits(out)
    ensures MeaningOf(k) == Next(old(MeaningOf(k)), Stores(p, pn, off, bytes), out, [])
    ensures IsUnsafe(out) ==> UnsafeHere(k, Stores(p, pn, off, bytes), out)
    ensures Unsplit(old(k.objs), k.spaces) ==> Unsplit(k.objs, k.spaces)
  {
    hide Ready, Meaning, Allowed, BytesAt, Spec.Store, SafeAt, SameShape, Unsplit, Legal, Next;
    StoreIs(MeaningOf(k), Bounds(k.low, k.high), p, pn, off, bytes);
    var r := Code.Store(k, p, pn, off, bytes, noise(0));
    out := match r case Resolved(_) => Done case Killed => Fault case Unsafe => Blocked;
    StillUnsplit(old(k.objs), k.objs, k.spaces);
  }

  lemma StoreIs(e: Eager, b: Bounds, p: nat, pn: nat, off: nat, bytes: seq<nat>)
    requires p < |e.spaces|
    ensures var op, allowed := Stores(p, pn, off, bytes), Allowed(e, p, pn, true, false);
      var e' := Spec.Store(e, p, pn, off, bytes);
      && (allowed <==> Legal(e, b, op, Done)) && (allowed <==> Legal(e, b, op, Blocked))
      && (!allowed <==> Legal(e, b, op, Fault)) && (!allowed ==> e' == e)
      && Next(e, op, Done, []) == e' && Next(e, op, Fault, []) == e' && Next(e, op, Blocked, []) == e
  {
    hide BytesAt, PutPage, Splice;
  }

  method KernelReadStep(k: Kernel, p: nat, vaddr: nat, count: nat, noise: nat -> Page) returns (out: Outcome)
    requires Ready(k) && p < |k.spaces| && Words(vaddr, count)
    modifies k`pf, k`objs, k`resident
    ensures Ready(k) && Legal(old(MeaningOf(k)), Bounds(k.low, k.high), KernelReads(p, vaddr, count), out)
    ensures !out.Strayed? && !Splits(out)
    ensures MeaningOf(k) == Next(old(MeaningOf(k)), KernelReads(p, vaddr, count), out, [])
    ensures IsUnsafe(out) ==> UnsafeHere(k, KernelReads(p, vaddr, count), out)
    ensures Unsplit(old(k.objs), k.spaces) ==> Unsplit(k.objs, k.spaces)
  {
    hide Ready, Meaning, SafeAt, SameShape, Unsplit, ReadPlan, HasRead, Through, Ended;
    var buf, n, ending := ReadUser(k, p, vaddr, count, noise);
    WasRead(k, old(MeaningOf(k)), p, vaddr, count, n, buf, ending);
    out := CopiedOut(buf, n, ending);
    StillUnsplit(old(k.objs), k.objs, k.spaces);
  }

  method KernelWriteStep(k: Kernel, p: nat, vaddr: nat, buf: seq<nat>, noise: nat -> Page) returns (out: Outcome)
    requires Ready(k) && p < |k.spaces| && Words(vaddr, |buf|)
    modifies k`pf, k`objs, k`resident
    ensures Ready(k) && Legal(old(MeaningOf(k)), Bounds(k.low, k.high), KernelWrites(p, vaddr, buf), out)
    ensures !out.Strayed? && !Splits(out)
    ensures MeaningOf(k) == Next(old(MeaningOf(k)), KernelWrites(p, vaddr, buf), out, [])
    ensures IsUnsafe(out) ==> UnsafeHere(k, KernelWrites(p, vaddr, buf), out)
    ensures Unsplit(old(k.objs), k.spaces) ==> Unsplit(k.objs, k.spaces)
  {
    hide Ready, Meaning, SafeAt, SameShape, Unsplit, WritePlan, HasWritten, Through, Written, Ended;
    var n, ending, rest := WriteUser(k, p, vaddr, buf, noise);
    WasWritten(k, old(MeaningOf(k)), p, vaddr, buf, rest, n, ending);
    out := CopiedIn(n, ending);
    StillUnsplit(old(k.objs), k.objs, k.spaces);
  }

  /** A load or a store by a process, or an access to its memory by the kernel. */
  method Access(k: Kernel, op: Op, noise: nat -> Page) returns (out: Outcome)
    requires Ready(k) && ArgsOk(op, k.low, k.high)
    requires (op.Loads? || op.Stores? || op.KernelReads? || op.KernelWrites?) && op.p < |k.spaces|
    modifies k`pf, k`objs, k`resident
    ensures Ready(k) && Legal(old(MeaningOf(k)), Bounds(k.low, k.high), op, out) && !out.Strayed?
    ensures !Splits(out)
    ensures MeaningOf(k) == Next(old(MeaningOf(k)), op, out, [])
    ensures IsUnsafe(out) ==> UnsafeHere(k, op, out)
    ensures Unsplit(old(k.objs), old(k.spaces)) ==> Unsplit(k.objs, k.spaces)
  {
    hide Ready, Meaning, Unsplit, Legal, Next, UnsafeHere, IsUnsafe;
    match op {
      case Loads(p, pn, exec) => out := LoadStep(k, p, pn, exec, noise);
      case Stores(p, pn, off, bytes) => out := StoreStep(k, p, pn, off, bytes, noise);
      case KernelReads(p, vaddr, count) => out := KernelReadStep(k, p, vaddr, count, noise);
      case KernelWrites(p, vaddr, buf) => out := KernelWriteStep(k, p, vaddr, buf, noise);
    }
  }

  method MapStep(k: Kernel, p: nat, lopage: nat, n: nat, prot: Prot, private: bool, objoff: nat, dir: Dir)
    returns (out: Outcome)
    requires Ready(k) && k.low <= k.high && p < |k.spaces| && n > 0
    requires (lopage == 0 || (k.low <= lopage && lopage + n <= k.high))
    modifies k`pf, k`objs, k`resident, k`nextObj, k`spaces
    ensures out.Strayed? <==> RoomAstray(old(k.objs), old(k.spaces), p, lopage, n)
    ensures var op := Maps(p, lopage, n, prot, private, objoff, dir);
      && Legal(old(MeaningOf(k)), Bounds(k.low, k.high), op, out)
      && (!out.Strayed? ==> Ready(k) && MeaningOf(k) == Next(old(MeaningOf(k)), op, out, []))
    ensures !IsUnsafe(out) && !out.Broke?
    ensures Splits(out) <==> !KeepsObjects(old(k.spaces)[p], lopage, n) && !out.Strayed?
    ensures Unsplit(old(k.objs), old(k.spaces)) && !Splits(out) && !out.Strayed? ==> Unsplit(k.objs, k.spaces)
  {
    hide Ready, Meaning, KeepsObjects, Names, MapsAt, MapZeros, Unsplit, RoomAstray;
    var r, o, split := MapRange(k, p, lopage, n, prot, private, objoff, dir);
    out := OutcomeOf(r, o, split);
  }

  method BrkStep(k: Kernel, p: nat, brk: nat, startBrk: nat, addr: nat) returns (out: Outcome, ghost shown: seq<Page>)
    requires Ready(k) && p < |k.spaces| && k.low * PAGE_SIZE <= startBrk <= brk <= k.high * PAGE_SIZE && brk > 0
    modifies k`pf, k`objs, k`resident, k`nextObj, k`spaces
    ensures out.Strayed? <==> ShrinkAstray(old(k.objs), old(k.spaces), p, k.high, brk, startBrk, addr)
    ensures var op := Brks(p, brk, startBrk, addr);
      && Legal(old(MeaningOf(k)), Bounds(k.low, k.high), op, out) && shown == ShownBy(old(SnapOf(k)), op, out)
      && (!out.Strayed? ==> Ready(k) && MeaningOf(k) == Next(old(MeaningOf(k)), op, out, shown))
    ensures !IsUnsafe(out)
    ensures Splits(out) <==> !BrkKeepsObjects(old(k.spaces)[p], k.high, brk, startBrk, addr) && !out.Strayed?
    ensures Unsplit(old(k.objs), old(k.spaces)) && !Splits(out) && !out.Strayed? ==> Unsplit(k.objs, k.spaces)
  {
    hide Ready, Meaning, BrkKeepsObjects, MoveBreak, BrkAnswer, Unsplit, ShrinkAstray, Revealed, PageAbove, MemOf;
    var r, brk', split;
    r, brk', split, shown := MoveBrk(k, p, brk, startBrk, addr);
    out := if r.BrkAstray? then Strayed else if r.NullArea? then Crash else Broke(r, brk', split);
  }

  /** A change of what is mapped. */
  method Remap(k: Kernel, op: Op) returns (out: Outcome, ghost shown: seq<Page>)
    requires Ready(k) && k.low <= k.high && ArgsOk(op, k.low, k.high)
    requires (op.Maps? || op.Unmaps? || op.Brks? || op.Exits?) && op.p < |k.spaces|
    modifies k`pf, k`objs, k`resident, k`nextObj, k`spaces
    ensures out.Strayed? <==> GoesAstray(old(SnapOf(k)), op, k.high)
    ensures Legal(old(MeaningOf(k)), Bounds(k.low, k.high), op, out) && shown == ShownBy(old(SnapOf(k)), op, out)
    ensures !out.Strayed? ==> Ready(k) && MeaningOf(k) == Next(old(MeaningOf(k)), op, out, shown)
    ensures !IsUnsafe(out)
    ensures Splits(out) <==> CutsArea(old(SnapOf(k)), op, k.high) && !out.Strayed?
    ensures Unsplit(old(k.objs), old(k.spaces)) && !Splits(out) && !out.Strayed? ==> Unsplit(k.objs, k.spaces)
  {
    hide Ready, Meaning, NoSplit, KeepsObjects, BrkKeepsObjects, Spec.Exit, Spec.Unmap, Unsplit, Legal, Next, Exitable,
      Removable, ShrinkAstray, RoomAstray, MemOf, Shown;
    shown := [];
    match op {
      case Maps(p, lopage, n, prot, private, objoff, dir) =>
        out := MapStep(k, p, lopage, n, prot, private, objoff, dir);
      case Unmaps(p, lo, n) =>
        var ok, split := UnmapRange(k, p, lo, n);
        out := if ok then Unmapped(split) else Strayed;
        UnmapIs(old(MeaningOf(k)), Bounds(k.low, k.high), p, lo, n, split);
      case Brks(p, brk, startBrk, addr) =>
        out, shown := BrkStep(k, p, brk, startBrk, addr);
      case Exits(p) =>
        var ok := MemorySteps.Exit(k, p);
        out := if ok then Done else Strayed;
        ExitIs(old(MeaningOf(k)), Bounds(k.low, k.high), p);
    }
  }

  lemma UnmapIs(e: Eager, b: Bounds, p: nat, lo: nat, n: nat, split: bool)
    requires p < |e.spaces|
    ensures Legal(e, b, Unmaps(p, lo, n), Unmapped(split)) && Legal(e, b, Unmaps(p, lo, n), Strayed)
    ensures Next(e, Unmaps(p, lo, n), Unmapped(split), []) == Spec.Unmap(e, p, lo, lo + n)
  {
    hide Spec.Unmap;
  }

  lemma ExitIs(e: Eager, b: Bounds, p: nat)
    requires p < |e.spaces|
    ensures Legal(e, b, Exits(p), Done) && Legal(e, b, Exits(p), Strayed)
    ensures Next(e, Exits(p), Done, []) == Spec.Exit(e, p)
  {
    hide Spec.Exit;
  }

  lemma ForkIs(e: Eager, b: Bounds, p: nat)
    requires p < |e.spaces|
    ensures Legal(e, b, Forks(p), Created(|e.spaces|)) && Legal(e, b, Forks(p), Strayed)
    ensures Next(e, Forks(p), Created(|e.spaces|), []) == Spec.Fork(e, p)
  {
    hide Spec.Fork;
  }

  lemma OthersAre(e: Eager, b: Bounds, op: Op)
    ensures Legal(e, b, Spawns, Created(|e.spaces|))
    ensures Next(e, Spawns, Created(|e.spaces|), []) == e.(spaces := e.spaces + [imap[]])
    ensures Legal(e, b, Syncs, Done) && Next(e, Syncs, Done, []) == e
    ensures !op.Spawns? && !op.Syncs? && op.p >= |e.spaces| ==> Legal(e, b, op, Fault) && Next(e, op, Fault, []) == e
  {
  }

  method Step(k: Kernel, op: Op, noise: nat -> Page) returns (out: Outcome, ghost shown: seq<Page>)
    requires Ready(k) && k.low <= k.high && ArgsOk(op, k.low, k.high)
    modifies k`pf, k`objs, k`resident, k`nextObj, k`spaces
    ensures out.Strayed? <==> GoesAstray(old(SnapOf(k)), op, k.high)
    ensures Legal(old(MeaningOf(k)), Bounds(k.low, k.high), op, out) && shown == ShownBy(old(SnapOf(k)), op, out)
    ensures !out.Strayed? ==> Ready(k) && MeaningOf(k) == Next(old(MeaningOf(k)), op, out, shown)
    ensures IsUnsafe(out) ==> UnsafeHere(k, op, out)
    ensures Splits(out) <==> CutsArea(old(SnapOf(k)), op, k.high) && !out.Strayed?
    ensures Unsplit(old(k.objs), old(k.spaces)) && !Splits(out) && !out.Strayed? ==> Unsplit(k.objs, k.spaces)
    ensures op.Syncs? ==> forall f :: f in k.pf.frames && k.pf.frames[f].pincount == 0 ==> !k.pf.frames[f].dirty
  {
    hide Ready, Meaning, Unsplit, NoSplit, KeepsObjects, BrkKeepsObjects, Spec.Fork, Legal, Next, UnsafeHere, Unlisted,
      MemOf, Shown, Removable, ShrinkAstray, RoomAstray, Exitable;
    OthersAre(MeaningOf(k), Bounds(k.low, k.high), op);
    shown := [];
    if op.Spawns? {
      out := Created(|k.spaces|);
      Spawn(k);
    } else if op.Syncs? {
      Sync(k);
      out := Done;
    } else if op.p >= |k.spaces| {
      out := Fault;
    } else if op.Forks? {
      ForkIs(MeaningOf(k), Bounds(k.low, k.high), op.p);
      var child := ForkSpace.Fork(k, op.p);
      out := if child.Some? then Created(child.value) else Strayed;
    } else if op.Loads? || op.Stores? || op.KernelReads? || op.KernelWrites? {
      out := Access(k, op, noise);
    } else {
      out, shown := Remap(k, op);
    }
  }

  /** A run whose last step went astray. */
  predicate Lost(outs: seq<Outcome>) { outs != [] && outs[|outs| - 1].Strayed? }

  /** Which steps go astray or cut areas, and what they show, is decided by the kernel's own state before them. */
  ghost predicate Decided(trace: seq<Snap>, ops: seq<Op>, outs: seq<Outcome>, shows: seq<seq<Page>>, high: nat) {
    && |trace| == |outs| == |shows| <= |ops|
    && (forall i :: 0 <= i < |outs| ==> (outs[i].Strayed? <==> GoesAstray(trace[i], ops[i], high)))
    && (forall i :: 0 <= i < |outs| ==>
         (Splits(outs[i]) <==> CutsArea(trace[i], ops[i], high) && !outs[i].Strayed?))
    && (forall i :: 0 <= i < |outs| ==> shows[i] == ShownBy(trace[i], ops[i], outs[i]))
  }

  /** The states of the trace mean what the eager machine has come to by then. */
  ghost predicate Traced(e: Eager, b: Bounds, ops: seq<Op>, outs: seq<Outcome>, shows: seq<seq<Page>>,
                         trace: seq<Snap>) {
    && |trace| == |outs| == |shows| <= |ops|
    && forall i :: 0 <= i < |trace| ==>
      Behaves(e, b, ops[..i], outs[..i], shows[..i], Meaning(trace[i].mem, trace[i].spaces))
  }

  lemma TracedOn(e: Eager, b: Bounds, ops: seq<Op>, outs: seq<Outcome>, shows: seq<seq<Page>>, trace: seq<Snap>,
                 s: Snap, out: Outcome, shown: seq<Page>)
    requires Traced(e, b, ops, outs, shows, trace) && |outs| < |ops|
    requires Behaves(e, b, ops[..|outs|], outs, shows, Meaning(s.mem, s.spaces))
    ensures Traced(e, b, ops, outs + [out], shows + [shown], trace + [s])
  {
    hide Behaves, Meaning;
    forall i | 0 <= i < |trace + [s]|
      ensures Behaves(e, b, ops[..i], (outs + [out])[..i], (shows + [shown])[..i],
                      Meaning((trace + [s])[i].mem, (trace + [s])[i].spaces))
    {
      assert (outs + [out])[..i] == outs[..i] && (shows + [shown])[..i] == shows[..i];
      if i == |outs| { assert outs[..i] == outs && shows[..i] == shows; }
    }
  }

  lemma TracedNot(e: Eager, b: Bounds, ops: seq<Op>)
    ensures Traced(e, b, ops, [], [], [])
  {
  }

  lemma DecidedOn(trace: seq<Snap>, ops: seq<Op>, outs: seq<Outcome>, shows: seq<seq<Page>>, high: nat, s: Snap,
                  out: Outcome, shown: seq<Page>)
    requires Decided(trace, ops, outs, shows, high) && |outs| < |ops|
    requires (out.Strayed? <==> GoesAstray(s, ops[|outs|], high)) && shown == ShownBy(s, ops[|outs|], out)
    requires Splits(out) <==> CutsArea(s, ops[|outs|], high) && !out.Strayed?
    ensures Decided(trace + [s], ops, outs + [out], shows + [shown], high)
  {
    hide GoesAstray, ShownBy, CutsArea, Splits;
  }

  /**
   * Every run of the kernel is a run of the eager machine, with the same outcomes, up to a step
   * that follows a null pointer, goes astray, overruns a page, or would have to write where it is
   * not safe. Neither an unsafe write nor a step that goes astray comes up in a run that has not
   * split an area. `noise` is what fresh frames hold, `trace` the states before the steps, and `e`
   * what the eager machine ends with: what the kernel means, unless its last step went astray.
   */
  method Run(k: Kernel, ops: seq<Op>, noise: seq<nat -> Page>)
    returns (outs: seq<Outcome>, ghost shows: seq<seq<Page>>, ghost trace: seq<Snap>, ghost e: Eager)
    requires Ready(k) && k.low <= k.high && |noise| == |ops|
    requires forall i :: 0 <= i < |ops| ==> ArgsOk(ops[i], k.low, k.high)
    modifies k`pf, k`objs, k`resident, k`nextObj, k`spaces
    ensures |outs| <= |ops| && Behaves(old(MeaningOf(k)), Bounds(k.low, k.high), ops[..|outs|], outs, shows, e)
    ensures !Lost(outs) ==> Ready(k) && MeaningOf(k) == e
    ensures Decided(trace, ops, outs, shows, k.high) && (outs != [] ==> trace[0] == old(SnapOf(k)))
    ensures Traced(old(MeaningOf(k)), Bounds(k.low, k.high), ops, outs, shows, trace)
    ensures |outs| < |ops| ==> outs != [] && Stops(outs[|outs| - 1])
    ensures outs != [] && IsUnsafe(outs[|outs| - 1]) ==> UnsafeHere(k, ops[|outs| - 1], outs[|outs| - 1])
    ensures Unsplit(old(k.objs), old(k.spaces)) && (forall i :: 0 <= i < |outs| ==> !Splits(outs[i])) ==>
      forall i :: 0 <= i < |outs| ==> !IsUnsafe(outs[i]) && !outs[i].Strayed?
  {
    hide Ready, Meaning, Legal, Next, Unsplit, UnsafeHere, Splits, Stops, IsUnsafe, ArgsOk, Behaves, Decided,
      GoesAstray, CutsArea, ShownBy, Traced;
    outs, shows, trace, e := [], [], [], MeaningOf(k);
    BehavesNot(e, Bounds(k.low, k.high));
    DecidedNot(ops, k.high);
    TracedNot(e, Bounds(k.low, k.high), ops);
    assert ops[..0] == [];
    while |outs| < |ops|
      invariant |outs| <= |ops| && Behaves(old(MeaningOf(k)), Bounds(k.low, k.high), ops[..|outs|], outs, shows, e)
      invariant !Lost(outs) ==> Ready(k) && MeaningOf(k) == e
      invariant Decided(trace, ops, outs, shows, k.high) && |trace| == |outs|
      invariant Traced(old(MeaningOf(k)), Bounds(k.low, k.high), ops, outs, shows, trace)
      invariant if outs == [] then SnapOf(k) == old(SnapOf(k)) else trace[0] == old(SnapOf(k))
      invariant outs != [] && IsUnsafe(outs[|outs| - 1]) ==> UnsafeHere(k, ops[|outs| - 1], outs[|outs| - 1])
      invariant Clean(old(k.objs), old(k.spaces), k.objs, k.spaces, outs)
      decreases |ops| - |outs|
    {
      if outs != [] && Stops(outs[|outs| - 1]) {
        return;
      }
      LostStops(outs);
      ghost var objs, spaces, s := k.objs, k.spaces, SnapOf(k);
      NotAstrayHere(k, ops[|outs|]);
      var op, i := ops[|outs|], |outs|;
      var out;
      ghost var shown;
      out, shown := Step(k, op, noise[i]);
      BehavesOn(old(MeaningOf(k)), Bounds(k.low, k.high), ops[..i], outs, shows, e, op, out, shown);
      DecidedOn(trace, ops, outs, shows, k.high, s, out, shown);
      TracedOn(old(MeaningOf(k)), Bounds(k.low, k.high), ops, outs, shows, trace, s, out, shown);
      CleanOn(k, old(k.objs), old(k.spaces), objs, spaces, outs, op, out);
      StrayedIs(e, Bounds(k.low, k.high), op, out, shown);
      e := if out.Strayed? then e else MeaningOf(k);
      assert ops[..i + 1] == ops[..i] + [op];
      outs, shows, trace := outs + [out], shows + [shown], trace + [s];
    }
  }

  lemma LostStops(outs: seq<Outcome>)
    requires outs == [] || !Stops(outs[|outs| - 1])
    ensures !Lost(outs)
  {
  }

  lemma NotAstrayHere(k: Kernel, op: Op)
    requires Ready(k)
    ensures Unsplit(k.objs, k.spaces) ==> !GoesAstray(SnapOf(k), op, k.high)
  {
    hide HoldsRefs, Unsplit, GoesAstray, SnapOf, Apart;
    if Unsplit(k.objs, k.spaces) {
      UnsplitNotAstray(k, op, k.high);
    }
  }

  lemma StrayedIs(e: Eager, b: Bounds, op: Op, out: Outcome, shown: seq<Page>)
    requires Legal(e, b, op, out)
    ensures out.Strayed? ==> Next(e, op, out, shown) == e
  {
  }

  lemma DecidedNot(ops: seq<Op>, high: nat)
    ensures Decided([], ops, [], [], high)
  {
  }

  lemma BehavesNot(e: Eager, b: Bounds)
    ensures Behaves(e, b, [], [], [], e)
  {
  }

  /** As long as no area has been split, none is, no write was unsafe, and no step went astray. */
  ghost predicate Clean(objs0: Objs, spaces0: seq<Areas>, objs: Objs, spaces: seq<Areas>, outs: seq<Outcome>) {
    Unsplit(objs0, spaces0) && (forall i :: 0 <= i < |outs| ==> !Splits(outs[i])) ==>
      Unsplit(objs, spaces) && forall i :: 0 <= i < |outs| ==> !IsUnsafe(outs[i]) && !outs[i].Strayed?
  }

  lemma CleanOn(k: Kernel, objs0: Objs, spaces0: seq<Areas>, objs: Objs, spaces: seq<Areas>, outs: seq<Outcome>, op: Op,
                out: Outcome)
    requires Clean(objs0, spaces0, objs, spaces, outs) && (!out.Strayed? ==> Ready(k))
    requires IsUnsafe(out) ==> UnsafeHere(k, op, out)
    requires Unsplit(objs, spaces) ==> !out.Strayed?
    requires Unsplit(objs, spaces) && !Splits(out) && !out.Strayed? ==> Unsplit(k.objs, k.spaces)
    ensures Clean(objs0, spaces0, k.objs, k.spaces, outs + [out])
  {
    hide HoldsRefs, Unsplit, UnsafeHere, IsUnsafe, Splits, Apart;
    var outs' := outs + [out];
    if Unsplit(objs0, spaces0) && forall i :: 0 <= i < |outs'| ==> !Splits(outs'[i]) {
      forall i | 0 <= i < |outs|
        ensures !Splits(outs[i])
      {
        assert outs'[i] == outs[i];
      }
      assert outs'[|outs|] == out;
      UnsplitNotUnsafe(k, op, out);
    }
  }

  /** From boot on: no process, no memory. */
  method Boot(hashSize: nat, low: nat, high: nat, ops: seq<Op>, noise: seq<nat -> Page>)
    returns (k: Kernel, outs: seq<Outcome>, ghost shows: seq<seq<Page>>, ghost trace: seq<Snap>, ghost e: Eager)
    requires hashSize > 0 && low <= high && |noise| == |ops|
    requires forall i :: 0 <= i < |ops| ==> ArgsOk(ops[i], low, high)
    ensures |outs| <= |ops| && Behaves(Eager([], imap[]), Bounds(low, high), ops[..|outs|], outs, shows, e)
    ensures !Lost(outs) ==> Ready(k) && MeaningOf(k) == e
    ensures Decided(trace, ops, outs, shows, high)
    ensures Traced(Eager([], imap[]), Bounds(low, high), ops, outs, shows, trace)
    ensures |outs| < |ops| ==> outs != [] && Stops(outs[|outs| - 1])
    ensures outs != [] && IsUnsafe(outs[|outs| - 1]) ==> UnsafeHere(k, ops[|outs| - 1], outs[|outs| - 1])
    ensures (forall i :: 0 <= i < |outs| ==> !Splits(outs[i])) ==>
      forall i :: 0 <= i < |outs| ==> !IsUnsafe(outs[i]) && !outs[i].Strayed?
  {
    hide Behaves, Stops, IsUnsafe, Splits, UnsafeHere, ArgsOk, Ready, Meaning, Unsplit, Decided, Traced, Lost;
    k := new Kernel(hashSize, low, high);
    BootReady(k);
    outs, shows, trace, e := Run(k, ops, noise);
  }

  lemma BootReady(k: Kernel)
    requires MemOk(k) && k.objs == map[] && k.spaces == []
    ensures Ready(k) && MeaningOf(k) == Eager([], imap[]) && Unsplit(k.objs, k.spaces)
  {
  }
}
