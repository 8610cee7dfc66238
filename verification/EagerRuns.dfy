/** Whole runs of the eager machine, and what they promise. */
module EagerRuns {
  import opened Lists
  import opened Chains
  import opened VmState
  import opened AreaList
  import opened Mapping
  import Spec = EagerCopy
  import opened EagerCopy
  import opened KernelAccess

  datatype Op =
    | Spawns
    | Syncs
    | Forks(p: nat)
    | Loads(p: nat, pn: nat, exec: bool)
    | Stores(p: nat, pn: nat, off: nat, bytes: seq<nat>)
    | Maps(p: nat, lopage: nat, n: nat, prot: Prot, private: bool, objoff: nat, dir: Dir)
    | Unmaps(p: nat, lo: nat, n: nat)
    | Brks(p: nat, brk: nat, startBrk: nat, addr: nat)
    | KernelReads(p: nat, vaddr: nat, count: nat)
    | KernelWrites(p: nat, vaddr: nat, buf: seq<nat>)
    | Exits(p: nat)

  /**
   * `split` tells whether an area was cut in two; Blocked, that a write would not have been safe;
   * Strayed, that an mmo_bottom_obj was followed which leads to no list of areas.
   */
  datatype Outcome =
    | Created(child: nat)
    | Loaded(page: Page)
    | Done
    | Fault
    | MappedAt(start: nat, obj: ObjId, split: bool)
    | Unmapped(split: bool)
    | Broke(r: BrkResult, brk: nat, split: bool)
    | CopiedOut(buf: seq<nat>, n: nat, ending: Ending)
    | CopiedIn(n: nat, ending: Ending)
    | Crash
    | Blocked
    | Strayed

  /** The kernel does not go on after this. */
  predicate Stops(out: Outcome) {
    || out.Crash? || out.Blocked? || out.Strayed?
    || ((out.CopiedOut? || out.CopiedIn?) && out.ending != Complete)
  }

  predicate IsUnsafe(out: Outcome) {
    out.Blocked? || ((out.CopiedOut? || out.CopiedIn?) && out.ending == Stopped)
  }

  predicate Splits(out: Outcome) {
    (out.MappedAt? || out.Unmapped? || out.Broke?) && out.split
  }

  // ---------------------------------------------------------------------------------------------
  // Runs of the eager machine

  /** The user range of every address space. */
  datatype Bounds = Bounds(low: nat, high: nat)

  ghost predicate FreeCells(cells: Cells, start: nat, n: nat) {
    forall pn: nat :: start <= pn < start + n ==> pn !in cells
  }

  ghost predicate Room(cells: Cells, b: Bounds, start: nat, n: nat) {
    b.low <= start && start + n <= b.high && FreeCells(cells, start, n)
  }

  /**
   * Where a mapping goes: where it was asked for, or else the highest or the lowest room there is.
   * In an empty address space the search of vmmap_find_range follows a null pointer.
   */
  ghost predicate MapsAt(cells: Cells, b: Bounds, lopage: nat, n: nat, dir: Dir, out: Outcome) {
    match out
    case MappedAt(start, _, _) =>
      if lopage != 0 then start == lopage
      else Room(cells, b, start, n) &&
           forall s: nat :: Room(cells, b, s, n) ==> if dir == HiLo then s <= start else start <= s
    case Fault => lopage == 0 && forall s: nat :: !Room(cells, b, s, n)
    case Crash => lopage == 0 && cells == imap[] && (dir == HiLo || n > b.high - b.low)
    case _ => false
  }

  /** What do_brk answers. */
  ghost function BrkAnswer(cells: Cells, high: nat, brk: nat, startBrk: nat, addr: nat): (r: BrkResult) {
    if addr == 0 || brk == 0 then Break(brk)
    else if addr > high * PAGE_SIZE || addr < startBrk then NoMemory
    else
      var begin, end := PageAbove(brk), PageAbove(addr);
      if end == begin then Unset
      else if end < begin then Break(addr)
      else if !FreeCells(cells, begin, end - begin) then NoMemory
      else if begin - 1 !in cells then NullArea
      else Break(addr)
  }

  /** An access of the kernel made `n` copies of its plan for `count` bytes, and ended as it says. */
  ghost predicate Through(e: Eager, p: nat, plan: seq<Chunk>, count: nat, n: nat, ending: Ending)
    requires p < |e.spaces|
  {
    && n <= |plan| && AllMapped(e, p, plan[..n]) && (forall i :: 0 <= i < n ==> FitsAt(plan, i, count))
    && match ending
       case Complete => n == |plan|
       case NullMap => n < |plan| && plan[n].pn !in e.spaces[p]
       case Stopped => n < |plan| && plan[n].pn in e.spaces[p]
       case Overrun => n < |plan| && plan[n].pn in e.spaces[p] && !FitsAt(plan, n, count)
  }

  ghost predicate Legal(e: Eager, b: Bounds, op: Op, out: Outcome) {
    if op.Spawns? then out == Created(|e.spaces|)
    else if op.Syncs? then out == Done
    else if op.p >= |e.spaces| then out == Fault
    else if out.Strayed? then op.Forks? || op.Maps? || op.Unmaps? || op.Brks? || op.Exits?
    else match op
      case Forks(_) => out == Created(|e.spaces|)
      case Loads(p, pn, exec) =>
        if Allowed(e, p, pn, false, exec) then out == Loaded(BytesAt(e, p, pn)) else out == Fault
      case Stores(p, pn, _, _) =>
        if Allowed(e, p, pn, true, false) then out == Done || out == Blocked else out == Fault
      case Maps(p, lopage, n, _, _, _, dir) =>
        MapsAt(e.spaces[p], b, lopage, n, dir, out) && (out.MappedAt? ==> !Names(e.spaces, out.obj))
      case Unmaps(_, _, _) => out.Unmapped?
      case Brks(p, brk, startBrk, addr) =>
        var r := BrkAnswer(e.spaces[p], b.high, brk, startBrk, addr);
        if r.NullArea? then out == Crash
        else out.Broke? && out.r == r && out.brk == (if r.Break? && addr > 0 then addr else brk)
      case KernelReads(p, vaddr, count) =>
        && out.CopiedOut? && Through(e, p, ReadPlan(vaddr, count), count, out.n, out.ending)
        && HasRead(e, p, ReadPlan(vaddr, count), out.n, out.buf)
      case KernelWrites(p, vaddr, buf) =>
        out.CopiedIn? && Through(e, p, WritePlan(vaddr, |buf|), |buf|, out.n, out.ending)
      case Exits(_) => out == Done
  }

  /** The pages that a break moved from `brk` to `addr` maps; `shown` are the bytes of private ones. */
  ghost function MoveBreak(e: Eager, p: nat, brk: nat, addr: nat, shown: seq<Page>): (e': Eager)
    requires p < |e.spaces| && brk > 0 && addr > 0
  {
    var begin, end := PageAbove(brk), PageAbove(addr);
    if end <= begin then Spec.Unmap(e, p, end, begin)
    else if begin - 1 in e.spaces[p] && |shown| == end - begin then
      e.(spaces := e.spaces[p := Grow(e.spaces[p], begin, shown)])
    else e
  }

  ghost function Next(e: Eager, op: Op, out: Outcome, shown: seq<Page>): (e': Eager) {
    if op.Spawns? then e.(spaces := e.spaces + [imap[]])
    else if op.Syncs? then e
    else if op.p >= |e.spaces| || out.Strayed? then e
    else match op
      case Forks(p) => Spec.Fork(e, p)
      case Loads(_, _, _) => e
      case Stores(p, pn, off, bytes) => if out.Blocked? then e else Spec.Store(e, p, pn, off, bytes)
      case Maps(p, _, n, prot, private, objoff, _) =>
        if out.MappedAt? then MapZeros(e, p, out.start, n, prot, private, objoff, out.obj) else e
      case Unmaps(p, lo, n) => Spec.Unmap(e, p, lo, lo + n)
      case Brks(p, brk, _, addr) =>
        if out.Broke? && out.r.Break? && addr > 0 && brk > 0 then MoveBreak(e, p, brk, addr, shown) else e
      case KernelReads(_, _, _) => e
      case KernelWrites(p, vaddr, buf) => if out.CopiedIn? then Written(e, p, vaddr, buf, out.n) else e
      case Exits(p) => Spec.Exit(e, p)
  }

  ghost function Written(e: Eager, p: nat, vaddr: nat, buf: seq<nat>, n: nat): (e': Eager)
    requires p < |e.spaces|
  {
    var plan := WritePlan(vaddr, |buf|);
    if n <= |plan| && AllMapped(e, p, plan[..n]) && Total(plan[..n]) <= |buf| then Deposit(e, p, plan[..n], buf) else e
  }

  /**
   * Some run of the eager machine does `ops` with these outcomes and goes from `e` to `e'`;
   * `shows[i]` are the bytes that step `i` brought into view by growing a private mapping.
   */
  ghost predicate Behaves(e: Eager, b: Bounds, ops: seq<Op>, outs: seq<Outcome>, shows: seq<seq<Page>>, e': Eager)
    decreases |ops|
  {
    && |outs| == |ops| && |shows| == |ops|
    && if ops == [] then e' == e
       else
         && Legal(e, b, ops[0], outs[0])
         && Behaves(Next(e, ops[0], outs[0], shows[0]), b, ops[1..], outs[1..], shows[1..], e')
  }

  lemma {:induction false} BehavesOn(e: Eager, b: Bounds, ops: seq<Op>, outs: seq<Outcome>, shows: seq<seq<Page>>,
                                     e': Eager, op: Op, out: Outcome, shown: seq<Page>)
    requires Behaves(e, b, ops, outs, shows, e') && Legal(e', b, op, out)
    ensures Behaves(e, b, ops + [op], outs + [out], shows + [shown], Next(e', op, out, shown))
    decreases |ops|
  {
    hide Legal, Next;
    if ops == [] {
      assert (ops + [op])[1..] == [];
    } else {
      assert (ops + [op])[1..] == ops[1..] + [op] && (outs + [out])[1..] == outs[1..] + [out];
      assert (shows + [shown])[1..] == shows[1..] + [shown];
      BehavesOn(Next(e, ops[0], outs[0], shows[0]), b, ops[1..], outs[1..], shows[1..], e', op, out, shown);
    }
  }

  /** The process `r` takes no step. */
  predicate Idle(ops: seq<Op>, r: nat) {
    forall i :: 0 <= i < |ops| ==> ops[i].Spawns? || ops[i].Syncs? || ops[i].p != r || ops[i].Forks?
  }

  lemma {:induction false} DepositElsewhere(e: Eager, p: nat, plan: seq<Chunk>, buf: seq<nat>, r: nat)
    requires p < |e.spaces| && AllMapped(e, p, plan) && Total(plan) <= |buf| && r < |e.spaces| && r != p
    ensures |Deposit(e, p, plan, buf).spaces| == |e.spaces| && Deposit(e, p, plan, buf).spaces[r] == e.spaces[r]
    decreases |plan|
  {
    hide BytesAt, Splice;
    if plan != [] {
      DepositElsewhere(e, p, plan[..|plan| - 1], buf, r);
    }
  }

  lemma StepKeeps(e: Eager, op: Op, out: Outcome, shown: seq<Page>, r: nat)
    requires r < |e.spaces| && Idle([op], r)
    ensures r < |Next(e, op, out, shown).spaces| && Next(e, op, out, shown).spaces[r] == e.spaces[r]
  {
    assert [op][0] == op;
    hide Spec.Store, MapZeros, Spec.Unmap, Spec.Exit, MoveBreak, Written, Idle;
    if !op.Spawns? && !op.Syncs? && op.p < |e.spaces| && !op.Forks? {
      IdleIs(op, r);
      match op
      case Stores(p, pn, off, bytes) => StoreElsewhere(e, p, pn, off, bytes, r);
      case Maps(p, _, n, prot, private, objoff, _) =>
        if out.MappedAt? { MapElsewhere(e, p, out.start, n, prot, private, objoff, out.obj, r); }
      case Unmaps(p, lo, n) => UnmapElsewhere(e, p, lo, lo + n, r);
      case Brks(p, brk, _, addr) => if brk > 0 && addr > 0 { BreakElsewhere(e, p, brk, addr, shown, r); }
      case KernelWrites(p, vaddr, buf) => if out.CopiedIn? { WrittenElsewhere(e, p, vaddr, buf, out.n, r); }
      case Exits(p) => ExitElsewhere(e, p, r);
      case _ =>
    }
  }

  lemma IdleIs(op: Op, r: nat)
    requires Idle([op], r)
    ensures op.Spawns? || op.Syncs? || op.p != r || op.Forks?
  {
    assert [op][0] == op;
  }

  lemma StoreElsewhere(e: Eager, p: nat, pn: nat, off: nat, bytes: seq<nat>, r: nat)
    requires p < |e.spaces| && r < |e.spaces| && r != p
    ensures var e' := Spec.Store(e, p, pn, off, bytes); |e'.spaces| == |e.spaces| && e'.spaces[r] == e.spaces[r]
  {
    hide BytesAt, Splice, WithCell;
  }

  lemma MapElsewhere(e: Eager, p: nat, start: nat, n: nat, prot: Prot, private: bool, off: nat, o: ObjId, r: nat)
    requires p < |e.spaces| && r < |e.spaces| && r != p
    ensures var e' := MapZeros(e, p, start, n, prot, private, off, o);
      |e'.spaces| == |e.spaces| && e'.spaces[r] == e.spaces[r]
  {
    hide WithZeros, ZeroShared, Names;
  }

  lemma UnmapElsewhere(e: Eager, p: nat, lo: nat, hi: nat, r: nat)
    requires p < |e.spaces| && r < |e.spaces| && r != p
    ensures var e' := Spec.Unmap(e, p, lo, hi); |e'.spaces| == |e.spaces| && e'.spaces[r] == e.spaces[r]
  {
    hide Without, Names;
  }

  lemma ExitElsewhere(e: Eager, p: nat, r: nat)
    requires p < |e.spaces| && r < |e.spaces| && r != p
    ensures var e' := Spec.Exit(e, p); |e'.spaces| == |e.spaces| && e'.spaces[r] == e.spaces[r]
  {
    hide Names;
  }

  lemma BreakElsewhere(e: Eager, p: nat, brk: nat, addr: nat, shown: seq<Page>, r: nat)
    requires p < |e.spaces| && r < |e.spaces| && r != p && brk > 0 && addr > 0
    ensures var e' := MoveBreak(e, p, brk, addr, shown); |e'.spaces| == |e.spaces| && e'.spaces[r] == e.spaces[r]
  {
    hide Grow, Spec.Unmap, PageAbove;
    UnmapElsewhere(e, p, PageAbove(addr), PageAbove(brk), r);
  }

  lemma WrittenElsewhere(e: Eager, p: nat, vaddr: nat, buf: seq<nat>, n: nat, r: nat)
    requires p < |e.spaces| && r < |e.spaces| && r != p
    ensures var e' := Written(e, p, vaddr, buf, n); |e'.spaces| == |e.spaces| && e'.spaces[r] == e.spaces[r]
  {
    hide Deposit, Total, WritePlan;
    var plan := WritePlan(vaddr, |buf|);
    if n <= |plan| && AllMapped(e, p, plan[..n]) && Total(plan[..n]) <= |buf| {
      DepositElsewhere(e, p, plan[..n], buf, r);
    }
  }

  /** Whatever the others do, a process that takes no step keeps its mappings and its own bytes. */
  lemma {:induction false} Isolation(e: Eager, b: Bounds, ops: seq<Op>, outs: seq<Outcome>, shows: seq<seq<Page>>,
                                     e': Eager, r: nat)
    requires Behaves(e, b, ops, outs, shows, e') && r < |e.spaces| && Idle(ops, r)
    ensures r < |e'.spaces| && e'.spaces[r] == e.spaces[r]
    decreases |ops|
  {
    hide Legal, Next;
    if ops != [] {
      StepKeeps(e, ops[0], outs[0], shows[0], r);
      Isolation(Next(e, ops[0], outs[0], shows[0]), b, ops[1..], outs[1..], shows[1..], e', r);
    }
  }

  /** A forked child that takes no step holds, after any run, the parent's memory at the fork. */
  lemma Snapshot(e: Eager, b: Bounds, p: nat, ops: seq<Op>, outs: seq<Outcome>, shows: seq<seq<Page>>, e': Eager)
    requires p < |e.spaces| && ops != [] && ops[0] == Forks(p) && Behaves(e, b, ops, outs, shows, e')
    requires outs[0].Created?
    requires Idle(ops[1..], |e.spaces|)
    ensures |e.spaces| < |e'.spaces| && e'.spaces[|e.spaces|] == e.spaces[p]
  {
    Isolation(Spec.Fork(e, p), b, ops[1..], outs[1..], shows[1..], e', |e.spaces|);
  }
}
