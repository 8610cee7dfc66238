/** The sorted list of areas of one address space, and the searches over it. */
module AreaList {
  import opened Lists
  import opened Chains
  import opened VmState

  type Areas = seq<VmArea>

  /** Areas are non-empty, within the user range, sorted and disjoint. */
  ghost predicate SpaceOk(areas: Areas, low: nat, high: nat) {
    && (forall i :: 0 <= i < |areas| ==> low <= areas[i].start < areas[i].end <= high)
    && (forall i, j :: 0 <= i < j < |areas| ==> areas[i].end <= areas[j].start)
  }

  predicate Covers(a: VmArea, pn: nat) { a.start <= pn < a.end }

  /** The area that maps page `pn`. */
  ghost function At(areas: Areas, pn: nat): (r: Option<VmArea>)
    ensures r.None? <==> forall i :: 0 <= i < |areas| ==> !Covers(areas[i], pn)
    ensures r.Some? ==> Covers(r.value, pn) && r.value in areas
  {
    if areas == [] then None
    else if Covers(areas[0], pn) then Some(areas[0])
    else At(areas[1..], pn)
  }

  lemma {:induction false} AtConcat(a: Areas, b: Areas, pn: nat)
    ensures At(a + b, pn) == if At(a, pn).Some? then At(a, pn) else At(b, pn)
  {
    if a == [] {
      assert a + b == b;
    } else {
      assert (a + b)[1..] == a[1..] + b;
      AtConcat(a[1..], b, pn);
    }
  }

  /** In a well-formed list the covering area is unique. */
  lemma {:induction false} AtUnique(areas: Areas, low: nat, high: nat, i: nat, pn: nat)
    requires SpaceOk(areas, low, high) && i < |areas| && Covers(areas[i], pn)
    ensures At(areas, pn) == Some(areas[i])
  {
  }

  /** vmmap_lookup. */
  method Lookup(areas: Areas, vfn: nat) returns (r: Option<nat>)
    ensures r.None? <==> At(areas, vfn).None?
    ensures r.Some? ==> r.value < |areas| && At(areas, vfn) == Some(areas[r.value])
  {
    var i := 0;
    while i < |areas|
      invariant 0 <= i <= |areas|
      invariant At(areas, vfn) == At(areas[i..], vfn)
    {
      if vfn >= areas[i].start && vfn < areas[i].end {
        return Some(i);
      }
      i := i + 1;
    }
    r := None;
  }

  /** No page of [start, start + n) is mapped. */
  ghost predicate RangeFree(areas: Areas, start: nat, n: nat) {
    forall pn :: start <= pn < start + n ==> At(areas, pn).None?
  }

  /** vmmap_is_range_empty. */
  method IsRangeEmpty(areas: Areas, start: nat, n: nat, low: nat, high: nat) returns (empty: bool)
    requires SpaceOk(areas, low, high)
    requires start < start + n && low <= start && start + n <= high
    ensures empty <==> RangeFree(areas, start, n)
  {
    var i := 0;
    while i < |areas|
      invariant 0 <= i <= |areas|
      invariant forall j :: 0 <= j < i ==> Misses(areas[j], start, n)
    {
      if areas[i].end > start {
        if start + n > areas[i].start {
          var pn := if start < areas[i].start then areas[i].start else start;
          assert Covers(areas[i], pn) && At(areas, pn).Some?;
          return false;
        }
      }
      i := i + 1;
    }
    return true;
  }

  predicate Misses(a: VmArea, start: nat, n: nat) { a.end <= start || start + n <= a.start }

  lemma RangeFreeMisses(areas: Areas, low: nat, high: nat, start: nat, n: nat, i: nat)
    requires SpaceOk(areas, low, high) && RangeFree(areas, start, n) && n > 0 && i < |areas|
    ensures Misses(areas[i], start, n)
  {
    var pn := if start < areas[i].start then areas[i].start else start;
    assert start <= pn < start + n ==> At(areas, pn).None?;
    assert Covers(areas[i], pn) ==> At(areas, pn).Some?;
  }

  // ---------------------------------------------------------------------------------------------
  // vmmap_find_range

  datatype Dir = HiLo | LoHi
  datatype Found = Start(vfn: nat) | NoRange | NullDereference

  /** `n` pages from `start` on are within bounds and unmapped. */
  ghost predicate Fits(areas: Areas, low: nat, high: nat, start: nat, n: nat) {
    low <= start && start + n <= high && RangeFree(areas, start, n)
  }

  ghost predicate Highest(areas: Areas, low: nat, high: nat, start: nat, n: nat) {
    Fits(areas, low, high, start, n) && forall s: nat :: Fits(areas, low, high, s, n) ==> s <= start
  }

  ghost predicate Lowest(areas: Areas, low: nat, high: nat, start: nat, n: nat) {
    Fits(areas, low, high, start, n) && forall s: nat :: Fits(areas, low, high, s, n) ==> start <= s
  }

  lemma GapFits(areas: Areas, low: nat, high: nat, start: nat, n: nat)
    requires low <= start && start + n <= high
    requires forall i :: 0 <= i < |areas| ==> Misses(areas[i], start, n)
    ensures Fits(areas, low, high, start, n)
  {
  }

  lemma FitMisses(areas: Areas, low: nat, high: nat, n: nat, i: nat)
    requires SpaceOk(areas, low, high) && n > 0 && i < |areas|
    ensures forall s: nat :: Fits(areas, low, high, s, n) ==> Misses(areas[i], s, n)
  {
    forall s | Fits(areas, low, high, s, n)
      ensures Misses(areas[i], s, n)
    {
      RangeFreeMisses(areas, low, high, s, n, i);
    }
  }

  /** The VMMAP_DIR_HILO half: the highest range that fits; it dereferences NULL on an empty map. */
  method FindHigh(areas: Areas, low: nat, high: nat, n: nat) returns (r: Found)
    requires SpaceOk(areas, low, high) && low <= high && n > 0
    ensures r.NullDereference? <==> areas == []
    ensures r.Start? ==> Highest(areas, low, high, r.vfn, n)
    ensures r.NoRange? ==> forall s: nat :: !Fits(areas, low, high, s, n)
  {
    var holder := |areas|;
    while holder > 0
      invariant 0 <= holder <= |areas|
      invariant forall s: nat :: Fits(areas, low, high, s, n) ==>
        s + n <= if holder < |areas| then areas[holder].start else high
    {
      var i := holder - 1;
      var ceiling := if holder == |areas| then high else areas[holder].start;
      FitMisses(areas, low, high, n, i);
      if n <= ceiling - areas[i].end {
        GapFits(areas, low, high, ceiling - n, n);
        return Start(ceiling - n);
      }
      holder := i;
    }
    if areas == [] {
      return NullDereference;
    }
    if n <= areas[0].start - low {
      GapFits(areas, low, high, areas[0].start - n, n);
      return Start(areas[0].start - n);
    }
    return NoRange;
  }

  /** The VMMAP_DIR_LOHI half: the lowest range that fits; NULL only when an empty map is too small. */
  method FindLow(areas: Areas, low: nat, high: nat, n: nat) returns (r: Found)
    requires SpaceOk(areas, low, high) && low <= high && n > 0
    ensures r.NullDereference? <==> areas == [] && n > high - low
    ensures r.Start? ==> Lowest(areas, low, high, r.vfn, n)
    ensures r.NoRange? ==> forall s: nat :: !Fits(areas, low, high, s, n)
  {
    var i := 0;
    while i < |areas|
      invariant 0 <= i <= |areas|
      invariant forall s: nat :: Fits(areas, low, high, s, n) ==> s >= if i > 0 then areas[i - 1].end else low
    {
      var floor := if i == 0 then low else areas[i - 1].end;
      FitMisses(areas, low, high, n, i);
      if n <= areas[i].start - floor {
        GapFits(areas, low, high, floor, n);
        return Start(floor);
      }
      i := i + 1;
    }
    if areas == [] && n <= high - low {
      GapFits(areas, low, high, low, n);
      return Start(low);
    }
    if areas == [] {
      return NullDereference;
    }
    var last := areas[|areas| - 1].end;
    if n <= high - last {
      GapFits(areas, low, high, last, n);
      return Start(last);
    }
    return NoRange;
  }

  /** vmmap_find_range. */
  method FindRange(areas: Areas, low: nat, high: nat, n: nat, dir: Dir) returns (r: Found)
    requires SpaceOk(areas, low, high) && low <= high && n > 0
    ensures r.NullDereference? <==> areas == [] && (dir == HiLo || n > high - low)
    ensures r.Start? && dir == HiLo ==> Highest(areas, low, high, r.vfn, n)
    ensures r.Start? && dir == LoHi ==> Lowest(areas, low, high, r.vfn, n)
    ensures r.NoRange? ==> forall s: nat :: !Fits(areas, low, high, s, n)
  {
    if dir == HiLo {
      r := FindHigh(areas, low, high, n);
    } else {
      r := FindLow(areas, low, high, n);
    }
  }

  // ---------------------------------------------------------------------------------------------
  // vmmap_insert

  /** vmmap_insert: the place in front of the first area that does not start earlier. */
  method Insert(areas: Areas, a: VmArea, low: nat, high: nat) returns (r: Areas)
    requires SpaceOk(areas, low, high)
    requires low <= a.start < a.end <= high && RangeFree(areas, a.start, a.end - a.start)
    ensures SpaceOk(r, low, high)
    ensures exists i :: 0 <= i <= |areas| && r == areas[..i] + [a] + areas[i..]
  {
    var i := 0;
    while i < |areas| && a.start > areas[i].start
      invariant 0 <= i <= |areas|
      invariant forall j :: 0 <= j < i ==> areas[j].start < a.start
    {
      i := i + 1;
    }
    forall j | 0 <= j < |areas|
      ensures if j < i then areas[j].end <= a.start else a.end <= areas[j].start
    {
      RangeFreeMisses(areas, low, high, a.start, a.end - a.start, j);
    }
    r := areas[..i] + [a] + areas[i..];
    InsertSorted(areas, a, i, low, high);
  }

  lemma InsertSorted(areas: Areas, a: VmArea, i: nat, low: nat, high: nat)
    requires SpaceOk(areas, low, high) && i <= |areas| && low <= a.start < a.end <= high
    requires forall j :: 0 <= j < |areas| ==> if j < i then areas[j].end <= a.start else a.end <= areas[j].start
    ensures SpaceOk(areas[..i] + [a] + areas[i..], low, high)
  {
    var r := areas[..i] + [a] + areas[i..];
    forall j | 0 <= j < |r|
      ensures r[j] == if j < i then areas[j] else if j == i then a else areas[j - 1]
    {
    }
  }
}
