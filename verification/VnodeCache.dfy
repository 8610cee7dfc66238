/** The code of vnode.c between its blocking calls, proved to take the protocol's steps. */
module VnodeCache {
  import opened Lists
  import opened Vnodes

  /** vget returns, or sleeps on a busy vnode, or is in read_vnode, or yields for want of memory. */
  datatype GetResult = Got(v: VnId) | Waits(v: VnId) | Reads(v: VnId) | Yields

  class Cache {
    var vnodes: map<VnId, Vnode>
    var inuse: seq<VnId>
    var next: VnId
    ghost var pcs: map<Tid, Pc>
    ghost var held: multiset<VnId>
    ghost var owner: map<VnId, Tid>

    ghost function Now(): (s: State)
      reads this
    {
      State(vnodes, inuse, pcs, held, owner, next)
    }

    constructor ()
      ensures Now() == Boot() && Inv(Now())
    {
      vnodes, inuse, next := map[], [], 0;
      pcs, held, owner := map[], multiset{}, map[];
      new;
      BootInv();
    }

    /** The search of vnode_inuse_list. */
    method Find(key: Key) returns (r: Option<VnId>)
      requires Inv(Now())
      ensures r.Some? <==> Present(Now(), key)
      ensures r.Some? ==> r.value in vnodes && vnodes[r.value].key == key
    {
      var i := 0;
      while i < |inuse|
        invariant 0 <= i <= |inuse|
        invariant forall j :: 0 <= j < i ==> vnodes[inuse[j]].key != key
      {
        if vnodes[inuse[i]].key == key {
          return Some(inuse[i]);
        }
        i := i + 1;
      }
      assert forall v :: v in vnodes ==> v in inuse;
      return None;
    }

    /** vref. */
    method Reference(ghost t: Tid, v: VnId)
      requires Inv(Now()) && Free(Now(), t) && v in vnodes && !vnodes[v].busy
      modifies `vnodes, `pcs, `held
      ensures Now() == Referenced(old(Now()), t, v) && Inv(Now())
      ensures vnodes == old(vnodes)[v := old(vnodes)[v].(refcount := old(vnodes)[v].refcount + 1)]
      ensures held == old(held) + multiset{v}
    {
      ReferenceKeeps(Now(), t, v);
      Referred(Now(), v);
      hide Inv;
      assert 0 < vnodes[v].refcount;
      vnodes := vnodes[v := vnodes[v].(refcount := vnodes[v].refcount + 1)];
      held, pcs := held + multiset{v}, pcs[t := Outside];
    }

    /** A new vnode, busy and on the list, up to read_vnode. */
    method Bring(ghost t: Tid, key: Key) returns (v: VnId)
      requires Inv(Now()) && Free(Now(), t) && !Present(Now(), key)
      modifies `vnodes, `inuse, `next, `pcs, `owner
      ensures Now() == Brought(old(Now()), t, key) && Inv(Now()) && v == old(next)
      ensures v !in old(vnodes) && vnodes == old(vnodes)[v := Vnode(key, true, 0, 0)] && inuse == [v] + old(inuse)
      ensures PcOf(Now(), t) == Reading(v)
    {
      BringKeeps(Now(), t, key);
      hide Inv, Present;
      v := next;
      next := next + 1;
      var vn := Vnode(key, false, 0, 0);
      vn := vn.(busy := true);
      vnodes := vnodes[v := vn];
      inuse := [v] + inuse;
      owner, pcs := owner[v := t], pcs[t := Reading(v)];
    }

    /** vget from `find` to its return or its next blocking call; `memory` says the allocation succeeds. */
    method Get(ghost t: Tid, key: Key, memory: bool) returns (r: GetResult)
      requires Inv(Now()) && Free(Now(), t) && (PcOf(Now(), t).Retry? ==> PcOf(Now(), t).key == key)
      modifies this
      ensures Gets(old(Now()), Now(), t, key) && Inv(Now())
      ensures r.Got? || r.Waits? ==>
        r.v in old(vnodes) && old(vnodes)[r.v].key == key && (r.Waits? <==> old(vnodes)[r.v].busy)
      ensures r.Got? ==> Now() == Referenced(old(Now()), t, r.v)
      ensures r.Reads? ==> Now() == Brought(old(Now()), t, key) && r.v == old(next)
      ensures r.Yields? ==> !memory && !Present(old(Now()), key)
      ensures r.Waits? ==> Now() == old(Now()).(pcs := pcs) && PcOf(Now(), t) == Asleep(r.v, key)
      ensures r.Yields? ==> Now() == old(Now()).(pcs := pcs) && PcOf(Now(), t) == Retry(key)
      ensures r.Got? ==> vnodes == old(vnodes)[r.v := old(vnodes)[r.v].(refcount := old(vnodes)[r.v].refcount + 1)]
      ensures r.Reads? ==> vnodes == old(vnodes)[r.v := Vnode(key, true, 0, 0)] && inuse == [r.v] + old(inuse)
    {
      hide Inv, Present, Referenced, Brought;
      var found := Find(key);
      if found.Some? {
        var v := found.value;
        if vnodes[v].busy {
          Wait(t, Asleep(v, key));
          return Waits(v);
        }
        Reference(t, v);
        return Got(v);
      }
      if !memory {
        Wait(t, Retry(key));
        return Yields;
      }
      var v := Bring(t, key);
      return Reads(v);
    }

    /** sched_sleep_on the queue of a busy vnode, or a yield. */
    ghost method Wait(t: Tid, pc: Pc)
      requires Inv(Now()) && Free(Now(), t)
      requires pc.Retry? || (pc.Asleep? && pc.v in vnodes && vnodes[pc.v].key == pc.key)
      modifies `pcs
      ensures Now() == WithPc(old(Now()), t, pc) && Inv(Now())
    {
      SleepKeeps(Now(), t, pc);
      pcs := pcs[t := pc];
    }

    /** vget from the return of read_vnode on. */
    method GetMore(ghost t: Tid, v: VnId)
      requires Inv(Now()) && PcOf(Now(), t) == Reading(v)
      modifies `vnodes, `pcs, `held, `owner
      ensures v in old(vnodes) && Now() == Ready(old(Now()), t, v) && Inv(Now())
      ensures vnodes == old(vnodes)[v := Vnode(old(vnodes)[v].key, false, 1, old(vnodes)[v].nrespages)]
      ensures held == old(held) + multiset{v} && forall u :: u != t ==> PcOf(Now(), u) == PcOf(old(Now()), u)
    {
      hide Inv;
      ReadyKeeps(Now(), t, v);
      vnodes := vnodes[v := vnodes[v].(busy := false)];
      vnodes := vnodes[v := vnodes[v].(refcount := 1)];
      held, pcs, owner := held + multiset{v}, pcs[t := Outside], owner - {v};
    }

    /**
     * The body of vput up to delete_vnode. In the purge loop each pframe_free takes the page off
     * first and then calls vput, which only decrements.
     */
    method Drop(v: VnId, linked: bool) returns (last: bool)
      requires v in vnodes && !vnodes[v].busy && 0 <= vnodes[v].nrespages < vnodes[v].refcount
      modifies `vnodes
      ensures last <==>
        (old(vnodes[v]).nrespages == old(vnodes[v]).refcount - 1 && !linked) || old(vnodes[v]).refcount == 1
      ensures vnodes == old(vnodes)[v :=
        if last then old(vnodes[v]).(busy := true, refcount := 0, nrespages := 0)
        else old(vnodes[v]).(refcount := old(vnodes[v]).refcount - 1)]
      decreases vnodes[v].nrespages
    {
      if vnodes[v].nrespages == vnodes[v].refcount - 1 && !linked {
        while vnodes[v].nrespages > 0
          invariant v in vnodes && vnodes == old(vnodes)[v := vnodes[v]]
          invariant 0 <= vnodes[v].nrespages <= old(vnodes[v]).nrespages
          invariant vnodes[v] == old(vnodes[v]).(nrespages := vnodes[v].nrespages, refcount := vnodes[v].nrespages + 1)
          decreases vnodes[v].nrespages
        {
          vnodes := vnodes[v := vnodes[v].(nrespages := vnodes[v].nrespages - 1)];
          var nested := Drop(v, linked);
          assert !nested;
        }
        assert vnodes[v].nrespages == 0 && vnodes[v].refcount == 1;
      }
      vnodes := vnodes[v := vnodes[v].(refcount := vnodes[v].refcount - 1)];
      if 0 < vnodes[v].refcount {
        return false;
      }
      assert vnodes[v].refcount == 0 && vnodes[v].nrespages == 0;
      vnodes := vnodes[v := vnodes[v].(busy := true)];
      return true;
    }

    method Dropping(ghost t: Tid, v: VnId, linked: bool) returns (last: bool)
      requires v in vnodes && !vnodes[v].busy && 0 <= vnodes[v].nrespages < vnodes[v].refcount
      modifies `vnodes, `pcs, `owner
      ensures Now() == Dropped(old(Now()), t, v, linked) && (last <==> PcOf(Now(), t) == Deleting(v))
    {
      last := Drop(v, linked);
      pcs := pcs[t := if last then Deleting(v) else Outside];
      owner := if last then owner[v := t] else owner;
    }

    /** vput, given back by a caller that holds a reference. */
    method Put(ghost t: Tid, v: VnId, linked: bool) returns (last: bool)
      requires Inv(Now()) && PcOf(Now(), t).Outside? && v in held
      modifies `vnodes, `pcs, `held, `owner
      ensures v in old(vnodes) && Now() == Vnodes.Put(old(Now()), t, v, linked) && Inv(Now())
      ensures last <==> PcOf(Now(), t) == Deleting(v)
      ensures var vn := old(vnodes)[v];
        && (last <==> vn.refcount == 1 || (vn.nrespages == vn.refcount - 1 && !linked))
        && vnodes == old(vnodes)[v :=
          if last then vn.(busy := true, refcount := 0, nrespages := 0) else vn.(refcount := vn.refcount - 1)]
      ensures held == old(held) - multiset{v}
    {
      hide Inv, Dropped;
      HeldVnode(Now(), v);
      PutExact(Now(), t, v, linked);
      PutKeeps(Now(), t, v, linked);
      held := held - multiset{v};
      last := Dropping(t, v, linked);
    }

    /** pframe_free of a resident page, outside vput. */
    method FreePage(ghost t: Tid, v: VnId, linked: bool) returns (last: bool)
      requires Inv(Now()) && PcOf(Now(), t).Outside? && v in vnodes && vnodes[v].nrespages > 0
      modifies `vnodes, `pcs, `owner
      ensures Now() == PageOut(old(Now()), t, v, linked) && Inv(Now())
      ensures last <==> PcOf(Now(), t) == Deleting(v)
      ensures var vn := old(vnodes)[v];
        && (last <==> vn.refcount == 1 || (vn.nrespages == vn.refcount && !linked))
        && vnodes == old(vnodes)[v :=
          if last then vn.(busy := true, refcount := 0, nrespages := 0)
          else vn.(refcount := vn.refcount - 1, nrespages := vn.nrespages - 1)]
      ensures held == old(held)
    {
      hide Inv, Dropped;
      PagedVnode(Now(), v);
      PageOutExact(Now(), t, v, linked);
      PageOutKeeps(Now(), t, v, linked);
      vnodes := vnodes[v := vnodes[v].(nrespages := vnodes[v].nrespages - 1)];
      last := Dropping(t, v, linked);
    }

    /** vput from the return of delete_vnode on. */
    method PutMore(ghost t: Tid, v: VnId)
      requires Inv(Now()) && PcOf(Now(), t) == Deleting(v)
      modifies `vnodes, `inuse, `pcs, `owner
      ensures Now() == Deleted(old(Now()), t, v) && Inv(Now())
      ensures forall u :: !SleepsOn(Now(), u, v)
      ensures vnodes == old(vnodes) - {v} && PcOf(Now(), t) == Outside
      ensures forall u :: u != t ==>
        PcOf(Now(), u) == if SleepsOn(old(Now()), u, v) then Retry(PcOf(old(Now()), u).key) else PcOf(old(Now()), u)
      ensures exists i :: 0 <= i < |old(inuse)| && old(inuse)[i] == v && inuse == old(inuse)[..i] + old(inuse)[i + 1..]
    {
      hide Inv, Unlink;
      ghost var i := PlaceOf(Now(), t, v);
      DeleteKeeps(Now(), t, v);
      pcs := map u | u in pcs ::
        if u == t then Outside else if pcs[u].Asleep? && pcs[u].v == v then Retry(pcs[u].key) else pcs[u];
      inuse := Unlink(inuse, v);
      vnodes, owner := vnodes - {v}, owner - {v};
    }
  }

  /** Where the vnode that goes is on the list. */
  lemma PlaceOf(s: State, t: Tid, v: VnId) returns (i: nat)
    requires Inv(s) && PcOf(s, t) == Deleting(v)
    ensures i < |s.inuse| && s.inuse[i] == v && Unlink(s.inuse, v) == s.inuse[..i] + s.inuse[i + 1..]
  {
    assert PcOk(s, t) && v in s.inuse;
    i :| i < |s.inuse| && s.inuse[i] == v;
    UnlinkAt(s.inuse, i);
  }

  lemma Referred(s: State, v: VnId)
    requires Inv(s) && v in s.vnodes && !s.vnodes[v].busy
    ensures s.vnodes[v].refcount > 0
  {
    assert VnodeOk(s, v);
  }

  lemma HeldVnode(s: State, v: VnId)
    requires Inv(s) && v in s.held
    ensures v in s.vnodes && !s.vnodes[v].busy && 0 <= s.vnodes[v].nrespages < s.vnodes[v].refcount
  {
    assert VnodeOk(s, v);
  }

  lemma PagedVnode(s: State, v: VnId)
    requires Inv(s) && v in s.vnodes && s.vnodes[v].nrespages > 0
    ensures !s.vnodes[v].busy && s.vnodes[v].nrespages <= s.vnodes[v].refcount
  {
    assert VnodeOk(s, v);
  }
}
