/**
 * The vnode cache: vget and vput as a protocol between threads that may block in read_vnode, in
 * delete_vnode and on the wait queue of a busy vnode.
 */
module Vnodes {
  import opened Lists

  type VnId = nat
  type Tid = nat

  /** The file system and the number of the vnode in it. */
  datatype Key = Key(fs: nat, vno: nat)

  datatype Vnode = Vnode(key: Key, busy: bool, refcount: int, nrespages: int)

  /** Where a thread is: asleep on a vnode's queue, on its way back to `find`, or in a blocking call. */
  datatype Pc = Outside | Asleep(v: VnId, key: Key) | Retry(key: Key) | Reading(v: VnId) | Deleting(v: VnId)

  /**
   * `inuse` is vnode_inuse_list. `held` counts the references of callers, and `owner` says which
   * thread has set VN_BUSY.
   */
  datatype State = State(
    vnodes: map<VnId, Vnode>, inuse: seq<VnId>, pcs: map<Tid, Pc>,
    held: multiset<VnId>, owner: map<VnId, Tid>, next: VnId)

  function PcOf(s: State, t: Tid): (r: Pc) { if t in s.pcs then s.pcs[t] else Outside }

  predicate SleepsOn(s: State, t: Tid, v: VnId) { PcOf(s, t).Asleep? && PcOf(s, t).v == v }

  predicate Owns(pc: Pc, v: VnId) { pc == Reading(v) || pc == Deleting(v) }

  // ---------------------------------------------------------------------------------------------
  // The invariant

  ghost predicate ListOk(s: State) {
    && NoRepeats(s.inuse)
    && (forall v :: v in s.inuse <==> v in s.vnodes)
    && (forall v :: v in s.vnodes ==> v < s.next)
    && (forall v :: v in s.held ==> v in s.vnodes)
  }

  /** At most one vnode in use for each file of each file system. */
  ghost predicate Unique(s: State) {
    forall v, w :: v in s.vnodes && w in s.vnodes && s.vnodes[v].key == s.vnodes[w].key ==> v == w
  }

  /** A busy vnode has an owner and no references; any other is referenced, and counts them all. */
  ghost predicate VnodeOk(s: State, v: VnId)
    requires v in s.vnodes
  {
    var vn := s.vnodes[v];
    && vn.nrespages >= 0
    && if vn.busy then
         vn.refcount == 0 && vn.nrespages == 0 && s.held[v] == 0 && v in s.owner && Owns(PcOf(s, s.owner[v]), v)
       else vn.refcount == vn.nrespages + s.held[v] && vn.refcount >= 1
  }

  /** A sleeper is on a vnode that exists, and the thread in a blocking call is the only one. */
  ghost predicate PcOk(s: State, t: Tid) {
    match PcOf(s, t)
    case Asleep(v, key) => v in s.vnodes && s.vnodes[v].key == key
    case Reading(v) => v in s.vnodes && s.vnodes[v].busy && v in s.owner && s.owner[v] == t
    case Deleting(v) => v in s.vnodes && s.vnodes[v].busy && v in s.owner && s.owner[v] == t
    case _ => true
  }

  ghost predicate Inv(s: State) {
    && ListOk(s) && Unique(s)
    && (forall v {:trigger VnodeOk(s, v)} :: v in s.vnodes ==> VnodeOk(s, v))
    && (forall t {:trigger PcOk(s, t)} :: PcOk(s, t))
  }

  function Boot(): (s: State) { State(map[], [], map[], multiset{}, map[], 0) }

  lemma BootInv()
    ensures Inv(Boot())
  {
  }

  // ---------------------------------------------------------------------------------------------
  // vget

  ghost predicate Present(s: State, key: Key) {
    exists v :: v in s.vnodes && s.vnodes[v].key == key
  }

  /** A thread that may call vget or vput, or is back at `find`. */
  predicate Free(s: State, t: Tid) { PcOf(s, t).Outside? || PcOf(s, t).Retry? }

  function WithPc(s: State, t: Tid, pc: Pc): (r: State) { s.(pcs := s.pcs[t := pc]) }

  function Referenced(s: State, t: Tid, v: VnId): (r: State)
    requires v in s.vnodes
  {
    WithPc(s, t, Outside).(
      vnodes := s.vnodes[v := s.vnodes[v].(refcount := s.vnodes[v].refcount + 1)], held := s.held + multiset{v})
  }

  function Brought(s: State, t: Tid, key: Key): (r: State) {
    WithPc(s, t, Reading(s.next)).(
      vnodes := s.vnodes[s.next := Vnode(key, true, 0, 0)], inuse := [s.next] + s.inuse,
      owner := s.owner[s.next := t], next := s.next + 1)
  }

  /** After read_vnode: the flag goes, nobody is woken, and the caller gets the first reference. */
  function Ready(s: State, t: Tid, v: VnId): (r: State)
    requires v in s.vnodes
  {
    WithPc(s, t, Outside).(
      vnodes := s.vnodes[v := s.vnodes[v].(busy := false, refcount := 1)],
      held := s.held + multiset{v}, owner := s.owner - {v})
  }

  /** A step that changes flags and counts of vnodes, but not which vnodes there are. */
  lemma SameVnodes(s: State, s': State)
    requires ListOk(s) && Unique(s) && s'.inuse == s.inuse && s'.next == s.next && s'.vnodes.Keys == s.vnodes.Keys
    requires forall v :: v in s.vnodes ==> s'.vnodes[v].key == s.vnodes[v].key
    requires forall v :: v in s'.held ==> v in s.vnodes
    ensures ListOk(s') && Unique(s')
  {
  }

  /** The counts of `v` changed, or it became busy with owner `t`; no other vnode is touched. */
  ghost predicate Touches(s: State, s': State, t: Tid, v: VnId) {
    && v in s.vnodes && v in s'.vnodes && !s.vnodes[v].busy
    && s'.vnodes == s.vnodes[v := s'.vnodes[v]] && s'.vnodes[v].key == s.vnodes[v].key
    && s'.inuse == s.inuse && s'.next == s.next && s'.pcs == s.pcs[t := PcOf(s', t)]
    && (forall w :: w != v ==> s'.held[w] == s.held[w])
    && s'.owner == (if s'.vnodes[v].busy then s.owner[v := t] else s.owner)
  }

  lemma TouchedPc(s: State, s': State, t: Tid, v: VnId, u: Tid)
    requires Inv(s) && Free(s, t) && Touches(s, s', t, v) && u != t
    ensures PcOk(s', u)
  {
    assert PcOk(s, u);
    hide ListOk, Unique, VnodeOk;
  }

  lemma TouchedVnode(s: State, s': State, t: Tid, v: VnId, w: VnId)
    requires Inv(s) && Free(s, t) && Touches(s, s', t, v) && w in s'.vnodes && w != v
    ensures VnodeOk(s', w)
  {
    assert VnodeOk(s, w);
    hide ListOk, Unique, PcOk;
  }

  lemma TouchKeeps(s: State, s': State, t: Tid, v: VnId)
    requires Inv(s) && Free(s, t) && Touches(s, s', t, v) && VnodeOk(s', v) && PcOk(s', t)
    ensures Inv(s')
  {
    assert forall w :: w in s'.held ==> s'.held[w] > 0;
    SameVnodes(s, s');
    hide ListOk, Unique, VnodeOk, PcOk;
    forall w | w in s'.vnodes && w != v
      ensures VnodeOk(s', w)
    {
      TouchedVnode(s, s', t, v, w);
    }
    forall u | u != t
      ensures PcOk(s', u)
    {
      TouchedPc(s, s', t, v, u);
    }
  }

  lemma ReferenceKeeps(s: State, t: Tid, v: VnId)
    requires Inv(s) && Free(s, t) && v in s.vnodes && !s.vnodes[v].busy
    ensures Inv(Referenced(s, t, v))
  {
    assert VnodeOk(s, v);
    hide ListOk, Unique;
    TouchKeeps(s, Referenced(s, t, v), t, v);
  }

  lemma SleepKeeps(s: State, t: Tid, pc: Pc)
    requires Inv(s) && Free(s, t)
    requires pc.Retry? || (pc.Asleep? && pc.v in s.vnodes && s.vnodes[pc.v].key == pc.key)
    ensures Inv(WithPc(s, t, pc))
  {
    var s' := WithPc(s, t, pc);
    forall w | w in s'.vnodes
      ensures VnodeOk(s', w)
    {
      assert VnodeOk(s, w);
    }
    forall u
      ensures PcOk(s', u)
    {
      assert PcOk(s, u);
    }
    hide NoRepeats;
  }

  lemma BroughtList(s: State, t: Tid, key: Key)
    requires Inv(s) && !Present(s, key)
    ensures ListOk(Brought(s, t, key)) && Unique(Brought(s, t, key))
  {
    NoRepeatsHead(s.inuse, s.next);
    hide NoRepeats, VnodeOk, PcOk;
  }

  lemma BroughtVnode(s: State, t: Tid, key: Key, w: VnId)
    requires Inv(s) && Free(s, t) && w in Brought(s, t, key).vnodes
    ensures VnodeOk(Brought(s, t, key), w)
  {
    assert s.next !in s.vnodes && s.held[s.next] == 0;
    if w != s.next { assert VnodeOk(s, w); }
    hide Inv;
  }

  lemma BroughtPc(s: State, t: Tid, key: Key, u: Tid)
    requires Inv(s) && Free(s, t)
    ensures PcOk(Brought(s, t, key), u)
  {
    assert PcOk(s, u) && s.next !in s.vnodes;
    hide Inv;
  }

  lemma BringKeeps(s: State, t: Tid, key: Key)
    requires Inv(s) && Free(s, t) && !Present(s, key)
    ensures Inv(Brought(s, t, key))
  {
    var s' := Brought(s, t, key);
    BroughtList(s, t, key);
    hide Unique, Present, ListOk, VnodeOk, PcOk;
    forall w | w in s'.vnodes
      ensures VnodeOk(s', w)
    {
      BroughtVnode(s, t, key, w);
    }
    forall u
      ensures PcOk(s', u)
    {
      BroughtPc(s, t, key, u);
    }
  }

  lemma ReadyVnode(s: State, t: Tid, v: VnId, w: VnId)
    requires Inv(s) && PcOf(s, t) == Reading(v) && v in s.vnodes && w in s.vnodes
    ensures VnodeOk(Ready(s, t, v), w)
  {
    assert PcOk(s, t) && VnodeOk(s, v) && VnodeOk(s, w);
    hide Inv;
    assert w != v ==> Ready(s, t, v).held[w] == s.held[w];
  }

  lemma ReadyPc(s: State, t: Tid, v: VnId, u: Tid)
    requires Inv(s) && PcOf(s, t) == Reading(v) && v in s.vnodes
    ensures PcOk(Ready(s, t, v), u)
  {
    assert PcOk(s, t) && PcOk(s, u);
    hide Inv;
  }

  lemma ReadyList(s: State, t: Tid, v: VnId)
    requires Inv(s) && v in s.vnodes
    ensures ListOk(Ready(s, t, v)) && Unique(Ready(s, t, v))
  {
    assert forall w :: w in s.held ==> w in s.vnodes;
    SameVnodes(s, Ready(s, t, v));
    hide ListOk, Unique, VnodeOk, PcOk;
  }

  lemma ReadyKeeps(s: State, t: Tid, v: VnId)
    requires Inv(s) && PcOf(s, t) == Reading(v)
    ensures v in s.vnodes && Inv(Ready(s, t, v))
  {
    assert PcOk(s, t);
    hide ListOk, Unique, VnodeOk, PcOk;
    ReadyList(s, t, v);
    forall w | w in Ready(s, t, v).vnodes
      ensures VnodeOk(Ready(s, t, v), w)
    {
      ReadyVnode(s, t, v, w);
    }
    forall u
      ensures PcOk(Ready(s, t, v), u)
    {
      ReadyPc(s, t, v, u);
    }
  }

  // ---------------------------------------------------------------------------------------------
  // vput

  /**
   * vput, up to delete_vnode. With only pages left to refer to it and no link in the file system
   * (`linked` is the answer of query_vnode), the vnode loses its pages and goes.
   */
  function Dropped(s: State, t: Tid, v: VnId, linked: bool): (r: State)
    requires v in s.vnodes
  {
    var vn := s.vnodes[v];
    if (vn.nrespages == vn.refcount - 1 && !linked) || vn.refcount == 1 then
      WithPc(s, t, Deleting(v)).(vnodes := s.vnodes[v := vn.(busy := true, refcount := 0, nrespages := 0)],
                                 owner := s.owner[v := t])
    else WithPc(s, t, Outside).(vnodes := s.vnodes[v := vn.(refcount := vn.refcount - 1)])
  }

  function Put(s: State, t: Tid, v: VnId, linked: bool): (r: State)
    requires v in s.vnodes
  {
    Dropped(s.(held := s.held - multiset{v}), t, v, linked)
  }

  /** A page of the vnode becomes resident, and refers to it. */
  function PageIn(s: State, v: VnId): (r: State)
    requires v in s.vnodes
  {
    var vn := s.vnodes[v];
    s.(vnodes := s.vnodes[v := vn.(refcount := vn.refcount + 1, nrespages := vn.nrespages + 1)])
  }

  /** pframe_free of a page of the vnode. */
  function PageOut(s: State, t: Tid, v: VnId, linked: bool): (r: State)
    requires v in s.vnodes
  {
    Dropped(s.(vnodes := s.vnodes[v := s.vnodes[v].(nrespages := s.vnodes[v].nrespages - 1)]), t, v, linked)
  }

  /** After delete_vnode: the sleepers are sent back to `find`, and the vnode is gone. */
  function Deleted(s: State, t: Tid, v: VnId): (r: State) {
    s.(vnodes := s.vnodes - {v}, inuse := Unlink(s.inuse, v), owner := s.owner - {v},
       pcs := map u | u in s.pcs ::
         if u == t then Outside else if s.pcs[u].Asleep? && s.pcs[u].v == v then Retry(s.pcs[u].key) else s.pcs[u])
  }

  /** vput gives up the last reference, or all that is left are pages of a file without links. */
  predicate IsLast(vn: Vnode, linked: bool) {
    vn.refcount == 1 || (vn.nrespages == vn.refcount - 1 && !linked)
  }

  /** What giving up one reference to `v` does to the vnode, and to nothing else. */
  ghost predicate GivesUp(s: State, s': State, t: Tid, v: VnId, vn: Vnode, linked: bool) {
    && v in s.vnodes && v in s'.vnodes && s'.vnodes == s.vnodes[v := s'.vnodes[v]]
    && s'.inuse == s.inuse && s'.next == s.next && (forall u :: u != t ==> PcOf(s', u) == PcOf(s, u))
    && if IsLast(vn, linked) then
         && s'.vnodes[v] == Vnode(s.vnodes[v].key, true, 0, 0)
         && PcOf(s', t) == Deleting(v) && s'.owner == s.owner[v := t]
       else
         && s'.vnodes[v] == Vnode(s.vnodes[v].key, s.vnodes[v].busy, vn.refcount - 1, vn.nrespages)
         && PcOf(s', t) == Outside && s'.owner == s.owner
  }

  lemma PutExact(s: State, t: Tid, v: VnId, linked: bool)
    requires Inv(s) && v in s.vnodes && v in s.held
    ensures var s' := Put(s, t, v, linked);
      && GivesUp(s, s', t, v, s.vnodes[v], linked)
      && s'.held[v] == s.held[v] - 1 && forall w :: w != v ==> s'.held[w] == s.held[w]
  {
    hide Inv;
  }

  /** A page that goes gives up its own reference. */
  lemma PageOutExact(s: State, t: Tid, v: VnId, linked: bool)
    requires Inv(s) && v in s.vnodes && s.vnodes[v].nrespages > 0
    ensures var s', vn := PageOut(s, t, v, linked), s.vnodes[v];
      GivesUp(s, s', t, v, vn.(nrespages := vn.nrespages - 1), linked) && s'.held == s.held
  {
    hide Inv;
  }

  lemma PageInExact(s: State, v: VnId)
    requires v in s.vnodes
    ensures var s', vn := PageIn(s, v), s.vnodes[v];
      && s' == s.(vnodes := s.vnodes[v := s'.vnodes[v]])
      && s'.vnodes[v] == Vnode(vn.key, vn.busy, vn.refcount + 1, vn.nrespages + 1)
  {
  }

  lemma PutTouches(s: State, t: Tid, v: VnId, linked: bool)
    requires v in s.vnodes && !s.vnodes[v].busy && VnodeOk(s, v) && v in s.held
    ensures var s' := Put(s, t, v, linked); Touches(s, s', t, v) && VnodeOk(s', v) && PcOk(s', t)
  {
    var s' := Put(s, t, v, linked);
    assert s'.held[v] == s.held[v] - 1 && forall w :: w != v ==> s'.held[w] == s.held[w];
  }

  lemma PutKeeps(s: State, t: Tid, v: VnId, linked: bool)
    requires Inv(s) && Free(s, t) && v in s.vnodes && !s.vnodes[v].busy && v in s.held
    ensures Inv(Put(s, t, v, linked))
  {
    assert VnodeOk(s, v);
    hide Inv, Touches, VnodeOk, PcOk, Put;
    PutTouches(s, t, v, linked);
    TouchKeeps(s, Put(s, t, v, linked), t, v);
  }

  lemma PageOutKeeps(s: State, t: Tid, v: VnId, linked: bool)
    requires Inv(s) && Free(s, t) && v in s.vnodes && !s.vnodes[v].busy && s.vnodes[v].nrespages > 0
    ensures Inv(PageOut(s, t, v, linked))
  {
    assert VnodeOk(s, v);
    hide Inv, Touches, VnodeOk, PcOk, PageOut;
    PageOutTouches(s, t, v, linked);
    TouchKeeps(s, PageOut(s, t, v, linked), t, v);
  }

  lemma PageOutTouches(s: State, t: Tid, v: VnId, linked: bool)
    requires v in s.vnodes && !s.vnodes[v].busy && VnodeOk(s, v) && s.vnodes[v].nrespages > 0
    ensures var s' := PageOut(s, t, v, linked); Touches(s, s', t, v) && VnodeOk(s', v) && PcOk(s', t)
  {
  }

  lemma PageInKeeps(s: State, t: Tid, v: VnId)
    requires Inv(s) && v in s.vnodes && !s.vnodes[v].busy
    ensures Inv(PageIn(s, v))
  {
    var s' := PageIn(s, v);
    SameVnodes(s, s');
    hide ListOk, Unique;
    forall w | w in s'.vnodes
      ensures VnodeOk(s', w)
    {
      assert VnodeOk(s, w);
    }
    forall u
      ensures PcOk(s', u)
    {
      assert PcOk(s, u);
    }
  }

  lemma DeletedList(s: State, t: Tid, v: VnId)
    requires ListOk(s) && Unique(s) && s.held[v] == 0
    ensures ListOk(Deleted(s, t, v)) && Unique(Deleted(s, t, v))
  {
    NoRepeatsUnlink(s.inuse, v);
    hide NoRepeats, Unlink;
  }

  lemma DeletedVnode(s: State, t: Tid, v: VnId, w: VnId)
    requires Inv(s) && PcOf(s, t) == Deleting(v) && w in s.vnodes && w != v
    ensures VnodeOk(Deleted(s, t, v), w)
  {
    assert VnodeOk(s, w);
    hide ListOk, Unique, Unlink;
  }

  lemma DeletedPc(s: State, t: Tid, v: VnId, u: Tid)
    requires Inv(s) && PcOf(s, t) == Deleting(v)
    ensures PcOk(Deleted(s, t, v), u) && !SleepsOn(Deleted(s, t, v), u, v)
  {
    assert PcOk(s, u) && PcOk(s, t);
    hide ListOk, Unique, Unlink, VnodeOk;
  }

  lemma DeleteKeeps(s: State, t: Tid, v: VnId)
    requires Inv(s) && PcOf(s, t) == Deleting(v)
    ensures Inv(Deleted(s, t, v)) && forall u :: !SleepsOn(Deleted(s, t, v), u, v)
  {
    var s' := Deleted(s, t, v);
    assert PcOk(s, t) && VnodeOk(s, v);
    DeletedList(s, t, v);
    hide ListOk, Unique, Unlink, VnodeOk, PcOk;
    forall w | w in s'.vnodes
      ensures VnodeOk(s', w)
    {
      DeletedVnode(s, t, v, w);
    }
    forall u
      ensures PcOk(s', u) && !SleepsOn(s', u, v)
    {
      DeletedPc(s, t, v, u);
    }
  }

  // ---------------------------------------------------------------------------------------------
  // Runs

  ghost predicate Gets(s: State, s': State, t: Tid, key: Key) {
    && Free(s, t) && (PcOf(s, t).Retry? ==> PcOf(s, t).key == key)
    && (|| (!Present(s, key) && (s' == Brought(s, t, key) || s' == WithPc(s, t, Retry(key))))
        || (exists v :: v in s.vnodes && s.vnodes[v].key == key && s' == Found(s, t, v, key)))
  }

  /** vget has found `v`: it sleeps on it while it is busy, and otherwise refers to it. */
  function Found(s: State, t: Tid, v: VnId, key: Key): (r: State)
    requires v in s.vnodes
  {
    if s.vnodes[v].busy then WithPc(s, t, Asleep(v, key)) else Referenced(s, t, v)
  }

  ghost predicate Finishes(s: State, s': State, t: Tid, v: VnId) {
    PcOf(s, t) == Reading(v) && v in s.vnodes && s' == Ready(s, t, v)
  }

  ghost predicate Puts(s: State, s': State, t: Tid, v: VnId) {
    && PcOf(s, t).Outside? && v in s.vnodes && !s.vnodes[v].busy && v in s.held
    && exists linked :: s' == Put(s, t, v, linked)
  }

  ghost predicate Pages(s: State, s': State, t: Tid, v: VnId) {
    && PcOf(s, t).Outside? && v in s.vnodes && !s.vnodes[v].busy
    && (s' == PageIn(s, v) || (s.vnodes[v].nrespages > 0 && exists linked :: s' == PageOut(s, t, v, linked)))
  }

  ghost predicate Deletes(s: State, s': State, t: Tid, v: VnId) {
    PcOf(s, t) == Deleting(v) && s' == Deleted(s, t, v)
  }

  ghost predicate StepOf(s: State, s': State, t: Tid, v: VnId, key: Key) {
    Gets(s, s', t, key) || Finishes(s, s', t, v) || Puts(s, s', t, v) || Pages(s, s', t, v) || Deletes(s, s', t, v)
  }

  ghost predicate Steps(s: State, s': State) {
    exists t, v, key :: StepOf(s, s', t, v, key)
  }

  ghost predicate Run(states: seq<State>) {
    states != [] && forall i :: 0 <= i < |states| - 1 ==> Steps(states[i], states[i + 1])
  }

  lemma GetsKeep(s: State, s': State, t: Tid, key: Key)
    requires Inv(s) && Gets(s, s', t, key)
    ensures Inv(s')
  {
    hide Inv, Brought, WithPc, Referenced;
    if !Present(s, key) {
      if s' == Brought(s, t, key) { BringKeeps(s, t, key); } else { SleepKeeps(s, t, Retry(key)); }
    } else {
      var v :| v in s.vnodes && s.vnodes[v].key == key && s' == Found(s, t, v, key);
      if s.vnodes[v].busy { SleepKeeps(s, t, Asleep(v, key)); } else { ReferenceKeeps(s, t, v); }
    }
  }

  lemma StepKeeps(s: State, s': State)
    requires Inv(s) && Steps(s, s')
    ensures Inv(s')
  {
    hide Inv, Gets, Put, PageIn, PageOut, Deleted, Ready;
    var t, v, key :| StepOf(s, s', t, v, key);
    if Gets(s, s', t, key) {
      GetsKeep(s, s', t, key);
    } else if Finishes(s, s', t, v) {
      ReadyKeeps(s, t, v);
    } else if Puts(s, s', t, v) {
      var linked :| s' == Put(s, t, v, linked);
      PutKeeps(s, t, v, linked);
    } else if Pages(s, s', t, v) {
      if s' == PageIn(s, v) {
        PageInKeeps(s, t, v);
      } else {
        var linked :| s' == PageOut(s, t, v, linked);
        PageOutKeeps(s, t, v, linked);
      }
    } else {
      DeleteKeeps(s, t, v);
    }
  }

  lemma {:induction false} RunKeeps(states: seq<State>)
    requires Run(states) && Inv(states[0])
    ensures forall s :: s in states ==> Inv(s)
  {
    hide Inv, Steps;
    if |states| > 1 {
      var before := states[..|states| - 1];
      assert states == before + [states[|states| - 1]];
      RunKeeps(before);
      StepKeeps(before[|before| - 1], states[|states| - 1]);
    }
  }

  /**
   * In every state of every interleaving from boot on: at most one vnode for each file, and every
   * vnode is busy in one thread's read or delete, or counts the references to it exactly.
   */
  lemma AlwaysCounted(states: seq<State>, n: nat, v: VnId, w: VnId)
    requires Run(states) && states[0] == Boot() && n < |states| && v in states[n].vnodes && w in states[n].vnodes
    ensures states[n].vnodes[v].key == states[n].vnodes[w].key ==> v == w
    ensures var s, vn := states[n], states[n].vnodes[v];
      if vn.busy then v in s.owner && Owns(PcOf(s, s.owner[v]), v) && vn.refcount == 0
      else vn.refcount == vn.nrespages + s.held[v] >= 1
  {
    BootInv();
    RunKeeps(states);
    assert states[n] in states && VnodeOk(states[n], v);
    hide Run, PcOk;
  }

  // ---------------------------------------------------------------------------------------------
  // Sleepers that nobody wakes

  /** `t` sleeps on the queue of a vnode that is not busy any more. */
  ghost predicate Stuck(s: State, t: Tid) {
    PcOf(s, t).Asleep? && PcOf(s, t).v in s.vnodes && !s.vnodes[PcOf(s, t).v].busy
  }

  /** The step ends a read_vnode on which `t` waits. */
  ghost predicate Strands(s: State, s': State, t: Tid) {
    exists u, v :: Finishes(s, s', u, v) && SleepsOn(s, t, v)
  }

  /**
   * vget wakes nobody when it has brought a vnode in. So a step leaves a thread asleep on a vnode
   * that is ready exactly when it ends a read_vnode on which that thread was waiting.
   */
  lemma StuckExactly(s: State, s': State, t: Tid)
    requires Inv(s) && Steps(s, s') && !Stuck(s, t)
    ensures Stuck(s', t) <==> Strands(s, s', t)
  {
    hide Inv, Ready;
    if Stuck(s', t) {
      var u, v, key :| StepOf(s, s', u, v, key);
      StuckBy(s, s', u, v, key, t);
    }
    if u, v :| Finishes(s, s', u, v) && SleepsOn(s, t, v) {
      StrandedByRead(s, u, v, t);
    }
  }

  lemma StrandedByRead(s: State, u: Tid, v: VnId, t: Tid)
    requires v in s.vnodes && PcOf(s, u) == Reading(v) && SleepsOn(s, t, v)
    ensures Stuck(Ready(s, u, v), t)
  {
    assert PcOf(Ready(s, u, v), t) == PcOf(s, t);
  }

  lemma StuckBy(s: State, s': State, u: Tid, v: VnId, key: Key, t: Tid)
    requires Inv(s) && StepOf(s, s', u, v, key) && Stuck(s', t) && !Stuck(s, t)
    ensures Finishes(s, s', u, v) && SleepsOn(s, t, v)
  {
    hide Inv, Stuck, Gets, Puts, Pages, Deletes;
    if Gets(s, s', u, key) { GetsNotStuck(s, s', u, key, t); }
    if Puts(s, s', u, v) || Pages(s, s', u, v) { PutsNotStuck(s, s', u, v, t); }
    if Deletes(s, s', u, v) { DeletesNotStuck(s, s', u, v, t); }
    if Finishes(s, s', u, v) { FinishStuck(s, s', u, v, t); }
  }

  lemma GetsNotStuck(s: State, s': State, u: Tid, key: Key, t: Tid)
    requires Inv(s) && Gets(s, s', u, key) && !Stuck(s, t)
    ensures !Stuck(s', t)
  {
    assert PcOk(s, t) && s.next !in s.vnodes;
    hide Inv, Present, PcOk, Stuck, Brought, WithPc, Referenced;
    if v :| v in s.vnodes && s.vnodes[v].key == key && s' == Found(s, u, v, key) {
      FoundNotStuck(s, s', u, v, key, t);
    } else {
      NewNotStuck(s, s', u, key, t);
    }
  }

  lemma NewNotStuck(s: State, s': State, u: Tid, key: Key, t: Tid)
    requires PcOk(s, t) && s.next !in s.vnodes && !Stuck(s, t)
    requires s' == Brought(s, u, key) || s' == WithPc(s, u, Retry(key))
    ensures !Stuck(s', t)
  {
  }

  lemma FoundNotStuck(s: State, s': State, u: Tid, v: VnId, key: Key, t: Tid)
    requires v in s.vnodes && PcOk(s, t) && !Stuck(s, t)
    requires s' == Found(s, u, v, key)
    ensures !Stuck(s', t)
  {
  }

  lemma PutsNotStuck(s: State, s': State, u: Tid, v: VnId, t: Tid)
    requires (Puts(s, s', u, v) || Pages(s, s', u, v)) && !Stuck(s, t)
    ensures !Stuck(s', t)
  {
  }

  lemma DeletesNotStuck(s: State, s': State, u: Tid, v: VnId, t: Tid)
    requires Deletes(s, s', u, v) && !Stuck(s, t)
    ensures !Stuck(s', t)
  {
  }

  lemma FinishStuck(s: State, s': State, u: Tid, v: VnId, t: Tid)
    requires Finishes(s, s', u, v) && !Stuck(s, t) && Stuck(s', t)
    ensures SleepsOn(s, t, v)
  {
  }

  lemma BootNotStuck(t: Tid)
    ensures Inv(Boot()) && !Stuck(Boot(), t)
  {
  }

  lemma StuckStep(states: seq<State>, i: nat, t: Tid)
    requires Run(states) && states[0] == Boot() && i + 1 < |states| && !Stuck(states[i], t)
    ensures Stuck(states[i + 1], t) <==> Strands(states[i], states[i + 1], t)
  {
    hide Inv, Steps, Stuck, Strands;
    BootInv();
    RunKeeps(states);
    assert states[i] in states;
    StuckExactly(states[i], states[i + 1], t);
  }

  lemma {:induction false} NotStuckUpTo(states: seq<State>, n: nat, t: Tid)
    requires Run(states) && states[0] == Boot() && n < |states|
    requires forall i :: 0 <= i < n ==> !Strands(states[i], states[i + 1], t)
    ensures !Stuck(states[n], t)
  {
    hide Run, Stuck, Strands;
    BootNotStuck(t);
    if n > 0 {
      NotStuckUpTo(states, n - 1, t);
      StuckStep(states, n - 1, t);
    }
  }

  /** In a run from boot `t` is never stuck exactly when no step ends a read on which `t` waits. */
  lemma NeverStuck(states: seq<State>, t: Tid)
    requires Run(states) && states[0] == Boot()
    ensures (forall n :: 0 <= n < |states| ==> !Stuck(states[n], t))
      <==> (forall i :: 0 <= i < |states| - 1 ==> !Strands(states[i], states[i + 1], t))
  {
    hide Run, Stuck, Strands;
    if forall i :: 0 <= i < |states| - 1 ==> !Strands(states[i], states[i + 1], t) {
      forall n | 0 <= n < |states| ensures !Stuck(states[n], t) { NotStuckUpTo(states, n, t); }
    } else {
      var i :| 0 <= i < |states| - 1 && Strands(states[i], states[i + 1], t);
      if !Stuck(states[i], t) { StuckStep(states, i, t); }
    }
  }

  /** One thread reads the vnode in, another waits for it. */
  function Waiting(): (s: State) {
    State(map[0 := Vnode(Key(0, 0), true, 0, 0)], [0], map[0 := Reading(0), 1 := Asleep(0, Key(0, 0))], multiset{},
          map[0 := 0], 1)
  }

  lemma WaitingRun()
    ensures Run([Boot(), Brought(Boot(), 0, Key(0, 0)), Waiting(), Ready(Waiting(), 0, 0)])
  {
    var key, s, w := Key(0, 0), Brought(Boot(), 0, Key(0, 0)), Waiting();
    assert !Present(Boot(), key) && Gets(Boot(), s, 0, key);
    assert StepOf(Boot(), s, 0, 0, key);
    assert 0 in s.vnodes && s.vnodes[0].key == key && s.vnodes[0].busy && WithPc(s, 1, Asleep(0, key)) == w;
    assert Gets(s, w, 1, key);
    assert StepOf(s, w, 1, 0, key);
    assert StepOf(w, Ready(w, 0, 0), 0, 0, key);
  }

  /** A run from boot after which a thread sleeps on a vnode that is ready. */
  lemma StuckHappens()
    ensures Run([Boot(), Brought(Boot(), 0, Key(0, 0)), Waiting(), Ready(Waiting(), 0, 0)])
    ensures !Stuck(Waiting(), 1) && Finishes(Waiting(), Ready(Waiting(), 0, 0), 0, 0)
    ensures Stuck(Ready(Waiting(), 0, 0), 1)
  {
    WaitingRun();
    var s := Waiting();
    assert PcOf(s, 0) == Reading(0) && PcOf(s, 1) == Asleep(0, Key(0, 0));
    hide Run;
  }
}
