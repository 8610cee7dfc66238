/** The code of proc.c, proved to take the steps of the process tree. */
module ProcessTable {
  import opened Lists
  import opened Processes
  import opened ProcessRuns

  class Table {
    var procs: map<ProcId, Proc>
    var all: seq<ProcId>
    var nextPid: nat
    var cur: Option<ProcId>
    var init: Option<ProcId>
    var next: ProcId
    const max: nat
    const idle: ProcId

    ghost function Now(): (s: State)
      reads this
    {
      State(procs, all, nextPid, max, cur, idle, init, next)
    }

    /** Boot: proc_create of idle, which has no parent. */
    constructor (max: nat)
      requires max > PID_INIT
      ensures Now() == Boot(max) && Inv(Now()) && UniquePids(Now())
    {
      this.max, idle := max, 0;
      procs, all := map[0 := Proc(PID_IDLE, None, [], Running, 0, NotWaiting)], [0];
      nextPid, cur, init, next := 1, Some(0), None, 1;
      new;
      BootInv(max);
    }

    /** The scan of _proc_list in _proc_getid. */
    method InUse(pid: int) returns (r: bool)
      requires Inv(Now())
      ensures r <==> pid in Pids(Now())
    {
      hide ParentOk, ChildrenOk, WaitOk, InitOk;
      var i := 0;
      while i < |all|
        invariant 0 <= i <= |all|
        invariant forall j :: 0 <= j < i ==> procs[all[j]].pid != pid
      {
        if procs[all[i]].pid == pid {
          return true;
        }
        i := i + 1;
      }
      NotTaken(Now(), pid);
      return false;
    }

    /** _proc_getid. */
    method GetId() returns (pid: int)
      requires Inv(Now())
      modifies `nextPid
      ensures PidChosen(old(Now()), pid, nextPid)
      ensures pid == -1 <==> forall i :: 0 <= i < max ==> i in Pids(old(Now()))
      ensures pid != -1 ==> 0 <= pid < max && pid !in Pids(old(Now())) && nextPid == (pid + 1) % max
      ensures pid == -1 ==> nextPid == old(nextPid)
    {
      ghost var s := Now();
      NextInRange(s);
      hide Inv, Pids, Cyclic, PidChosen;
      ghost var k: nat := 0;
      CyclicStart(nextPid, max);
      pid := nextPid;
      while true
        invariant Now() == s && k < max && pid == Cyclic(nextPid, k, max) && AllTaken(s, k)
        decreases max - k
      {
        var taken := InUse(pid);
        CyclicNext(nextPid, k, max);
        if !taken {
          Choose(s, pid, k);
          assert pid !in Pids(s);
          nextPid := (pid + 1) % max;
          return;
        }
        pid := (pid + 1) % max;
        k := k + 1;
        if pid == nextPid {
          NoneFree(s, k);
          return -1;
        }
      }
    }

    /**
     * proc_create. The error of _proc_getid is not looked at: the process then has pid -1. The
     * first assertion always holds; the second fails exactly when a process other than idle is
     * given pid 1, which init had.
     */
    method Create() returns (r: CreateResult)
      requires Inv(Now()) && cur.Some? && procs[cur.value].wait == NotWaiting
      modifies `procs, `all, `nextPid, `init, `next
      ensures PidChosen(old(Now()), r.pid, nextPid)
      ensures r.Panics? <==> r.pid == PID_INIT && cur != Some(idle)
      ensures r.Panics? ==> init.Some? && init.value !in procs
      ensures r.New? ==> r.proc == old(next) && Now() == Created(old(Now()), r.pid, nextPid) && Inv(Now())
    {
      hide Inv, PidChosen;
      ghost var s := Now();
      FreshId(s);
      var pid := GetId();
      PidFits(s, pid, nextPid);
      assert PID_IDLE != pid;
      if PID_INIT == pid && cur != Some(idle) {
        CurrentRuns(s);
        InitSet(s, cur.value);
        return Panics(pid);
      }
      CreateKeeps(s, pid, nextPid);
      var c := next;
      next := next + 1;
      var p := cur.value;
      if pid == PID_INIT {
        init := Some(c);
      }
      procs := procs[c := Proc(pid, cur, [], Running, 0, NotWaiting)];
      procs := procs[p := procs[p].(children := procs[p].children + [c])];
      all := all + [c];
      return New(c, pid);
    }

    /**
     * proc_cleanup. It trips an assertion exactly in a process with pid -1, and follows a freed
     * proc_initproc exactly when there are children to hand on and init has been disposed of.
     * Otherwise the tree stays right if the exit is safe. The process's own child list is not
     * read any more and counts as empty.
     */
    method Cleanup(status: int) returns (r: CleanupResult)
      requires Inv(Now()) && cur.Some? && cur != Some(idle) && procs[cur.value].wait == NotWaiting
      requires cur == init ==> procs[cur.value].children == []
      modifies `procs, `cur
      ensures r == Asserts <==> old(procs[cur.value].pid) == -1
      ensures r != Asserts ==> ExitOk(old(Now())) && (r == FollowsFreed <==> UsesFreedInit(old(Now())))
      ensures r == Gone ==> Now() == Exited(old(Now()), status)
      ensures r == Gone && ExitSafe(old(Now())) ==> Inv(Now())
    {
      hide Inv, AllAdopted, ExitSafe, ExitedProc, Exited, WaitOk, ChildrenOk;
      ghost var s := Now();
      var p := cur.value;
      CurrentRuns(s);
      Facts(s, p);
      InitSet(s, p);
      if !(1 <= procs[p].pid) {
        return Asserts;
      }
      if ExitSafe(s) { ExitKeeps(s, status); }
      var parent := procs[p].parent.value;
      WokenParent(s, p, parent);
      procs := procs[parent := procs[parent].(wait := Awake(procs[parent].wait))];
      if procs[p].children != [] {
        if init.value !in procs {
          return FollowsFreed;
        }
        Reparent(s, p, procs[p].children);
      }
      CleanedUp(s, status, procs);
      procs := procs[p := procs[p].(status := status, state := Dead, children := [])];
      cur := None;
      return Gone;
    }

    /** The loop of proc_cleanup over the children. */
    method Reparent(ghost s: State, p: ProcId, kids: seq<ProcId>)
      requires Inv(s) && p in s.procs && p != s.idle && s.procs[p].children == kids && init == s.init
      requires s.init.Some? && s.init.value in s.procs && s.init != Some(p) && AllAdopted(s, p, [], procs)
      modifies `procs
      ensures AllAdopted(s, p, kids, procs)
    {
      hide Inv, AllAdopted, WaitOk, ParentOk, NoRepeats;
      KidsAreNotInit(s, p);
      var j := 0;
      assert kids[..0] == [];
      while j < |kids|
        invariant 0 <= j <= |kids| && AllAdopted(s, p, kids[..j], procs)
      {
        var c := kids[j];
        assert kids[..j + 1] == kids[..j] + [c];
        assert c in kids;
        AdoptOne(s, p, kids[..j], c, procs);
        procs := procs[init.value := procs[init.value].(children := procs[init.value].children + [c])];
        procs := procs[c := procs[c].(parent := init)];
        j := j + 1;
      }
      assert kids[..j] == kids;
    }

    /** One round of do_waitpid(-1): on entry, or after a wake-up. */
    method WaitAny() returns (r: WaitResult)
      requires Inv(Now()) && cur.Some? && (procs[cur.value].wait == NotWaiting || procs[cur.value].wait == WokenAny)
      modifies `procs, `all, `cur
      ensures Inv(Now())
      ensures var s := old(Now());
        var p := s.procs[s.cur.value];
        if p.wait == NotWaiting && p.children == [] then r == NoChild && Now() == s
        else if r.Waited? then
          exists c :: FirstOf(s, p.children, c) && r == Waited(s.procs[c].pid, s.procs[c].status)
            && Now() == Reaped(s, c)
        else r == Blocked && SleepOk(s, AsleepAny) && Now() == Slept(s, AsleepAny)
    {
      ghost var s := Now();
      var p := cur.value;
      Facts(s, p);
      if procs[p].wait == NotWaiting && procs[p].children == [] {
        return NoChild;
      }
      var kids := procs[p].children;
      var j := 0;
      while j < |kids|
        invariant 0 <= j <= |kids| && Now() == s
        invariant forall x :: 0 <= x < j ==> s.procs[kids[x]].state == Running
      {
        var c := kids[j];
        if procs[c].state == Dead {
          assert FirstOf(s, kids, c);
          r := Waited(procs[c].pid, procs[c].status);
          Dispose(c);
          return;
        }
        j := j + 1;
      }
      SleepKeeps(s, AsleepAny);
      procs := procs[p := procs[p].(wait := AsleepAny)];
      cur := None;
      return Blocked;
    }

    /** list_remove twice and the frees, for a dead child of the current process. */
    method Dispose(c: ProcId)
      requires Inv(Now()) && ReapOk(Now(), c)
      modifies `procs, `all
      ensures Now() == Reaped(old(Now()), c) && Inv(Now())
    {
      ghost var s := Now();
      ReapKeeps(s, c);
      ReapedInit(s, c);
      hide Inv, Unlink;
      var p := cur.value;
      all := Unlink(all, c);
      procs := procs[p := procs[p].(children := Unlink(procs[p].children, c), wait := NotWaiting)];
      procs := procs - {c};
    }

    /**
     * do_waitpid for a positive pid: the search, and the wait for the child found. The status is
     * stored before the wait, so for a child that still runs it is the 0 of a running process.
     */
    method WaitFor(pid: int) returns (r: WaitResult)
      requires Inv(Now()) && cur.Some? && procs[cur.value].wait == NotWaiting && pid > 0
      modifies `procs, `all, `cur
      ensures Inv(Now())
      ensures var s := old(Now());
        var kids := s.procs[s.cur.value].children;
        match r
        case NoChild => Now() == s && forall c :: c in kids ==> c in s.procs && s.procs[c].pid != pid
        case Waited(x, status) =>
          && x == pid
          && exists c ::
            ReapOk(s, c) && s.procs[c].pid == pid && status == s.procs[c].status && Now() == Reaped(s, c)
        case Blocked =>
          exists c :: SleepOk(s, AsleepFor(c, 0)) && s.procs[c].pid == pid && Now() == Slept(s, AsleepFor(c, 0))
    {
      ghost var s := Now();
      var p := cur.value;
      Facts(s, p);
      var kids := procs[p].children;
      var j := 0;
      while j < |kids|
        invariant 0 <= j <= |kids| && Now() == s
        invariant forall x :: 0 <= x < j ==> s.procs[kids[x]].pid != pid
      {
        var c := kids[j];
        Facts(s, c);
        if procs[c].pid == pid {
          var status := procs[c].status;
          if procs[c].state == Dead {
            r := Waited(pid, status);
            assert ReapOk(s, c);
            Dispose(c);
          } else {
            r := Blocked;
            SleepFor(c, status);
          }
          return;
        }
        j := j + 1;
      }
      return NoChild;
    }

    method SleepFor(c: ProcId, status: int)
      requires Inv(Now()) && SleepOk(Now(), AsleepFor(c, status))
      modifies `procs, `cur
      ensures Now() == Slept(old(Now()), AsleepFor(c, status)) && Inv(Now())
    {
      SleepKeeps(Now(), AsleepFor(c, status));
      procs := procs[cur.value := procs[cur.value].(wait := AsleepFor(c, status))];
      cur := None;
    }

    /**
     * The wait of do_waitpid for a positive pid goes on after a wake-up. What it reports is 0,
     * whatever the child has exited with: it is right exactly when the child exited with 0.
     */
    method WaitMore() returns (r: WaitResult)
      requires Inv(Now()) && cur.Some? && procs[cur.value].wait.WokenFor?
      modifies `procs, `all, `cur
      ensures Inv(Now())
      ensures var s := old(Now());
        var c := s.procs[s.cur.value].wait.c;
        && c in s.procs && (r.Waited? <==> s.procs[c].state == Dead)
        && (if r.Waited? then r == Waited(s.procs[c].pid, 0) && ReapOk(s, c) && Now() == Reaped(s, c)
            else r == Blocked && SleepOk(s, AsleepFor(c, 0)) && Now() == Slept(s, AsleepFor(c, 0)))
    {
      Facts(Now(), cur.value);
      var c, seen := procs[cur.value].wait.c, procs[cur.value].wait.seen;
      Facts(Now(), c);
      if procs[c].state == Dead {
        r := Waited(procs[c].pid, seen);
        Dispose(c);
      } else {
        r := Blocked;
        SleepFor(c, seen);
      }
    }
  }

  datatype CreateResult = New(proc: ProcId, pid: int) | Panics(pid: int)

  datatype CleanupResult = Gone | FollowsFreed | Asserts

  /** After the wake-up of the parent, and before any child has been handed on. */
  lemma WokenParent(s: State, p: ProcId, parent: ProcId)
    requires p in s.procs && s.procs[p].parent == Some(parent) && parent in s.procs && parent != p
    ensures var procs := s.procs[parent := s.procs[parent].(wait := Awake(s.procs[parent].wait))];
      AllAdopted(s, p, [], procs) && procs[p] == s.procs[p] && procs.Keys == s.procs.Keys
  {
    assert forall q :: q in s.procs ==> s.procs[q].children + [] == s.procs[q].children;
  }

  /** With all children handed on, what is left is to mark the process dead. */
  lemma CleanedUp(s: State, status: int, procs: map<ProcId, Proc>)
    requires ExitOk(s) && AllAdopted(s, s.cur.value, s.procs[s.cur.value].children, procs)
    ensures s.cur.value in procs
    ensures var p := s.cur.value;
      Exited(s, status) == s.(procs := procs[p := procs[p].(status := status, state := Dead, children := [])],
                              cur := None)
  {
    var p := s.cur.value;
    assert Exited(s, status).procs == procs[p := procs[p].(status := status, state := Dead, children := [])];
  }

  ghost predicate AllAdopted(s: State, p: ProcId, kids: seq<ProcId>, procs: map<ProcId, Proc>)
    requires p in s.procs
  {
    procs.Keys == s.procs.Keys && forall q :: q in s.procs ==> procs[q] == Adopted(s, p, q, kids)
  }

  /** One round: the child goes to the end of init's list, and gets init as its parent. */
  lemma AdoptOne(s: State, p: ProcId, kids: seq<ProcId>, c: ProcId, procs: map<ProcId, Proc>)
    requires p in s.procs && AllAdopted(s, p, kids, procs)
    requires s.init.Some? && s.init.value in s.procs && c in s.procs && s.init != Some(c)
    ensures s.init.value in procs && c in procs
    ensures var i := s.init.value;
      AllAdopted(s, p, kids + [c],
                 procs[i := procs[i].(children := procs[i].children + [c])][c := procs[c].(parent := s.init)])
  {
    assert s.procs[s.init.value].children + (kids + [c]) == s.procs[s.init.value].children + kids + [c];
  }

  datatype WaitResult = Waited(pid: int, status: int) | NoChild | Blocked

  /** `c` is dead, and no process before it in the list is. */
  ghost predicate FirstOf(s: State, kids: seq<ProcId>, c: ProcId) {
    exists j :: 0 <= j < |kids| && kids[j] == c && c in s.procs && s.procs[c].state == Dead
      && forall x :: 0 <= x < j ==> kids[x] in s.procs && s.procs[kids[x]].state == Running
  }

  lemma KidsAreNotInit(s: State, p: ProcId)
    requires Inv(s) && p in s.procs && p != s.idle && s.init.Some? && s.init.value in s.procs && s.init != Some(p)
    ensures s.init.value !in s.procs[p].children && p !in s.procs[p].children
    ensures forall c :: c in s.procs[p].children ==> c in s.procs
  {
    Facts(s, p);
    InitFacts(s);
    if p in s.procs[p].children { assert false; }
  }

  lemma CyclicStart(next: nat, max: nat)
    requires next < max
    ensures Cyclic(next, 0, max) == next
  {
  }

  lemma CyclicNext(next: nat, k: nat, max: nat)
    requires next < max && k < max
    ensures 0 <= Cyclic(next, k, max) < max
    ensures (Cyclic(next, k, max) + 1) % max == if k + 1 == max then next else Cyclic(next, k + 1, max)
    ensures k + 1 < max ==> Cyclic(next, k + 1, max) != next
  {
    ModNext(Cyclic(next, k, max), max);
  }

  lemma ModNext(pid: nat, max: nat)
    requires pid < max
    ensures (pid + 1) % max == if pid + 1 == max then 0 else pid + 1
  {
  }

  lemma Choose(s: State, pid: int, k: nat)
    requires k < s.max && pid == Cyclic(s.nextPid, k, s.max) && AllTaken(s, k) && pid !in Pids(s) && 0 <= pid < s.max
    ensures PidChosen(s, pid, (pid + 1) % s.max)
  {
  }

  lemma NextInRange(s: State)
    requires Inv(s)
    ensures s.nextPid < s.max
  {
  }

  lemma NotTaken(s: State, pid: int)
    requires Inv(s) && forall j :: 0 <= j < |s.all| ==> s.all[j] in s.procs && s.procs[s.all[j]].pid != pid
    ensures pid !in Pids(s)
  {
  }

  lemma NoneFree(s: State, k: nat)
    requires AllTaken(s, k) && k == s.max && s.nextPid < s.max
    ensures PidChosen(s, -1, s.nextPid)
  {
    forall i | 0 <= i < s.max
      ensures i in Pids(s)
    {
      var j := CyclicCovers(s.nextPid, s.max, i);
    }
  }
}
