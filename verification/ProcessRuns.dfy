/** Whole runs of the process tree, from boot on. */
module ProcessRuns {
  import opened Lists
  import opened Processes

  ghost predicate Creates(s: State, s': State) {
    exists pid, nextPid: nat :: PidChosen(s, pid, nextPid) && CreateOk(s, pid, nextPid)
      && s' == Created(s, pid, nextPid)
  }

  /** An exit that is safe; the run of a kernel that uses freed memory, or whose init is dead, ends here. */
  ghost predicate Exits(s: State, s': State) { ExitOk(s) && ExitSafe(s) && exists status :: s' == Exited(s, status) }

  ghost predicate Reaps(s: State, s': State) { exists c :: ReapOk(s, c) && s' == Reaped(s, c) }

  ghost predicate Sleeps(s: State, s': State) { exists w :: SleepOk(s, w) && s' == Slept(s, w) }

  ghost predicate Schedules(s: State, s': State) {
    exists p :: p in s.procs && s.procs[p].state == Running && !Asleep(s.procs[p].wait) && s' == Scheduled(s, p)
  }

  ghost predicate Steps(s: State, s': State) {
    Creates(s, s') || Exits(s, s') || Reaps(s, s') || Sleeps(s, s') || Schedules(s, s')
  }

  ghost predicate Run(states: seq<State>) {
    states != [] && forall i :: 0 <= i < |states| - 1 ==> Steps(states[i], states[i + 1])
  }

  lemma StepKeeps(s: State, s': State)
    requires Inv(s) && Steps(s, s')
    ensures Inv(s')
  {
    hide Inv, Created, Exited, Reaped, Slept, Scheduled, PidChosen;
    if Creates(s, s') {
      var pid, nextPid: nat :| PidChosen(s, pid, nextPid) && CreateOk(s, pid, nextPid)
        && s' == Created(s, pid, nextPid);
      CreateKeeps(s, pid, nextPid);
    } else if Exits(s, s') {
      var status :| s' == Exited(s, status);
      ExitKeeps(s, status);
    } else if Reaps(s, s') {
      var c :| ReapOk(s, c) && s' == Reaped(s, c);
      ReapKeeps(s, c);
    } else if Sleeps(s, s') {
      var w :| SleepOk(s, w) && s' == Slept(s, w);
      SleepKeeps(s, w);
    } else {
      var p :| p in s.procs && s.procs[p].state == Running && !Asleep(s.procs[p].wait) && s' == Scheduled(s, p);
      ScheduleKeeps(s, p);
    }
  }

  lemma {:induction false} RunKeeps(states: seq<State>, n: nat)
    requires Run(states) && Inv(states[0]) && n < |states|
    ensures Inv(states[n])
  {
    hide Inv, Steps;
    if n > 0 {
      RunKeeps(states, n - 1);
      StepKeeps(states[n - 1], states[n]);
    }
  }

  // ---------------------------------------------------------------------------------------------
  // From boot on

  /** The idle process alone, running, with the next pid 1. */
  function Boot(max: nat): (s: State) {
    State(map[0 := Proc(PID_IDLE, None, [], Running, 0, NotWaiting)], [0], 1, max, Some(0), 0, None, 1)
  }

  lemma BootInv(max: nat)
    requires max > PID_INIT
    ensures Inv(Boot(max)) && UniquePids(Boot(max)) && !InitStuck(Boot(max))
  {
    assert Boot(max).procs.Keys == {0};
  }

  ghost predicate BootRun(states: seq<State>, max: nat) {
    max > PID_INIT && Run(states) && states[0] == Boot(max)
  }

  /** The tree, the pids of idle and init, and the wake-ups are right in every state of every run. */
  lemma AlwaysInv(states: seq<State>, max: nat, n: nat)
    requires BootRun(states, max) && n < |states|
    ensures Inv(states[n])
  {
    hide Inv;
    BootInv(max);
    RunKeeps(states, n);
  }

  /** Every process but idle has a running parent that lists it, and every branch ends at idle. */
  lemma AlwaysATree(states: seq<State>, max: nat, n: nat, p: ProcId)
    requires BootRun(states, max) && n < |states| && p in states[n].procs
    ensures TreeOk(states[n]) && Root(states[n], p) == states[n].idle
    ensures p != states[n].idle ==>
      ParentRuns(states[n], p) && p in states[n].procs[states[n].procs[p].parent.value].children
  {
    hide InitOk, WaitOk, ChildrenOk;
    AlwaysInv(states, max, n);
    RootedAtIdle(states[n], p);
    assert p != states[n].idle ==> ParentOk(states[n], p);
  }

  /** No lost wake-up: only init can sleep in do_waitpid(-1) beside a dead child, and nobody in a wait for it. */
  lemma NoLostWakeup(states: seq<State>, max: nat, n: nat, p: ProcId, c: ProcId)
    requires BootRun(states, max) && n < |states|
    requires var s := states[n]; p in s.procs && c in s.procs[p].children && c in s.procs && s.procs[c].state == Dead
    ensures var s := states[n];
      (s.procs[p].wait == AsleepAny ==> s.init == Some(p)) && !(s.procs[p].wait.AsleepFor? && s.procs[p].wait.c == c)
  {
    AlwaysInv(states, max, n);
    assert WaitOk(states[n], p);
    hide TreeOk, InitOk;
  }

  /** A zombie has no children, so removing it leaves no parent pointer dangling. */
  lemma ZombiesAreLeaves(states: seq<State>, max: nat, n: nat, z: ProcId, c: ProcId)
    requires BootRun(states, max) && n < |states|
    requires var s := states[n]; z in s.procs && s.procs[z].state == Dead && c in s.procs
    ensures states[n].procs[z].children == [] && states[n].procs[c].parent != Some(z)
  {
    AlwaysInv(states, max, n);
    assert ChildrenOk(states[n], z);
    assert c != states[n].idle ==> ParentOk(states[n], c);
    hide WaitOk, InitOk;
  }

  // ---------------------------------------------------------------------------------------------
  // Pids in runs

  lemma StepPids(s: State, s': State)
    requires Inv(s) && UniquePids(s) && Steps(s, s')
    ensures UniquePids(s') <==> !(Creates(s, s') && Exhausted(s))
  {
    if Creates(s, s') {
      var pid, nextPid: nat :| PidChosen(s, pid, nextPid) && CreateOk(s, pid, nextPid)
        && s' == Created(s, pid, nextPid);
      hide Inv, Created, PidChosen, CreateOk, UniquePids, Exhausted;
      PidsStayUnique(s, pid, nextPid);
    } else {
      OldPids(s, s');
      hide Inv, Steps;
    }
  }

  lemma OldPids(s: State, s': State)
    requires Steps(s, s') && !Creates(s, s')
    ensures forall p :: p in s'.procs ==> p in s.procs && s'.procs[p].pid == s.procs[p].pid
  {
    hide Creates, PidChosen, Unlink;
  }

  lemma {:induction false} UniqueUpTo(states: seq<State>, max: nat, n: nat)
    requires BootRun(states, max) && n < |states|
    requires forall i :: 0 <= i < n ==> !(Creates(states[i], states[i + 1]) && Exhausted(states[i]))
    ensures UniquePids(states[n])
  {
    hide Inv, Steps, Creates, Exhausted, UniquePids;
    BootInv(max);
    if n > 0 {
      AlwaysInv(states, max, n - 1);
      UniqueUpTo(states, max, n - 1);
      StepPids(states[n - 1], states[n]);
    }
  }

  /** Pids are unique all through a run exactly when no process is created while every pid and -1 are taken. */
  lemma AlwaysUnique(states: seq<State>, max: nat)
    requires BootRun(states, max)
    ensures (forall n :: 0 <= n < |states| ==> UniquePids(states[n]))
      <==> (forall i :: 0 <= i < |states| - 1 ==> !(Creates(states[i], states[i + 1]) && Exhausted(states[i])))
  {
    hide Inv, Steps, Creates, Exhausted, UniquePids;
    if forall i :: 0 <= i < |states| - 1 ==> !(Creates(states[i], states[i + 1]) && Exhausted(states[i])) {
      forall n | 0 <= n < |states| ensures UniquePids(states[n]) { UniqueUpTo(states, max, n); }
    } else {
      var i :| 0 <= i < |states| - 1 && Creates(states[i], states[i + 1]) && Exhausted(states[i]);
      AlwaysInv(states, max, i);
      if UniquePids(states[i]) { StepPids(states[i], states[i + 1]); }
    }
  }

  // ---------------------------------------------------------------------------------------------
  // Runs that go wrong

  /** Some run from boot ends in `s`. */
  ghost predicate Reachable(s: State, max: nat) {
    exists states :: BootRun(states, max) && states[|states| - 1] == s
  }

  lemma BootReachable(max: nat)
    requires max > PID_INIT
    ensures Reachable(Boot(max), max)
  {
    assert BootRun([Boot(max)], max);
  }

  lemma ReachNext(s: State, s': State, max: nat)
    requires Reachable(s, max) && Steps(s, s')
    ensures Reachable(s', max) && Inv(s')
  {
    hide Inv, Steps;
    var states :| BootRun(states, max) && states[|states| - 1] == s;
    var states' := states + [s'];
    forall i | 0 <= i < |states'| - 1
      ensures Steps(states'[i], states'[i + 1])
    {
      if i < |states| - 1 { assert Steps(states[i], states[i + 1]); }
    }
    assert BootRun(states', max) && states'[|states'| - 1] == s';
    AlwaysInv(states', max, |states|);
  }

  /** While no pid from next_pid on is taken, a creation takes that one. */
  ghost predicate PidsBelow(s: State) {
    forall p :: p in s.procs ==> s.procs[p].pid < s.nextPid
  }

  lemma NextPidFree(s: State)
    requires Inv(s) && PidsBelow(s)
    ensures s.nextPid < s.max && PidChosen(s, s.nextPid, (s.nextPid + 1) % s.max)
    ensures s.nextPid + 1 < s.max ==> (s.nextPid + 1) % s.max == s.nextPid + 1
  {
    assert Cyclic(s.nextPid, 0, s.max) == s.nextPid && AllTaken(s, 0);
    assert s.nextPid !in Pids(s);
  }

  lemma Spawn(s: State, max: nat)
    requires Reachable(s, max) && Inv(s) && PidsBelow(s)
    requires s.cur.Some? && s.cur.value in s.procs && s.procs[s.cur.value].wait == NotWaiting
    requires s.nextPid == PID_INIT ==> s.cur == Some(s.idle)
    ensures s.nextPid < s.max
    ensures var s' := Created(s, s.nextPid, (s.nextPid + 1) % s.max);
      Reachable(s', max) && Inv(s') && (s.nextPid + 1 < s.max ==> PidsBelow(s'))
  {
    hide Inv, PidChosen, CreateOk, Reachable;
    NextPidFree(s);
    var next := (s.nextPid + 1) % s.max;
    var s' := Created(s, s.nextPid, next);
    PidFits(s, s.nextPid, next);
    FreshId(s);
    assert Creates(s, s');
    hide Created;
    ReachNext(s, s', max);
  }

  lemma Dispatch(s: State, p: ProcId, max: nat)
    requires Reachable(s, max) && p in s.procs && s.procs[p].state == Running && !Asleep(s.procs[p].wait)
    ensures Reachable(Scheduled(s, p), max) && Inv(Scheduled(s, p))
  {
    hide Inv;
    assert Schedules(s, Scheduled(s, p));
    ReachNext(s, Scheduled(s, p), max);
  }

  lemma Leave(s: State, status: int, max: nat)
    requires Reachable(s, max) && ExitOk(s) && ExitSafe(s)
    ensures Reachable(Exited(s, status), max) && Inv(Exited(s, status))
  {
    hide Inv;
    assert Exits(s, Exited(s, status));
    ReachNext(s, Exited(s, status), max);
  }

  /** The exit that leaves init asleep beside an inherited zombie. */
  ghost predicate Strands(s: State, s': State) {
    && s.init.Some? && s.init.value in s.procs && s.procs[s.init.value].wait == AsleepAny
    && Exits(s, s') && s.cur.value in s.procs && s.procs[s.cur.value].parent != s.init && HasZombie(s, s.cur.value)
  }

  /** A step leaves init asleep beside a zombie exactly when it is such an exit. */
  lemma StuckExactly(s: State, s': State)
    requires Inv(s) && Steps(s, s') && !InitStuck(s)
    ensures InitStuck(s') <==> Strands(s, s')
  {
    if Exits(s, s') {
      var status :| s' == Exited(s, status);
      ExitStrandsInit(s, status);
    } else if InitStuck(s') {
      StuckBefore(s, s');
    }
  }

  lemma StuckBefore(s: State, s': State)
    requires Inv(s) && Steps(s, s') && !Exits(s, s') && InitStuck(s')
    ensures InitStuck(s)
  {
    hide Inv, ExitOk, PidChosen, Unlink;
    var i := s'.init.value;
    var c :| c in s'.procs[i].children && c in s'.procs && s'.procs[c].state == Dead;
    FreshId(s);
    if i in s.procs { Facts(s, i); }
  }

  lemma {:induction false} NotStuckUpTo(states: seq<State>, max: nat, n: nat)
    requires BootRun(states, max) && n < |states|
    requires forall i :: 0 <= i < n ==> !Strands(states[i], states[i + 1])
    ensures !InitStuck(states[n])
  {
    hide Inv, Steps, Strands, InitStuck;
    BootInv(max);
    if n > 0 {
      AlwaysInv(states, max, n - 1);
      NotStuckUpTo(states, max, n - 1);
      StuckExactly(states[n - 1], states[n]);
    }
  }

  /** Init is never stuck in a run from boot exactly when the run has no such exit. */
  lemma NeverStuck(states: seq<State>, max: nat)
    requires BootRun(states, max)
    ensures (forall n :: 0 <= n < |states| ==> !InitStuck(states[n]))
      <==> (forall i :: 0 <= i < |states| - 1 ==> !Strands(states[i], states[i + 1]))
  {
    hide Inv, Steps, Strands, InitStuck;
    if forall i :: 0 <= i < |states| - 1 ==> !Strands(states[i], states[i + 1]) {
      forall n | 0 <= n < |states| ensures !InitStuck(states[n]) { NotStuckUpTo(states, max, n); }
    } else {
      var i :| 0 <= i < |states| - 1 && Strands(states[i], states[i + 1]);
      AlwaysInv(states, max, i);
      if !InitStuck(states[i]) { StuckExactly(states[i], states[i + 1]); }
    }
  }

  lemma Doze(s: State, w: Wait, max: nat)
    requires Reachable(s, max) && SleepOk(s, w)
    ensures Reachable(Slept(s, w), max) && Inv(Slept(s, w))
  {
    hide Inv;
    assert Sleeps(s, Slept(s, w));
    ReachNext(s, Slept(s, w), max);
  }

  lemma Bury(s: State, c: ProcId, max: nat)
    requires Reachable(s, max) && ReapOk(s, c)
    ensures Reachable(Reaped(s, c), max) && Inv(Reaped(s, c))
  {
    hide Inv;
    assert Reaps(s, Reaped(s, c));
    ReachNext(s, Reaped(s, c), max);
  }

  function Child(pid: int, parent: ProcId, children: seq<ProcId>, wait: Wait): (p: Proc) {
    Proc(pid, Some(parent), children, Running, 0, wait)
  }

  function Zombie(pid: int, parent: ProcId): (p: Proc) { Proc(pid, Some(parent), [], Dead, 0, NotWaiting) }

  function Idle(children: seq<ProcId>): (p: Proc) { Proc(PID_IDLE, None, children, Running, 0, NotWaiting) }

  /** States with the same processes, and nothing else different. */
  lemma SameState(s: State, t: State)
    requires s == t.(procs := s.procs) && s.procs.Keys == t.procs.Keys
    requires forall p :: p in s.procs ==> s.procs[p] == t.procs[p]
    ensures s == t
  {
    assert s.procs == t.procs;
  }

  /** Idle has created init. */
  function Two(max: nat): (s: State) {
    State(map[0 := Idle([1]), 1 := Child(1, 0, [], NotWaiting)], [0, 1], 2, max, Some(0), 0, Some(1), 2)
  }

  lemma TwoReachable(max: nat)
    requires max > 2
    ensures Reachable(Two(max), max) && Inv(Two(max)) && PidsBelow(Two(max))
  {
    var s := Boot(max);
    BootReachable(max);
    BootInv(max);
    hide Inv, Reachable;
    Spawn(s, max);
    SameState(Created(s, 1, 2), Two(max));
  }

  /** Each of five processes is the child of the one before. */
  function Five(): (s: State) {
    State(map[0 := Idle([1]), 1 := Child(1, 0, [2], NotWaiting), 2 := Child(2, 1, [3], NotWaiting),
              3 := Child(3, 2, [4], NotWaiting), 4 := Child(4, 3, [], NotWaiting)],
          [0, 1, 2, 3, 4], 5, 100, Some(3), 0, Some(1), 5)
  }

  function Four(): (s: State) {
    State(map[0 := Idle([1]), 1 := Child(1, 0, [2], NotWaiting), 2 := Child(2, 1, [3], NotWaiting),
              3 := Child(3, 2, [], NotWaiting)],
          [0, 1, 2, 3], 4, 100, Some(2), 0, Some(1), 4)
  }

  lemma FourReachable()
    ensures Reachable(Four(), 100)
  {
    hide Inv, Reachable;
    TwoReachable(100);
    var s := Two(100);
    Dispatch(s, 1, 100);
    s := Scheduled(s, 1);
    assert PidsBelow(s);
    Spawn(s, 100);
    s := Created(s, 2, 3);
    Dispatch(s, 2, 100);
    s := Scheduled(s, 2);
    assert PidsBelow(s);
    Spawn(s, 100);
    s := Created(s, 3, 4);
    assert [0, 1] + [2] + [3] == [0, 1, 2, 3];
    SameState(s, Four());
  }

  lemma FiveReachable()
    ensures Reachable(Five(), 100)
  {
    hide Inv, Reachable;
    FourReachable();
    var s := Four();
    Dispatch(s, 3, 100);
    s := Scheduled(s, 3);
    assert PidsBelow(s);
    Spawn(s, 100);
    s := Created(s, 4, 5);
    assert [0, 1, 2, 3] + [4] == [0, 1, 2, 3, 4];
    SameState(s, Five());
  }

  /** Idle, init asleep, its child, a grandchild about to exit, and a zombie. */
  function Stranding(): (s: State) {
    State(map[0 := Idle([1]), 1 := Child(1, 0, [2], AsleepAny), 2 := Child(2, 1, [3], NotWaiting),
              3 := Child(3, 2, [4], NotWaiting), 4 := Zombie(4, 3)],
          [0, 1, 2, 3, 4], 5, 100, Some(3), 0, Some(1), 5)
  }

  lemma StrandingReachable()
    ensures Reachable(Stranding(), 100) && Inv(Stranding())
  {
    hide Inv, Reachable;
    FiveReachable();
    var s := Five();
    Dispatch(s, 4, 100);
    s := Scheduled(s, 4);
    assert ExitOk(s) && ExitSafe(s);
    Leave(s, 0, 100);
    s := Exited(s, 0);
    Dispatch(s, 1, 100);
    s := Scheduled(s, 1);
    assert s.procs[1].children == [2] && SleepOk(s, AsleepAny);
    Doze(s, AsleepAny, 100);
    s := Slept(s, AsleepAny);
    Dispatch(s, 3, 100);
    s := Scheduled(s, 3);
    SameState(s, Stranding());
  }

  /** A run from boot after which init sleeps beside a zombie. */
  lemma StrandingHappens()
    ensures Reachable(Stranding(), 100) && ExitOk(Stranding()) && ExitSafe(Stranding()) && !InitStuck(Stranding())
    ensures Reachable(Exited(Stranding(), 0), 100) && InitStuck(Exited(Stranding(), 0))
  {
    hide Inv, Reachable;
    var s := Stranding();
    StrandingReachable();
    assert 4 in s.procs[3].children && HasZombie(s, 3);
    assert !InitStuck(s);
    ExitStrandsInit(s, 0);
    Leave(s, 0, 100);
  }

  /** Init has exited and been disposed of while a second child of idle has a child of its own. */
  function Orphaning(): (s: State) {
    State(map[0 := Idle([2]), 2 := Child(2, 0, [3], NotWaiting), 3 := Child(3, 2, [], NotWaiting)],
          [0, 2, 3], 4, 100, Some(2), 0, Some(1), 4)
  }

  /** Idle with init and a second child; the second child has a child of its own. */
  function TwoBranches(cur: ProcId): (s: State) {
    State(map[0 := Idle([1, 2]), 1 := Child(1, 0, [], NotWaiting), 2 := Child(2, 0, [3], NotWaiting),
              3 := Child(3, 2, [], NotWaiting)],
          [0, 1, 2, 3], 4, 100, Some(cur), 0, Some(1), 4)
  }

  lemma TwoBranchesReachable()
    ensures Reachable(TwoBranches(2), 100)
  {
    hide Inv, Reachable;
    TwoReachable(100);
    var s := Two(100);
    Spawn(s, 100);
    s := Created(s, 2, 3);
    Dispatch(s, 2, 100);
    s := Scheduled(s, 2);
    assert PidsBelow(s);
    Spawn(s, 100);
    s := Created(s, 3, 4);
    assert [1] + [2] == [1, 2] && [] + [3] == [3] && [0, 1] + [2] + [3] == [0, 1, 2, 3];
    SameState(s, TwoBranches(2));
  }

  lemma OrphaningReachable()
    ensures Reachable(Orphaning(), 100)
  {
    hide Inv, Reachable;
    TwoBranchesReachable();
    var s := TwoBranches(2);
    Dispatch(s, 1, 100);
    s := Scheduled(s, 1);
    assert ExitOk(s) && ExitSafe(s);
    Leave(s, 0, 100);
    s := Exited(s, 0);
    Dispatch(s, 0, 100);
    s := Scheduled(s, 0);
    assert s.procs[0].children == [1, 2] && 1 in s.procs[0].children && ReapOk(s, 1);
    Bury(s, 1, 100);
    s := Reaped(s, 1);
    Dispatch(s, 2, 100);
    s := Scheduled(s, 2);
    assert Unlink([1, 2], 1) == [2] && Unlink([0, 1, 2, 3], 1) == [0] + Unlink([1, 2, 3], 1) == [0, 2, 3];
    SameState(s, Orphaning());
  }

  /** A run from boot that comes to an exit which hands children to a freed init. */
  lemma FreedInitHappens()
    ensures Reachable(Orphaning(), 100) && ExitOk(Orphaning()) && UsesFreedInit(Orphaning())
    ensures !ParentsRun(Exited(Orphaning(), 0))
  {
    hide Inv, Reachable;
    OrphaningReachable();
    var s := Orphaning();
    assert ExitOk(s) && UsesFreedInit(s);
    assert !ParentRuns(Exited(s, 0), 3);
  }

  /** A run from boot that comes to an exit which hands children to an init that is dead, but not freed yet. */
  lemma DeadInitHappens() returns (s: State)
    ensures Reachable(s, 100) && ExitOk(s) && !ExitSafe(s) && !UsesFreedInit(s) && !ParentsRun(Exited(s, 0))
  {
    hide Inv, Reachable;
    TwoBranchesReachable();
    s := TwoBranches(2);
    Dispatch(s, 1, 100);
    s := Scheduled(s, 1);
    assert ExitOk(s) && ExitSafe(s);
    Leave(s, 0, 100);
    s := Exited(s, 0);
    Dispatch(s, 2, 100);
    s := Scheduled(s, 2);
    assert !ParentRuns(Exited(s, 0), 3);
  }

  /** Init is gone, and the next free of three pids is 1. */
  function Reissuing(): (s: State) {
    State(map[0 := Idle([2]), 2 := Child(2, 0, [], NotWaiting)], [0, 2], 0, 3, Some(2), 0, Some(1), 3)
  }

  function Three(cur: ProcId): (s: State) {
    State(map[0 := Idle([1, 2]), 1 := Child(1, 0, [], NotWaiting), 2 := Child(2, 0, [], NotWaiting)], [0, 1, 2], 0, 3,
          Some(cur), 0, Some(1), 3)
  }

  lemma ThreeReachable()
    ensures Reachable(Three(1), 3)
  {
    hide Inv, Reachable;
    TwoReachable(3);
    var s := Two(3);
    Spawn(s, 3);
    s := Created(s, 2, 0);
    assert [1] + [2] == [1, 2] && [0, 1] + [2] == [0, 1, 2];
    SameState(s, Three(0));
    Dispatch(s, 1, 3);
  }

  lemma ReissuingReachable()
    ensures Reachable(Reissuing(), 3)
  {
    hide Inv, Reachable;
    ThreeReachable();
    var s := Three(1);
    assert ExitOk(s) && ExitSafe(s);
    Leave(s, 0, 3);
    s := Exited(s, 0);
    Dispatch(s, 0, 3);
    s := Scheduled(s, 0);
    assert s.procs[0].children == [1, 2] && 1 in s.procs[0].children && ReapOk(s, 1);
    Bury(s, 1, 3);
    s := Reaped(s, 1);
    Dispatch(s, 2, 3);
    s := Scheduled(s, 2);
    assert Unlink([1, 2], 1) == [2] && Unlink([0, 1, 2], 1) == [0] + Unlink([1, 2], 1) == [0, 2];
    SameState(s, Reissuing());
  }

  /** A run from boot that comes to a creation which trips the assertion about pid 1. */
  lemma ReissueHappens()
    ensures Reachable(Reissuing(), 3) && PidChosen(Reissuing(), PID_INIT, 2) && !CreateOk(Reissuing(), PID_INIT, 2)
  {
    hide Inv, Reachable;
    ReissuingReachable();
    var s := Reissuing();
    assert s.procs[0].pid in Pids(s) && 1 !in Pids(s);
    assert Cyclic(0, 0, 3) == 0 && Cyclic(0, 1, 3) == 1 && AllTaken(s, 1);
  }

  /** A parent that waited for a running child is about to report the status 0 it read then. */
  function Misreporting(): (s: State) {
    State(map[0 := Idle([1]).(wait := WokenFor(1, 0)), 1 := Zombie(1, 0).(status := 7)], [0, 1], 2, 100, Some(0), 0,
          Some(1), 2)
  }

  lemma MisreportHappens()
    ensures Reachable(Misreporting(), 100)
    ensures var s := Misreporting();
      s.procs[0].wait == WokenFor(1, 0) && s.procs[1].state == Dead && s.procs[1].status != 0
  {
    hide Inv, Reachable;
    TwoReachable(100);
    var s := Two(100);
    Doze(s, AsleepFor(1, 0), 100);
    s := Slept(s, AsleepFor(1, 0));
    Dispatch(s, 1, 100);
    s := Scheduled(s, 1);
    assert ExitOk(s) && ExitSafe(s);
    Leave(s, 7, 100);
    s := Exited(s, 7);
    Dispatch(s, 0, 100);
    s := Scheduled(s, 0);
    SameState(s, Misreporting());
  }

  /** With two pids in all: idle, init, and a process with pid -1. */
  function OutOfPids(): (s: State) {
    Created(Created(Boot(2), 1, 0), -1, 0)
  }

  lemma CreatesOne()
    ensures Creates(Boot(2), Created(Boot(2), 1, 0))
  {
    var s := Boot(2);
    assert Cyclic(1, 0, 2) == 1 && AllTaken(s, 0);
    assert 1 !in Pids(s);
    assert PidChosen(s, 1, 0);
  }

  lemma CreatesNone(s: State)
    requires s.max == 2 && s.nextPid == 0 && 0 in s.procs && s.procs[0].pid == 0 && 1 in s.procs && s.procs[1].pid == 1
    requires s.cur == Some(0) && s.procs[0].wait == NotWaiting && s.init == Some(1)
    ensures Creates(s, Created(s, -1, 0))
  {
    assert 0 in Pids(s) && 1 in Pids(s);
    assert PidChosen(s, -1, 0);
    assert CreateOk(s, -1, 0);
  }

  /** A run from boot with unique pids, until one more creation gives out pid -1 again. */
  lemma RepeatedPid()
    ensures BootRun([Boot(2), Created(Boot(2), 1, 0), OutOfPids(), Created(OutOfPids(), -1, 0)], 2)
    ensures Inv(OutOfPids()) && UniquePids(OutOfPids()) && Exhausted(OutOfPids())
    ensures !UniquePids(Created(OutOfPids(), -1, 0))
  {
    var s1, s2 := Created(Boot(2), 1, 0), OutOfPids();
    var s3, run := Created(s2, -1, 0), [Boot(2), s1, s2, Created(s2, -1, 0)];
    CreatesOne();
    CreatesNone(s1);
    CreatesNone(s2);
    assert s2.procs[2].pid == -1 && s3.procs[2].pid == -1 && s3.procs[3].pid == -1;
    assert s2.procs[0].pid in Pids(s2) && s2.procs[1].pid in Pids(s2) && s2.procs[2].pid in Pids(s2);
    assert UniquePids(s2);
    hide Inv, Creates, Exits, Reaps, Sleeps, Schedules;
    forall i | 0 <= i < 3
      ensures Steps(run[i], run[i + 1])
    {
    }
    AlwaysInv(run, 2, 2);
  }
}
