/**
 * The process tree: creation, exit with reparenting, and waiting.
 *
 * Each function below is one atomic step of the kernel, which is not preemptive. A process has
 * one thread, so at most one sleeper is on a p_wait queue.
 */
module Processes {
  import opened Lists

  type ProcId = nat

  datatype ProcState = Running | Dead

  /**
   * Where a process stands in do_waitpid: asleep on its p_wait, or woken and about to look again.
   * A wait for one child has already stored the status it is going to report.
   */
  datatype Wait = NotWaiting | AsleepAny | AsleepFor(c: ProcId, seen: int) | WokenAny | WokenFor(c: ProcId, seen: int)

  datatype Proc = Proc(pid: int, parent: Option<ProcId>, children: seq<ProcId>, state: ProcState, status: int,
                       wait: Wait)

  /** `all` is _proc_list, `max` is PROC_MAX_COUNT, `next` the address of the next proc_t. */
  datatype State = State(
    procs: map<ProcId, Proc>, all: seq<ProcId>, nextPid: nat, max: nat,
    cur: Option<ProcId>, idle: ProcId, init: Option<ProcId>, next: ProcId)

  const PID_IDLE: int := 0
  const PID_INIT: int := 1

  ghost function Pids(s: State): (r: set<int>) { set p | p in s.procs :: s.procs[p].pid }

  predicate Asleep(w: Wait) { w.AsleepAny? || w.AsleepFor? }

  function Awake(w: Wait): (r: Wait) {
    match w
    case AsleepAny => WokenAny
    case AsleepFor(c, seen) => WokenFor(c, seen)
    case _ => w
  }

  // ---------------------------------------------------------------------------------------------
  // The invariant

  /** Child lists and parent pointers agree; every process but idle has a running parent. */
  ghost predicate TreeOk(s: State) {
    && s.idle in s.procs && s.procs[s.idle].parent.None? && s.procs[s.idle].state == Running
    && ListOk(s)
    && (forall c {:trigger ParentOk(s, c)} :: c in s.procs && c != s.idle ==> ParentOk(s, c))
    && (forall p {:trigger ChildrenOk(s, p)} :: p in s.procs ==> ChildrenOk(s, p))
  }

  /** _proc_list holds every process once, and addresses are not reused. */
  ghost predicate ListOk(s: State) {
    && NoRepeats(s.all)
    && (forall c :: c in s.procs <==> c in s.all)
    && (forall c :: c in s.procs ==> c < s.next)
  }

  /** The parent of `c` exists and runs. */
  ghost predicate ParentRuns(s: State, c: ProcId)
    requires c in s.procs
  {
    s.procs[c].parent.Some? && s.procs[c].parent.value in s.procs && s.procs[s.procs[c].parent.value].state == Running
  }

  /** A parent is idle, or init under idle, or else older than its child; so there is no cycle. */
  ghost predicate ParentOk(s: State, c: ProcId)
    requires c in s.procs
  {
    && ParentRuns(s, c)
    && var p := s.procs[c].parent.value;
       && c in s.procs[p].children
       && (p == s.idle || p < c || (s.init == Some(p) && s.procs[p].parent == Some(s.idle)))
  }

  ghost predicate ChildrenOk(s: State, p: ProcId)
    requires p in s.procs
  {
    && NoRepeats(s.procs[p].children)
    && (forall c :: c in s.procs[p].children ==> c in s.procs && s.procs[c].parent == Some(p))
    && (s.procs[p].state == Dead ==> s.procs[p].children == [])
    && (s.procs[p].state == Running ==> s.procs[p].status == 0)
  }

  /**
   * Idle has pid 0. The process with pid 1 is init, a child of idle; it may be gone, and then
   * proc_initproc points at freed memory. A process created when every pid was taken has pid -1.
   */
  ghost predicate InitOk(s: State) {
    && s.idle in s.procs && s.procs[s.idle].pid == PID_IDLE && s.nextPid < s.max
    && (forall c {:trigger PidOk(s, c)} :: c in s.procs && c != s.idle ==> PidOk(s, c))
    && (match s.init
        case None => s.procs.Keys == {s.idle} && s.nextPid == PID_INIT && s.max > PID_INIT
        case Some(i) =>
          && i != s.idle && i < s.next
          && (i in s.procs ==> s.procs[i].pid == PID_INIT && s.procs[i].parent == Some(s.idle)))
  }

  ghost predicate PidOk(s: State, c: ProcId)
    requires c in s.procs
  {
    (s.procs[c].pid == -1 || s.procs[c].pid >= PID_INIT) && (s.procs[c].pid == PID_INIT ==> s.init == Some(c))
  }

  /** Whoever sleeps in do_waitpid has something to wait for; init alone can sleep by a dead child. */
  ghost predicate WaitOk(s: State, p: ProcId)
    requires p in s.procs
  {
    match s.procs[p].wait
    case NotWaiting => true
    case AsleepAny =>
      && s.procs[p].state == Running
      && (s.init != Some(p) ==> forall c :: c in s.procs[p].children && c in s.procs ==> s.procs[c].state == Running)
    case AsleepFor(c, seen) =>
      && s.procs[p].state == Running && c in s.procs[p].children && c in s.procs && s.procs[c].state == Running
      && seen == 0
    case WokenAny => s.procs[p].state == Running
    case WokenFor(c, seen) => s.procs[p].state == Running && c in s.procs[p].children && seen == 0
  }

  ghost predicate CurrentOk(s: State) {
    s.cur.Some? ==>
      && s.cur.value in s.procs && s.procs[s.cur.value].state == Running
      && !Asleep(s.procs[s.cur.value].wait)
  }

  ghost predicate Inv(s: State) {
    TreeOk(s) && InitOk(s) && CurrentOk(s) && forall p {:trigger WaitOk(s, p)} :: p in s.procs ==> WaitOk(s, p)
  }

  ghost predicate ProcOk(s: State, q: ProcId)
    requires q in s.procs
  {
    ChildrenOk(s, q) && (q != s.idle ==> ParentOk(s, q)) && WaitOk(s, q)
  }

  /** Idle runs and has no parent, and nothing is wrong with the list, the pids or who runs. */
  ghost predicate BaseOk(s: State) {
    && s.idle in s.procs && s.procs[s.idle].parent.None? && s.procs[s.idle].state == Running && ListOk(s) && InitOk(s)
    && CurrentOk(s)
  }

  lemma Facts(s: State, q: ProcId)
    requires Inv(s) && q in s.procs
    ensures ChildrenOk(s, q) && (q != s.idle ==> ParentOk(s, q)) && WaitOk(s, q)
    ensures q < s.next && q in s.all && (q != s.idle ==> PidOk(s, q))
  {
  }

  lemma CurrentRuns(s: State)
    requires Inv(s) && s.cur.Some?
    ensures s.cur.value in s.procs && s.procs[s.cur.value].state == Running && !Asleep(s.procs[s.cur.value].wait)
  {
  }

  lemma Assemble(s: State)
    requires BaseOk(s) && forall q :: q in s.procs ==> ProcOk(s, q)
    ensures Inv(s)
  {
    hide ListOk, InitOk, CurrentOk, ChildrenOk, ParentOk, WaitOk;
    forall q | q in s.procs
      ensures ChildrenOk(s, q) && (q != s.idle ==> ParentOk(s, q)) && WaitOk(s, q)
    {
      assert ProcOk(s, q);
    }
  }

  // ---------------------------------------------------------------------------------------------
  // Consequences

  /** Idle first, then its children, then the others by age. */
  ghost function Rank(s: State, p: ProcId): (r: nat)
    requires p in s.procs
  {
    if p == s.idle then 0 else if s.procs[p].parent == Some(s.idle) then 1 else 2 + p
  }

  /** Following parent pointers always ends at idle. */
  ghost function Root(s: State, p: ProcId): (r: ProcId)
    requires TreeOk(s) && p in s.procs
    decreases Rank(s, p)
  {
    if p == s.idle then p
    else
      assert ParentOk(s, p);
      Root(s, s.procs[p].parent.value)
  }

  lemma {:induction false} RootedAtIdle(s: State, p: ProcId)
    requires TreeOk(s) && p in s.procs
    ensures Root(s, p) == s.idle
    decreases Rank(s, p)
  {
    if p != s.idle {
      assert ParentOk(s, p);
      RootedAtIdle(s, s.procs[p].parent.value);
    }
  }

  /** proc_initproc has been set once any process but idle exists. */
  lemma InitSet(s: State, p: ProcId)
    requires Inv(s) && p in s.procs && p != s.idle
    ensures s.init.Some? && s.init != Some(s.idle)
  {
  }

  // ---------------------------------------------------------------------------------------------
  // proc_create

  function Created(s: State, pid: int, nextPid: nat): (r: State)
    requires s.cur.Some? && s.cur.value in s.procs
  {
    var p, c := s.cur.value, s.next;
    s.(procs := s.procs[p := s.procs[p].(children := s.procs[p].children + [c])]
                       [c := Proc(pid, Some(p), [], Running, 0, NotWaiting)],
       all := s.all + [c], nextPid := nextPid, next := c + 1,
       init := if pid == PID_INIT then Some(c) else s.init)
  }

  /** Pid 0 is never given out; pid 1 goes only to a child of idle, and first of all. */
  ghost predicate CreateOk(s: State, pid: int, nextPid: nat) {
    && (pid == -1 || pid >= PID_INIT) && nextPid < s.max
    && s.cur.Some? && s.cur.value in s.procs && s.procs[s.cur.value].wait == NotWaiting
    && (pid == PID_INIT ==> s.cur == Some(s.idle) && (s.init.Some? ==> s.init.value !in s.procs))
    && (s.init.None? ==> pid == PID_INIT)
  }

  lemma FreshId(s: State)
    requires Inv(s)
    ensures s.next !in s.procs && s.next !in s.all
  {
  }

  lemma CreatedChildren(s: State, pid: int, nextPid: nat, q: ProcId)
    requires Inv(s) && CreateOk(s, pid, nextPid) && q in Created(s, pid, nextPid).procs
    ensures ChildrenOk(Created(s, pid, nextPid), q)
  {
    var p, c := s.cur.value, s.next;
    FreshId(s);
    if q == c {
      assert NoRepeats<ProcId>([]);
    } else {
      Facts(s, q);
      hide Inv, WaitOk, ParentOk;
      if q == p { NoRepeatsConcat(s.procs[p].children, [c]); }
      hide NoRepeats;
    }
  }

  lemma CreatedParent(s: State, pid: int, nextPid: nat, q: ProcId)
    requires Inv(s) && CreateOk(s, pid, nextPid) && q in Created(s, pid, nextPid).procs && q != s.idle
    ensures ParentOk(Created(s, pid, nextPid), q)
  {
    FreshId(s);
    Facts(s, s.cur.value);
    if q != s.next { Facts(s, q); }
    hide TreeOk, InitOk, ChildrenOk, WaitOk, NoRepeats;
  }

  lemma CreatedWait(s: State, pid: int, nextPid: nat, q: ProcId)
    requires Inv(s) && CreateOk(s, pid, nextPid) && q in Created(s, pid, nextPid).procs
    ensures WaitOk(Created(s, pid, nextPid), q)
  {
    FreshId(s);
    if q != s.next {
      Facts(s, q);
      hide Inv, ParentOk, NoRepeats;
    }
  }

  lemma CreatedProc(s: State, pid: int, nextPid: nat, q: ProcId)
    requires Inv(s) && CreateOk(s, pid, nextPid) && q in Created(s, pid, nextPid).procs
    ensures ProcOk(Created(s, pid, nextPid), q)
  {
    hide Inv, ChildrenOk, ParentOk, WaitOk, NoRepeats;
    CreatedChildren(s, pid, nextPid, q);
    if q != s.idle { CreatedParent(s, pid, nextPid, q); }
    CreatedWait(s, pid, nextPid, q);
  }

  lemma CreatedInit(s: State, pid: int, nextPid: nat)
    requires Inv(s) && CreateOk(s, pid, nextPid)
    ensures InitOk(Created(s, pid, nextPid))
  {
    FreshId(s);
    var s' := Created(s, pid, nextPid);
    forall q | q in s'.procs && q != s.idle
      ensures PidOk(s', q)
    {
      if q != s.next { assert PidOk(s, q); }
    }
    hide TreeOk;
  }

  lemma CreateKeeps(s: State, pid: int, nextPid: nat)
    requires Inv(s) && CreateOk(s, pid, nextPid)
    ensures Inv(Created(s, pid, nextPid))
  {
    hide Inv, ProcOk, BaseOk, Created;
    var s' := Created(s, pid, nextPid);
    forall q | q in s'.procs
      ensures ProcOk(s', q)
    {
      CreatedProc(s, pid, nextPid, q);
    }
    CreatedBase(s, pid, nextPid);
    Assemble(s');
  }

  lemma CreatedBase(s: State, pid: int, nextPid: nat)
    requires Inv(s) && CreateOk(s, pid, nextPid)
    ensures BaseOk(Created(s, pid, nextPid))
  {
    CreatedList(s, pid, nextPid);
    CreatedInit(s, pid, nextPid);
    FreshId(s);
    hide ListOk, InitOk;
  }

  lemma CreatedList(s: State, pid: int, nextPid: nat)
    requires Inv(s) && CreateOk(s, pid, nextPid)
    ensures ListOk(Created(s, pid, nextPid))
  {
    FreshId(s);
    NoRepeatsConcat(s.all, [s.next]);
    hide NoRepeats, InitOk;
  }

  // ---------------------------------------------------------------------------------------------
  // proc_cleanup

  /** The wake-up of the parent of `p`, and the move of `kids` to init, as they affect `q`. */
  function Adopted(s: State, p: ProcId, q: ProcId, kids: seq<ProcId>): (r: Proc)
    requires p in s.procs && q in s.procs
  {
    var woken := if s.procs[p].parent == Some(q) then s.procs[q].(wait := Awake(s.procs[q].wait)) else s.procs[q];
    var moved := if q in kids then woken.(parent := s.init) else woken;
    if s.init == Some(q) then moved.(children := moved.children + kids) else moved
  }

  /** What an exit of the current process `p` does to process `q`. */
  function ExitedProc(s: State, p: ProcId, q: ProcId, status: int): (r: Proc)
    requires p in s.procs && q in s.procs
  {
    var adopted := Adopted(s, p, q, s.procs[p].children);
    if q == p then adopted.(state := Dead, status := status, children := []) else adopted
  }

  function Exited(s: State, status: int): (r: State)
    requires s.cur.Some? && s.cur.value in s.procs
  {
    s.(procs := map q | q in s.procs :: ExitedProc(s, s.cur.value, q, status), cur := None)
  }

  /** Idle never exits, init only without children, and a process with pid -1 trips an assertion. */
  ghost predicate ExitOk(s: State) {
    && s.cur.Some? && s.cur.value in s.procs && s.cur != Some(s.idle) && s.procs[s.cur.value].wait == NotWaiting
    && s.procs[s.cur.value].pid != -1
    && (s.cur == s.init ==> s.procs[s.cur.value].children == [])
  }

  /** There are no children to hand on, or init is there to take them. */
  ghost predicate ExitSafe(s: State)
    requires ExitOk(s)
  {
    || s.procs[s.cur.value].children == []
    || (s.init.Some? && s.init.value in s.procs && s.procs[s.init.value].state == Running)
  }

  /** proc_cleanup links children to an init that has been disposed of. */
  ghost predicate UsesFreedInit(s: State)
    requires ExitOk(s)
  {
    s.procs[s.cur.value].children != [] && s.init.Some? && s.init.value !in s.procs
  }

  /** A child that is handed on gets init as its parent. */
  lemma KidParent(s: State, status: int, q: ProcId)
    requires Inv(s) && ExitOk(s) && ExitSafe(s) && q in s.procs[s.cur.value].children
    ensures q in s.procs && q != s.idle && ParentOk(Exited(s, status), q)
  {
    var p, i := s.cur.value, s.init.value;
    Facts(s, p);
    InitFacts(s);
    Facts(s, i);
    hide Inv, NoRepeats, WaitOk;
  }

  /** Every other process keeps its parent, which is not the one that exits. */
  lemma OtherParent(s: State, status: int, q: ProcId)
    requires Inv(s) && ExitOk(s) && q in s.procs && q != s.idle && q !in s.procs[s.cur.value].children
    ensures ParentOk(Exited(s, status), q)
  {
    var p := s.cur.value;
    Facts(s, q);
    var r := s.procs[q].parent.value;
    if s.init == Some(r) && s.procs[r].parent == Some(s.idle) {
      KeptParent(s, status, r);
    }
    hide Inv, NoRepeats, WaitOk, ChildrenOk;
    assert r != p;
  }

  lemma KeptParent(s: State, status: int, r: ProcId)
    requires Inv(s) && ExitOk(s) && r in s.procs && s.procs[r].parent == Some(s.idle)
    ensures Exited(s, status).procs[r].parent == Some(s.idle)
  {
    Facts(s, s.cur.value);
    hide Inv, NoRepeats, WaitOk, ParentOk;
  }

  lemma ExitedParent(s: State, status: int, q: ProcId)
    requires Inv(s) && ExitOk(s) && ExitSafe(s) && q in s.procs && q != s.idle
    ensures ParentOk(Exited(s, status), q)
  {
    hide Inv, ExitSafe, ParentOk;
    if q in s.procs[s.cur.value].children {
      KidParent(s, status, q);
    } else {
      OtherParent(s, status, q);
    }
  }

  lemma InitFacts(s: State)
    requires Inv(s) && s.init.Some? && s.init.value in s.procs
    ensures s.procs[s.init.value].pid == PID_INIT && s.procs[s.init.value].parent == Some(s.idle)
    ensures s.init.value != s.idle
  {
  }

  /** Init's list after the exit holds its own children and those handed on, each once. */
  lemma InitChildren(s: State, status: int, q: ProcId)
    requires Inv(s) && ExitOk(s) && ExitSafe(s) && q in s.procs && s.init == Some(q) && q != s.cur.value
    ensures ChildrenOk(Exited(s, status), q)
  {
    hide Inv, WaitOk, ParentOk, ChildrenOk;
    Facts(s, s.cur.value);
    Facts(s, q);
    JoinedChildren(s, status, q);
  }

  lemma JoinedChildren(s: State, status: int, q: ProcId)
    requires ExitOk(s) && ChildrenOk(s, s.cur.value) && q in s.procs && ChildrenOk(s, q)
    requires s.init == Some(q) && q != s.cur.value
    requires s.procs[q].state == Running || s.procs[s.cur.value].children == []
    ensures ChildrenOk(Exited(s, status), q)
  {
    var p, s' := s.cur.value, Exited(s, status);
    var kids := s.procs[p].children;
    assert forall c :: c in kids ==> c !in s.procs[q].children;
    NoRepeatsConcat(s.procs[q].children, kids);
    hide NoRepeats, Awake;
    assert s'.procs[q].children == s.procs[q].children + kids;
    forall c | c in s'.procs[q].children
      ensures c in s'.procs && s'.procs[c].parent == Some(q)
    {
      if c in kids { assert c in s.procs; }
    }
  }

  lemma ExitedChildren(s: State, status: int, q: ProcId)
    requires Inv(s) && ExitOk(s) && ExitSafe(s) && q in s.procs
    ensures ChildrenOk(Exited(s, status), q)
  {
    hide Inv, WaitOk, ParentOk, ExitSafe, ChildrenOk, NoRepeats, ParentRuns;
    var p := s.cur.value;
    if q != p && s.init == Some(q) {
      InitChildren(s, status, q);
    } else {
      Facts(s, p);
      Facts(s, q);
      PlainChildren(s, status, q);
    }
  }

  /** Anyone but init keeps its children; the process that exits has none any more. */
  lemma PlainChildren(s: State, status: int, q: ProcId)
    requires ExitOk(s) && q in s.procs && (q == s.cur.value || s.init != Some(q))
    requires ChildrenOk(s, q) && ChildrenOk(s, s.cur.value)
    ensures ChildrenOk(Exited(s, status), q)
  {
    var p, s' := s.cur.value, Exited(s, status);
    if q == p {
      assert NoRepeats<ProcId>([]);
    } else {
      hide NoRepeats;
      forall c | c in s.procs[q].children
        ensures c in s'.procs && s'.procs[c].parent == Some(q)
      {
      }
    }
  }

  lemma ExitedWait(s: State, status: int, q: ProcId)
    requires Inv(s) && ExitOk(s) && ExitSafe(s) && q in s.procs
    ensures WaitOk(Exited(s, status), q)
  {
    var p := s.cur.value;
    Facts(s, p);
    Facts(s, q);
    if q != p && s.init != Some(q) {
      PlainWait(s, status, q);
    } else {
      hide NoRepeats, Inv, ParentOk;
    }
  }

  /** Anyone but init and the process that exits keeps its children. */
  lemma PlainWait(s: State, status: int, q: ProcId)
    requires Inv(s) && ExitOk(s) && q in s.procs && q != s.cur.value && s.init != Some(q)
    ensures WaitOk(Exited(s, status), q)
  {
    hide NoRepeats, Inv, ParentOk, InitOk, ParentRuns;
    var p := s.cur.value;
    Facts(s, q);
    if p in s.procs[q].children { assert s.procs[p].parent == Some(q); }
    match s.procs[q].wait
    case AsleepAny => AnyWait(s, status, q);
    case _ =>
  }

  lemma AnyWait(s: State, status: int, q: ProcId)
    requires ExitOk(s) && q in s.procs && q != s.cur.value && s.init != Some(q) && s.procs[q].wait == AsleepAny
    requires ChildrenOk(s, q) && WaitOk(s, q)
    ensures WaitOk(Exited(s, status), q)
  {
    var p, s' := s.cur.value, Exited(s, status);
    if s.procs[p].parent != Some(q) {
      assert s'.procs[q].children == s.procs[q].children && p !in s.procs[q].children;
    }
    hide NoRepeats;
  }

  lemma ExitKeeps(s: State, status: int)
    requires Inv(s) && ExitOk(s) && ExitSafe(s)
    ensures Inv(Exited(s, status))
  {
    hide Inv, ProcOk, BaseOk, Exited, ExitSafe;
    var s' := Exited(s, status);
    SameProcs(s, status);
    forall q | q in s'.procs
      ensures ProcOk(s', q)
    {
      ExitedProcOk(s, status, q);
    }
    ExitedInit(s, status);
    Assemble(s');
  }

  lemma SameProcs(s: State, status: int)
    requires ExitOk(s)
    ensures Exited(s, status).procs.Keys == s.procs.Keys && Exited(s, status).idle == s.idle
  {
  }

  lemma ExitedProcOk(s: State, status: int, q: ProcId)
    requires Inv(s) && ExitOk(s) && ExitSafe(s) && q in s.procs
    ensures ProcOk(Exited(s, status), q)
  {
    hide Inv, ExitOk, ExitSafe, ChildrenOk, ParentOk, WaitOk, ExitedProc;
    ExitedChildren(s, status, q);
    ExitedWait(s, status, q);
    if q != s.idle { ExitedParent(s, status, q); }
  }

  lemma ExitedInit(s: State, status: int)
    requires Inv(s) && ExitOk(s)
    ensures BaseOk(Exited(s, status))
  {
    var s', p := Exited(s, status), s.cur.value;
    InitSet(s, p);
    Facts(s, p);
    if s.init.value in s.procs { InitFacts(s); }
    forall q | q in s'.procs && q != s.idle
      ensures PidOk(s', q)
    {
      assert PidOk(s, q);
    }
    assert s'.procs.Keys == s.procs.Keys;
    hide NoRepeats;
  }

  ghost predicate ParentsRun(s: State) {
    forall c {:trigger ParentRuns(s, c)} :: c in s.procs && c != s.idle ==> ParentRuns(s, c)
  }

  /** After an exit every process but idle has a running parent exactly when the exit was safe. */
  lemma ExitExact(s: State, status: int)
    requires Inv(s) && ExitOk(s)
    ensures ParentsRun(Exited(s, status)) <==> ExitSafe(s)
  {
    var s', p := Exited(s, status), s.cur.value;
    if ExitSafe(s) {
      ExitKeeps(s, status);
      forall c | c in s'.procs && c != s.idle
        ensures ParentRuns(s', c)
      {
        assert ParentOk(s', c);
      }
    } else {
      var c := s.procs[p].children[0];
      Facts(s, p);
      Facts(s, c);
      InitSet(s, p);
      hide Inv, NoRepeats;
      assert !ParentRuns(s', c);
    }
  }

  // ---------------------------------------------------------------------------------------------
  // do_waitpid

  /** Disposing of the dead child `c` of the current process, whose wait is over. */
  function Reaped(s: State, c: ProcId): (r: State)
    requires s.cur.Some? && s.cur.value in s.procs
  {
    var p := s.cur.value;
    s.(procs := s.procs[p := s.procs[p].(children := Unlink(s.procs[p].children, c), wait := NotWaiting)] - {c},
       all := Unlink(s.all, c))
  }

  ghost predicate ReapOk(s: State, c: ProcId) {
    && s.cur.Some? && s.cur.value in s.procs
    && c in s.procs[s.cur.value].children && c in s.procs && s.procs[c].state == Dead
  }

  lemma ReapedChildren(s: State, c: ProcId, q: ProcId)
    requires Inv(s) && ReapOk(s, c) && q in s.procs && q != c
    ensures ChildrenOk(Reaped(s, c), q)
  {
    hide NoRepeats, Unlink, WaitOk, InitOk, Inv, ParentOk;
    Facts(s, q);
    if q == s.cur.value {
      NoRepeatsUnlink(s.procs[q].children, c);
      CurrentRuns(s);
    } else {
      Facts(s, s.cur.value);
    }
  }

  lemma ReapedParent(s: State, c: ProcId, q: ProcId)
    requires Inv(s) && ReapOk(s, c) && q in s.procs && q != c && q != s.idle
    ensures ParentOk(Reaped(s, c), q)
  {
    hide NoRepeats, Unlink, WaitOk, InitOk, Inv, ChildrenOk;
    Facts(s, s.cur.value);
    Facts(s, q);
    ReapedTwo(s, c, q);
    NoRepeatsUnlink(s.procs[s.cur.value].children, c);
  }

  /** A dead child is not the parent of anyone. */
  lemma ReapedTwo(s: State, c: ProcId, q: ProcId)
    requires Inv(s) && ReapOk(s, c) && q in s.procs && q != s.idle
    ensures s.procs[q].parent != Some(c) && NoRepeats(s.procs[s.cur.value].children)
    ensures q in s.procs[s.cur.value].children ==> s.procs[q].parent == s.cur
  {
    hide WaitOk, InitOk;
    Facts(s, q);
    Facts(s, s.cur.value);
  }

  lemma ReapedWait(s: State, c: ProcId, q: ProcId)
    requires Inv(s) && ReapOk(s, c) && q in s.procs && q != c
    ensures WaitOk(Reaped(s, c), q)
  {
    Facts(s, s.cur.value);
    Facts(s, q);
    hide NoRepeats, Unlink, InitOk;
  }

  lemma ReapKeeps(s: State, c: ProcId)
    requires Inv(s) && ReapOk(s, c)
    ensures Inv(Reaped(s, c))
  {
    hide Inv, ProcOk, BaseOk, Reaped;
    var s' := Reaped(s, c);
    ReapedIds(s, c);
    forall q | q in s'.procs
      ensures ProcOk(s', q)
    {
      ReapedProcOk(s, c, q);
    }
    ReapedBase(s, c);
    Assemble(s');
  }

  lemma ReapedIds(s: State, c: ProcId)
    requires Inv(s) && ReapOk(s, c)
    ensures Reaped(s, c).procs.Keys == s.procs.Keys - {c} && Reaped(s, c).idle == s.idle
  {
    hide TreeOk, InitOk, Unlink;
  }

  lemma ReapedProcOk(s: State, c: ProcId, q: ProcId)
    requires Inv(s) && ReapOk(s, c) && q in s.procs && q != c
    ensures q in Reaped(s, c).procs && ProcOk(Reaped(s, c), q)
  {
    hide Inv, ReapOk, ChildrenOk, ParentOk, WaitOk;
    ReapedChildren(s, c, q);
    if q != s.idle { ReapedParent(s, c, q); }
    ReapedWait(s, c, q);
  }

  lemma ReapedBase(s: State, c: ProcId)
    requires Inv(s) && ReapOk(s, c)
    ensures BaseOk(Reaped(s, c))
  {
    ReapedList(s, c);
    ReapedInit(s, c);
    hide ListOk, InitOk, Unlink;
  }

  lemma ReapedList(s: State, c: ProcId)
    requires Inv(s) && ReapOk(s, c)
    ensures ListOk(Reaped(s, c))
  {
    NoRepeatsUnlink(s.all, c);
    hide NoRepeats, Unlink, InitOk;
  }

  lemma ReapedInit(s: State, c: ProcId)
    requires Inv(s) && ReapOk(s, c)
    ensures InitOk(Reaped(s, c)) && c != s.idle && c != s.cur.value
  {
    Facts(s, s.cur.value);
    Facts(s, c);
    InitSet(s, c);
    var s' := Reaped(s, c);
    forall q | q in s'.procs && q != s.idle
      ensures PidOk(s', q)
    {
      assert PidOk(s, q);
    }
    hide NoRepeats, Unlink;
  }

  /** The current process goes to sleep on its p_wait. */
  function Slept(s: State, w: Wait): (r: State)
    requires s.cur.Some? && s.cur.value in s.procs
  {
    s.(procs := s.procs[s.cur.value := s.procs[s.cur.value].(wait := w)], cur := None)
  }

  ghost predicate SleepOk(s: State, w: Wait) {
    && s.cur.Some? && s.cur.value in s.procs
    && var kids := s.procs[s.cur.value].children;
       match w
       case AsleepAny => forall c :: c in kids && c in s.procs ==> s.procs[c].state == Running
       case AsleepFor(c, seen) => c in kids && c in s.procs && s.procs[c].state == Running && seen == s.procs[c].status
       case _ => false
  }

  /** Nothing changes but who runs and who waits. */
  ghost predicate SameTree(s: State, s': State) {
    && s' == s.(procs := s'.procs, cur := s'.cur) && s'.procs.Keys == s.procs.Keys
    && forall q :: q in s.procs ==> s'.procs[q] == s.procs[q].(wait := s'.procs[q].wait)
  }

  lemma SameTreeProc(s: State, s': State, q: ProcId)
    requires Inv(s) && q in s.procs && SameTree(s, s')
    ensures ChildrenOk(s', q) && (q != s.idle ==> ParentOk(s', q))
  {
    Facts(s, q);
    hide NoRepeats, Inv, WaitOk;
  }

  lemma SameTreeKeeps(s: State, s': State)
    requires Inv(s) && SameTree(s, s')
    ensures TreeOk(s') && InitOk(s')
  {
    hide NoRepeats, ChildrenOk, ParentOk;
    forall q | q in s'.procs && q != s.idle
      ensures PidOk(s', q)
    {
      assert PidOk(s, q);
    }
    forall q | q in s'.procs
      ensures ChildrenOk(s', q) && (q != s.idle ==> ParentOk(s', q))
    {
      SameTreeProc(s, s', q);
    }
  }

  lemma SleepKeeps(s: State, w: Wait)
    requires Inv(s) && SleepOk(s, w)
    ensures Inv(Slept(s, w))
  {
    SameTreeKeeps(s, Slept(s, w));
    if w.AsleepFor? { Facts(s, w.c); }
    hide NoRepeats, TreeOk, InitOk;
    forall q | q in s.procs
      ensures WaitOk(Slept(s, w), q)
    {
      Facts(s, q);
    }
  }

  function Scheduled(s: State, p: ProcId): (r: State) { s.(cur := Some(p)) }

  lemma ScheduleKeeps(s: State, p: ProcId)
    requires Inv(s) && p in s.procs && s.procs[p].state == Running && !Asleep(s.procs[p].wait)
    ensures Inv(Scheduled(s, p))
  {
    SameTreeKeeps(s, Scheduled(s, p));
    hide NoRepeats, TreeOk, InitOk;
    forall q | q in s.procs
      ensures WaitOk(Scheduled(s, p), q)
    {
      Facts(s, q);
    }
  }

  // ---------------------------------------------------------------------------------------------
  // Pids

  /** The k-th pid from `next` on, cyclically. */
  function Cyclic(next: nat, k: nat, max: nat): (pid: int) { if next + k < max then next + k else next + k - max }

  lemma CyclicIs(next: nat, k: nat, max: nat)
    requires next < max && k < max
    ensures Cyclic(next, k, max) == (next + k) % max
  {
    if next + k >= max {
      assert (next + k) / max == 1 && (next + k) % max == next + k - max;
    }
  }

  /** _proc_getid: the first unused pid in cyclic order, or -1 when there is none. */
  ghost predicate PidChosen(s: State, pid: int, nextPid: nat) {
    || (&& pid == -1 && nextPid == s.nextPid
        && forall i :: 0 <= i < s.max ==> i in Pids(s))
    || (&& 0 <= pid < s.max && pid !in Pids(s) && nextPid == (pid + 1) % s.max
        && exists k: nat :: k < s.max && pid == Cyclic(s.nextPid, k, s.max) && AllTaken(s, k))
  }

  /** The first `k` pids from next_pid on are in use. */
  ghost predicate AllTaken(s: State, k: nat) {
    forall j: nat :: j < k ==> Cyclic(s.nextPid, j, s.max) in Pids(s)
  }

  lemma {:induction false} CyclicCovers(next: nat, max: nat, i: nat) returns (k: nat)
    requires next < max && i < max
    ensures k < max && Cyclic(next, k, max) == i
  {
    k := if i >= next then i - next else i - next + max;
  }

  /**
   * The pid chosen is never 0. It is 1 only while no init exists, and then the assertion of
   * proc_create holds exactly when idle is the one who creates.
   */
  lemma PidFits(s: State, pid: int, nextPid: nat)
    requires Inv(s) && PidChosen(s, pid, nextPid) && s.cur.Some? && s.procs[s.cur.value].wait == NotWaiting
    ensures pid != PID_IDLE && (pid == PID_INIT && s.init.Some? ==> s.init.value !in s.procs)
    ensures CreateOk(s, pid, nextPid) <==> (pid == PID_INIT ==> s.cur == Some(s.idle))
  {
    assert s.procs[s.idle].pid in Pids(s);
    if s.init.None? {
      assert forall i :: i in Pids(s) ==> i == PID_IDLE;
      assert PID_INIT !in Pids(s) && pid != -1;
      var k: nat :| k < s.max && pid == Cyclic(s.nextPid, k, s.max) && AllTaken(s, k);
      assert Cyclic(s.nextPid, 0, s.max) == PID_INIT;
    } else if s.init.value in s.procs {
      assert s.procs[s.init.value].pid in Pids(s);
    }
  }

  ghost predicate UniquePids(s: State) {
    forall p, q :: p in s.procs && q in s.procs && s.procs[p].pid == s.procs[q].pid ==> p == q
  }

  /** Every pid is taken, and so is -1. */
  ghost predicate Exhausted(s: State) {
    (forall i :: 0 <= i < s.max ==> i in Pids(s)) && -1 in Pids(s)
  }

  /** A creation keeps pids unique except when every pid is taken and a process already has pid -1. */
  lemma PidsStayUnique(s: State, pid: int, nextPid: nat)
    requires Inv(s) && UniquePids(s) && PidChosen(s, pid, nextPid) && CreateOk(s, pid, nextPid)
    ensures UniquePids(Created(s, pid, nextPid)) <==> !Exhausted(s)
  {
    var s', c := Created(s, pid, nextPid), s.next;
    FreshId(s);
    hide Inv;
    assert s'.procs[c].pid == pid;
    assert forall q :: q in s.procs ==> s'.procs[q].pid == s.procs[q].pid && s.procs[q].pid in Pids(s);
    if pid in Pids(s) {
      var q :| q in s.procs && s.procs[q].pid == pid;
      assert s'.procs[q].pid == s'.procs[c].pid && q != c;
    }
  }

  // ---------------------------------------------------------------------------------------------
  // Init and inherited zombies

  /** Init sleeps in do_waitpid(-1) beside a dead child. */
  ghost predicate InitStuck(s: State) {
    && s.init.Some? && s.init.value in s.procs && s.procs[s.init.value].wait == AsleepAny
    && exists c :: c in s.procs[s.init.value].children && c in s.procs && s.procs[c].state == Dead
  }

  ghost predicate HasZombie(s: State, p: ProcId)
    requires p in s.procs
  {
    exists c :: c in s.procs[p].children && c in s.procs && s.procs[c].state == Dead
  }

  /**
   * An exit wakes only the parent of the process that exits. So an exit leaves init asleep beside
   * a zombie exactly when init was asleep, was not that parent, and inherits a zombie.
   */
  lemma ExitStrandsInit(s: State, status: int)
    requires Inv(s) && ExitOk(s) && ExitSafe(s) && !InitStuck(s)
    ensures InitStuck(Exited(s, status)) <==>
      && s.init.Some? && s.init.value in s.procs && s.procs[s.init.value].wait == AsleepAny
      && s.procs[s.cur.value].parent != s.init && HasZombie(s, s.cur.value)
  {
    var s', p := Exited(s, status), s.cur.value;
    InitSet(s, p);
    var i := s.init.value;
    Facts(s, p);
    if i in s.procs {
      Facts(s, i);
      hide Inv, NoRepeats;
      assert s'.procs[i].children == if p == i then [] else s.procs[i].children + s.procs[p].children;
      if HasZombie(s, p) && p != i {
        var c :| c in s.procs[p].children && c in s.procs && s.procs[c].state == Dead;
        assert c in s'.procs[i].children && s'.procs[c].state == Dead;
      }
    }
  }
}
