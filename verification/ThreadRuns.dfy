/** Runs of the scheduler and the mutexes: nothing is lost, locks exclude, and waiting is fair. */
module ThreadRuns {
  import opened Lists
  import opened Threads

  datatype Step =
    | Create(t: Tid)
    | Start(t: Tid)
    | Yield
    | SleepOn(w: nat)
    | CancellableSleepOn(w: nat)
    | WakeupOn(w: nat)
    | BroadcastOn(w: nat)
    | Cancel(t: Tid)
    | CancelSelf
    | Exit
    | Destroy(t: Tid)
    | Lock(m: MutexId)
    | LockCancellable(m: MutexId)
    | Unlock(m: MutexId)
    | Dispatch

  /** kmutex_lock_cancellable trips the assertion of kmutex_unlock: the holder was cancelled. */
  predicate Panics(s: State, step: Step) {
    && step.LockCancellable? && step.m in s.holders && s.holders[step.m] in s.threads
    && s.threads[s.holders[step.m]].cancelled
  }

  /** The step can be taken: by the current thread, or by an interrupt when it only wakes. */
  ghost predicate Enabled(s: State, step: Step) {
    match step
    case Create(t) => !s.switching && t !in s.threads
    case Start(t) => !s.switching && t in s.newborn && t in s.threads
    case WakeupOn(_) => true
    case BroadcastOn(_) => true
    case Cancel(t) => !s.switching && t in s.threads && t != s.cur
    case Destroy(t) => !s.switching && t in s.threads && t != s.cur && s.threads[t].state == Exited && HoldsNone(s, t)
    case Lock(m) => !s.switching && HolderOf(s, m) != Some(s.cur)
    case LockCancellable(m) => !s.switching && HolderOf(s, m) != Some(s.cur) && !Panics(s, step)
    case Unlock(m) => !s.switching && HolderOf(s, m) == Some(s.cur)
    case Dispatch => s.switching && At(s, RunQ).list != []
    case _ => !s.switching
  }

  lemma AllLive(s: State)
    requires Inv(s)
    ensures s.cur in s.threads && forall q :: QueueOk(s, q)
  {
  }

  ghost function Next(s: State, step: Step): (r: State)
    requires Inv(s) && Enabled(s, step)
  {
    AllLive(s);
    match step
    case Create(t) => Created(s, t)
    case Start(t) => Started(s, t)
    case Yield => Yielded(s)
    case SleepOn(w) => SleptOn(s, WaitQ(w), Sleep, Sleeping)
    case CancellableSleepOn(w) =>
      if s.threads[s.cur].cancelled then s else SleptOn(s, WaitQ(w), SleepCancellable, Sleeping)
    case WakeupOn(w) => WokenOn(s, WaitQ(w))
    case BroadcastOn(w) => Drained(s, w)
    case Cancel(t) => CancelledThread(s, t)
    case CancelSelf => SelfCancelled(s)
    case Exit => ExitedThread(s)
    case Destroy(t) => Destroyed(s, t)
    case Lock(m) => if m in s.holders then SleptOn(s, LockQ(m), Sleep, InLock(m)) else Taken(s, m)
    case LockCancellable(m) =>
      if m !in s.holders then Taken(s, m)
      else if s.threads[s.cur].cancelled then s
      else SleptOn(s, LockQ(m), SleepCancellable, InLockCancellable(m))
    case Unlock(m) => Unlocked(s, m)
    case Dispatch => Dispatched(s)
  }

  lemma NextKeeps(s: State, step: Step)
    requires Inv(s) && Enabled(s, step)
    ensures Inv(Next(s, step))
  {
    hide Inv, Created, Started, Yielded, SleptOn, WokenOn, Drained, CancelledThread, ExitedThread, SelfCancelled,
      Destroyed, HoldsNone, Taken, Unlocked, Dispatched;
    AllLive(s);
    match step
    case Create(t) => CreateKeeps(s, t);
    case Start(t) => StartKeeps(s, t);
    case Yield => YieldKeeps(s);
    case SleepOn(w) => SleepKeeps(s, WaitQ(w), Sleep, Sleeping);
    case CancellableSleepOn(w) =>
      if !s.threads[s.cur].cancelled { SleepKeeps(s, WaitQ(w), SleepCancellable, Sleeping); }
    case WakeupOn(w) => WokenKeeps(s, w);
    case BroadcastOn(w) => DrainedKeeps(s, w);
    case Cancel(t) => CancelKeeps(s, t);
    case CancelSelf => CancelSelfKeeps(s);
    case Exit => ExitKeeps(s);
    case Destroy(t) => DestroyKeeps(s, t);
    case Lock(m) => if m in s.holders { SleepKeeps(s, LockQ(m), Sleep, InLock(m)); } else { TakeKeeps(s, m); }
    case LockCancellable(m) =>
      if m !in s.holders { TakeKeeps(s, m); }
      else if !s.threads[s.cur].cancelled { SleepKeeps(s, LockQ(m), SleepCancellable, InLockCancellable(m)); }
    case Unlock(m) => UnlockKeeps(s, m);
    case Dispatch => DispatchKeeps(s);
  }

  ghost predicate Runs(s: State, steps: seq<Step>, s': State)
    requires Inv(s)
    decreases |steps|
  {
    if steps == [] then s' == s
    else Enabled(s, steps[0]) && (NextKeeps(s, steps[0]); Runs(Next(s, steps[0]), steps[1..], s'))
  }

  /** No thread is lost or duplicated, whatever the run. */
  lemma {:induction false} RunKeeps(s: State, steps: seq<Step>, s': State)
    requires Inv(s) && Runs(s, steps, s')
    ensures Inv(s')
    decreases |steps|
  {
    hide Inv, Enabled, Next;
    if steps != [] {
      NextKeeps(s, steps[0]);
      RunKeeps(Next(s, steps[0]), steps[1..], s');
    }
  }

  /** Boot: one thread, running. */
  function Boot(t: Tid): (s: State) {
    State(map[t := Thread(Run, None, false)], map[], t, false, map[], map[], {}, {})
  }

  lemma BootInv(t: Tid)
    ensures Inv(Boot(t))
  {
  }

  /** Some run from boot does `steps` and ends in `s`. */
  ghost predicate BootRuns(t: Tid, steps: seq<Step>, s: State) {
    BootInv(t);
    Runs(Boot(t), steps, s)
  }

  lemma AlwaysInv(boot: Tid, steps: seq<Step>, s: State)
    requires BootRuns(boot, steps, s)
    ensures Inv(s)
  {
    hide Inv;
    BootInv(boot);
    RunKeeps(Boot(boot), steps, s);
  }

  lemma {:induction false} RunsOn(s: State, steps: seq<Step>, s': State, step: Step)
    requires Inv(s) && Runs(s, steps, s') && Inv(s') && Enabled(s', step)
    ensures Runs(s, steps + [step], Next(s', step))
    decreases |steps|
  {
    hide Inv, Enabled, Next;
    if steps == [] {
      assert (steps + [step])[1..] == [];
      NextKeeps(s, step);
    } else {
      NextKeeps(s, steps[0]);
      assert (steps + [step])[1..] == steps[1..] + [step];
      RunsOn(Next(s, steps[0]), steps[1..], s', step);
    }
  }

  // ---------------------------------------------------------------------------------------------
  // Mutual exclusion

  /**
   * In every state of every run: between the return of its lock and its unlock, a thread is the
   * only one that has the mutex.
   */
  lemma MutualExclusion(boot: Tid, steps: seq<Step>, s: State, t: Tid, u: Tid, m: MutexId)
    requires BootRuns(boot, steps, s) && (t, m) in s.held
    ensures HolderOf(s, m) == Some(t) && ((u, m) in s.held ==> u == t) && t !in At(s, LockQ(m)).list
  {
    AlwaysInv(boot, steps, s);
    assert t in s.threads ==> CallOk(s, t);
    hide BootRuns;
  }

  /** In every state of every run: whoever waits for a mutex waits for a holder that does not. */
  lemma WaitersHaveHolder(boot: Tid, steps: seq<Step>, s: State, m: MutexId)
    requires BootRuns(boot, steps, s) && At(s, LockQ(m)).list != []
    ensures HolderOf(s, m).Some? && HolderOf(s, m).value in s.threads && HolderOf(s, m).value !in At(s, LockQ(m)).list
  {
    AlwaysInv(boot, steps, s);
    hide BootRuns;
    var t := At(s, LockQ(m)).list[0];
    assert t in At(s, LockQ(m)).list && CallOk(s, t) && MutexOk(s, m);
    var h := s.holders[m];
    assert h in s.threads && CallOk(s, h);
  }

  lemma {:induction false} DrainedFrame(s: State, w: nat, m: MutexId)
    requires Inv(s)
    ensures Drained(s, w).held == s.held && Drained(s, w).holders == s.holders && Drained(s, w).cur == s.cur
    ensures Drained(s, w).switching == s.switching
    ensures At(Drained(s, w), LockQ(m)).list == At(s, LockQ(m)).list
    decreases |At(s, WaitQ(w)).list|
  {
    hide Inv;
    WokenKeeps(s, w);
    if At(s, WaitQ(w)).list != [] {
      DrainedFrame(WokenOn(s, WaitQ(w)), w, m);
    }
  }

  /** Only its own unlock takes a lock away from a thread. */
  lemma HeldUntilUnlock(s: State, step: Step, t: Tid, m: MutexId)
    requires Inv(s) && Enabled(s, step) && (t, m) in s.held && (t, m) !in Next(s, step).held
    ensures step == Unlock(m) && s.cur == t
  {
    hide Unlink, Drained, QueueOk, NoRepeats;
    AllLive(s);
    assert HolderOf(s, m) == Some(t);
    hide Inv;
    if step.BroadcastOn? { DrainedFrame(s, step.w, m); }
  }

  /**
   * In every state of every run: a mutex whose holder neither has it nor is about to return with
   * it has a holder that was cancelled.
   */
  lemma OrphanWasCancelled(boot: Tid, steps: seq<Step>, s: State, m: MutexId)
    requires BootRuns(boot, steps, s) && m in s.holders && (s.holders[m], m) !in s.held
    requires CallOf(s, s.holders[m]) != InLock(m) && CallOf(s, s.holders[m]) != InLockCancellable(m)
    ensures s.holders[m] in s.threads && s.threads[s.holders[m]].cancelled
  {
    AlwaysInv(boot, steps, s);
    assert MutexOk(s, m);
    hide BootRuns, QueuesOk, ThreadOk, CallOk;
  }

  // The panic of kmutex_lock_cancellable

  lemma RunOn(boot: Tid, steps: seq<Step>, s: State, step: Step)
    requires BootRuns(boot, steps, s) && Inv(s) && Enabled(s, step)
    ensures BootRuns(boot, steps + [step], Next(s, step)) && Inv(Next(s, step))
  {
    hide Inv, Enabled, Next;
    BootInv(boot);
    RunsOn(Boot(boot), steps, s, step);
    NextKeeps(s, step);
  }

  /** Two runnable threads that nobody has cancelled, on the queues `w0` and `w1`. */
  function Pair(w0: Option<Queue>, w1: Option<Queue>): (threads: map<Tid, Thread>) {
    map[0 := Thread(Run, w0, false), 1 := Thread(Run, w1, false)]
  }

  function Born(): (s: State) { State(Pair(None, None), map[], 0, false, map[], map[], {1}, {}) }

  function Begun(): (s: State) {
    State(Pair(None, Some(RunQ)), map[RunQ := KtQueue([1], 1)], 0, false, map[], map[], {}, {})
  }

  function Owned(): (s: State) {
    State(Pair(None, Some(RunQ)), map[RunQ := KtQueue([1], 1)], 0, false, map[0 := 0], map[], {}, {(0, 0)})
  }

  function Ceded(): (s: State) {
    State(Pair(Some(RunQ), Some(RunQ)), map[RunQ := KtQueue([0, 1], 2)], 0, true, map[0 := 0], map[], {}, {(0, 0)})
  }

  /** Thread 0 has locked mutex 0 and yielded to thread 1, which it created. */
  function Lent(): (s: State) {
    State(Pair(Some(RunQ), None), map[RunQ := KtQueue([0], 1)], 1, false, map[0 := 0], map[], {}, {(0, 0)})
  }

  lemma LendingSteps()
    ensures Created(Boot(0), 1) == Born()
    ensures Started(Born(), 1) == Begun()
    ensures Taken(Begun(), 0) == Owned()
    ensures Yielded(Owned()) == Ceded()
  {
    assert Created(Boot(0), 1).threads == Pair(None, None);
    assert Created(Boot(0), 1).calls == map[];
    assert [1] + [] == [1] && [0] + [1] == [0, 1];
    assert Started(Born(), 1).threads == Pair(None, Some(RunQ));
    assert Yielded(Owned()).threads == Pair(Some(RunQ), Some(RunQ));
    assert Started(Born(), 1).newborn == {};
  }

  lemma LendingDispatch()
    ensures QueueOk(Ceded(), RunQ) && At(Ceded(), RunQ).list == [0, 1] && Dispatched(Ceded()) == Lent()
  {
    var s := Ceded();
    assert First(s, RunQ) == 1 && [0, 1][..1] == [0];
    assert Dispatched(s).threads == Pair(Some(RunQ), None) && Dispatched(s).queues == map[RunQ := KtQueue([0], 1)];
    assert Dispatched(s).calls == map[];
  }

  /** One step of a run from boot, whose result is known. */
  lemma RunTo(boot: Tid, steps: seq<Step>, s: State, step: Step, s': State)
    requires BootRuns(boot, steps, s) && Inv(s) && Enabled(s, step) && Next(s, step) == s'
    ensures BootRuns(boot, steps + [step], s') && Inv(s')
  {
    hide Inv, Enabled, Next;
    RunOn(boot, steps, s, step);
  }

  lemma Bear(steps: seq<Step>)
    requires BootRuns(0, steps, Boot(0)) && Inv(Boot(0))
    ensures BootRuns(0, steps + [Create(1)], Born()) && Inv(Born())
  {
    hide Inv, BootRuns, Created, Started, Taken, Yielded, Dispatched, QueueOk;
    LendingSteps();
    RunTo(0, steps, Boot(0), Create(1), Born());
  }

  lemma Begin(steps: seq<Step>)
    requires BootRuns(0, steps, Born()) && Inv(Born())
    ensures BootRuns(0, steps + [Start(1)], Begun()) && Inv(Begun())
  {
    hide Inv, BootRuns, Created, Started, Taken, Yielded, Dispatched, QueueOk;
    LendingSteps();
    RunTo(0, steps, Born(), Start(1), Begun());
  }

  lemma Own(steps: seq<Step>)
    requires BootRuns(0, steps, Begun()) && Inv(Begun())
    ensures BootRuns(0, steps + [Lock(0)], Owned()) && Inv(Owned())
  {
    hide Inv, BootRuns, Created, Started, Taken, Yielded, Dispatched, QueueOk;
    LendingSteps();
    RunTo(0, steps, Begun(), Lock(0), Owned());
  }

  lemma Cede(steps: seq<Step>)
    requires BootRuns(0, steps, Owned()) && Inv(Owned())
    ensures BootRuns(0, steps + [Yield], Ceded()) && Inv(Ceded())
  {
    hide Inv, BootRuns, Created, Started, Taken, Yielded, Dispatched, QueueOk;
    LendingSteps();
    RunTo(0, steps, Owned(), Yield, Ceded());
  }

  lemma Lend(steps: seq<Step>)
    requires BootRuns(0, steps, Ceded()) && Inv(Ceded())
    ensures BootRuns(0, steps + [Dispatch], Lent()) && Inv(Lent())
  {
    hide Inv, BootRuns, Created, Started, Taken, Yielded, Dispatched, QueueOk;
    LendingDispatch();
    RunTo(0, steps, Ceded(), Dispatch, Lent());
  }

  lemma LentReached()
    ensures BootRuns(0, [Create(1), Start(1), Lock(0), Yield, Dispatch], Lent())
  {
    hide *;
    BootInv(0);
    BootNone();
    Bear([]);
    Begin([] + [Create(1)]);
    Own([] + [Create(1)] + [Start(1)]);
    Cede([] + [Create(1)] + [Start(1)] + [Lock(0)]);
    Lend([] + [Create(1)] + [Start(1)] + [Lock(0)] + [Yield]);
    assert [] + [Create(1)] + [Start(1)] + [Lock(0)] + [Yield] + [Dispatch] ==
      [Create(1), Start(1), Lock(0), Yield, Dispatch];
  }

  lemma BootNone()
    ensures BootRuns(0, [], Boot(0))
  {
  }

  /** A run from boot after which kmutex_lock_cancellable trips the assertion of kmutex_unlock. */
  lemma PanicHappens()
    ensures var steps := [Create(1), Start(1), Lock(0), Yield, Dispatch, Cancel(0)];
      exists s :: BootRuns(0, steps, s) && Inv(s) && !s.switching && HolderOf(s, 0) == Some(0) && s.cur == 1
        && Panics(s, LockCancellable(0))
  {
    hide Inv, BootRuns;
    var steps := [Create(1), Start(1), Lock(0), Yield, Dispatch];
    LentReached();
    AlwaysInv(0, steps, Lent());
    RunOn(0, steps, Lent(), Cancel(0));
    assert steps + [Cancel(0)] == [Create(1), Start(1), Lock(0), Yield, Dispatch, Cancel(0)];
    var s := Next(Lent(), Cancel(0));
    assert s.threads[0].cancelled && s.holders == map[0 := 0] && Panics(s, LockCancellable(0));
  }

  function Left(): (s: State) {
    State(map[0 := Thread(Exited, None, false), 1 := Thread(Run, Some(RunQ), false)], map[RunQ := KtQueue([1], 1)],
          0, true, map[0 := 0], map[], {}, {(0, 0)})
  }

  /** Thread 0 has exited with mutex 0 locked, and thread 1 runs. */
  function Alone(): (s: State) {
    State(map[0 := Thread(Exited, None, false), 1 := Thread(Run, None, false)], map[RunQ := KtQueue([], 0)], 1, false,
          map[0 := 0], map[], {}, {(0, 0)})
  }

  lemma LeavingSteps()
    ensures ExitedThread(Owned()) == Left()
    ensures QueueOk(Left(), RunQ) && At(Left(), RunQ).list == [1] && Dispatched(Left()) == Alone()
  {
    var s := Left();
    assert ExitedThread(Owned()).threads == s.threads;
    assert First(s, RunQ) == 1 && [1][..0] == [];
    assert Dispatched(s).threads == Alone().threads && Dispatched(s).queues == Alone().queues;
    assert Dispatched(s).calls == map[];
  }

  lemma OwnedReached()
    ensures BootRuns(0, [Create(1), Start(1), Lock(0)], Owned()) && Inv(Owned())
  {
    hide *;
    BootInv(0);
    BootNone();
    Bear([]);
    Begin([] + [Create(1)]);
    Own([] + [Create(1)] + [Start(1)]);
    assert [] + [Create(1)] + [Start(1)] + [Lock(0)] == [Create(1), Start(1), Lock(0)];
  }

  /** A run from boot after which a thread that has exited can be destroyed while km_holder names it. */
  lemma FreedHolderHappens()
    ensures BootRuns(0, [Create(1), Start(1), Lock(0), Exit, Dispatch], Alone()) && Alone().threads[0].state == Exited
    ensures !HoldsNone(Alone(), 0) && !HoldersLive(Destroyed(Alone(), 0))
  {
    hide Inv, BootRuns, Created, Started, Taken, Yielded, Dispatched, ExitedThread, QueueOk;
    var steps := [Create(1), Start(1), Lock(0)];
    OwnedReached();
    LeavingSteps();
    RunTo(0, steps, Owned(), Exit, Left());
    RunTo(0, steps + [Exit], Left(), Dispatch, Alone());
    assert steps + [Exit] + [Dispatch] == [Create(1), Start(1), Lock(0), Exit, Dispatch];
    assert 0 in Alone().holders;
  }

  // ---------------------------------------------------------------------------------------------
  // First come, first served

  ghost function Waiters(s: State, m: MutexId): (r: seq<Tid>) { At(s, LockQ(m)).list }

  /** The waiters served before `t`. */
  ghost function Ahead(s: State, m: MutexId, t: Tid): (r: seq<Tid>) { After(Waiters(s, m), t) }

  lemma UnlockWaiters(s: State, x: MutexId, m: MutexId)
    requires Inv(s) && Enabled(s, Unlock(x))
    ensures var l, s' := Waiters(s, m), Next(s, Unlock(x));
      && Waiters(s', m) == (if x == m && l != [] then l[..|l| - 1] else l)
      && (x == m && l != [] ==> HolderOf(s', m) == Some(l[|l| - 1]))
  {
    AllLive(s);
    hide Inv;
  }

  lemma CancelWaiters(s: State, t: Tid, m: MutexId)
    requires Inv(s) && Enabled(s, Cancel(t))
    ensures var l, l' := Waiters(s, m), Waiters(Next(s, Cancel(t)), m); l' == l || l' == Unlink(l, t)
  {
    CancelledQueue(s, t, LockQ(m));
    hide Inv, Unlink, CancelledThread;
  }

  lemma CancelledQueue(s: State, t: Tid, q: Queue)
    requires t in s.threads && q != RunQ
    ensures var l, l' := At(s, q).list, At(CancelledThread(s, t), q).list; l' == l || l' == Unlink(l, t)
  {
    hide Unlink, Removed, Enqueued, WithState, At;
    var s1 := Flagged(s, t);
    FlaggedQueue(s, t, q);
    if s.threads[t].state == SleepCancellable && s.threads[t].wchan.Some? {
      var w := s.threads[t].wchan.value;
      RemoveParts(s1, w, t);
      var s2 := Removed(s1, w, t);
      SameAt(s2, t, q);
      EnqueueParts(WithState(s2, t, Run), RunQ, t);
    }
  }

  lemma FlaggedQueue(s: State, t: Tid, q: Queue)
    requires t in s.threads
    ensures At(Flagged(s, t), q) == At(s, q)
  {
  }

  lemma SameAt(s: State, t: Tid, q: Queue)
    requires t in s.threads
    ensures At(WithState(s, t, Run), q) == At(s, q) && t in WithState(s, t, Run).threads
  {
  }

  lemma SleepWaiters(s: State, q: Queue, state: Status, call: Call, m: MutexId)
    requires s.cur in s.threads
    ensures At(SleptOn(s, q, state, call), LockQ(m)).list ==
      if q == LockQ(m) then [s.cur] + Waiters(s, m) else Waiters(s, m)
  {
  }

  lemma WakeWaiters(s: State, w: nat, m: MutexId)
    requires QueueOk(s, WaitQ(w))
    ensures Waiters(WokenOn(s, WaitQ(w)), m) == Waiters(s, m)
  {
  }

  lemma DispatchWaiters(s: State, m: MutexId)
    requires At(s, RunQ).list != [] && QueueOk(s, RunQ)
    ensures Waiters(Dispatched(s), m) == Waiters(s, m)
  {
  }

  lemma OtherWaiters(s: State, step: Step, m: MutexId)
    requires Inv(s) && Enabled(s, step) && !step.Unlock? && !step.Cancel?
    ensures var l, l' := Waiters(s, m), Waiters(Next(s, step), m); l' == l || (!s.switching && l' == [s.cur] + l)
  {
    hide Inv, SleptOn, WokenOn, Drained, Dispatched, QueueOk, NoRepeats, Unlink;
    AllLive(s);
    match step
    case SleepOn(w) => SleepWaiters(s, WaitQ(w), Sleep, Sleeping, m);
    case CancellableSleepOn(w) => SleepWaiters(s, WaitQ(w), SleepCancellable, Sleeping, m);
    case WakeupOn(w) => WakeWaiters(s, w, m);
    case BroadcastOn(w) => DrainedFrame(s, w, m);
    case Lock(x) => SleepWaiters(s, LockQ(x), Sleep, InLock(x), m);
    case LockCancellable(x) => SleepWaiters(s, LockQ(x), SleepCancellable, InLockCancellable(x), m);
    case Dispatch => DispatchWaiters(s, m);
    case _ =>
  }

  /** The last waiter leaves. */
  lemma ServeLast(l: seq<Tid>, t: Tid)
    requires NoRepeats(l) && t in l
    ensures var l', last := l[..|l| - 1], l[|l| - 1];
      if t in l' then
        && |After(l', t)| + 1 <= |After(l, t)| && last in After(l, t)
        && (forall u :: u in After(l', t) ==> u in After(l, t))
      else last == t
  {
    if l[|l| - 1] != t {
      AfterLast(l, t);
    }
  }

  lemma DropOther(l: seq<Tid>, x: Tid, t: Tid)
    requires t in l && x != t
    ensures var l' := Unlink(l, x);
      t in l' && |After(l', t)| <= |After(l, t)| && (forall u :: u in After(l', t) ==> u in After(l, t))
  {
    UnlinkKeeps(l, x, t);
    AfterUnlink(l, t, x);
  }

  /** A waiter that is not cancelled moves up or gets the lock, and lets in no one from behind. */
  lemma WaiterStep(s: State, step: Step, m: MutexId, t: Tid)
    requires Inv(s) && Enabled(s, step) && t in Waiters(s, m) && step != Cancel(t)
    ensures var s' := Next(s, step);
      if t in Waiters(s', m) then
        && |Ahead(s', m, t)| + (if step == Unlock(m) then 1 else 0) <= |Ahead(s, m, t)|
        && (forall u :: u in Ahead(s', m, t) ==> u in Ahead(s, m, t))
        && (step == Unlock(m) ==> HolderOf(s', m).Some? && HolderOf(s', m).value in Ahead(s, m, t))
      else step == Unlock(m) && HolderOf(s', m) == Some(t)
  {
    hide Next, Inv, Enabled, NoRepeats, HolderOf, After, Waiters;
    WaiterFacts(s, m, t);
    match step
    case Unlock(x) => UnlockStep(s, x, m, t);
    case Cancel(x) => CancelStep(s, x, m, t);
    case _ => OtherStep(s, step, m, t);
  }

  lemma OtherStep(s: State, step: Step, m: MutexId, t: Tid)
    requires Inv(s) && Enabled(s, step) && !step.Unlock? && !step.Cancel? && t in Waiters(s, m)
    ensures t in Waiters(Next(s, step), m) && Ahead(Next(s, step), m, t) == Ahead(s, m, t)
  {
    hide Next, Inv, Enabled, NoRepeats, Waiters;
    WaiterFacts(s, m, t);
    OtherWaiters(s, step, m);
    assert ([s.cur] + Waiters(s, m))[1..] == Waiters(s, m);
  }

  lemma UnlockStep(s: State, x: MutexId, m: MutexId, t: Tid)
    requires Inv(s) && Enabled(s, Unlock(x)) && t in Waiters(s, m)
    ensures var s' := Next(s, Unlock(x));
      if x != m then Waiters(s', m) == Waiters(s, m)
      else if t in Waiters(s', m) then
        && |Ahead(s', m, t)| + 1 <= |Ahead(s, m, t)|
        && (forall u :: u in Ahead(s', m, t) ==> u in Ahead(s, m, t))
        && HolderOf(s', m).Some? && HolderOf(s', m).value in Ahead(s, m, t)
      else HolderOf(s', m) == Some(t)
  {
    hide Next, Inv, Enabled, NoRepeats, HolderOf, After, Waiters;
    WaiterFacts(s, m, t);
    UnlockWaiters(s, x, m);
    ServeLast(Waiters(s, m), t);
  }

  lemma CancelStep(s: State, x: Tid, m: MutexId, t: Tid)
    requires Inv(s) && Enabled(s, Cancel(x)) && t in Waiters(s, m) && x != t
    ensures var s' := Next(s, Cancel(x));
      && t in Waiters(s', m) && |Ahead(s', m, t)| <= |Ahead(s, m, t)|
      && forall u :: u in Ahead(s', m, t) ==> u in Ahead(s, m, t)
  {
    hide Next, Inv, Enabled, Unlink, At, After;
    CancelWaiters(s, x, m);
    DropOther(Waiters(s, m), x, t);
  }

  lemma WaiterFacts(s: State, m: MutexId, t: Tid)
    requires Inv(s) && t in Waiters(s, m)
    ensures NoRepeats(Waiters(s, m)) && (!s.switching ==> t != s.cur)
  {
  }

  ghost function Unlocks(steps: seq<Step>, m: MutexId): (n: nat) {
    if steps == [] then 0 else Unlocks(steps[1..], m) + if steps[0] == Unlock(m) then 1 else 0
  }

  /** In this run `t` is handed `m` by one of the first `n` unlocks of `m`. */
  ghost predicate Served(s: State, steps: seq<Step>, m: MutexId, t: Tid, n: nat)
    requires Inv(s)
    decreases |steps|
  {
    && steps != [] && Enabled(s, steps[0])
    && (NextKeeps(s, steps[0]);
        var s' := Next(s, steps[0]);
        if steps[0] != Unlock(m) then Served(s', steps[1..], m, t, n)
        else n > 0 && (HolderOf(s', m) == Some(t) || Served(s', steps[1..], m, t, n - 1)))
  }

  /** Until `t` is handed `m`, only threads of `early` are. */
  ghost predicate NotOvertaken(s: State, steps: seq<Step>, m: MutexId, t: Tid, early: set<Tid>)
    requires Inv(s)
    decreases |steps|
  {
    steps != [] && Enabled(s, steps[0]) ==>
      (NextKeeps(s, steps[0]);
       var s' := Next(s, steps[0]);
       || (steps[0] == Unlock(m) && HolderOf(s', m) == Some(t))
       || ((steps[0] == Unlock(m) ==> HolderOf(s', m).Some? && HolderOf(s', m).value in early)
           && NotOvertaken(s', steps[1..], m, t, early)))
  }

  /** A waiter with k threads ahead of it, and not cancelled, has the lock after k + 1 unlocks. */
  lemma {:induction false} FirstServed(s: State, steps: seq<Step>, s': State, m: MutexId, t: Tid)
    requires Inv(s) && Runs(s, steps, s') && t in Waiters(s, m) && Cancel(t) !in steps
    requires Unlocks(steps, m) > |Ahead(s, m, t)|
    ensures Served(s, steps, m, t, |Ahead(s, m, t)| + 1)
    decreases |steps|
  {
    hide Inv, Next, Enabled, Waiters, Ahead;
    NextKeeps(s, steps[0]);
    WaiterStep(s, steps[0], m, t);
    var s1 := Next(s, steps[0]);
    if t in Waiters(s1, m) {
      FirstServed(s1, steps[1..], s', m, t);
      var n := if steps[0] == Unlock(m) then |Ahead(s, m, t)| else |Ahead(s, m, t)| + 1;
      ServedLater(s1, steps[1..], m, t, |Ahead(s1, m, t)| + 1, n);
    }
  }

  lemma {:induction false} ServedLater(s: State, steps: seq<Step>, m: MutexId, t: Tid, n: nat, n': nat)
    requires Inv(s) && Served(s, steps, m, t, n) && n <= n'
    ensures Served(s, steps, m, t, n')
    decreases |steps|
  {
    hide Inv, Next, Enabled;
    NextKeeps(s, steps[0]);
    var s1 := Next(s, steps[0]);
    if steps[0] != Unlock(m) {
      ServedLater(s1, steps[1..], m, t, n, n');
    } else if HolderOf(s1, m) != Some(t) {
      ServedLater(s1, steps[1..], m, t, n - 1, n' - 1);
    }
  }

  /** No later arrival gets the lock first. */
  lemma {:induction false} NoOvertaking(s: State, steps: seq<Step>, s': State, m: MutexId, t: Tid, early: set<Tid>)
    requires Inv(s) && Runs(s, steps, s') && t in Waiters(s, m) && Cancel(t) !in steps
    requires forall u :: u in Ahead(s, m, t) ==> u in early
    ensures NotOvertaken(s, steps, m, t, early)
    decreases |steps|
  {
    hide Inv, Next, Enabled, Waiters, Ahead;
    if steps != [] {
      NextKeeps(s, steps[0]);
      WaiterStep(s, steps[0], m, t);
      if t in Waiters(Next(s, steps[0]), m) {
        NoOvertaking(Next(s, steps[0]), steps[1..], s', m, t, early);
      }
    }
  }
}
