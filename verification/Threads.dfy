/**
 * Threads, wait queues and mutexes as a step machine.
 *
 * The kernel is not preemptive: what a thread does between two calls of sched_switch is one step.
 * A blocking call is split in two, the step that calls sched_switch and the later step that
 * dispatches the thread again.
 */
module Threads {
  import opened Lists

  type Tid = nat
  type MutexId = nat

  /** kt_runq, the queue of a mutex, and all other wait queues. */
  datatype Queue = RunQ | LockQ(m: MutexId) | WaitQ(w: nat)

  datatype Status = NoState | Run | Sleep | SleepCancellable | Exited

  datatype Thread = Thread(state: Status, wchan: Option<Queue>, cancelled: bool)

  /** A ktqueue_t; `list` starts at the head, where threads enter, and ends where they leave. */
  datatype KtQueue = KtQueue(list: seq<Tid>, size: int)

  /** The blocking call a thread is in. */
  datatype Call = NoCall | Sleeping | InLock(m: MutexId) | InLockCancellable(m: MutexId)

  /**
   * `switching` says that the current thread is in the loop of sched_switch. `newborn` holds the
   * threads created and never made runnable. `held` holds (t, m) from the return of t's
   * successful lock of m to its unlock.
   */
  datatype State = State(
    threads: map<Tid, Thread>, queues: map<Queue, KtQueue>, cur: Tid, switching: bool,
    holders: map<MutexId, Tid>, calls: map<Tid, Call>, newborn: set<Tid>, held: set<(Tid, MutexId)>)

  function At(s: State, q: Queue): (r: KtQueue) {
    if q in s.queues then s.queues[q] else KtQueue([], 0)
  }

  function HolderOf(s: State, m: MutexId): (r: Option<Tid>) {
    if m in s.holders then Some(s.holders[m]) else None
  }

  function CallOf(s: State, t: Tid): (r: Call) {
    if t in s.calls then s.calls[t] else NoCall
  }

  // ---------------------------------------------------------------------------------------------
  // Queue operations

  function Enqueued(s: State, q: Queue, t: Tid): (r: State)
    requires t in s.threads
  {
    s.(queues := s.queues[q := KtQueue([t] + At(s, q).list, At(s, q).size + 1)],
       threads := s.threads[t := s.threads[t].(wchan := Some(q))])
  }

  function Removed(s: State, q: Queue, t: Tid): (r: State)
    requires t in s.threads
  {
    s.(queues := s.queues[q := KtQueue(Unlink(At(s, q).list, t), At(s, q).size - 1)],
       threads := s.threads[t := s.threads[t].(wchan := None)])
  }

  /** The thread that leaves next, from the tail. */
  function First(s: State, q: Queue): (t: Tid)
    requires At(s, q).list != []
  {
    At(s, q).list[|At(s, q).list| - 1]
  }

  function Dequeued(s: State, q: Queue): (r: State)
    requires At(s, q).list != [] && First(s, q) in s.threads
  {
    var t, list := First(s, q), At(s, q).list;
    s.(queues := s.queues[q := KtQueue(list[..|list| - 1], At(s, q).size - 1)],
       threads := s.threads[t := s.threads[t].(wchan := None)])
  }

  function WithState(s: State, t: Tid, state: Status): (r: State)
    requires t in s.threads
  {
    s.(threads := s.threads[t := s.threads[t].(state := state)])
  }

  function MadeRunnable(s: State, t: Tid): (r: State)
    requires t in s.threads
  {
    Enqueued(WithState(s, t, Run), RunQ, t)
  }

  // ---------------------------------------------------------------------------------------------
  // The invariant

  /** Each thread is on the queue that kt_wchan names and on no other, once; tq_size is the length. */
  ghost predicate QueuesOk(s: State) {
    && (forall t :: t in s.threads && s.threads[t].wchan.Some? ==> t in At(s, s.threads[t].wchan.value).list)
    && (forall q, t :: t in At(s, q).list ==> t in s.threads && s.threads[t].wchan == Some(q))
    && (forall q :: NoRepeats(At(s, q).list) && At(s, q).size == |At(s, q).list|)
  }

  /**
   * A thread on the run queue is runnable; one sleeps exactly when it is on another queue; a
   * runnable thread on no queue is the one running, or has never been made runnable.
   */
  ghost predicate ThreadOk(s: State, t: Tid)
    requires t in s.threads
  {
    var th := s.threads[t];
    && (th.wchan == Some(RunQ) ==> th.state == Run)
    && ((th.wchan.Some? && th.wchan != Some(RunQ)) <==> (th.state == Sleep || th.state == SleepCancellable))
    && (th.wchan.None? && th.state == Run ==> t in s.newborn || (t == s.cur && !s.switching))
    && (t in s.newborn ==> th.wchan.None? && th.state == Run && t != s.cur && CallOf(s, t) == NoCall)
    && th.state != NoState
  }

  ghost predicate CurrentOk(s: State) {
    && s.cur in s.threads
    && (!s.switching ==> s.threads[s.cur].state == Run && s.threads[s.cur].wchan.None? && CallOf(s, s.cur) == NoCall)
    && (s.switching ==> s.threads[s.cur].wchan.Some? || s.threads[s.cur].state == Exited)
  }

  /** What the call a thread is in says about its queue and about the mutex it wants. */
  ghost predicate CallOk(s: State, t: Tid)
    requires t in s.threads
  {
    var th := s.threads[t];
    && (match th.wchan
        case Some(LockQ(m)) =>
          && m in s.holders && s.holders[m] != t
          && CallOf(s, t) == (if th.state == Sleep then InLock(m) else InLockCancellable(m))
        case Some(WaitQ(_)) => CallOf(s, t) == Sleeping
        case _ => true)
    && (match CallOf(s, t)
        case InLock(m) => th.wchan == Some(LockQ(m)) || (th.wchan == Some(RunQ) && HolderOf(s, m) == Some(t))
        case InLockCancellable(m) =>
          th.wchan == Some(LockQ(m)) || (th.wchan == Some(RunQ) && (HolderOf(s, m) == Some(t) || th.cancelled))
        case _ => true)
  }

  /** Who holds the mutex `m` has locked it, is about to return from the lock, or was cancelled. */
  ghost predicate MutexOk(s: State, m: MutexId) {
    m in s.holders ==>
      var h := s.holders[m];
      && h in s.threads
      && (|| (h, m) in s.held || s.threads[h].cancelled
          || CallOf(s, h) == InLock(m) || CallOf(s, h) == InLockCancellable(m))
  }

  ghost predicate HeldOk(s: State) {
    forall t, m :: (t, m) in s.held ==> HolderOf(s, m) == Some(t)
  }

  ghost predicate Inv(s: State) {
    && QueuesOk(s) && CurrentOk(s) && HeldOk(s)
    && (forall t :: t in s.threads ==> ThreadOk(s, t) && CallOk(s, t))
    && (forall m :: MutexOk(s, m))
  }

  // ---------------------------------------------------------------------------------------------
  // Queue operations keep the queues right

  /** One queue changes, and the kt_wchan of one thread. */
  ghost predicate Requeued(s: State, s': State, q: Queue, t: Tid) {
    && t in s.threads && t in s'.threads && s'.threads == s.threads[t := s'.threads[t]]
    && (forall x :: x != q ==> At(s', x) == At(s, x))
  }

  lemma EnqueueParts(s: State, q: Queue, t: Tid)
    requires t in s.threads
    ensures var s' := Enqueued(s, q, t);
      && Requeued(s, s', q, t) && s'.threads[t].wchan == Some(q)
      && At(s', q) == KtQueue([t] + At(s, q).list, At(s, q).size + 1)
  {
  }

  lemma EnqueueKeeps(s: State, q: Queue, t: Tid)
    requires QueuesOk(s) && t in s.threads && s.threads[t].wchan.None?
    ensures QueuesOk(Enqueued(s, q, t))
  {
    hide NoRepeats, Enqueued, At;
    NoRepeatsHead(At(s, q).list, t);
    EnqueueParts(s, q, t);
  }

  lemma RemoveParts(s: State, q: Queue, t: Tid)
    requires t in s.threads
    ensures var s' := Removed(s, q, t);
      && Requeued(s, s', q, t) && s'.threads[t].wchan == None
      && At(s', q) == KtQueue(Unlink(At(s, q).list, t), At(s, q).size - 1)
  {
    hide Unlink;
  }

  lemma RemoveKeeps(s: State, q: Queue, t: Tid)
    requires QueuesOk(s) && t in s.threads && s.threads[t].wchan == Some(q)
    ensures QueuesOk(Removed(s, q, t))
  {
    hide NoRepeats, Unlink, Removed, At;
    NoRepeatsUnlink(At(s, q).list, t);
    RemoveParts(s, q, t);
    assert t in At(s, q).list;
  }

  lemma DequeueIsRemove(s: State, q: Queue)
    requires QueuesOk(s) && At(s, q).list != []
    ensures First(s, q) in s.threads && s.threads[First(s, q)].wchan == Some(q)
    ensures Dequeued(s, q) == Removed(s, q, First(s, q))
  {
    hide NoRepeats, Unlink;
    assert First(s, q) in At(s, q).list;
    UnlinkLast(At(s, q).list);
  }

  // ---------------------------------------------------------------------------------------------
  // Steps

  function SleptOn(s: State, q: Queue, state: Status, call: Call): (r: State)
    requires s.cur in s.threads
  {
    Enqueued(WithState(s, s.cur, state), q, s.cur).(switching := true, calls := s.calls[s.cur := call])
  }

  ghost predicate QueueOk(s: State, q: Queue) {
    forall t :: t in At(s, q).list ==> t in s.threads
  }

  function WokenOn(s: State, q: Queue): (r: State)
    requires QueueOk(s, q)
  {
    if At(s, q).list == [] then s else MadeRunnable(Dequeued(s, q), First(s, q))
  }

  function CancelledThread(s: State, t: Tid): (r: State)
    requires t in s.threads
  {
    var s1 := s.(threads := s.threads[t := s.threads[t].(cancelled := true)]);
    if s.threads[t].state == SleepCancellable && s.threads[t].wchan.Some? then
      MadeRunnable(Removed(s1, s.threads[t].wchan.value, t), t)
    else s1
  }

  function Unlocked(s: State, m: MutexId): (r: State)
    requires QueueOk(s, LockQ(m))
  {
    var s1 := s.(held := s.held - {(s.cur, m)});
    if At(s, LockQ(m)).list == [] then s1.(holders := s.holders - {m})
    else WokenOn(s1, LockQ(m)).(holders := s.holders[m := First(s, LockQ(m))])
  }

  /** The return of the call `t` was in. */
  function Returned(s: State, t: Tid): (r: State)
    requires t in s.threads
  {
    var s1 := s.(calls := s.calls - {t});
    match CallOf(s, t)
    case InLock(m) => s1.(held := s.held + {(t, m)})
    case InLockCancellable(m) => if s.threads[t].cancelled then s1 else s1.(held := s.held + {(t, m)})
    case _ => s1
  }

  function Dispatched(s: State): (r: State)
    requires At(s, RunQ).list != [] && QueueOk(s, RunQ)
  {
    var t := First(s, RunQ);
    Returned(Dequeued(s, RunQ).(cur := t, switching := false), t)
  }

  // ---------------------------------------------------------------------------------------------
  // Every step keeps the invariant

  /** A change to one thread and to the queues. */
  lemma OneThread(s: State, s': State, t: Tid)
    requires Inv(s) && t in s.threads && t in s'.threads
    requires s' == s.(threads := s.threads[t := s'.threads[t]], queues := s'.queues)
    requires s.threads[t].cancelled ==> s'.threads[t].cancelled
    requires QueuesOk(s') && CurrentOk(s') && ThreadOk(s', t) && CallOk(s', t)
    ensures Inv(s')
  {
    hide QueuesOk, CurrentOk;
    forall u | u in s'.threads
      ensures ThreadOk(s', u) && CallOk(s', u)
    {
      assert u != t ==> ThreadOk(s, u) && CallOk(s, u);
    }
    forall m
      ensures MutexOk(s', m)
    {
      assert MutexOk(s, m);
    }
  }

  /** `t` on the run queue instead. */
  function Moved(s: State, t: Tid, queues: map<Queue, KtQueue>): (r: State)
    requires t in s.threads
  {
    s.(threads := s.threads[t := s.threads[t].(state := Run, wchan := Some(RunQ))], queues := queues)
  }

  lemma MoveKeeps(s: State, q: Queue, t: Tid)
    requires QueuesOk(s) && t in s.threads && s.threads[t].wchan == Some(q)
    ensures QueuesOk(MadeRunnable(Removed(s, q, t), t))
    ensures var s' := MadeRunnable(Removed(s, q, t), t); s' == Moved(s, t, s'.queues)
  {
    hide QueuesOk, Unlink;
    RemoveKeeps(s, q, t);
    var s1 := Removed(s, q, t);
    FieldKeeps(s1, WithState(s1, t, Run), t);
    EnqueueKeeps(WithState(s1, t, Run), RunQ, t);
  }

  /** Changing a thread without changing its kt_wchan. */
  lemma FieldKeeps(s: State, s': State, t: Tid)
    requires QueuesOk(s) && t in s.threads && t in s'.threads && s'.threads[t].wchan == s.threads[t].wchan
    requires s'.threads == s.threads[t := s'.threads[t]] && s'.queues == s.queues
    ensures QueuesOk(s')
  {
    hide NoRepeats;
    assert forall q :: At(s', q) == At(s, q);
    hide At;
  }

  lemma WokenShape(s: State, q: Queue)
    requires QueuesOk(s) && q != RunQ && At(s, q).list != []
    ensures QueueOk(s, q) && s.threads[First(s, q)].wchan == Some(q)
    ensures QueuesOk(WokenOn(s, q)) && WokenOn(s, q) == Moved(s, First(s, q), WokenOn(s, q).queues)
    ensures At(WokenOn(s, q), q).list == At(s, q).list[..|At(s, q).list| - 1]
  {
    hide NoRepeats, Unlink;
    DequeueIsRemove(s, q);
    MoveKeeps(s, q, First(s, q));
  }

  /** A sleeper that becomes runnable; out of a lock's queue only by being cancelled. */
  lemma AwakeKeeps(s: State, s': State, t: Tid)
    requires Inv(s) && t in s.threads && t in s'.threads && s.threads[t].wchan.Some? && QueuesOk(s')
    requires s' == s.(threads := s.threads[t := Thread(Run, Some(RunQ), s'.threads[t].cancelled)], queues := s'.queues)
    requires s.threads[t].cancelled ==> s'.threads[t].cancelled
    requires s.threads[t].wchan.value.WaitQ? || (s.threads[t].state == SleepCancellable && s'.threads[t].cancelled)
    ensures Inv(s')
  {
    assert ThreadOk(s, t) && CallOk(s, t);
    hide QueuesOk, MutexOk, HeldOk;
    OneThread(s, s', t);
  }

  lemma WokenKeeps(s: State, w: nat)
    requires Inv(s)
    ensures QueueOk(s, WaitQ(w)) && Inv(WokenOn(s, WaitQ(w)))
    ensures At(s, WaitQ(w)).list != [] ==> |At(WokenOn(s, WaitQ(w)), WaitQ(w)).list| == |At(s, WaitQ(w)).list| - 1
  {
    var q := WaitQ(w);
    hide NoRepeats, Unlink, MutexOk, HeldOk, ThreadOk, CallOk, CurrentOk;
    if At(s, q).list != [] {
      WokenShape(s, q);
      AwakeKeeps(s, WokenOn(s, q), First(s, q));
    }
  }

  function Drained(s: State, w: nat): (r: State)
    requires Inv(s)
    decreases |At(s, WaitQ(w)).list|
  {
    if At(s, WaitQ(w)).list == [] then s
    else
      WokenKeeps(s, w);
      Drained(WokenOn(s, WaitQ(w)), w)
  }

  lemma {:induction false} DrainedKeeps(s: State, w: nat)
    requires Inv(s)
    ensures Inv(Drained(s, w)) && At(Drained(s, w), WaitQ(w)).list == []
    decreases |At(s, WaitQ(w)).list|
  {
    WokenKeeps(s, w);
    if At(s, WaitQ(w)).list != [] {
      DrainedKeeps(WokenOn(s, WaitQ(w)), w);
    }
  }

  function Flagged(s: State, t: Tid): (r: State)
    requires t in s.threads
  {
    s.(threads := s.threads[t := s.threads[t].(cancelled := true)])
  }

  lemma FlagKeeps(s: State, t: Tid)
    requires Inv(s) && t in s.threads && t != s.cur
    ensures Inv(Flagged(s, t)) && (s.threads[t].state == SleepCancellable ==> s.threads[t].wchan.Some?)
  {
    assert ThreadOk(s, t) && CallOk(s, t);
    FieldKeeps(s, Flagged(s, t), t);
    hide QueuesOk, MutexOk, HeldOk;
    CurrentSame(s, Flagged(s, t));
    OneThread(s, Flagged(s, t), t);
  }

  lemma CancelKeeps(s: State, t: Tid)
    requires Inv(s) && t in s.threads && t != s.cur
    ensures Inv(CancelledThread(s, t))
  {
    FlagKeeps(s, t);
    hide QueuesOk, CurrentOk, MutexOk, HeldOk, ThreadOk, CallOk, Unlink;
    var s1 := Flagged(s, t);
    if s.threads[t].state == SleepCancellable {
      MoveKeeps(s1, s.threads[t].wchan.value, t);
      AwakeKeeps(s1, CancelledThread(s, t), t);
    }
  }

  lemma CurrentSame(s: State, s': State)
    requires CurrentOk(s) && s.cur in s'.threads && s'.threads[s.cur] == s.threads[s.cur]
    requires s'.cur == s.cur && s'.switching == s.switching && s'.calls == s.calls
    ensures CurrentOk(s')
  {
  }

  /** A step of thread `t`: nothing changes for the others, and no mutex changes hands. */
  ghost predicate OnlyThread(s: State, s': State, t: Tid) {
    && t in s'.threads && s'.threads == s.threads[t := s'.threads[t]]
    && (forall u :: u != t ==> CallOf(s', u) == CallOf(s, u))
    && s'.newborn - {t} == s.newborn - {t}
    && s'.holders == s.holders
    && (s'.cur == t || s'.cur == s.cur)
    && (s.switching || s.cur == t || (s'.cur == s.cur && !s'.switching))
  }

  lemma StepKeeps(s: State, s': State, t: Tid)
    requires Inv(s) && OnlyThread(s, s', t)
    requires QueuesOk(s') && CurrentOk(s') && HeldOk(s') && ThreadOk(s', t) && CallOk(s', t)
    requires forall m :: m in s.holders ==>
      if s.holders[m] == t then MutexOk(s', m) else (s.holders[m], m) in s.held ==> (s.holders[m], m) in s'.held
    ensures Inv(s')
  {
    hide QueuesOk, HeldOk;
    forall u | u in s'.threads
      ensures ThreadOk(s', u) && CallOk(s', u)
    {
      assert u != t ==> ThreadOk(s, u) && CallOk(s, u);
      assert u != t ==> (u in s'.newborn - {t} <==> u in s.newborn - {t});
    }
    forall m
      ensures MutexOk(s', m)
    {
      assert MutexOk(s, m);
    }
  }

  // The steps of the current thread

  function Created(s: State, t: Tid): (r: State) {
    s.(threads := s.threads[t := Thread(Run, None, false)], newborn := s.newborn + {t}, calls := s.calls - {t})
  }

  lemma CreateKeeps(s: State, t: Tid)
    requires Inv(s) && !s.switching && t !in s.threads
    ensures Inv(Created(s, t))
  {
    var s' := Created(s, t);
    CreatedQueues(s, t);
    hide QueuesOk, HeldOk;
    forall m | m in s.holders
      ensures s.holders[m] != t
    {
      assert MutexOk(s, m);
    }
    StepKeeps(s, s', t);
  }

  lemma CreatedQueues(s: State, t: Tid)
    requires QueuesOk(s) && t !in s.threads
    ensures QueuesOk(Created(s, t))
  {
    hide NoRepeats;
    assert forall q :: At(Created(s, t), q) == At(s, q);
    hide At;
  }

  function Started(s: State, t: Tid): (r: State)
    requires t in s.threads
  {
    MadeRunnable(s, t).(newborn := s.newborn - {t})
  }

  lemma StartKeeps(s: State, t: Tid)
    requires Inv(s) && !s.switching && t in s.newborn && t in s.threads
    ensures Inv(Started(s, t))
  {
    hide Inv, QueuesOk, CurrentOk, HeldOk, ThreadOk, CallOk, MutexOk;
    var s' := Started(s, t);
    Parts(s);
    StartedThread(s, t);
    RunnableQueues(s, t);
    SameQueues(MadeRunnable(s, t), s');
    HeldSame(s, s');
    HolderWitness(s, s', t);
    StepKeeps(s, s', t);
  }

  lemma StartedThread(s: State, t: Tid)
    requires Inv(s) && !s.switching && t in s.newborn && t in s.threads
    ensures s.threads[t].wchan.None? && CallOf(s, t) == NoCall
    ensures var s' := Started(s, t); OnlyThread(s, s', t) && CurrentOk(s') && ThreadOk(s', t) && CallOk(s', t)
  {
    hide Inv;
    ThreadFacts(s, t);
    Parts(s);
  }

  lemma Parts(s: State)
    requires Inv(s)
    ensures QueuesOk(s) && CurrentOk(s) && HeldOk(s)
  {
  }

  lemma SameQueues(s: State, s': State)
    requires QueuesOk(s) && s'.threads == s.threads && s'.queues == s.queues
    ensures QueuesOk(s')
  {
    hide NoRepeats;
    assert forall q :: At(s', q) == At(s, q);
    hide At;
  }

  lemma RunnableQueues(s: State, t: Tid)
    requires QueuesOk(s) && t in s.threads && s.threads[t].wchan.None?
    ensures QueuesOk(MadeRunnable(s, t))
  {
    hide QueuesOk;
    FieldKeeps(s, WithState(s, t, Run), t);
    EnqueueKeeps(WithState(s, t, Run), RunQ, t);
  }

  /** With its call, flag and locks as they were, `t` still accounts for the mutexes it holds. */
  lemma HolderWitness(s: State, s': State, t: Tid)
    requires Inv(s) && t in s.threads && t in s'.threads && s'.holders == s.holders && s.held <= s'.held
    requires CallOf(s, t) == NoCall || CallOf(s', t) == CallOf(s, t)
    requires s.threads[t].cancelled ==> s'.threads[t].cancelled
    ensures forall m :: m in s.holders && s.holders[m] == t ==> MutexOk(s', m)
  {
    forall m | m in s.holders && s.holders[m] == t
      ensures MutexOk(s', m)
    {
      assert MutexOk(s, m);
    }
  }

  ghost predicate SleepsRight(s: State, q: Queue, state: Status, call: Call) {
    && (state == Sleep || state == SleepCancellable)
    && match q
       case WaitQ(_) => call == Sleeping
       case LockQ(m) =>
         && m in s.holders && s.holders[m] != s.cur
         && call == if state == Sleep then InLock(m) else InLockCancellable(m)
       case RunQ => false
  }

  lemma SleepKeeps(s: State, q: Queue, state: Status, call: Call)
    requires Inv(s) && !s.switching && SleepsRight(s, q, state, call)
    ensures Inv(SleptOn(s, q, state, call))
  {
    hide Inv, QueuesOk, CurrentOk, HeldOk, ThreadOk, CallOk, MutexOk;
    Parts(s);
    SleptThread(s, q, state, call);
    var t, s' := s.cur, SleptOn(s, q, state, call);
    SleepQueues(s, q, state, call);
    HeldSame(s, s');
    HolderWitness(s, s', t);
    StepKeeps(s, s', t);
  }

  lemma SleptThread(s: State, q: Queue, state: Status, call: Call)
    requires Inv(s) && !s.switching && SleepsRight(s, q, state, call)
    ensures s.cur in s.threads && s.threads[s.cur].wchan.None? && CallOf(s, s.cur) == NoCall
    ensures var s' := SleptOn(s, q, state, call);
      OnlyThread(s, s', s.cur) && CurrentOk(s') && ThreadOk(s', s.cur) && CallOk(s', s.cur)
  {
    hide Inv;
    Parts(s);
    ThreadFacts(s, s.cur);
  }

  lemma HeldSame(s: State, s': State)
    requires HeldOk(s) && s'.held <= s.held && s'.holders == s.holders
    ensures HeldOk(s')
  {
  }

  lemma SleepQueues(s: State, q: Queue, state: Status, call: Call)
    requires QueuesOk(s) && s.cur in s.threads && s.threads[s.cur].wchan.None?
    ensures QueuesOk(SleptOn(s, q, state, call))
  {
    hide QueuesOk;
    var s1 := WithState(s, s.cur, state);
    FieldKeeps(s, s1, s.cur);
    EnqueueKeeps(s1, q, s.cur);
    SameQueues(Enqueued(s1, q, s.cur), SleptOn(s, q, state, call));
  }

  function Yielded(s: State): (r: State)
    requires s.cur in s.threads
  {
    MadeRunnable(s, s.cur).(switching := true)
  }

  lemma YieldKeeps(s: State)
    requires Inv(s) && !s.switching
    ensures Inv(Yielded(s))
  {
    hide Inv, QueuesOk, CurrentOk, HeldOk, ThreadOk, CallOk, MutexOk;
    Parts(s);
    YieldedThread(s);
    var t, s' := s.cur, Yielded(s);
    RunnableQueues(s, t);
    SameQueues(MadeRunnable(s, t), s');
    HeldSame(s, s');
    HolderWitness(s, s', t);
    StepKeeps(s, s', t);
  }

  lemma YieldedThread(s: State)
    requires Inv(s) && !s.switching
    ensures s.cur in s.threads && s.threads[s.cur].wchan.None? && CallOf(s, s.cur) == NoCall
    ensures var s' := Yielded(s); OnlyThread(s, s', s.cur) && CurrentOk(s') && ThreadOk(s', s.cur) && CallOk(s', s.cur)
  {
    hide Inv;
    Parts(s);
    ThreadFacts(s, s.cur);
  }

  function ExitedThread(s: State): (r: State)
    requires s.cur in s.threads
  {
    WithState(s, s.cur, Exited).(switching := true)
  }

  lemma ExitKeeps(s: State)
    requires Inv(s) && !s.switching
    ensures Inv(ExitedThread(s))
  {
    var t, s' := s.cur, ExitedThread(s);
    assert ThreadOk(s, t) && CallOk(s, t);
    FieldKeeps(s, s', t);
    hide QueuesOk, HeldOk;
    HeldSame(s, s');
    HolderWitness(s, s', t);
    StepKeeps(s, s', t);
  }

  /** kthread_destroy, of a thread that has exited. */
  function Destroyed(s: State, t: Tid): (r: State) {
    s.(threads := s.threads - {t}, calls := s.calls - {t})
  }

  ghost predicate HoldsNone(s: State, t: Tid) {
    forall m :: m in s.holders ==> s.holders[m] != t
  }

  ghost predicate HoldersLive(s: State) {
    forall m :: m in s.holders ==> s.holders[m] in s.threads
  }

  /** Destroying a thread leaves every km_holder on a thread exactly when none names it. */
  lemma DestroyExact(s: State, t: Tid)
    requires Inv(s) && t in s.threads
    ensures HoldersLive(Destroyed(s, t)) <==> HoldsNone(s, t)
  {
    hide QueuesOk, CurrentOk, HeldOk, ThreadOk, CallOk;
    forall m | m in s.holders
      ensures s.holders[m] in s.threads
    {
      assert MutexOk(s, m);
    }
  }

  lemma DestroyKeeps(s: State, t: Tid)
    requires Inv(s) && !s.switching && t in s.threads && t != s.cur && s.threads[t].state == Exited && HoldsNone(s, t)
    ensures Inv(Destroyed(s, t))
  {
    var s' := Destroyed(s, t);
    assert ThreadOk(s, t);
    DestroyedQueues(s, t);
    hide QueuesOk;
    forall u | u in s'.threads
      ensures ThreadOk(s', u) && CallOk(s', u)
    {
      assert ThreadOk(s, u) && CallOk(s, u) && CallOf(s', u) == CallOf(s, u);
    }
    forall m
      ensures MutexOk(s', m)
    {
      assert MutexOk(s, m);
    }
  }

  lemma DestroyedQueues(s: State, t: Tid)
    requires QueuesOk(s) && t in s.threads && s.threads[t].wchan.None?
    ensures QueuesOk(Destroyed(s, t))
  {
    hide NoRepeats;
    assert forall q :: At(Destroyed(s, t), q) == At(s, q);
    hide At;
  }

  /** kthread_cancel of the current thread: the flag is set, and the thread exits. */
  function SelfCancelled(s: State): (r: State)
    requires s.cur in s.threads
  {
    ExitedThread(Flagged(s, s.cur))
  }

  lemma CancelSelfKeeps(s: State)
    requires Inv(s) && !s.switching
    ensures Inv(SelfCancelled(s)) && Inv(Flagged(s, s.cur))
  {
    assert ThreadOk(s, s.cur) && CallOk(s, s.cur);
    FieldKeeps(s, Flagged(s, s.cur), s.cur);
    OneThread(s, Flagged(s, s.cur), s.cur);
    hide Inv;
    ExitKeeps(Flagged(s, s.cur));
  }

  function Taken(s: State, m: MutexId): (r: State) {
    s.(holders := s.holders[m := s.cur], held := s.held + {(s.cur, m)})
  }

  lemma TakeKeeps(s: State, m: MutexId)
    requires Inv(s) && !s.switching && m !in s.holders
    ensures Inv(Taken(s, m))
  {
    hide QueuesOk, CurrentOk, HeldOk, ThreadOk, CallOk, MutexOk;
    var s' := Taken(s, m);
    SameQueues(s, s');
    TakenHeld(s, m);
    forall u | u in s'.threads
      ensures ThreadOk(s', u) && CallOk(s', u)
    {
      TakenThread(s, m, u);
    }
    forall x
      ensures MutexOk(s', x)
    {
      TakenMutex(s, m, x);
    }
  }

  lemma TakenHeld(s: State, m: MutexId)
    requires CurrentOk(s) && HeldOk(s) && m !in s.holders
    ensures CurrentOk(Taken(s, m)) && HeldOk(Taken(s, m))
  {
  }

  lemma TakenThread(s: State, m: MutexId, u: Tid)
    requires u in s.threads && ThreadOk(s, u) && CallOk(s, u) && m !in s.holders
    ensures ThreadOk(Taken(s, m), u) && CallOk(Taken(s, m), u)
  {
  }

  lemma TakenMutex(s: State, m: MutexId, x: MutexId)
    requires MutexOk(s, x) && s.cur in s.threads
    ensures MutexOk(Taken(s, m), x)
  {
  }

  /** The locks that `t` has once its call returns, if the call is a lock and succeeds. */
  ghost predicate LockReturns(s: State, t: Tid, m: MutexId)
    requires t in s.threads
  {
    CallOf(s, t) == InLock(m) || (CallOf(s, t) == InLockCancellable(m) && !s.threads[t].cancelled)
  }

  /** `t`, taken off the run queue, is the current thread again. */
  function Resumed(s: State, t: Tid, queues: map<Queue, KtQueue>): (r: State)
    requires t in s.threads
  {
    Returned(s.(queues := queues, threads := s.threads[t := s.threads[t].(wchan := None)], cur := t,
                switching := false), t)
  }

  lemma ThreadFacts(s: State, t: Tid)
    requires Inv(s) && t in s.threads
    ensures ThreadOk(s, t) && CallOk(s, t)
  {
  }

  lemma ResumedThread(s: State, t: Tid, queues: map<Queue, KtQueue>)
    requires Inv(s) && s.switching && t in s.threads && s.threads[t].wchan == Some(RunQ)
    ensures var s' := Resumed(s, t, queues);
      OnlyThread(s, s', t) && CurrentOk(s') && ThreadOk(s', t) && CallOk(s', t) && s.held <= s'.held
  {
    hide Inv;
    ThreadFacts(s, t);
  }

  lemma ResumedHeld(s: State, t: Tid, queues: map<Queue, KtQueue>)
    requires Inv(s) && s.switching && t in s.threads && s.threads[t].wchan == Some(RunQ)
    ensures var s' := Resumed(s, t, queues);
      HeldOk(s') && forall m: MutexId :: LockReturns(s, t, m) ==> (t, m) in s'.held && HolderOf(s', m) == Some(t)
  {
    ThreadFacts(s, t);
    assert HeldOk(s);
    hide Inv, ThreadOk;
  }

  lemma ResumedMutex(s: State, t: Tid, queues: map<Queue, KtQueue>, m: MutexId)
    requires Inv(s) && s.switching && t in s.threads && s.threads[t].wchan == Some(RunQ) && m in s.holders
    requires s.holders[m] == t
    ensures MutexOk(Resumed(s, t, queues), m)
  {
    assert MutexOk(s, m);
    hide Inv;
  }

  lemma ResumeKeeps(s: State, t: Tid, queues: map<Queue, KtQueue>)
    requires Inv(s) && s.switching && t in s.threads && s.threads[t].wchan == Some(RunQ)
    requires QueuesOk(Resumed(s, t, queues))
    ensures Inv(Resumed(s, t, queues))
    ensures forall m: MutexId :: LockReturns(s, t, m) ==>
      (t, m) in Resumed(s, t, queues).held && HolderOf(Resumed(s, t, queues), m) == Some(t)
  {
    hide Inv, QueuesOk, CurrentOk, HeldOk, ThreadOk, CallOk, MutexOk, Resumed, LockReturns;
    var s' := Resumed(s, t, queues);
    ResumedThread(s, t, queues);
    ResumedHeld(s, t, queues);
    forall m | m in s.holders && s.holders[m] == t
      ensures MutexOk(s', m)
    {
      ResumedMutex(s, t, queues, m);
    }
    StepKeeps(s, s', t);
  }

  lemma DispatchShape(s: State)
    requires QueuesOk(s) && At(s, RunQ).list != []
    ensures QueueOk(s, RunQ) && First(s, RunQ) in s.threads && s.threads[First(s, RunQ)].wchan == Some(RunQ)
    ensures QueuesOk(Dispatched(s)) && Dispatched(s) == Resumed(s, First(s, RunQ), Dispatched(s).queues)
    ensures Dispatched(s).cur == First(s, RunQ)
  {
    var t := First(s, RunQ);
    LiveQueue(s, RunQ);
    DequeueIsRemove(s, RunQ);
    RemoveKeeps(s, RunQ, t);
    hide QueuesOk, Unlink;
    SameQueues(Removed(s, RunQ, t), Dispatched(s));
  }

  lemma QueuesAreOk(s: State)
    requires Inv(s)
    ensures QueuesOk(s)
  {
  }

  lemma DispatchKeeps(s: State)
    requires Inv(s) && s.switching && At(s, RunQ).list != []
    ensures QueueOk(s, RunQ) && Inv(Dispatched(s))
    ensures var t := First(s, RunQ);
      && Dispatched(s).cur == t && t in s.threads
      && forall m: MutexId :: LockReturns(s, t, m) ==>
        (t, m) in Dispatched(s).held && HolderOf(Dispatched(s), m) == Some(t)
  {
    hide Inv, QueuesOk, Dispatched, Resumed, QueueOk, LockReturns, At;
    QueuesAreOk(s);
    DispatchShape(s);
    ResumeKeeps(s, First(s, RunQ), Dispatched(s).queues);
  }

  /** Nobody waits: no call mentions the mutex, but for cancelled ones that own nothing. */
  lemma FreeKeeps(s: State, m: MutexId)
    requires Inv(s) && !s.switching && HolderOf(s, m) == Some(s.cur) && At(s, LockQ(m)).list == []
    ensures Inv(Unlocked(s, m))
  {
    hide QueuesOk, CurrentOk, HeldOk, ThreadOk, CallOk, MutexOk, At;
    var s' := Unlocked(s, m);
    LiveQueue(s, LockQ(m));
    SameQueues(s, s');
    FreedHeld(s, m);
    forall u | u in s'.threads
      ensures ThreadOk(s', u) && CallOk(s', u)
    {
      FreedThread(s, m, u);
    }
    forall x
      ensures MutexOk(s', x)
    {
      FreedMutex(s, m, x);
    }
  }

  lemma FreedHeld(s: State, m: MutexId)
    requires CurrentOk(s) && HeldOk(s) && HolderOf(s, m) == Some(s.cur) && At(s, LockQ(m)).list == []
    ensures CurrentOk(Unlocked(s, m)) && HeldOk(Unlocked(s, m))
  {
  }

  lemma FreedThread(s: State, m: MutexId, u: Tid)
    requires Inv(s) && !s.switching && HolderOf(s, m) == Some(s.cur) && At(s, LockQ(m)).list == [] && u in s.threads
    ensures ThreadOk(Unlocked(s, m), u) && CallOk(Unlocked(s, m), u)
  {
    ThreadFacts(s, u);
    Parts(s);
    assert s.threads[u].wchan == Some(LockQ(m)) ==> u in At(s, LockQ(m)).list;
    hide Inv, QueuesOk, HeldOk;
  }

  lemma FreedMutex(s: State, m: MutexId, x: MutexId)
    requires MutexOk(s, x) && At(s, LockQ(m)).list == []
    ensures MutexOk(Unlocked(s, m), x)
  {
  }

  /** `t` leaves the lock's queue as the new holder. */
  ghost predicate HandsOver(s: State, s': State, m: MutexId, t: Tid) {
    && t in s.threads && s.threads[t].wchan == Some(LockQ(m))
    && s' == s.(queues := s'.queues, threads := s.threads[t := s.threads[t].(state := Run, wchan := Some(RunQ))],
                holders := s.holders[m := t], held := s.held - {(s.cur, m)})
  }

  lemma HandOverKeeps(s: State, s': State, m: MutexId, t: Tid)
    requires Inv(s) && !s.switching && HolderOf(s, m) == Some(s.cur) && HandsOver(s, s', m, t) && QueuesOk(s')
    ensures Inv(s') && t != s.cur
  {
    hide QueuesOk;
    assert ThreadOk(s, t) && CallOk(s, t);
    forall u | u in s'.threads
      ensures ThreadOk(s', u) && CallOk(s', u)
    {
      assert ThreadOk(s, u) && CallOk(s, u);
    }
    forall x
      ensures MutexOk(s', x)
    {
      assert MutexOk(s, x);
    }
  }

  lemma LiveQueue(s: State, q: Queue)
    requires QueuesOk(s)
    ensures QueueOk(s, q)
  {
  }

  lemma UnlockKeeps(s: State, m: MutexId)
    requires Inv(s) && !s.switching && HolderOf(s, m) == Some(s.cur)
    ensures QueueOk(s, LockQ(m)) && Inv(Unlocked(s, m))
    ensures HolderOf(Unlocked(s, m), m) == if At(s, LockQ(m)).list == [] then None else Some(First(s, LockQ(m)))
    ensures HolderOf(Unlocked(s, m), m) != Some(s.cur)
  {
    hide QueuesOk, CurrentOk, HeldOk, ThreadOk, CallOk, MutexOk;
    var q := LockQ(m);
    LiveQueue(s, q);
    var s' := Unlocked(s, m);
    if At(s, q).list == [] {
      FreeKeeps(s, m);
    } else {
      var s1 := s.(held := s.held - {(s.cur, m)});
      SameQueues(s, s1);
      WokenShape(s1, q);
      SameQueues(WokenOn(s1, q), s');
      HandOverKeeps(s, s', m, First(s, q));
    }
  }
}
