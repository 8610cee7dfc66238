/**
 * What every step of the scheduler does, said of the threads, queues and mutexes before and after
 * it: what changes, and that nothing else does.
 */
module ThreadEffects {
  import opened Lists
  import opened Threads
  import opened ThreadRuns

  /** Nothing changes but the threads `ts`, the queues `qs` and what is known of the mutexes `ms`. */
  ghost predicate Only(s: State, s': State, ts: set<Tid>, qs: set<Queue>, ms: set<MutexId>) {
    && (forall t :: t !in ts ==> (t in s'.threads <==> t in s.threads))
    && (forall t :: t !in ts && t in s.threads ==> t in s'.threads && s'.threads[t] == s.threads[t])
    && (forall t :: t !in ts ==> CallOf(s', t) == CallOf(s, t) && (t in s'.newborn <==> t in s.newborn))
    && (forall q :: q !in qs ==> At(s', q) == At(s, q))
    && (forall m :: m !in ms ==> HolderOf(s', m) == HolderOf(s, m))
    && (forall t, m :: m !in ms ==> ((t, m) in s'.held <==> (t, m) in s.held))
  }

  /** `t` is runnable and the last on the run queue, with its flag as it was before. */
  ghost predicate Queued(s: State, s': State, t: Tid) {
    && t in s.threads && t in s'.threads && s'.threads[t] == Thread(Run, Some(RunQ), s.threads[t].cancelled)
    && At(s', RunQ).list == [t] + At(s, RunQ).list
  }

  lemma SameAt(s: State, s': State)
    requires s'.queues == s.queues
    ensures forall q :: At(s', q) == At(s, q)
  {
  }

  lemma OnNoQueue(s: State, t: Tid)
    requires Inv(s) && t !in s.threads
    ensures forall q :: t !in At(s, q).list
  {
  }

  lemma CreatedParts(s: State, t: Tid)
    requires forall q :: t !in At(s, q).list
    ensures var s' := Created(s, t);
      && Only(s, s', {t}, {}, {}) && s'.cur == s.cur && s'.switching == s.switching
      && t in s'.threads && s'.threads[t] == Thread(Run, None, false) && t in s'.newborn
      && forall q :: t !in At(s', q).list
  {
    hide At;
    SameAt(s, Created(s, t));
  }

  lemma CreateAdds(s: State, t: Tid)
    requires Inv(s) && Enabled(s, Create(t))
    ensures var s' := Next(s, Create(t));
      && Only(s, s', {t}, {}, {}) && s'.cur == s.cur && !s'.switching
      && t in s'.threads && s'.threads[t] == Thread(Run, None, false) && t in s'.newborn
      && forall q :: t !in At(s', q).list
  {
    hide Inv, QueueOk, HoldsNone, Only, At, Created, Started, Yielded, SleptOn, WokenOn, Drained, CancelledThread,
      ExitedThread, SelfCancelled, Destroyed, Taken, Unlocked, Dispatched;
    OnNoQueue(s, t);
    CreatedParts(s, t);
  }

  lemma EnqueuedIs(s: State, q: Queue, t: Tid)
    requires t in s.threads
    ensures var s' := Enqueued(s, q, t);
      && s' == s.(threads := s'.threads, queues := s'.queues) && t in s'.threads
      && s'.threads[t] == s.threads[t].(wchan := Some(q))
  {
  }

  lemma RunnableParts(s: State, t: Tid)
    requires t in s.threads
    ensures var s' := MadeRunnable(s, t);
      && Only(s, s', {t}, {RunQ}, {}) && s'.cur == s.cur && s'.switching == s.switching && Queued(s, s', t)
      && s' == s.(threads := s'.threads, queues := s'.queues)
  {
    hide At, Enqueued;
    EnqueueParts(WithState(s, t, Run), RunQ, t);
    SameAt(s, WithState(s, t, Run));
    EnqueuedIs(WithState(s, t, Run), RunQ, t);
  }

  lemma StartedParts(s: State, t: Tid)
    requires t in s.threads
    ensures var s' := Started(s, t);
      && Only(s, s', {t}, {RunQ}, {}) && s'.cur == s.cur && s'.switching == s.switching
      && Queued(s, s', t) && t !in s'.newborn && CallOf(s', t) == CallOf(s, t)
  {
    hide MadeRunnable, At;
    RunnableParts(s, t);
    SameAt(MadeRunnable(s, t), Started(s, t));
  }

  lemma StartQueues(s: State, t: Tid)
    requires Inv(s) && Enabled(s, Start(t))
    ensures var s' := Next(s, Start(t));
      && Only(s, s', {t}, {RunQ}, {}) && s'.cur == s.cur && !s'.switching
      && Queued(s, s', t) && t !in s'.newborn && CallOf(s', t) == CallOf(s, t)
  {
    hide Inv, QueueOk, HoldsNone, Only, At, Created, Started, Yielded, SleptOn, WokenOn, Drained, CancelledThread,
      ExitedThread, SelfCancelled, Destroyed, Taken, Unlocked, Dispatched, MadeRunnable, Queued;
    StartedParts(s, t);
  }

  lemma YieldedParts(s: State)
    requires s.cur in s.threads
    ensures var s' := Yielded(s);
      Only(s, s', {s.cur}, {RunQ}, {}) && s'.cur == s.cur && s'.switching && Queued(s, s', s.cur)
  {
    hide MadeRunnable, At;
    RunnableParts(s, s.cur);
    SameAt(MadeRunnable(s, s.cur), Yielded(s));
  }

  lemma YieldQueues(s: State)
    requires Inv(s) && Enabled(s, Yield)
    ensures var s' := Next(s, Yield);
      Only(s, s', {s.cur}, {RunQ}, {}) && s'.cur == s.cur && s'.switching && Queued(s, s', s.cur)
  {
    hide Inv, QueueOk, HoldsNone, Only, At, Created, Started, Yielded, SleptOn, WokenOn, Drained, CancelledThread,
      ExitedThread, SelfCancelled, Destroyed, Taken, Unlocked, Dispatched, MadeRunnable, Queued;
    AllLive(s);
    YieldedParts(s);
  }

  /** The current thread sleeps at the end of `q`, in the state asked for. */
  ghost predicate Sleeps(s: State, s': State, q: Queue, state: Status, call: Call) {
    && Only(s, s', {s.cur}, {q}, {}) && s'.cur == s.cur && s'.switching
    && s.cur in s.threads && s.cur in s'.threads
    && s'.threads[s.cur] == Thread(state, Some(q), s.threads[s.cur].cancelled) && CallOf(s', s.cur) == call
    && At(s', q).list == [s.cur] + At(s, q).list
  }

  lemma SleptParts(s: State, q: Queue, state: Status, call: Call)
    requires s.cur in s.threads
    ensures Sleeps(s, SleptOn(s, q, state, call), q, state, call)
  {
    hide At, Enqueued;
    var s1, s' := WithState(s, s.cur, state), SleptOn(s, q, state, call);
    EnqueueParts(s1, q, s.cur);
    EnqueuedIs(s1, q, s.cur);
    SameAt(s, s1);
    SameAt(Enqueued(s1, q, s.cur), s');
  }

  lemma SleepEnters(s: State, w: nat)
    requires Inv(s) && Enabled(s, SleepOn(w))
    ensures Sleeps(s, Next(s, SleepOn(w)), WaitQ(w), Sleep, Sleeping)
  {
    hide Inv, QueueOk, HoldsNone, Only, At, Created, Started, Yielded, SleptOn, WokenOn, Drained, CancelledThread,
      ExitedThread, SelfCancelled, Destroyed, Taken, Unlocked, Dispatched, Sleeps;
    AllLive(s);
    SleptParts(s, WaitQ(w), Sleep, Sleeping);
  }

  lemma CancellableSleepEnters(s: State, w: nat)
    requires Inv(s) && Enabled(s, CancellableSleepOn(w))
    ensures s.cur in s.threads
    ensures if s.threads[s.cur].cancelled then Next(s, CancellableSleepOn(w)) == s
      else Sleeps(s, Next(s, CancellableSleepOn(w)), WaitQ(w), SleepCancellable, Sleeping)
  {
    hide Inv, QueueOk, HoldsNone, Only, At, Created, Started, Yielded, SleptOn, WokenOn, Drained, CancelledThread,
      ExitedThread, SelfCancelled, Destroyed, Taken, Unlocked, Dispatched, Sleeps;
    AllLive(s);
    SleptParts(s, WaitQ(w), SleepCancellable, Sleeping);
  }

  /** A free mutex goes to the caller, which goes on running; nothing else changes. */
  ghost predicate Takes(s: State, s': State, m: MutexId) {
    && Only(s, s', {}, {}, {m}) && s'.cur == s.cur && !s'.switching
    && HolderOf(s', m) == Some(s.cur) && (s.cur, m) in s'.held
    && forall t :: (t, m) in s'.held ==> t == s.cur
  }

  lemma TakenParts(s: State, m: MutexId)
    requires !s.switching && forall t :: (t, m) !in s.held
    ensures Takes(s, Taken(s, m), m)
  {
    hide At;
    SameAt(s, Taken(s, m));
  }

  lemma LockTakesOrWaits(s: State, m: MutexId)
    requires Inv(s) && Enabled(s, Lock(m))
    ensures var s' := Next(s, Lock(m));
      if HolderOf(s, m).None? then Takes(s, s', m) else Sleeps(s, s', LockQ(m), Sleep, InLock(m))
  {
    hide Inv, QueueOk, HoldsNone, Only, At, Created, Started, Yielded, SleptOn, WokenOn, Drained, CancelledThread,
      ExitedThread, SelfCancelled, Destroyed, Taken, Unlocked, Dispatched, Sleeps, Takes;
    AllLive(s);
    if HolderOf(s, m).None? {
      NobodyWaits(s, m);
      TakenParts(s, m);
    } else {
      SleptParts(s, LockQ(m), Sleep, InLock(m));
    }
  }

  lemma CancellableLockTakesOrWaits(s: State, m: MutexId)
    requires Inv(s) && Enabled(s, LockCancellable(m))
    ensures s.cur in s.threads
    ensures var s' := Next(s, LockCancellable(m));
      if HolderOf(s, m).None? then Takes(s, s', m)
      else if s.threads[s.cur].cancelled then s' == s
      else Sleeps(s, s', LockQ(m), SleepCancellable, InLockCancellable(m))
  {
    hide Inv, QueueOk, HoldsNone, Only, At, Created, Started, Yielded, SleptOn, WokenOn, Drained, CancelledThread,
      ExitedThread, SelfCancelled, Destroyed, Taken, Unlocked, Dispatched, Sleeps, Takes;
    AllLive(s);
    if HolderOf(s, m).None? {
      NobodyWaits(s, m);
      TakenParts(s, m);
    } else {
      SleptParts(s, LockQ(m), SleepCancellable, InLockCancellable(m));
    }
  }

  /** A lock of a free mutex and its unlock cancel out. */
  lemma TakenFreed(s: State, m: MutexId)
    requires HolderOf(s, m).None? && At(s, LockQ(m)).list == [] && (s.cur, m) !in s.held
    requires QueueOk(Taken(s, m), LockQ(m))
    ensures HolderOf(Taken(s, m), m) == Some(s.cur) && Unlocked(Taken(s, m), m) == s
  {
    var s' := Taken(s, m);
    assert s'.holders - {m} == s.holders && s'.held - {(s.cur, m)} == s.held;
    assert At(s', LockQ(m)) == At(s, LockQ(m));
  }

  lemma LockThenUnlock(s: State, m: MutexId)
    requires Inv(s) && Enabled(s, Lock(m)) && HolderOf(s, m).None?
    ensures var s' := Next(s, Lock(m)); Inv(s') && Enabled(s', Unlock(m)) && Next(s', Unlock(m)) == s
  {
    hide Inv, QueueOk, HoldsNone, Only, At, Created, Started, Yielded, SleptOn, WokenOn, Drained, CancelledThread,
      ExitedThread, SelfCancelled, Destroyed, Dispatched;
    NextKeeps(s, Lock(m));
    NobodyWaits(s, m);
    AllLive(s);
    AllLive(Taken(s, m));
    TakenFreed(s, m);
  }

  /** Nobody waits for a mutex without a holder, or has it. */
  lemma NobodyWaits(s: State, m: MutexId)
    requires Inv(s) && HolderOf(s, m).None?
    ensures At(s, LockQ(m)).list == [] && forall t :: (t, m) !in s.held
  {
    hide ThreadOk, MutexOk;
    var l := At(s, LockQ(m)).list;
    assert l != [] ==> l[0] in l;
    forall t
      ensures t !in l
    {
      assert t in s.threads ==> CallOk(s, t);
    }
  }

  /** The thread at the tail of `q` becomes runnable, and the others keep their places. */
  ghost predicate Wakes(s: State, s': State, q: Queue) {
    var l := At(s, q).list;
    && l != [] && At(s', q).list == l[..|l| - 1] && Queued(s, s', l[|l| - 1])
  }

  lemma WokenParts(s: State, q: Queue)
    requires QueueOk(s, q) && q != RunQ && At(s, q).list != []
    ensures var s', l := WokenOn(s, q), At(s, q).list;
      && Wakes(s, s', q) && Only(s, s', {l[|l| - 1]}, {q, RunQ}, {})
      && s' == s.(threads := s'.threads, queues := s'.queues)
  {
    var t, s1 := First(s, q), Dequeued(s, q);
    assert t in At(s, q).list;
    assert forall x :: x != q ==> At(s1, x) == At(s, x);
    assert At(s1, q).list == At(s, q).list[..|At(s, q).list| - 1];
    hide QueueOk, First;
    RunnableParts(s1, t);
    hide At, MadeRunnable;
  }

  lemma WokenNone(s: State, q: Queue)
    requires QueueOk(s, q) && At(s, q).list == []
    ensures WokenOn(s, q) == s
  {
  }

  /** What two steps leave alone together. */
  lemma OnlyBoth(s: State, s1: State, s': State, ts: set<Tid>, us: set<Tid>, qs: set<Queue>)
    requires Only(s, s1, ts, qs, {}) && Only(s1, s', us, qs, {})
    ensures Only(s, s', ts + us, qs, {})
  {
    hide At, CallOf, HolderOf;
  }

  /** All the sleepers become runnable, behind everyone who was, in the order they came in. */
  lemma {:induction false} BroadcastWakesAll(s: State, w: nat)
    requires Inv(s)
    ensures var s', l := Drained(s, w), At(s, WaitQ(w)).list;
      && At(s', WaitQ(w)).list == [] && At(s', RunQ).list == l + At(s, RunQ).list
      && (forall t :: t in l ==> Runnable(s, s', t))
      && Only(s, s', Among(l), {WaitQ(w), RunQ}, {}) && s'.cur == s.cur && s'.switching == s.switching
    decreases |At(s, WaitQ(w)).list|
  {
    hide Inv, QueueOk, WokenOn, At, Only;
    AllLive(s);
    var l := At(s, WaitQ(w)).list;
    if l == [] {
      OnlySame(s, w);
      assert [] + At(s, RunQ).list == At(s, RunQ).list;
    } else {
      var t, s1 := l[|l| - 1], WokenOn(s, WaitQ(w));
      WokenKeeps(s, w);
      WokenParts(s, WaitQ(w));
      BroadcastWakesAll(s1, w);
      var l1, s' := At(s1, WaitQ(w)).list, Drained(s, w);
      assert l == l1 + [t];
      OnlyBoth(s, s1, s', {t}, Among(l1), {WaitQ(w), RunQ});
      assert {t} + Among(l1) == Among(l);
      SleepersOnce(s, w);
      forall u | u in l
        ensures Runnable(s, s', u)
      {
        if u == t { StaysRunnable(s, s1, s', l1, {WaitQ(w), RunQ}, t); }
        else { WokenLater(s, s1, s', {WaitQ(w), RunQ}, t, u); }
      }
      assert l1 + ([t] + At(s, RunQ).list) == l + At(s, RunQ).list;
    }
  }

  ghost function Among(l: seq<Tid>): (r: set<Tid>) { set t | t in l }

  /** `t` is on the run queue, with its flag as it was. */
  ghost predicate Runnable(s: State, s': State, t: Tid) {
    t in s.threads && t in s'.threads && s'.threads[t] == Thread(Run, Some(RunQ), s.threads[t].cancelled)
  }

  lemma OnlySame(s: State, w: nat)
    ensures Only(s, s, Among([]), {WaitQ(w), RunQ}, {})
  {
  }

  lemma SleepersOnce(s: State, w: nat)
    requires Inv(s) && At(s, WaitQ(w)).list != []
    ensures var l := At(s, WaitQ(w)).list; l[|l| - 1] !in l[..|l| - 1]
  {
    QueuesAreOk(s);
    hide Inv;
  }

  lemma StaysRunnable(s: State, s1: State, s': State, l1: seq<Tid>, qs: set<Queue>, t: Tid)
    requires Runnable(s, s1, t) && t !in l1 && Only(s1, s', Among(l1), qs, {})
    ensures Runnable(s, s', t)
  {
    hide At, CallOf, HolderOf;
  }

  lemma WokenLater(s: State, s1: State, s': State, qs: set<Queue>, t: Tid, u: Tid)
    requires Runnable(s1, s', u) && u != t && Only(s, s1, {t}, qs, {})
    ensures Runnable(s, s', u)
  {
    hide At, CallOf, HolderOf;
  }

  lemma WakeupServes(s: State, w: nat)
    requires Inv(s) && Enabled(s, WakeupOn(w))
    ensures var s', l := Next(s, WakeupOn(w)), At(s, WaitQ(w)).list;
      if l == [] then s' == s
      else
        && Wakes(s, s', WaitQ(w)) && Only(s, s', {l[|l| - 1]}, {WaitQ(w), RunQ}, {})
        && s'.cur == s.cur && s'.switching == s.switching
  {
    hide Inv, QueueOk, HoldsNone, Only, At, Created, Started, Yielded, SleptOn, WokenOn, Drained, CancelledThread,
      ExitedThread, SelfCancelled, Destroyed, Taken, Unlocked, Dispatched, Wakes;
    AllLive(s);
    if At(s, WaitQ(w)).list != [] {
      WokenParts(s, WaitQ(w));
    } else {
      WokenNone(s, WaitQ(w));
    }
  }

  /** The new holder is entered. */
  lemma HandedParts(s: State, s1: State, m: MutexId, t: Tid)
    requires Only(s.(held := s.held - {(s.cur, m)}), s1, {t}, {LockQ(m), RunQ}, {})
    requires s1.holders == s.holders && s1.held == s.held - {(s.cur, m)}
    ensures var s' := s1.(holders := s.holders[m := t]);
      && Only(s, s', {t}, {LockQ(m), RunQ}, {m}) && HolderOf(s', m) == Some(t) && (s.cur, m) !in s'.held
      && forall q :: At(s', q) == At(s1, q)
  {
    hide At;
    SameAt(s, s.(held := s.held - {(s.cur, m)}));
    SameAt(s1, s1.(holders := s.holders[m := t]));
  }

  lemma UnlockedParts(s: State, m: MutexId)
    requires QueueOk(s, LockQ(m))
    ensures var s', l := Unlocked(s, m), At(s, LockQ(m)).list;
      && s'.cur == s.cur && s'.switching == s.switching && (s.cur, m) !in s'.held
      && if l == [] then HolderOf(s', m).None? && Only(s, s', {}, {}, {m})
         else
           && HolderOf(s', m) == Some(l[|l| - 1]) && Wakes(s, s', LockQ(m))
           && Only(s, s', {l[|l| - 1]}, {LockQ(m), RunQ}, {m})
  {
    hide At, QueueOk, WokenOn;
    var q, s1 := LockQ(m), s.(held := s.held - {(s.cur, m)});
    SameAt(s, s1);
    if At(s, q).list == [] {
      SameAt(s, Unlocked(s, m));
    } else {
      LiveSame(s, s1, q);
      WokenParts(s1, q);
      HandedParts(s, WokenOn(s1, q), m, First(s, q));
    }
  }

  lemma UnlockHandsOver(s: State, m: MutexId)
    requires Inv(s) && Enabled(s, Unlock(m))
    ensures var s', l := Next(s, Unlock(m)), At(s, LockQ(m)).list;
      && s'.cur == s.cur && !s'.switching && (s.cur, m) !in s'.held
      && if l == [] then HolderOf(s', m).None? && Only(s, s', {}, {}, {m})
         else
           && HolderOf(s', m) == Some(l[|l| - 1]) && Wakes(s, s', LockQ(m))
           && Only(s, s', {l[|l| - 1]}, {LockQ(m), RunQ}, {m})
  {
    hide Inv, QueueOk, HoldsNone, Only, At, Created, Started, Yielded, SleptOn, WokenOn, Drained, CancelledThread,
      ExitedThread, SelfCancelled, Destroyed, Taken, Unlocked, Dispatched, Wakes;
    AllLive(s);
    UnlockedParts(s, m);
  }

  lemma LiveSame(s: State, s': State, q: Queue)
    requires QueueOk(s, q) && s'.threads == s.threads && s'.queues == s.queues
    ensures QueueOk(s', q)
  {
    assert At(s', q) == At(s, q);
  }

  lemma CurrentIs(s: State)
    requires Inv(s) && !s.switching
    ensures s.cur in s.threads && s.threads[s.cur].wchan.None?
  {
  }

  lemma ExitedParts(s: State)
    requires s.cur in s.threads
    ensures var s' := ExitedThread(s);
      && Only(s, s', {s.cur}, {}, {}) && s'.cur == s.cur && s'.switching && s.cur in s'.threads
      && s'.threads[s.cur] == s.threads[s.cur].(state := Exited)
  {
    hide At;
    SameAt(s, ExitedThread(s));
  }

  lemma ExitLeaves(s: State)
    requires Inv(s) && Enabled(s, Exit)
    ensures var s' := Next(s, Exit);
      && Only(s, s', {s.cur}, {}, {}) && s'.cur == s.cur && s'.switching && s.cur in s.threads && s.cur in s'.threads
      && s'.threads[s.cur] == Thread(Exited, None, s.threads[s.cur].cancelled)
  {
    hide Inv, QueueOk, HoldsNone, Only, At, Created, Started, Yielded, SleptOn, WokenOn, Drained, CancelledThread,
      ExitedThread, SelfCancelled, Destroyed, Taken, Unlocked, Dispatched, WithState;
    AllLive(s);
    CurrentIs(s);
    ExitedParts(s);
  }

  lemma SelfCancelledParts(s: State)
    requires s.cur in s.threads
    ensures var s' := SelfCancelled(s);
      && Only(s, s', {s.cur}, {}, {}) && s'.cur == s.cur && s'.switching && s.cur in s'.threads
      && s'.threads[s.cur] == s.threads[s.cur].(state := Exited, cancelled := true)
  {
    hide At;
    SameAt(s, SelfCancelled(s));
  }

  lemma CancelSelfLeaves(s: State)
    requires Inv(s) && Enabled(s, CancelSelf)
    ensures var s' := Next(s, CancelSelf);
      && Only(s, s', {s.cur}, {}, {}) && s'.cur == s.cur && s'.switching && s.cur in s'.threads
      && s'.threads[s.cur] == Thread(Exited, None, true)
  {
    hide Inv, QueueOk, HoldsNone, Only, At, Created, Started, Yielded, SleptOn, WokenOn, Drained, CancelledThread,
      ExitedThread, SelfCancelled, Destroyed, Taken, Unlocked, Dispatched, WithState, Flagged;
    AllLive(s);
    CurrentIs(s);
    SelfCancelledParts(s);
  }

  lemma DestroyedParts(s: State, t: Tid)
    ensures var s' := Destroyed(s, t);
      Only(s, s', {t}, {}, {}) && s'.cur == s.cur && s'.switching == s.switching && t !in s'.threads
  {
    hide At;
    SameAt(s, Destroyed(s, t));
  }

  lemma DestroyFrees(s: State, t: Tid)
    requires Inv(s) && Enabled(s, Destroy(t))
    ensures var s' := Next(s, Destroy(t));
      Only(s, s', {t}, {}, {}) && s'.cur == s.cur && !s'.switching && t !in s'.threads
  {
    hide Inv, QueueOk, HoldsNone, Only, At, Created, Started, Yielded, SleptOn, WokenOn, Drained, CancelledThread,
      ExitedThread, SelfCancelled, Destroyed, Taken, Unlocked, Dispatched;
    DestroyedParts(s, t);
  }

  /**
   * A cancellable sleeper leaves its queue, whose other threads keep their order, and is runnable
   * with its flag set; anyone else only gets the flag.
   */
  lemma RemovedIs(s: State, q: Queue, t: Tid)
    requires t in s.threads
    ensures var s' := Removed(s, q, t);
      && s' == s.(threads := s'.threads, queues := s'.queues) && t in s'.threads
      && s'.threads[t] == s.threads[t].(wchan := None)
  {
  }

  lemma CancelledParts(s: State, t: Tid)
    requires t in s.threads && s.threads[t].state == SleepCancellable && s.threads[t].wchan.Some?
    requires s.threads[t].wchan != Some(RunQ)
    ensures var s', q := CancelledThread(s, t), s.threads[t].wchan.value;
      && s' == s.(threads := s'.threads, queues := s'.queues) && t in s'.threads
      && Only(s, s', {t}, {q, RunQ}, {}) && s'.threads[t] == Thread(Run, Some(RunQ), true)
      && At(s', RunQ).list == [t] + At(s, RunQ).list && At(s', q).list == Unlink(At(s, q).list, t)
  {
    hide Removed, MadeRunnable, At, Unlink;
    var s1, q := Flagged(s, t), s.threads[t].wchan.value;
    SameAt(s, s1);
    RemoveParts(s1, q, t);
    RemovedIs(s1, q, t);
    RunnableParts(Removed(s1, q, t), t);
  }

  lemma FlaggedParts(s: State, t: Tid)
    requires t in s.threads && s.threads[t].state != SleepCancellable
    ensures var s' := CancelledThread(s, t);
      && s' == s.(threads := s'.threads) && t in s'.threads
      && Only(s, s', {t}, {}, {}) && s'.threads[t] == s.threads[t].(cancelled := true)
  {
    hide At;
    SameAt(s, CancelledThread(s, t));
  }

  lemma CancelWakes(s: State, t: Tid)
    requires Inv(s) && Enabled(s, Cancel(t))
    ensures var s', th := Next(s, Cancel(t)), s.threads[t];
      && s'.cur == s.cur && !s'.switching && t in s'.threads && CallOf(s', t) == CallOf(s, t)
      && (t in s'.newborn <==> t in s.newborn)
      && if th.state != SleepCancellable then Only(s, s', {t}, {}, {}) && s'.threads[t] == th.(cancelled := true)
         else
           && th.wchan.Some? && Only(s, s', {t}, {th.wchan.value, RunQ}, {})
           && s'.threads[t] == Thread(Run, Some(RunQ), true)
           && At(s', RunQ).list == [t] + At(s, RunQ).list
           && Leaves(At(s, th.wchan.value).list, At(s', th.wchan.value).list, t)
  {
    hide Inv, QueueOk, HoldsNone, Only, At, Created, Started, Yielded, SleptOn, WokenOn, Drained, CancelledThread,
      ExitedThread, SelfCancelled, Destroyed, Taken, Unlocked, Dispatched, Leaves, Unlink, Flagged;
    AllLive(s);
    ThreadFacts(s, t);
    QueuesAreOk(s);
    if s.threads[t].state == SleepCancellable {
      LeavesList(s, s.threads[t].wchan.value, t);
      CancelledParts(s, t);
    } else {
      FlaggedParts(s, t);
    }
  }

  lemma LeavesList(s: State, q: Queue, t: Tid)
    requires QueuesOk(s) && t in s.threads && s.threads[t].wchan == Some(q)
    ensures Leaves(At(s, q).list, Unlink(At(s, q).list, t), t)
  {
    var l := At(s, q).list;
    assert t in l;
    var i :| 0 <= i < |l| && l[i] == t;
    NoRepeatsUnlink(l, t);
    UnlinkAt(l, i);
  }

  /** `t` is gone from the list, and the others are as they were. */
  ghost predicate Leaves(l: seq<Tid>, l': seq<Tid>, t: Tid) {
    t !in l' && exists i :: 0 <= i < |l| && l[i] == t && l' == l[..i] + l[i + 1..]
  }

  /** The thread at the tail of the run queue runs, and has the mutex that its lock has been granted. */
  ghost predicate Resumes(s: State, s': State) {
    var l := At(s, RunQ).list;
    && l != []
    && var t := l[|l| - 1];
       && s'.cur == t && !s'.switching && t in s.threads && t in s'.threads
       && s'.threads[t] == Thread(Run, None, s.threads[t].cancelled) && CallOf(s', t) == NoCall
       && At(s', RunQ).list == l[..|l| - 1]
       && (forall u :: u != t && u in s.threads ==> u in s'.threads && s'.threads[u] == s.threads[u])
       && (forall u :: u != t ==> (u in s'.threads <==> u in s.threads) && CallOf(s', u) == CallOf(s, u))
       && (forall q :: q != RunQ ==> At(s', q) == At(s, q))
       && s'.holders == s.holders && s'.newborn == s.newborn
       && (forall u: Tid, m: MutexId :: (u, m) in s'.held <==>
            || (u, m) in s.held
            || (u == t && CallOf(s, t) == InLock(m))
            || (u == t && CallOf(s, t) == InLockCancellable(m) && !s.threads[t].cancelled))
  }

  lemma DispatchedParts(s: State)
    requires QueuesOk(s) && At(s, RunQ).list != [] && QueueOk(s, RunQ)
    requires var t := First(s, RunQ); t in s.threads && s.threads[t].state == Run
    ensures Resumes(s, Dispatched(s))
  {
    hide At, Removed, Unlink, QueueOk, NoRepeats, Dequeued;
    var t, l := First(s, RunQ), At(s, RunQ).list;
    DequeueIsRemove(s, RunQ);
    RemoveParts(s, RunQ, t);
    RemovedIs(s, RunQ, t);
    UnlinkLast(l) by { assert NoRepeats(At(s, RunQ).list); }
    hide QueuesOk;
    SameAt(Dequeued(s, RunQ), Dispatched(s));
  }

  lemma TailRuns(s: State)
    requires Inv(s) && At(s, RunQ).list != []
    ensures var t := First(s, RunQ); t in s.threads && s.threads[t].state == Run
  {
    assert First(s, RunQ) in At(s, RunQ).list;
    ThreadFacts(s, First(s, RunQ));
  }

  /** The thread at the tail of the run queue runs, and has the mutex its call was about. */
  lemma DispatchResumes(s: State)
    requires Inv(s) && Enabled(s, Dispatch)
    ensures Resumes(s, Next(s, Dispatch))
  {
    hide Inv, QueueOk, HoldsNone, Only, At, Created, Started, Yielded, SleptOn, WokenOn, Drained, CancelledThread,
      ExitedThread, SelfCancelled, Destroyed, Taken, Unlocked, Dispatched, Resumes;
    AllLive(s);
    QueuesAreOk(s);
    TailRuns(s);
    DispatchedParts(s);
  }

  // ---------------------------------------------------------------------------------------------
  // Locks that have returned

  /** `t` has the mutex, alone. */
  ghost predicate Has(s: State, t: Tid, m: MutexId) {
    HolderOf(s, m) == Some(t) && (t, m) in s.held && forall u :: (u, m) in s.held ==> u == t
  }

  /** In every run from boot, a lock that returns at once leaves the caller with the mutex. */
  lemma LockedOnReturn(boot: Tid, steps: seq<Step>, s: State, m: MutexId)
    requires BootRuns(boot, steps, s)
    ensures Inv(s)
    ensures Enabled(s, Lock(m)) ==> (!Next(s, Lock(m)).switching ==> Has(Next(s, Lock(m)), s.cur, m))
    ensures Enabled(s, LockCancellable(m)) && (HolderOf(s, m).None? || !s.threads[s.cur].cancelled) ==>
      (!Next(s, LockCancellable(m)).switching ==> Has(Next(s, LockCancellable(m)), s.cur, m))
  {
    hide Inv, Enabled, Next, Only, Sleeps, BootRuns;
    AlwaysInv(boot, steps, s);
    AllLive(s);
    if Enabled(s, Lock(m)) {
      LockTakesOrWaits(s, m);
      SleepsSwitch(s, Next(s, Lock(m)), LockQ(m), Sleep, InLock(m));
    }
    if Enabled(s, LockCancellable(m)) {
      CancellableLockTakesOrWaits(s, m);
      SleepsSwitch(s, Next(s, LockCancellable(m)), LockQ(m), SleepCancellable, InLockCancellable(m));
    }
  }

  lemma SleepsSwitch(s: State, s': State, q: Queue, state: Status, call: Call)
    ensures Sleeps(s, s', q, state, call) ==> s'.switching
  {
    hide Only, At, CallOf;
  }

  /** In every run from boot, a lock that had to wait and returns leaves its thread with the mutex. */
  lemma GrantedOnReturn(boot: Tid, steps: seq<Step>, s: State, t: Tid, m: MutexId)
    requires BootRuns(boot, steps, s) && Enabled(s, Dispatch) && t == First(s, RunQ) && t in s.threads
    requires CallOf(s, t) == InLock(m) || (CallOf(s, t) == InLockCancellable(m) && !s.threads[t].cancelled)
    ensures Inv(s) && Next(s, Dispatch).cur == t && Has(Next(s, Dispatch), t, m)
  {
    AlwaysInv(boot, steps, s);
    hide Inv, BootRuns;
    DispatchResumes(s);
    NextKeeps(s, Dispatch);
    HeldAlone(Next(s, Dispatch), t, m);
  }

  lemma HeldAlone(s: State, t: Tid, m: MutexId)
    requires Inv(s) && (t, m) in s.held
    ensures Has(s, t, m)
  {
  }
}
