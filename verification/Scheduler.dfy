/** The code of sched.c, sched_helper.c, kmutex.c and kthread.c, proved to take the machine's steps. */
module Scheduler {
  import opened Lists
  import opened Threads
  import opened ThreadRuns
  import ThreadEffects

  class Kernel {
    var threads: map<Tid, Thread>
    var queues: map<Queue, KtQueue>
    var cur: Tid
    var switching: bool
    var holders: map<MutexId, Tid>
    ghost var calls: map<Tid, Call>
    ghost var newborn: set<Tid>
    ghost var held: set<(Tid, MutexId)>

    ghost function Now(): (s: State)
      reads this
    {
      State(threads, queues, cur, switching, holders, calls, newborn, held)
    }

    constructor (idle: Tid)
      ensures Now() == Boot(idle) && Inv(Now())
    {
      threads, queues, cur, switching := map[idle := Thread(Run, None, false)], map[], idle, false;
      holders, calls, newborn, held := map[], map[], {}, {};
      new;
      BootInv(idle);
    }

    // -------------------------------------------------------------------------------------------
    // sched.c: queues

    function Queued(q: Queue): (r: KtQueue)
      reads this
      ensures r == At(Now(), q)
    {
      if q in queues then queues[q] else KtQueue([], 0)
    }

    /** ktqueue_enqueue: whoever is on the queue already leaves it before `t`. */
    method Enqueue(q: Queue, t: Tid)
      requires t in threads && threads[t].wchan.None?
      modifies `threads, `queues
      ensures Now() == Enqueued(old(Now()), q, t)
      ensures Queued(q).list == [t] + old(Queued(q)).list && t in threads && threads[t].wchan == Some(q)
      ensures QueuesOk(old(Now())) ==> QueuesOk(Now())
      ensures Queued(q).list != [] && First(Now(), q) == if old(Queued(q)).list == [] then t else First(old(Now()), q)
    {
      ghost var s := Now();
      if QueuesOk(s) { EnqueueKeeps(s, q, t); }
      var tq := Queued(q);
      tq := tq.(list := [t] + tq.list);
      threads := threads[t := threads[t].(wchan := Some(q))];
      tq := tq.(size := tq.size + 1);
      queues := queues[q := tq];
    }

    /** ktqueue_dequeue: the thread that has been on the queue longest. */
    method Dequeue(q: Queue) returns (r: Option<Tid>)
      requires QueuesOk(Now())
      modifies `threads, `queues
      ensures At(old(Now()), q).list == [] ==> r == None && Now() == old(Now())
      ensures At(old(Now()), q).list != [] ==>
        && r == Some(First(old(Now()), q)) && r.value in old(threads) && old(threads)[r.value].wchan == Some(q)
        && Now() == Dequeued(old(Now()), q)
      ensures QueuesOk(Now())
    {
      var tq := Queued(q);
      if |tq.list| == 0 {
        return None;
      }
      DequeueIsRemove(Now(), q);
      RemoveKeeps(Now(), q, First(Now(), q));
      var t := tq.list[|tq.list| - 1];
      tq := tq.(list := tq.list[..|tq.list| - 1]);
      threads := threads[t := threads[t].(wchan := None)];
      tq := tq.(size := tq.size - 1);
      queues := queues[q := tq];
      r := Some(t);
    }

    /** ktqueue_remove: takes `t` off the queue it is on, wherever it is on it. */
    method Remove(q: Queue, t: Tid)
      requires QueuesOk(Now()) && t in threads && threads[t].wchan == Some(q)
      modifies `threads, `queues
      ensures Now() == Removed(old(Now()), q, t)
      ensures QueuesOk(Now()) && t !in Queued(q).list
    {
      RemoveKeeps(Now(), q, t);
      NoRepeatsUnlink(Queued(q).list, t);
      var tq := Queued(q);
      tq := tq.(list := Unlink(tq.list, t));
      threads := threads[t := threads[t].(wchan := None)];
      tq := tq.(size := tq.size - 1);
      queues := queues[q := tq];
    }

    /** sched_make_runnable: whoever is on the run queue already runs before `t`. */
    method MakeRunnable(t: Tid)
      requires t in threads && threads[t].wchan.None?
      modifies `threads, `queues
      ensures Now() == MadeRunnable(old(Now()), t)
      ensures QueuesOk(old(Now())) ==> QueuesOk(Now())
      ensures Queued(RunQ).list != []
      ensures First(Now(), RunQ) == if old(Queued(RunQ)).list == [] then t else First(old(Now()), RunQ)
    {
      assert threads[t].wchan != Some(RunQ);
      ghost var s := Now();
      if QueuesOk(s) { FieldKeeps(s, WithState(s, t, Run), t); }
      threads := threads[t := threads[t].(state := Run)];
      Enqueue(RunQ, t);
    }

    // -------------------------------------------------------------------------------------------
    // Sleeping and waking

    /** sched_sleep_on up to its sched_switch. */
    method SleepOn(q: Queue, ghost call: Call)
      requires Inv(Now()) && !switching && SleepsRight(Now(), q, Sleep, call)
      modifies `threads, `queues, `switching, `calls
      ensures Now() == SleptOn(old(Now()), q, Sleep, call) && Inv(Now())
      ensures cur in old(threads) && threads == old(threads)[cur := Thread(Sleep, Some(q), old(threads)[cur].cancelled)]
      ensures Queued(q).list == [cur] + old(Queued(q)).list && switching
    {
      hide QueuesOk, ThreadOk, CallOk, MutexOk, HeldOk, NoRepeats;
      SleepKeeps(Now(), q, Sleep, call);
      threads := threads[cur := threads[cur].(state := Sleep)];
      Enqueue(q, cur);
      calls := calls[cur := call];
      switching := true;
    }

    /** sched_cancellable_sleep_on up to its sched_switch; true when it returns -EINTR at once. */
    method CancellableSleepOn(q: Queue, ghost call: Call) returns (interrupted: bool)
      requires Inv(Now()) && !switching && SleepsRight(Now(), q, SleepCancellable, call)
      modifies `threads, `queues, `switching, `calls
      ensures Inv(Now()) && interrupted == old(threads[cur].cancelled)
      ensures Now() == if interrupted then old(Now()) else SleptOn(old(Now()), q, SleepCancellable, call)
      ensures !interrupted ==>
        && threads == old(threads)[cur := Thread(SleepCancellable, Some(q), false)]
        && Queued(q).list == [cur] + old(Queued(q)).list && switching
    {
      hide QueuesOk, ThreadOk, CallOk, MutexOk, HeldOk, NoRepeats;
      if threads[cur].cancelled {
        return true;
      }
      SleepKeeps(Now(), q, SleepCancellable, call);
      threads := threads[cur := threads[cur].(state := SleepCancellable)];
      Enqueue(q, cur);
      calls := calls[cur := call];
      switching := true;
      return false;
    }

    /** sched_wakeup_on: the thread that has waited longest. */
    method WakeupOn(q: Queue) returns (r: Option<Tid>)
      requires Inv(Now()) && q != RunQ
      modifies `threads, `queues
      ensures QueueOk(old(Now()), q) && Now() == WokenOn(old(Now()), q) && QueuesOk(Now())
      ensures r == if At(old(Now()), q).list == [] then None else Some(First(old(Now()), q))
      ensures r.Some? ==>
        && r.value in old(threads)
        && threads == old(threads)[r.value := Thread(Run, Some(RunQ), old(threads)[r.value].cancelled)]
        && Queued(q).list + [r.value] == old(Queued(q)).list && Queued(RunQ).list == [r.value] + old(Queued(RunQ)).list
      ensures q.WaitQ? ==> Inv(Now())
    {
      hide Inv, WokenOn, Unlink, NoRepeats;
      QueuesAreOk(Now());
      hide QueuesOk;
      LiveQueue(Now(), q);
      ghost var s := Now();
      WokenIs(s, q);
      r := Dequeue(q);
      if r.Some? {
        SleepersSleep(s, q);
        assert threads[r.value].state == Sleep || threads[r.value].state == SleepCancellable;
        MakeRunnable(r.value);
      }
      if q.WaitQ? {
        WokenKeeps(s, q.w);
      }
    }

    /** sched_broadcast_on: drains the queue. */
    method BroadcastOn(w: nat)
      requires Inv(Now())
      modifies `threads, `queues
      ensures Inv(Now()) && Now() == Drained(old(Now()), w) && At(Now(), WaitQ(w)).list == []
      ensures Queued(RunQ).list == old(Queued(WaitQ(w))).list + old(Queued(RunQ)).list
    {
      ThreadEffects.BroadcastWakesAll(Now(), w);
      while |Queued(WaitQ(w)).list| > 0
        invariant Inv(Now()) && Drained(Now(), w) == Drained(old(Now()), w)
        decreases |Queued(WaitQ(w)).list|
      {
        WokenKeeps(Now(), w);
        ghost var s := Now();
        var t := WakeupOn(WaitQ(w));
      }
    }

    /** sched_cancel. */
    method SchedCancel(t: Tid)
      requires Inv(Now()) && t in threads && t != cur
      modifies `threads, `queues
      ensures Inv(Now()) && Now() == CancelledThread(old(Now()), t)
      ensures old(threads)[t].state != SleepCancellable ==>
        threads == old(threads)[t := old(threads)[t].(cancelled := true)] && queues == old(queues)
      ensures old(threads)[t].state == SleepCancellable ==>
        && threads == old(threads)[t := Thread(Run, Some(RunQ), true)]
        && Queued(RunQ).list == [t] + old(Queued(RunQ)).list
        && old(threads)[t].wchan.Some? && t !in Queued(old(threads)[t].wchan.value).list
    {
      hide Inv, QueuesOk, Unlink, CallOk, CancelledThread, ThreadEffects.Leaves, At, Removed, MadeRunnable;
      ghost var s := Now();
      CancelKeeps(s, t);
      FlagKeeps(s, t);
      QueuesAreOk(Flagged(s, t));
      ThreadFacts(s, t);
      CancelIs(s, t);
      var state := threads[t].state;
      if state != NoState || state != Exited {
        threads := threads[t := threads[t].(cancelled := true)];
        if threads[t].state == SleepCancellable {
          ThreadEffects.RemovedIs(Now(), threads[t].wchan.value, t);
          Remove(threads[t].wchan.value, t);
          MakeRunnable(t);
        }
      }
    }

    /**
     * sched_switch, with the interrupts that arrive while the run queue is empty. It returns to
     * the thread at the tail of the run queue, or is still waiting when they have all arrived.
     */
    method Switch(interrupts: seq<nat>) returns (resumed: bool)
      requires Inv(Now()) && switching
      modifies `threads, `queues, `cur, `switching, `calls, `held
      ensures Inv(Now()) && Now() == Switched(old(Now()), interrupts) && resumed == !switching
      ensures resumed ==> cur in threads && threads[cur].state == Run
      ensures old(Queued(RunQ)).list != [] ==> resumed && Queued(RunQ).list + [cur] == old(Queued(RunQ)).list
      ensures !resumed ==> Queued(RunQ).list == []
    {
      hide Inv, Dispatched;
      var i := 0;
      while |Queued(RunQ).list| == 0
        invariant 0 <= i <= |interrupts| && Inv(Now()) && switching
        invariant old(Queued(RunQ)).list != [] ==> Now() == old(Now())
        invariant Switched(Now(), interrupts[i..]) == Switched(old(Now()), interrupts)
        decreases |interrupts| - i
      {
        if i == |interrupts| {
          return false;
        }
        assert interrupts[i..][1..] == interrupts[i + 1..];
        DrainedKeeps(Now(), interrupts[i]);
        DrainedFrame(Now(), interrupts[i], 0);
        BroadcastOn(interrupts[i]);
        i := i + 1;
      }
      Resume();
      return true;
    }

    /** The end of sched_switch. */
    method Resume()
      requires Inv(Now()) && switching && At(Now(), RunQ).list != []
      modifies `threads, `queues, `cur, `switching, `calls, `held
      ensures QueueOk(old(Now()), RunQ) && Now() == Dispatched(old(Now()))
      ensures Queued(RunQ).list + [cur] == old(Queued(RunQ)).list
      ensures Inv(Now()) && !switching && cur in threads && threads[cur].state == Run
    {
      hide Inv, QueuesOk, At, QueueOk, NoRepeats;
      DispatchOk(Now());
      ghost var s := Now();
      QueuesAreOk(s);
      var t := Dequeue(RunQ);
      cur, switching := t.value, false;
      ghost var call := CallOf(s, cur);
      if call.InLock? || (call.InLockCancellable? && !threads[cur].cancelled) {
        held := held + {(cur, call.m)};
      }
      calls := calls - {cur};
      CurrentRuns(Now());
    }

    // -------------------------------------------------------------------------------------------
    // kmutex.c

    method Lock(m: MutexId)
      requires Inv(Now()) && Enabled(Now(), ThreadRuns.Lock(m))
      modifies `threads, `queues, `switching, `calls, `holders, `held
      ensures Now() == Next(old(Now()), ThreadRuns.Lock(m)) && Inv(Now())
      ensures m !in old(holders) ==>
        holders == old(holders)[m := cur] && (cur, m) in held && threads == old(threads) && queues == old(queues)
      ensures m in old(holders) ==>
        holders == old(holders) && Queued(LockQ(m)).list == [cur] + old(Queued(LockQ(m))).list
      ensures switching <==> m in old(holders)
    {
      hide Inv, Next, SleptOn;
      LockSteps(Now(), m);
      if m in holders {
        SleepOn(LockQ(m), InLock(m));
      } else {
        TakeKeeps(Now(), m);
        holders := holders[m := cur];
        held := held + {(cur, m)};
      }
    }

    /** `None` is the panic: the branch for a cancelled holder unlocks a mutex it does not hold. */
    method LockCancellable(m: MutexId) returns (interrupted: Option<bool>)
      requires Inv(Now()) && !switching && HolderOf(Now(), m) != Some(cur)
      modifies `threads, `queues, `switching, `calls, `holders, `held
      ensures interrupted.None? <==> Panics(old(Now()), ThreadRuns.LockCancellable(m))
      ensures interrupted.Some? ==> Now() == Next(old(Now()), ThreadRuns.LockCancellable(m)) && Inv(Now())
      ensures interrupted == Some(true) <==>
        m in old(holders) && !Panics(old(Now()), ThreadRuns.LockCancellable(m)) && old(threads[cur].cancelled)
      ensures interrupted.None? <==>
        m in old(holders) && old(holders)[m] in old(threads) && old(threads)[old(holders)[m]].cancelled
      ensures m !in old(holders) ==>
        holders == old(holders)[m := cur] && (cur, m) in held && threads == old(threads) && queues == old(queues)
      ensures switching <==> interrupted == Some(false) && m in old(holders)
    {
      hide Inv, Next, SleptOn;
      AllLive(Now());
      if m in holders {
        HolderLives(Now(), m);
        if threads[holders[m]].cancelled {
          return None;
        }
        CancellableLockSteps(Now(), m);
        var r := CancellableSleepOn(LockQ(m), InLockCancellable(m));
        return Some(r);
      } else {
        CancellableLockSteps(Now(), m);
        TakeKeeps(Now(), m);
        holders := holders[m := cur];
        held := held + {(cur, m)};
        return Some(false);
      }
    }

    method Unlock(m: MutexId)
      requires Inv(Now()) && Enabled(Now(), ThreadRuns.Unlock(m))
      modifies `threads, `queues, `holders, `held
      ensures Now() == Next(old(Now()), ThreadRuns.Unlock(m)) && Inv(Now())
      ensures HolderOf(Now(), m) != Some(cur) && (cur, m) !in held
      ensures var waiters := old(Queued(LockQ(m))).list;
        holders == if waiters == [] then old(holders) - {m} else old(holders)[m := waiters[|waiters| - 1]]
    {
      hide Inv, Next, WokenOn;
      UnlockKeeps(Now(), m);
      UnlockSteps(Now(), m);
      if |Queued(LockQ(m)).list| == 0 {
        holders := holders - {m};
      } else {
        ghost var s := Now();
        WokenHeld(s, LockQ(m), held - {(cur, m)});
        var t := WakeupOn(LockQ(m));
        holders := holders[m := t.value];
      }
      held := held - {(cur, m)};
    }

    // -------------------------------------------------------------------------------------------
    // kthread.c

    method Create(t: Tid)
      requires Inv(Now()) && !switching && t !in threads
      modifies `threads, `newborn, `calls
      ensures Now() == Next(old(Now()), ThreadRuns.Create(t)) && Inv(Now())
    {
      CreateKeeps(Now(), t);
      threads := threads[t := Thread(Run, None, false)];
      newborn, calls := newborn + {t}, calls - {t};
    }

    /** sched_make_runnable of a thread that has not run yet. */
    method Start(t: Tid)
      requires Inv(Now()) && !switching && t in newborn && t in threads
      modifies `threads, `queues, `newborn
      ensures Now() == Next(old(Now()), ThreadRuns.Start(t)) && Inv(Now())
    {
      StartKeeps(Now(), t);
      assert ThreadOk(Now(), t);
      MakeRunnable(t);
      newborn := newborn - {t};
    }

    /** kthread_exit up to its sched_switch. */
    method Exit()
      requires Inv(Now()) && !switching
      modifies `threads, `switching
      ensures Now() == Next(old(Now()), ThreadRuns.Exit) && Inv(Now())
    {
      ExitKeeps(Now());
      assert threads[cur].wchan.None?;
      threads := threads[cur := threads[cur].(state := Exited)];
      switching := true;
    }

    /**
     * kthread_destroy, as do_waitpid calls it for a thread that has exited. No list holds the
     * thread; every km_holder is left on a thread exactly when none names this one.
     */
    method Destroy(t: Tid)
      requires Inv(Now()) && !switching && t in threads && t != cur && threads[t].state == Exited
      modifies `threads, `calls
      ensures t !in threads && forall q :: t !in At(Now(), q).list
      ensures HoldersLive(Now()) <==> HoldsNone(old(Now()), t)
      ensures HoldsNone(old(Now()), t) ==> Now() == Next(old(Now()), ThreadRuns.Destroy(t)) && Inv(Now())
    {
      hide HoldsNone, HoldersLive, QueuesOk, CurrentOk, ThreadOk, CallOk, MutexOk, HeldOk;
      DestroyExact(Now(), t);
      if HoldsNone(Now(), t) {
        DestroyKeeps(Now(), t);
      }
      OnNoQueue(Now(), t);
      threads, calls := threads - {t}, calls - {t};
      assert forall q :: At(Now(), q) == At(old(Now()), q);
    }

    /** kthread_cancel. */
    method Cancel(t: Tid)
      requires Inv(Now()) && !switching && t in threads
      modifies `threads, `queues, `switching
      ensures Inv(Now())
      ensures t != cur ==> Now() == Next(old(Now()), ThreadRuns.Cancel(t))
      ensures t == cur ==> Now() == Next(old(Now()), ThreadRuns.CancelSelf)
    {
      hide Inv, CancelledThread;
      if t == cur {
        CancelSelfKeeps(Now());
        threads := threads[t := threads[t].(cancelled := true)];
        Exit();
      } else {
        SchedCancel(t);
      }
    }
  }

  lemma WokenIs(s: State, q: Queue)
    requires QueuesOk(s) && QueueOk(s, q) && q != RunQ
    ensures QueuesOk(WokenOn(s, q))
    ensures if At(s, q).list == [] then WokenOn(s, q) == s
      else
        var t := First(s, q);
        && t in s.threads && WokenOn(s, q) == MadeRunnable(Dequeued(s, q), t)
        && WokenOn(s, q).threads == s.threads[t := Thread(Run, Some(RunQ), s.threads[t].cancelled)]
        && At(WokenOn(s, q), q).list + [t] == At(s, q).list && At(WokenOn(s, q), RunQ).list == [t] + At(s, RunQ).list
  {
    if At(s, q).list != [] {
      ThreadEffects.WokenParts(s, q);
      WokenShape(s, q);
      hide QueuesOk, At;
    }
  }

  lemma CancelIs(s: State, t: Tid)
    requires Inv(s) && t in s.threads && ThreadOk(s, t)
    ensures var s1, th := Flagged(s, t), s.threads[t];
      if th.state != SleepCancellable then CancelledThread(s, t) == s1
      else
        && th.wchan.Some? && CancelledThread(s, t) == MadeRunnable(Removed(s1, th.wchan.value, t), t)
        && t !in At(CancelledThread(s, t), th.wchan.value).list
        && CancelledThread(s, t).threads == s.threads[t := Thread(Run, Some(RunQ), true)]
        && At(CancelledThread(s, t), RunQ).list == [t] + At(s, RunQ).list
  {
    hide Inv, MadeRunnable, Removed, Unlink, At;
    QueuesAreOk(s);
    if s.threads[t].state == SleepCancellable {
      ThreadEffects.CancelledParts(s, t);
      ThreadEffects.LeavesList(s, s.threads[t].wchan.value, t);
    }
  }

  lemma LockSteps(s: State, m: MutexId)
    requires Inv(s) && Enabled(s, ThreadRuns.Lock(m))
    ensures s.cur in s.threads
    ensures Next(s, ThreadRuns.Lock(m)) ==
      if m in s.holders then SleptOn(s, LockQ(m), Sleep, InLock(m)) else Taken(s, m)
  {
    hide SleptOn, Taken;
    AllLive(s);
  }

  lemma CancellableLockSteps(s: State, m: MutexId)
    requires Inv(s) && Enabled(s, ThreadRuns.LockCancellable(m)) && s.cur in s.threads
    ensures Next(s, ThreadRuns.LockCancellable(m)) ==
      if m !in s.holders then Taken(s, m)
      else if s.threads[s.cur].cancelled then s
      else SleptOn(s, LockQ(m), SleepCancellable, InLockCancellable(m))
  {
    hide SleptOn, Taken;
  }

  lemma UnlockSteps(s: State, m: MutexId)
    requires Inv(s) && Enabled(s, ThreadRuns.Unlock(m))
    ensures QueueOk(s, LockQ(m)) && Next(s, ThreadRuns.Unlock(m)) == Unlocked(s, m)
  {
    hide Unlocked;
    AllLive(s);
  }

  lemma WokenHeld(s: State, q: Queue, held: set<(Tid, MutexId)>)
    requires QueueOk(s, q)
    ensures QueueOk(s.(held := held), q) && WokenOn(s.(held := held), q) == WokenOn(s, q).(held := held)
  {
    assert At(s.(held := held), q) == At(s, q);
  }

  lemma DispatchOk(s: State)
    requires Inv(s) && s.switching && At(s, RunQ).list != []
    ensures QueueOk(s, RunQ) && Inv(Dispatched(s)) && First(s, RunQ) in s.threads
  {
    DispatchKeeps(s);
  }

  lemma CurrentRuns(s: State)
    requires Inv(s) && !s.switching
    ensures s.cur in s.threads && s.threads[s.cur].state == Run
  {
  }

  lemma HolderLives(s: State, m: MutexId)
    requires Inv(s) && m in s.holders
    ensures s.holders[m] in s.threads
  {
    assert MutexOk(s, m);
  }

  /** The run of sched_switch from `s` on, with the wait queues that interrupts broadcast on. */
  function Switched(s: State, interrupts: seq<nat>): (r: State)
    requires Inv(s) && s.switching
    decreases |interrupts|
  {
    if At(s, RunQ).list != [] then
      LiveQueue(s, RunQ);
      Dispatched(s)
    else if interrupts == [] then s
    else
      DrainedKeeps(s, interrupts[0]);
      DrainedFrame(s, interrupts[0], 0);
      Switched(Drained(s, interrupts[0]), interrupts[1..])
  }

  lemma SleepersSleep(s: State, q: Queue)
    requires Inv(s) && q != RunQ && At(s, q).list != []
    ensures First(s, q) in s.threads
    ensures (s.threads[First(s, q)].state == Sleep || s.threads[First(s, q)].state == SleepCancellable)
  {
    assert First(s, q) in At(s, q).list;
    assert ThreadOk(s, First(s, q));
  }

  lemma OnNoQueue(s: State, t: Tid)
    requires Inv(s) && t in s.threads && s.threads[t].state == Exited
    ensures forall q :: t !in At(s, q).list
  {
    assert ThreadOk(s, t);
  }
}
