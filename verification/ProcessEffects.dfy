/** What every step of the process tree does to each process, and that it does nothing else. */
module ProcessEffects {
  import opened Lists
  import opened Processes

  lemma CreateAdds(s: State, pid: int, nextPid: nat)
    requires Inv(s) && CreateOk(s, pid, nextPid)
    ensures var s', p, c := Created(s, pid, nextPid), s.cur.value, s.next;
      && c !in s.procs && s'.procs.Keys == s.procs.Keys + {c} && s'.all == s.all + [c]
      && s'.procs[c] == Proc(pid, Some(p), [], Running, 0, NotWaiting)
      && s'.procs[p] == s.procs[p].(children := s.procs[p].children + [c])
      && (forall q :: q in s.procs && q != p ==> s'.procs[q] == s.procs[q])
      && s'.init == (if pid == PID_INIT then Some(c) else s.init)
      && s'.cur == s.cur && s'.nextPid == nextPid && s'.idle == s.idle && s'.max == s.max
  {
    FreshId(s);
    hide Inv;
  }

  /**
   * An exit, field by field: the process is dead with its status, whoever had it as parent has
   * init, init's list ends with its children, and its parent is woken if it sleeps in do_waitpid.
   */
  lemma ExitChanges(s: State, status: int, q: ProcId)
    requires Inv(s) && ExitOk(s) && q in s.procs
    ensures var s', p := Exited(s, status), s.cur.value;
      && s' == s.(procs := s'.procs, cur := None) && s'.procs.Keys == s.procs.Keys
      && var a, b := s.procs[q], s'.procs[q];
         && b.pid == a.pid
         && b.state == (if q == p then Dead else a.state)
         && b.status == (if q == p then status else a.status)
         && b.parent == (if a.parent == Some(p) then s.init else a.parent)
         && b.children ==
            (if q == p then [] else if s.init == Some(q) then a.children + s.procs[p].children else a.children)
         && b.wait ==
            (if s.procs[p].parent != Some(q) then a.wait
             else match a.wait
               case AsleepAny => WokenAny
               case AsleepFor(c, seen) => WokenFor(c, seen)
               case w => w)
  {
    Facts(s, s.cur.value);
    Facts(s, q);
    hide Inv, NoRepeats, WaitOk, InitOk;
  }

  /** The list without `c`, and the others in order. */
  ghost predicate Loses(l: seq<ProcId>, l': seq<ProcId>, c: ProcId) {
    c !in l' && exists i :: 0 <= i < |l| && l[i] == c && l' == l[..i] + l[i + 1..]
  }

  lemma UnlinkLoses(l: seq<ProcId>, c: ProcId)
    requires NoRepeats(l) && c in l
    ensures Loses(l, Unlink(l, c), c)
  {
    var i :| 0 <= i < |l| && l[i] == c;
    NoRepeatsUnlink(l, c);
    UnlinkAt(l, i);
  }

  /** Disposing of a dead child takes it from both lists and ends the wait; nobody else changes. */
  lemma ReapTakes(s: State, c: ProcId)
    requires Inv(s) && ReapOk(s, c)
    ensures var s', p := Reaped(s, c), s.cur.value;
      && p != c && s' == s.(procs := s'.procs, all := s'.all) && s'.procs.Keys == s.procs.Keys - {c}
      && Loses(s.all, s'.all, c) && Loses(s.procs[p].children, s'.procs[p].children, c)
      && s'.procs[p] == s.procs[p].(children := s'.procs[p].children, wait := NotWaiting)
      && (forall q :: q in s'.procs && q != p ==> s'.procs[q] == s.procs[q])
  {
    Facts(s, s.cur.value);
    Facts(s, c);
    ReapedInit(s, c);
    ListIsOk(s);
    hide Inv, WaitOk, ParentOk, InitOk;
    UnlinkLoses(s.all, c);
    UnlinkLoses(s.procs[s.cur.value].children, c);
    hide Unlink, NoRepeats, Loses;
  }

  lemma ListIsOk(s: State)
    requires Inv(s)
    ensures NoRepeats(s.all)
  {
  }

  lemma SleepStops(s: State, w: Wait)
    requires SleepOk(s, w)
    ensures var s', p := Slept(s, w), s.cur.value;
      && s' == s.(procs := s'.procs, cur := None) && s'.procs.Keys == s.procs.Keys
      && s'.procs[p] == s.procs[p].(wait := w)
      && forall q :: q in s.procs && q != p ==> s'.procs[q] == s.procs[q]
  {
  }

  lemma ScheduleRuns(s: State, p: ProcId)
    ensures Scheduled(s, p).cur == Some(p) && Scheduled(s, p) == s.(cur := Scheduled(s, p).cur)
  {
  }
}
