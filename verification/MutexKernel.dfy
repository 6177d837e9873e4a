/** The mutex functions of ipc.c as they run: methods that update thread and mutex records in place,
    each equal to its region in module MutexOps. */
module MutexKernel {
  import opened Objects
  import opened WaitList
  import opened MutexSpec
  import opened MutexSettle
  import opened MutexOps
  import opened MutexInv
  import opened MutexTimeout
  import opened MutexAnswers

  lemma JoinReady(s: State, t: Thread, m: Mutex)
    requires CanBlock(s, t, m)
    ensures Known(s, s.m[m].waiters) && s.m[m].owner in s.t
    ensures Join(s, t, m).t[s.m[m].owner] == s.t[s.m[m].owner] && Join(s, t, m).m[m].prio == s.m[m].prio
    ensures UpdatePre(Joined(s, t, m, s.t[t].cur), s.m[m].owner, s.t[t].cur)
    ensures Block(s, t, m) ==
            if s.t[t].cur < s.m[m].prio then
              if s.t[t].cur < s.t[s.m[m].owner].cur
              then UpdatePriority(Joined(s, t, m, s.t[t].cur), s.m[m].owner, s.t[t].cur)
              else Joined(s, t, m, s.t[t].cur)
            else Join(s, t, m)
  {
    JoinSound(s, t, m);
  }

  lemma TakenLess(ms: seq<Mutex>, m: Mutex)
    ensures forall k :: k in Without(ms, m) ==> k in ms
  {
  }

  /** The hand-off, one record field group at a time. */
  lemma HandOffByFields(s: State, m: Mutex)
    requires m in s.m && s.m[m].waiters != [] && Known(s, s.m[m].waiters)
    ensures var n := s.m[m].waiters[0]; var w := Without(s.m[m].waiters, n);
            && Known(s, w)
            && var s1 := PutM(s, m, s.m[m].(waiters := w));
               var s2 := PutM(s1, m, s1.m[m].(owner := n, hold := 1, prio := HeadPriority(s, w)));
               var s3 := PutT(s2, n, s2.t[n].(taken := [m] + s2.t[n].taken));
               PutT(s3, n, s3.t[n].(suspended := false, pending := null, call := s.t[n].call)) == HandOff(s, m)
  {
    var n := s.m[m].waiters[0];
    WithoutKnown(s.m[m].waiters, n);
  }

  lemma AbandonReady(s: State, m: Mutex)
    requires m in s.m && Sound(s)
    ensures Known(s, s.m[m].waiters) && Sound(Reread(s, m))
    ensures var o := s.m[m].owner;
            o != null ==> o in s.t && KnownMutexes(Reread(s, m), s.t[o].taken)
                          && UpdatePre(Reread(s, m), o, Deserved(Reread(s, m), o))
  {
    assert MutexOk(s, m);
    HeadRange(s, s.m[m].waiters);
    SetPrioSound(s, m, HeadPriority(s, s.m[m].waiters));
    if s.m[m].owner != null { DeservedRange(Reread(s, m), s.m[m].owner); }
  }

  lemma CeilingReady(s: State, m: Mutex, p: int)
    requires m in s.m && Sound(s) && 0 <= p < PRIORITY_MAX
    ensures var r, o := PutM(s, m, s.m[m].(ceiling := p)), s.m[m].owner;
            o != null ==> o in s.t && KnownMutexes(r, s.t[o].taken) && UpdatePre(r, o, Deserved(r, o))
  {
    assert MutexOk(s, m);
    SetCeilingSound(s, m, p);
    if s.m[m].owner != null { DeservedRange(PutM(s, m, s.m[m].(ceiling := p)), s.m[m].owner); }
  }

  ghost predicate RequeueSafe(s: State, t: Thread) {
    t in s.t && Waiting(s, t) && s.t[t].pending in s.m && Known(s, s.m[s.t[t].pending].waiters)
  }

  lemma RequeueReady(s: State, t: Thread)
    requires Turn(s, t)
    ensures s.t[t].pending in s.m && Known(s, s.m[s.t[t].pending].waiters)
    ensures s.m[s.t[t].pending].owner == OwnerOf(s, t)
  {
    assert ThreadOk(s, t) && MutexOk(s, s.t[t].pending);
  }

  /** One unrolling of the specification, with what makes it end. */
  lemma SettleUnrolled(s: State, t: Thread, visited: set<Thread>)
    requires SettlePre(s, t, visited) && Waiting(s, t)
    ensures var o, r, p, q := OwnerOf(s, t), AfterTurn(s, t), OwnerDeserves(s, t), s.t[t].cur;
            if p == s.t[o].cur then RequeueSafe(s, t) && Settle(s, t, visited) == Requeue(s, t)
            else && r.t[o].cur == p
                 && SettlePre(r, o, visited + {o}) && Settle(s, t, visited) == Settle(r, o, visited + {o})
                 && (|| r.t.Keys - (visited + {o}) < s.t.Keys - visited
                     || (&& r.t.Keys - (visited + {o}) == s.t.Keys - visited
                         && (p < q || (p == q && Above(r, visited + {o}, p) < Above(s, visited, q)))))
  {
    RequeueReady(s, t);
    if OwnerDeserves(s, t) != s.t[OwnerOf(s, t)].cur { TurnDecreases(s, t, visited); }
  }

  /** Removal, insertion and refresh, one after the other. */
  function Requeued(s: State, t: Thread, m: Mutex): State
    requires t in s.t && m in s.m && Known(s, s.m[m].waiters)
  {
    WithoutKnown(s.m[m].waiters, t);
    var w := Without(s.m[m].waiters, t);
    var s1 := PutM(s, m, s.m[m].(waiters := w));
    var w' := Enqueue(Prio, w, Curs(s1, w), t, s1.t[t].cur);
    var s2 := PutM(s1, m, s1.m[m].(waiters := w'));
    assert Known(s2, w');
    PutM(s2, m, s2.m[m].(prio := HeadPriority(s2, w')))
  }

  lemma RequeueIs(s: State, t: Thread)
    requires RequeueSafe(s, t)
    ensures Requeued(s, t, s.t[t].pending) == Requeue(s, t)
  {
    var m := s.t[t].pending;
    var w := Without(s.m[m].waiters, t);
    WithoutKnown(s.m[m].waiters, t);
    var s1 := PutM(s, m, s.m[m].(waiters := w));
    assert Curs(s1, w) == Curs(s, w);
  }

  lemma DeservesIs(s: State, t: Thread)
    requires Turn(s, t)
    ensures RequeueSafe(s, t) && OwnerOf(s, t) in Requeue(s, t).t
    ensures Requeue(s, t).t == s.t && KnownMutexes(Requeue(s, t), s.t[OwnerOf(s, t)].taken)
    ensures OwnerDeserves(s, t) == Deserved(Requeue(s, t), OwnerOf(s, t))
    ensures AfterTurn(s, t) == SetCur(Requeue(s, t), OwnerOf(s, t), OwnerDeserves(s, t))
  {
    RequeueReady(s, t);
    RequeueStruct(s, t);
    DeservedRange(Requeue(s, t), OwnerOf(s, t));
  }

  lemma RemoveIs(s: State, t: Thread, m: Mutex)
    requires t in s.t && s.t[t].pending == m && m in s.m
    ensures Remove(s, t) == PutM(PutT(s, t, s.t[t].(error := Closing, suspended := false)),
                                 m, s.m[m].(waiters := Without(s.m[m].waiters, t)))
  {
    var f := s.t[t].(error := TimedOut, suspended := false);
    assert s.t[t := f][t := f.(error := Closing)] == s.t[t := f.(error := Closing)];
  }

  class Kernel {
    const threads: set<Thread>
    const mutexes: set<Mutex>

    constructor (ts: set<Thread>, ms: set<Mutex>)
      ensures threads == ts && mutexes == ms
    {
      threads, mutexes := ts, ms;
    }

    ghost function Snap(): (s: State)
      reads threads, mutexes
      ensures s.t.Keys == threads && s.m.Keys == mutexes
    {
      State(map t | t in threads :: TcbOf(t), map m | m in mutexes :: McbOf(m))
    }

    ghost function TcbOf(t: Thread): Tcb
      reads t
    {
      Tcb(t.initPriority, t.currentPriority, t.suspended, t.error, t.pending, t.taken, t.call)
    }

    ghost function McbOf(m: Mutex): Mcb
      reads m
    {
      Mcb(m.owner, m.hold, m.priority, m.ceiling, m.waiters)
    }

    // ---- assignments to the fields of one record -----------------------------------------

    method SetError(t: Thread, e: Error)
      requires t in threads
      modifies t`error
      ensures Snap() == PutT(old(Snap()), t, old(Snap()).t[t].(error := e))
    {
      t.error := e;
      assert Snap().t == old(Snap()).t[t := old(Snap()).t[t].(error := e)];
    }

    method SetTaken(t: Thread, ms: seq<Mutex>)
      requires t in threads
      modifies t`taken
      ensures Snap() == PutT(old(Snap()), t, old(Snap()).t[t].(taken := ms))
    {
      t.taken := ms;
      assert Snap().t == old(Snap()).t[t := old(Snap()).t[t].(taken := ms)];
    }

    method SetWait(t: Thread, suspended: bool, pending: Mutex?, call: Mutex?)
      requires t in threads
      modifies t`suspended, t`pending, t`call
      ensures Snap() == PutT(old(Snap()), t, old(Snap()).t[t].(suspended := suspended, pending := pending, call := call))
    {
      t.suspended := suspended;
      t.pending := pending;
      t.call := call;
      assert Snap().t == old(Snap()).t[t := old(Snap()).t[t].(suspended := suspended, pending := pending, call := call)];
    }

    method SetHold(m: Mutex, h: int)
      requires m in mutexes
      modifies m`hold
      ensures Snap() == PutM(old(Snap()), m, old(Snap()).m[m].(hold := h))
    {
      m.hold := h;
      assert Snap().m == old(Snap()).m[m := old(Snap()).m[m].(hold := h)];
    }

    method SetOwner(m: Mutex, o: Thread?, h: int, p: int)
      requires m in mutexes
      modifies m`owner, m`hold, m`priority
      ensures Snap() == PutM(old(Snap()), m, old(Snap()).m[m].(owner := o, hold := h, prio := p))
    {
      m.owner := o;
      m.hold := h;
      m.priority := p;
      assert Snap().m == old(Snap()).m[m := old(Snap()).m[m].(owner := o, hold := h, prio := p)];
    }

    method SetPriority(m: Mutex, p: int)
      requires m in mutexes
      modifies m`priority
      ensures Snap() == PutM(old(Snap()), m, old(Snap()).m[m].(prio := p))
    {
      m.priority := p;
      assert Snap().m == old(Snap()).m[m := old(Snap()).m[m].(prio := p)];
    }

    method SetCeilingField(m: Mutex, c: int)
      requires m in mutexes
      modifies m`ceiling
      ensures Snap() == PutM(old(Snap()), m, old(Snap()).m[m].(ceiling := c))
    {
      m.ceiling := c;
      assert Snap().m == old(Snap()).m[m := old(Snap()).m[m].(ceiling := c)];
    }

    /** `rt_thread_control(thread, RT_THREAD_CTRL_CHANGE_PRIORITY, &p)` */
    method ChangePriority(t: Thread, p: int)
      requires t in threads
      modifies t`currentPriority
      ensures Snap() == SetCur(old(Snap()), t, p)
    {
      t.currentPriority := p;
      assert Snap().t == old(Snap()).t[t := old(Snap()).t[t].(cur := p)];
    }

    /** `_thread_get_mutex_priority` */
    method GetMutexPriority(t: Thread) returns (p: int)
      requires t in threads && KnownMutexes(Snap(), t.taken)
      ensures p == Deserved(Snap(), t)
    {
      p := t.initPriority;
      var i := 0;
      while i < |t.taken|
        invariant 0 <= i <= |t.taken|
        invariant FoldTaken(Snap(), t.taken[i..], p) == Deserved(Snap(), t)
      {
        var m := t.taken[i];
        var mutexPrio := m.priority;
        mutexPrio := if mutexPrio < m.ceiling then mutexPrio else m.ceiling;
        assert t.taken[i..][0] == m && t.taken[i..][1..] == t.taken[i + 1..];
        if p > mutexPrio {
          p := mutexPrio;
        }
        i := i + 1;
      }
    }

    /** `_mutex_update_priority` */
    method UpdateMutexPriority(m: Mutex) returns (p: int)
      requires m in mutexes && Known(Snap(), m.waiters)
      modifies m`priority
      ensures p == HeadPriority(old(Snap()), old(m.waiters))
      ensures Snap() == PutM(old(Snap()), m, old(Snap()).m[m].(prio := p))
    {
      if m.waiters != [] {
        m.priority := m.waiters[0].currentPriority;
      } else {
        m.priority := 0xff;
      }
      p := m.priority;
      assert Snap().m == old(Snap()).m[m := old(Snap()).m[m].(prio := p)];
      assert Snap().t == old(Snap()).t;
    }

    /** The search and insertion of `_ipc_list_suspend` under RT_IPC_FLAG_PRIO. */
    method InsertByPriority(m: Mutex, t: Thread)
      requires m in mutexes && t in threads && Known(Snap(), m.waiters)
      modifies m`waiters
      ensures var s, w := old(Snap()), old(m.waiters);
              Snap() == PutM(s, m, s.m[m].(waiters := Enqueue(Prio, w, Curs(s, w), t, s.t[t].cur)))
    {
      ghost var ps := Curs(Snap(), m.waiters);
      var n := 0;
      while n < |m.waiters| && !(t.currentPriority < m.waiters[n].currentPriority)
        invariant 0 <= n <= |m.waiters|
        invariant forall k :: 0 <= k < n ==> ps[k] <= t.currentPriority
      {
        n := n + 1;
      }
      assert n == Position(ps, t.currentPriority);
      m.waiters := m.waiters[..n] + [t] + m.waiters[n..];
      assert Snap().m == old(Snap()).m[m := old(Snap()).m[m].(waiters := m.waiters)];
      assert Snap().t == old(Snap()).t;
    }

    /** `rt_list_remove(&thread->tlist)` for a thread that can only be in the list of `m`. */
    method RemoveWaiter(m: Mutex, t: Thread)
      requires m in mutexes
      modifies m`waiters
      ensures var s := old(Snap()); Snap() == PutM(s, m, s.m[m].(waiters := Without(s.m[m].waiters, t)))
    {
      m.waiters := Without(m.waiters, t);
      assert Snap().m == old(Snap()).m[m := old(Snap()).m[m].(waiters := m.waiters)];
      assert Snap().t == old(Snap()).t;
    }

    /** Take the thread out of its list, insert it again and refresh the mutex priority. */
    method RequeueThread(t: Thread, m: Mutex)
      requires t in threads && m in mutexes && Known(Snap(), m.waiters)
      modifies m
      ensures Known(old(Snap()), old(m.waiters)) && Snap() == Requeued(old(Snap()), t, m)
    {
      WithoutKnown(m.waiters, t);
      RemoveWaiter(m, t);
      InsertByPriority(m, t);
      var head := UpdateMutexPriority(m);
    }

    /** The body of the loop below: `again` when the owner's priority had to change. */
    method PropagateOnce(t: Thread, m: Mutex, ghost visited: set<Thread>) returns (owner: Thread, again: bool)
      requires SettlePre(Snap(), t, visited) && t.suspended && t.pending == m
      modifies threads, mutexes
      ensures Waiting(old(Snap()), t) && owner == OwnerOf(old(Snap()), t)
      ensures again == (OwnerDeserves(old(Snap()), t) != old(Snap()).t[owner].cur)
      ensures RequeueSafe(old(Snap()), t)
      ensures Snap() == if again then AfterTurn(old(Snap()), t) else Requeue(old(Snap()), t)
    {
      ghost var s := Snap();
      assert s.t[t] == TcbOf(t);
      RequeueReady(s, t);
      RequeueIs(s, t);
      owner := m.owner;
      RequeueThread(t, m);
      again := AdjustOwner(s, t, owner);
    }

    /** Recompute a priority and store it if it changes. */
    method ChangeToDeserved(owner: Thread, ghost p: int, ghost s: State, ghost r: State) returns (again: bool)
      requires owner in threads && s == Snap() && KnownMutexes(s, s.t[owner].taken)
      requires p == Deserved(s, owner) && r == SetCur(s, owner, p)
      modifies owner`currentPriority
      ensures again == (p != s.t[owner].cur)
      ensures Snap() == if again then r else s
    {
      assert s.t[owner] == TcbOf(owner);
      var q := GetMutexPriority(owner);
      again := q != owner.currentPriority;
      if again {
        ChangePriority(owner, q);
      }
    }

    /** Give the owner what it deserves now that `t` is re-queued. */
    method AdjustOwner(ghost s: State, ghost t: Thread, owner: Thread) returns (again: bool)
      requires Turn(s, t) && owner == OwnerOf(s, t) && RequeueSafe(s, t) && Snap() == Requeue(s, t)
      modifies threads
      ensures again == (OwnerDeserves(s, t) != s.t[owner].cur)
      ensures Snap() == if again then AfterTurn(s, t) else Requeue(s, t)
    {
      DeservesIs(s, t);
      again := ChangeToDeserved(owner, OwnerDeserves(s, t), Requeue(s, t), AfterTurn(s, t));
    }

    /** `_thread_update_priority` */
    method UpdateThreadPriority(t: Thread, p: int)
      requires UpdatePre(Snap(), t, p)
      modifies threads, mutexes
      ensures UpdatePre(old(Snap()), t, p) && Snap() == UpdatePriority(old(Snap()), t, p)
    {
      UpdateReady(Snap(), t, p);
      var thread := t;
      ChangePriority(thread, p);
      ghost var visited: set<Thread> := {t};
      ghost var goal := Settle(Snap(), t, visited);
      var ok := true;
      while ok && thread.suspended
        invariant thread in threads
        invariant ok ==> SettlePre(Snap(), thread, visited) && Settle(Snap(), thread, visited) == goal
        invariant !ok ==> Snap() == goal
        decreases ok, threads - visited, thread.currentPriority, Above(Snap(), visited, thread.currentPriority)
      {
        if thread.pending == null {
          ok := false;
        } else {
          ghost var s := Snap();
          ghost var before := thread;
          thread, ok := PropagateOnce(thread, thread.pending, visited);
          SettleUnrolled(s, before, visited);
          visited := visited + {thread};
        }
      }
    }

    // ---- rt_mutex_take -------------------------------------------------------------------

    method TakeUnowned(t: Thread, m: Mutex)
      requires Inv(Snap(), Loose) && Running(Snap(), t) && m in mutexes && m.owner == null
      modifies threads, mutexes
      ensures !Waiting(old(Snap()), t) && 0 <= old(m.ceiling) && Snap() == TakeFree(old(Snap()), t, m)
    {
      ghost var s := Snap();
      TakeFreeShape(s, t, m);
      SetOwner(m, t, 1, 0xff);
      if m.ceiling != 0xff && m.ceiling < m.owner.currentPriority {
        UpdateThreadPriority(m.owner, m.ceiling);
      }
      SetTaken(t, [m] + t.taken);
    }

    method JoinWaiters(t: Thread, m: Mutex)
      requires t in threads && m in mutexes && Known(Snap(), m.waiters)
      modifies t`suspended, t`pending, t`call, m`waiters
      ensures Known(old(Snap()), old(m.waiters)) && Snap() == Join(old(Snap()), t, m)
    {
      InsertByPriority(m, t);
      SetWait(t, true, m, m);
    }

    method WaitFor(t: Thread, m: Mutex)
      requires CanBlock(Snap(), t, m)
      modifies threads, mutexes
      ensures CanBlock(old(Snap()), t, m) && Snap() == Block(old(Snap()), t, m)
    {
      ghost var s := Snap();
      JoinReady(s, t, m);
      var priority := t.currentPriority;
      JoinWaiters(t, m);
      if priority < m.priority {
        SetPriority(m, priority);
        if m.priority < m.owner.currentPriority {
          UpdateThreadPriority(m.owner, priority);
        }
      }
    }

    /** `_rt_mutex_take`, up to the return or the suspension of the caller. */
    method TakeMutex(t: Thread, m: Mutex, wait: bool) returns (r: Result)
      requires Inv(Snap(), Loose) && Running(Snap(), t) && m in mutexes
      modifies threads, mutexes
      ensures Inv(old(Snap()), Loose) && Running(old(Snap()), t)
      ensures (Snap(), r) == Take(old(Snap()), t, m, wait)
      ensures r == if old(m.owner) == null then Eok
                   else if old(m.owner) == t then if old(m.hold) < 255 then Eok else Efull
                   else if wait then Blocked else Etimeout
    {
      ghost var s := Snap();
      assert s.m[m] == McbOf(m);
      TakeAnswers(s, t, m, wait);
      ErrorKeepsInv(s, t, Ok, Loose);
      SetError(t, Ok);
      r := TakeStarted(t, m, wait);
    }

    method TakeStarted(t: Thread, m: Mutex, wait: bool) returns (r: Result)
      requires Inv(Snap(), Loose) && Running(Snap(), t) && m in mutexes
      modifies threads, mutexes
      ensures Inv(old(Snap()), Loose) && Running(old(Snap()), t)
      ensures (Snap(), r) == TakeFrom(old(Snap()), t, m, wait)
    {
      if m.owner == t {
        if m.hold < 255 {
          SetHold(m, m.hold + 1);
          r := Eok;
        } else {
          r := Efull;
        }
      } else if m.owner == null {
        TakeUnowned(t, m);
        r := Eok;
      } else if !wait {
        SetError(t, TimedOut);
        r := Etimeout;
      } else {
        WaitFor(t, m);
        r := Blocked;
      }
    }

    // ---- rt_mutex_release ----------------------------------------------------------------

    /** The mutex leaves the caller's taken list and the caller's priority is recomputed. */
    method GiveUp(t: Thread, m: Mutex)
      requires t in threads && m in mutexes && KnownMutexes(Snap(), t.taken)
      modifies t
      ensures KnownMutexes(old(Snap()), old(t.taken)) && Snap() == Relinquish(old(Snap()), t, m)
    {
      ghost var s := Snap();
      TakenLess(t.taken, m);
      SetTaken(t, Without(t.taken, m));
      if m.ceiling != 0xff || t.currentPriority == m.priority {
        var priority := GetMutexPriority(t);
        ChangePriority(t, priority);
      }
    }

    method HandOver(m: Mutex)
      requires m in mutexes && m.waiters != [] && Known(Snap(), m.waiters)
      modifies m, m.waiters
      ensures Known(old(Snap()), old(m.waiters)) && Snap() == HandOff(old(Snap()), m)
    {
      var next := m.waiters[0];
      ghost var s := Snap();
      WithoutKnown(m.waiters, next);
      HandOffByFields(s, m);
      RemoveWaiter(m, next);
      assert HeadPriority(Snap(), m.waiters) == HeadPriority(s, m.waiters);
      var p := if m.waiters != [] then m.waiters[0].currentPriority else 0xff;
      SetOwner(m, next, 1, p);
      SetTaken(next, [m] + next.taken);
      SetWait(next, false, null, next.call);
    }

    /** `rt_mutex_release` */
    method ReleaseMutex(t: Thread, m: Mutex) returns (r: Result)
      requires t in threads && m in mutexes && KnownMutexes(Snap(), t.taken) && Known(Snap(), m.waiters)
      modifies threads, mutexes
      ensures KnownMutexes(old(Snap()), old(t.taken)) && Known(old(Snap()), old(m.waiters))
      ensures (Snap(), r) == Release(old(Snap()), t, m)
      ensures r == if old(m.owner) == t then Eok else Eerror
    {
      if t != m.owner {
        SetError(t, Failed);
        return Eerror;
      }
      SetHold(m, m.hold - 1);
      if m.hold == 0 {
        GiveUp(t, m);
        if m.waiters != [] {
          HandOver(m);
        } else {
          SetOwner(m, null, m.hold, 0xff);
        }
      }
      r := Eok;
    }

    // ---- time-outs, rt_mutex_drop_thread, rt_mutex_setprioceiling ------------------------

    /** `t` leaves the list of `m` with an error. */
    method LeaveList(t: Thread, m: Mutex, e: Error)
      requires t in threads && m in mutexes && t.pending == m
      modifies t, m`waiters
      ensures var s := old(Snap());
              s.t[t].pending == m && Snap() == PutM(PutT(s, t, s.t[t].(error := e, suspended := false)),
                                                    m, s.m[m].(waiters := Without(s.m[m].waiters, t)))
    {
      ghost var s := Snap();
      t.error := e;
      t.suspended := false;
      assert Snap() == PutT(s, t, s.t[t].(error := e, suspended := false));
      RemoveWaiter(m, t);
    }

    /** `_thread_timeout` of a thread that waits for `m`. */
    method ThreadTimeout(t: Thread, m: Mutex)
      requires t in threads && m in mutexes && t.pending == m
      modifies t, m`waiters
      ensures old(Snap()).t[t].pending == m && Snap() == Expire(old(Snap()), t)
      ensures t.error == TimedOut && !t.suspended && m.waiters == Without(old(m.waiters), t)
    {
      LeaveList(t, m, TimedOut);
    }

    /** `rt_schedule_remove_thread` of a thread inside a take of `m`. */
    method RemoveThread(t: Thread, m: Mutex)
      requires t in threads && m in mutexes && t.pending == m
      modifies t, m`waiters
      ensures old(Snap()).t[t].pending == m && Snap() == Remove(old(Snap()), t)
    {
      ghost var s := Snap();
      LeaveList(t, m, Closing);
      RemoveIs(s, t, m);
    }

    /** The part rt_mutex_drop_thread and a timed-out take have in common. */
    method CleanUpAfter(m: Mutex, t: Thread)
      requires t in threads && m in mutexes && Sound(Snap())
      modifies threads, mutexes
      ensures Sound(old(Snap())) && Snap() == Abandon(old(Snap()), m, t)
    {
      ghost var s := Snap();
      AbandonReady(s, m);
      var owner := m.owner;
      var needUpdate := owner != null && owner.currentPriority == t.currentPriority;
      var head := UpdateMutexPriority(m);
      if needUpdate {
        var priority := GetMutexPriority(owner);
        if priority != owner.currentPriority {
          UpdateThreadPriority(owner, priority);
        }
      }
    }

    /** `rt_mutex_drop_thread` */
    method DropThread(m: Mutex, t: Thread)
      requires t in threads && m in mutexes
      requires Sound(PutM(Snap(), m, Snap().m[m].(waiters := Without(m.waiters, t))))
      modifies threads, mutexes
      ensures Sound(PutM(old(Snap()), m, old(Snap()).m[m].(waiters := Without(old(m.waiters), t))))
      ensures Snap() == Drop(old(Snap()), m, t)
    {
      RemoveWaiter(m, t);
      CleanUpAfter(m, t);
    }

    /** The second region of `rt_thread_detach`. */
    method DetachThread(t: Thread, m: Mutex)
      requires t in threads && m in mutexes && t.pending == m
      requires Sound(PutM(Snap(), m, Snap().m[m].(waiters := Without(m.waiters, t))))
      modifies threads, mutexes
      ensures old(Snap()).t[t].pending == m
      ensures Sound(PutM(old(Snap()), m, old(Snap()).m[m].(waiters := Without(old(m.waiters), t))))
      ensures Snap() == Detach(old(Snap()), t)
    {
      ghost var s := Snap();
      assert s.t[t].pending == m && s.m[m].waiters == m.waiters;
      DropThread(m, t);
      SetWait(t, t.suspended, null, null);
    }

    /** The end of a take whose wait timed out; the error is what the take returns, and that is
        -RT_ETIMEOUT in every state a run can reach. */
    method FinishTimedOut(t: Thread, m: Mutex) returns (e: Error)
      requires t in threads && t.call == m && m in mutexes && Sound(Snap())
      modifies threads, mutexes
      ensures Sound(old(Snap())) && old(Snap()).t[t].call == m
      ensures Snap() == Cleanup(old(Snap()), t) && e == t.error
      ensures Inv(old(Snap()), Loose) && Leaver(old(Snap()), t) && old(t.error) != Closing ==> e == TimedOut
    {
      ghost var s := Snap();
      CleanUpAfter(m, t);
      SetWait(t, t.suspended, null, null);
      e := t.error;
      assert Snap().t[t] == TcbOf(t);
      if Inv(s, Loose) && Leaver(s, t) && s.t[t].error != Closing { CleanupAnswers(s, t); }
    }

    /** `rt_mutex_setprioceiling` */
    method SetPriorityCeiling(m: Mutex, p: int) returns (oldCeiling: int)
      requires m in mutexes && Sound(Snap()) && 0 <= p
      modifies threads, mutexes
      ensures Sound(old(Snap())) && (Snap(), oldCeiling) == SetCeiling(old(Snap()), m, p)
      ensures oldCeiling == if p < 32 then old(m.ceiling) else 255
    {
      if p < PRIORITY_MAX {
        ghost var s := Snap();
        CeilingReady(s, m, p);
        oldCeiling := m.ceiling;
        SetCeilingField(m, p);
        if m.owner != null {
          var priority := GetMutexPriority(m.owner);
          if priority != m.owner.currentPriority {
            UpdateThreadPriority(m.owner, priority);
          }
        }
      } else {
        oldCeiling := 0xff;
      }
    }
  }
}
