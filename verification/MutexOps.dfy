/** The interrupts-disabled regions of the mutex functions, as functions on snapshots. */
module MutexOps {
  import opened Objects
  import opened WaitList
  import opened MutexSpec
  import opened MutexSettle

  /** RT_EOK, -RT_EFULL, -RT_ETIMEOUT, -RT_ERROR; `Blocked` when the caller was suspended. */
  datatype Result = Eok | Efull | Etimeout | Eerror | Blocked

  function PutT(s: State, t: Thread, r: Tcb): State { s.(t := s.t[t := r]) }

  function PutM(s: State, m: Mutex, r: Mcb): State { s.(m := s.m[m := r]) }

  /** What following the owner chain relies on. */
  ghost predicate Sound(s: State) {
    Struct(s) && forall m :: m in s.m ==> SortedWaiters(s, s.m[m].waiters)
  }

  ghost predicate UpdatePre(s: State, t: Thread, p: int) {
    t in s.t && 0 <= p <= NO_PRIORITY && (Waiting(s, t) ==> Sound(s))
  }

  lemma UpdateReady(s: State, t: Thread, p: int)
    requires UpdatePre(s, t, p)
    ensures SettlePre(SetCur(s, t, p), t, {t})
  {
    if Waiting(s, t) {
      SetCurStruct(s, t, p);
      SetCurSortedBut(s, t, p);
    }
  }

  /** `_thread_update_priority` */
  ghost function UpdatePriority(s: State, t: Thread, p: int): State
    requires UpdatePre(s, t, p)
  {
    UpdateReady(s, t, p);
    Settle(SetCur(s, t, p), t, {t})
  }

  lemma UpdateRepairs(s: State, t: Thread, p: int, mode: Mode)
    requires Struct(s) && t in s.t && 0 <= p <= NO_PRIORITY
    requires forall m :: m in s.m ==> PrioOk(s, m, mode)
    requires forall x :: x in s.t && x != t ==> Bracket(s, x, mode)
    requires Bracket(SetCur(s, t, p), t, mode)
    ensures Sound(s)
    ensures Repaired(UpdatePriority(s, t, p), mode)
    ensures SameShape(s, UpdatePriority(s, t, p))
  {
    SetCurBroken(s, t, p, mode);
    SetCurStruct(s, t, p);
    UpdateReady(s, t, p);
    SettleRepairs(SetCur(s, t, p), t, {t}, mode);
    SameShapeTransitive(s, SetCur(s, t, p), UpdatePriority(s, t, p));
  }

  ghost predicate Running(s: State, t: Thread) {
    t in s.t && !s.t[t].suspended && s.t[t].call == null && s.t[t].error != Closing
  }

  // ---- rt_mutex_take ---------------------------------------------------------------------

  /** The mutex has no owner (ipc.c:1219-1234). */
  ghost function TakeFree(s: State, t: Thread, m: Mutex): State
    requires t in s.t && m in s.m && !Waiting(s, t) && 0 <= s.m[m].ceiling
  {
    var s1 := PutM(s, m, s.m[m].(owner := t, prio := NO_PRIORITY, hold := 1));
    var c := s.m[m].ceiling;
    var s2 := if c < NO_PRIORITY && c < s.t[t].cur then UpdatePriority(s1, t, c) else s1;
    PutT(s2, t, s2.t[t].(taken := [m] + s2.t[t].taken))
  }

  /** The caller joins the wait list (ipc.c:1258-1269). */
  function Join(s: State, t: Thread, m: Mutex): State
    requires t in s.t && m in s.m && Known(s, s.m[m].waiters)
  {
    var w := s.m[m].waiters;
    var s1 := PutT(s, t, s.t[t].(suspended := true, pending := m, call := m));
    PutM(s1, m, s.m[m].(waiters := Enqueue(Prio, w, Curs(s, w), t, s.t[t].cur)))
  }

  ghost predicate CanBlock(s: State, t: Thread, m: Mutex) {
    && Inv(s, Loose) && Running(s, t) && m in s.m
    && s.m[m].owner != null && s.m[m].owner != t
  }

  lemma JoinList(s: State, t: Thread, m: Mutex)
    requires CanBlock(s, t, m)
    ensures MutexOk(s, m) && ThreadOk(s, t)
    ensures var w := Join(s, t, m).m[m].waiters;
            && SortedWaiters(s, w) && Distinct(w) && w != []
            && (forall x :: x in s.m[m].waiters ==> x in w) && t in w
            && (forall x :: x in w ==> x in s.m[m].waiters || x == t)
            && s.t[w[0]].cur == Min(s.t[t].cur, HeadPriority(s, s.m[m].waiters))
  {
    assert MutexOk(s, m) && PrioOk(s, m, Loose) && ThreadOk(s, t);
    var w := s.m[m].waiters;
    assert t !in w;
    InsertCurs(s, w, t);
    InsertDistinct(w, Position(Curs(s, w), s.t[t].cur), t);
    assert Bracket(s, t, Loose);
    if w != [] {
      var i := Position(Curs(s, w), s.t[t].cur);
      assert i > 0 ==> Curs(s, w)[0] <= s.t[t].cur;
    }
  }

  /** The state after joining, whatever value `q` the mutex priority then takes. */
  function Joined(s: State, t: Thread, m: Mutex, q: int): State
    requires t in s.t && m in s.m && Known(s, s.m[m].waiters)
  {
    var r := Join(s, t, m);
    PutM(r, m, r.m[m].(prio := q))
  }

  lemma JoinThreads(s: State, t: Thread, m: Mutex, q: int)
    requires CanBlock(s, t, m) && 0 <= q <= NO_PRIORITY
    ensures MutexOk(s, m) && forall x :: x in s.t ==> ThreadOk(Joined(s, t, m, q), x)
  {
    JoinList(s, t, m);
    var r := Joined(s, t, m, q);
    forall x | x in s.t ensures ThreadOk(r, x) {
      assert ThreadOk(s, x);
      if x != t && s.t[x].pending != null && s.t[x].suspended && s.t[x].pending == m {
        assert x in s.m[m].waiters;
      }
    }
  }

  lemma JoinOthers(s: State, t: Thread, m: Mutex, q: int)
    requires CanBlock(s, t, m)
    ensures MutexOk(s, m) && forall k :: k in s.m && k != m ==> MutexOk(Joined(s, t, m, q), k)
  {
    JoinList(s, t, m);
    var r := Joined(s, t, m, q);
    forall k | k in s.m && k != m ensures MutexOk(r, k) {
      assert MutexOk(s, k);
      assert t !in r.m[k].waiters;
    }
  }

  lemma JoinSelf(s: State, t: Thread, m: Mutex, q: int)
    requires CanBlock(s, t, m) && 0 <= q <= NO_PRIORITY
    ensures MutexOk(s, m) && MutexOk(Joined(s, t, m, q), m)
  {
    JoinList(s, t, m);
  }

  lemma JoinStruct(s: State, t: Thread, m: Mutex, q: int)
    requires CanBlock(s, t, m) && 0 <= q <= NO_PRIORITY
    ensures MutexOk(s, m) && Struct(Joined(s, t, m, q))
  {
    JoinThreads(s, t, m, q);
    JoinOthers(s, t, m, q);
    JoinSelf(s, t, m, q);
  }

  lemma JoinSorted(s: State, t: Thread, m: Mutex, q: int)
    requires CanBlock(s, t, m) && 0 <= q <= NO_PRIORITY
    ensures MutexOk(s, m) && forall k :: k in s.m ==> SortedWaiters(Joined(s, t, m, q), Joined(s, t, m, q).m[k].waiters)
  {
    JoinList(s, t, m);
    var r := Joined(s, t, m, q);
    forall k | k in r.m ensures SortedWaiters(r, r.m[k].waiters) {
      assert PrioOk(s, k, Loose);
      assert Curs(r, r.m[k].waiters) == Curs(s, r.m[k].waiters);
    }
  }

  lemma JoinSound(s: State, t: Thread, m: Mutex)
    requires CanBlock(s, t, m)
    ensures MutexOk(s, m) && Sound(Joined(s, t, m, s.t[t].cur))
    ensures 0 <= s.t[t].cur <= NO_PRIORITY
  {
    JoinList(s, t, m);
    JoinStruct(s, t, m, s.t[t].cur);
    JoinSorted(s, t, m, s.t[t].cur);
  }

  /** The mutex is owned by somebody else and the caller is ready to wait (ipc.c:1250-1279). */
  ghost function Block(s: State, t: Thread, m: Mutex): State
    requires CanBlock(s, t, m)
  {
    assert MutexOk(s, m);
    var p := s.t[t].cur;
    var s1 := Join(s, t, m);
    if p < s.m[m].prio then
      var s2 := PutM(s1, m, s1.m[m].(prio := p));
      var o := s.m[m].owner;
      if p < s.t[o].cur then
        JoinSound(s, t, m);
        UpdatePriority(s2, o, p)
      else s2
    else s1
  }

  /** `_rt_mutex_take` after the thread's error has been reset. */
  ghost function TakeFrom(s: State, t: Thread, m: Mutex, wait: bool): (State, Result)
    requires Inv(s, Loose) && Running(s, t) && m in s.m
  {
    assert MutexOk(s, m);
    if s.m[m].owner == t then
      if s.m[m].hold < HOLD_MAX then (PutM(s, m, s.m[m].(hold := s.m[m].hold + 1)), Eok)
      else (s, Efull)
    else if s.m[m].owner == null then (TakeFree(s, t, m), Eok)
    else if !wait then (PutT(s, t, s.t[t].(error := TimedOut)), Etimeout)
    else (Block(s, t, m), Blocked)
  }

  /** Same priorities, wait lists and taken lists. */
  ghost predicate SamePriorities(s: State, r: State) {
    && s.t.Keys == r.t.Keys && s.m.Keys == r.m.Keys
    && (forall t :: t in s.t ==> r.t[t].cur == s.t[t].cur && r.t[t].init == s.t[t].init && r.t[t].taken == s.t[t].taken)
    && (forall m :: m in s.m ==> r.m[m].prio == s.m[m].prio && r.m[m].ceiling == s.m[m].ceiling
                                 && r.m[m].waiters == s.m[m].waiters)
  }

  lemma PrioritiesKept(s: State, r: State, mode: Mode)
    requires SamePriorities(s, r)
    ensures forall t :: t in s.t && Bracket(s, t, mode) ==> Bracket(r, t, mode)
    ensures forall m :: m in s.m && PrioOk(s, m, mode) ==> PrioOk(r, m, mode)
  {
    forall t | t in s.t && Bracket(s, t, mode) ensures Bracket(r, t, mode) {}
    forall m | m in s.m && PrioOk(s, m, mode) ensures PrioOk(r, m, mode) {
      assert Curs(r, r.m[m].waiters) == Curs(s, s.m[m].waiters);
    }
  }

  lemma ErrorKeepsInv(s: State, t: Thread, e: Error, mode: Mode)
    requires Inv(s, mode) && Running(s, t)
    ensures Inv(PutT(s, t, s.t[t].(error := e)), mode)
  {
    var r := PutT(s, t, s.t[t].(error := e));
    PrioritiesKept(s, r, mode);
    forall x | x in r.t ensures ThreadOk(r, x) && CallOk(r, x) { assert ThreadOk(s, x) && CallOk(s, x); }
    forall k | k in r.m ensures MutexOk(r, k) { assert MutexOk(s, k); }
  }

  /** `_rt_mutex_take` up to the point where the caller returns or is suspended; `wait` is timeout != 0. */
  ghost function Take(s: State, t: Thread, m: Mutex, wait: bool): (State, Result)
    requires Inv(s, Loose) && Running(s, t) && m in s.m
  {
    ErrorKeepsInv(s, t, Ok, Loose);
    TakeFrom(PutT(s, t, s.t[t].(error := Ok)), t, m, wait)
  }

  /** The resumed caller finds `thread->error == RT_EOK` and returns RT_EOK. */
  function Return(s: State, t: Thread): State
    requires t in s.t
  {
    PutT(s, t, s.t[t].(call := null))
  }

  // ---- rt_mutex_release ------------------------------------------------------------------

  /** The last hold is given up: leave the taken list and recompute the caller's priority
      (ipc.c:1466-1484). */
  function Relinquish(s: State, t: Thread, m: Mutex): State
    requires t in s.t && m in s.m && KnownMutexes(s, s.t[t].taken)
  {
    var s1 := PutT(s, t, s.t[t].(taken := Without(s.t[t].taken, m)));
    if s.m[m].ceiling != NO_PRIORITY || s.t[t].cur == s.m[m].prio then
      SetCur(s1, t, Deserved(s1, t))
    else s1
  }

  /** Direct hand-off to the first waiter (ipc.c:1486-1523). */
  function HandOff(s: State, m: Mutex): State
    requires m in s.m && s.m[m].waiters != [] && Known(s, s.m[m].waiters)
  {
    var next := s.m[m].waiters[0];
    var w := Without(s.m[m].waiters, next);
    var s1 := PutM(s, m, s.m[m].(owner := next, hold := 1, waiters := w, prio := HeadPriority(s, w)));
    PutT(s1, next, s.t[next].(taken := [m] + s.t[next].taken, pending := null, suspended := false))
  }

  /** `rt_mutex_release` */
  function Release(s: State, t: Thread, m: Mutex): (State, Result)
    requires t in s.t && m in s.m && KnownMutexes(s, s.t[t].taken) && Known(s, s.m[m].waiters)
  {
    if s.m[m].owner != t then (PutT(s, t, s.t[t].(error := Failed)), Eerror)
    else
      var s1 := PutM(s, m, s.m[m].(hold := s.m[m].hold - 1));
      if s1.m[m].hold != 0 then (s1, Eok)
      else
        var s2 := Relinquish(s1, t, m);
        if s2.m[m].waiters != [] then (HandOff(s2, m), Eok)
        else (PutM(s2, m, s2.m[m].(owner := null, prio := NO_PRIORITY)), Eok)
  }

  // ---- time-outs and rt_mutex_drop_thread ------------------------------------------------

  /** `_thread_timeout` (thread.c:131-160) for a thread waiting for a mutex. */
  function Expire(s: State, t: Thread): State
    requires t in s.t && s.t[t].pending != null && s.t[t].pending in s.m
  {
    var m := s.t[t].pending;
    PutM(PutT(s, t, s.t[t].(error := TimedOut, suspended := false)),
         m, s.m[m].(waiters := Without(s.m[m].waiters, t)))
  }

  lemma HeadRange(s: State, w: seq<Thread>)
    requires Struct(s) && Known(s, w)
    ensures 0 <= HeadPriority(s, w) <= NO_PRIORITY
  {
    if w != [] { assert ThreadOk(s, w[0]); }
  }

  lemma SetPrioSound(s: State, m: Mutex, p: int)
    requires Sound(s) && m in s.m && 0 <= p <= NO_PRIORITY
    ensures Sound(PutM(s, m, s.m[m].(prio := p)))
  {
    var r := PutM(s, m, s.m[m].(prio := p));
    forall x | x in r.t ensures ThreadOk(r, x) { assert ThreadOk(s, x); }
    forall k | k in r.m ensures MutexOk(r, k) && SortedWaiters(r, r.m[k].waiters) {
      assert MutexOk(s, k) && SortedWaiters(s, s.m[k].waiters);
      assert Curs(r, r.m[k].waiters) == Curs(s, s.m[k].waiters);
    }
  }

  /** `rt_schedule_remove_thread` (scheduler_up.c:411-441) for a thread inside a blocking take, queued or not. */
  function Remove(s: State, t: Thread): State
    requires t in s.t && s.t[t].pending != null && s.t[t].pending in s.m
  {
    PutT(Expire(s, t), t, Expire(s, t).t[t].(error := Closing))
  }

  /** The clean-up after `t` has left the list of `m` (ipc.c:1309-1350, and 963-996). */
  ghost function Abandon(s: State, m: Mutex, t: Thread): (r: State)
    requires t in s.t && m in s.m && Sound(s)
    ensures r.t.Keys == s.t.Keys && r.m.Keys == s.m.Keys
  {
    assert MutexOk(s, m);
    HeadRange(s, s.m[m].waiters);
    var o := s.m[m].owner;
    var s1 := PutM(s, m, s.m[m].(prio := HeadPriority(s, s.m[m].waiters)));
    if o != null && s.t[o].cur == s.t[t].cur then
      SetPrioSound(s, m, HeadPriority(s, s.m[m].waiters));
      DeservedRange(s1, o);
      var p := Deserved(s1, o);
      if p != s1.t[o].cur then UpdatePriority(s1, o, p) else s1
    else s1
  }

  /** `rt_mutex_drop_thread`: the caller has already taken `t` out of the suspended state. */
  ghost function Drop(s: State, m: Mutex, t: Thread): State
    requires t in s.t && m in s.m && Sound(PutM(s, m, s.m[m].(waiters := Without(s.m[m].waiters, t))))
  {
    Abandon(PutM(s, m, s.m[m].(waiters := Without(s.m[m].waiters, t))), m, t)
  }

  /** The second region of `rt_thread_detach` (thread.c:438-456). */
  ghost function Detach(s: State, t: Thread): State
    requires t in s.t && s.t[t].pending != null && s.t[t].pending in s.m
    requires Sound(PutM(s, s.t[t].pending, s.m[s.t[t].pending].(waiters := Without(s.m[s.t[t].pending].waiters, t))))
  {
    var r := Drop(s, s.t[t].pending, t);
    PutT(r, t, r.t[t].(pending := null, call := null))
  }

  /** The resumed caller finds an error: clean up and return it (ipc.c:1303-1361). */
  ghost function Cleanup(s: State, t: Thread): State
    requires t in s.t && s.t[t].call != null && s.t[t].call in s.m && Sound(s)
  {
    var r := Abandon(s, s.t[t].call, t);
    PutT(r, t, r.t[t].(pending := null, call := null))
  }

  // ---- rt_mutex_setprioceiling -----------------------------------------------------------

  lemma SetCeilingSound(s: State, m: Mutex, p: int)
    requires Sound(s) && m in s.m && 0 <= p <= NO_PRIORITY
    ensures Sound(PutM(s, m, s.m[m].(ceiling := p)))
  {
    var r := PutM(s, m, s.m[m].(ceiling := p));
    forall x | x in r.t ensures ThreadOk(r, x) { assert ThreadOk(s, x); }
    forall k | k in r.m ensures MutexOk(r, k) && SortedWaiters(r, r.m[k].waiters) {
      assert MutexOk(s, k) && SortedWaiters(s, s.m[k].waiters);
      assert Curs(r, r.m[k].waiters) == Curs(s, s.m[k].waiters);
    }
  }

  /** Returns the old ceiling, or 0xff without any effect when the priority is out of range. */
  ghost function SetCeiling(s: State, m: Mutex, p: int): (State, int)
    requires m in s.m && Sound(s) && 0 <= p
  {
    if p < PRIORITY_MAX then
      assert MutexOk(s, m);
      var s1 := PutM(s, m, s.m[m].(ceiling := p));
      var o := s.m[m].owner;
      if o != null then
        SetCeilingSound(s, m, p);
        DeservedRange(s1, o);
        var q := Deserved(s1, o);
        (if q != s1.t[o].cur then UpdatePriority(s1, o, q) else s1, s.m[m].ceiling)
      else (s1, s.m[m].ceiling)
    else (s, NO_PRIORITY)
  }

  // ---- suspension elsewhere --------------------------------------------------------------

  /** The thread sleeps on something that is not a mutex, or is woken from it. */
  function Doze(s: State, t: Thread, asleep: bool): State
    requires t in s.t
  {
    PutT(s, t, s.t[t].(suspended := asleep))
  }

  // ---- frames ----------------------------------------------------------------------------

  /** Calls in progress do not depend on priorities or on the order of wait lists. */
  lemma CallsKept(s: State, r: State)
    requires SameShape(s, r) && forall t :: t in s.t ==> CallOk(s, t)
    ensures forall t :: t in r.t ==> CallOk(r, t)
  {
    forall t | t in r.t ensures CallOk(r, t) {
      assert SameThread(s.t[t], r.t[t]) && CallOk(s, t);
      if s.t[t].call != null { assert SameMutex(s.m[s.t[t].call], r.m[s.t[t].call]); }
    }
  }
}
