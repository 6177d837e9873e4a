/** Time-outs, rt_mutex_drop_thread, rt_mutex_setprioceiling and the remaining steps keep the invariant. */
module MutexTimeout {
  import opened Objects
  import opened WaitList
  import opened MutexSpec
  import opened MutexSettle
  import opened MutexOps

  ghost predicate HeadAccounts(s: State, m: Mutex, p: int)
    requires m in s.m
  {
    var w := s.m[m].waiters;
    w != [] && w[0] in s.t && s.t[w[0]].cur <= p
  }

  ghost predicate OtherAccounts(s: State, m: Mutex, taken: seq<Mutex>, p: int) {
    exists k :: k in taken && k != m && k in s.m && Min(s.m[k].prio, s.m[k].ceiling) <= p
  }

  /** The owner of `m` will be right once `t` has cleaned up: there is none, or the guard of ipc.c:1320
      holds and it is recomputed, or something other than a thread that left accounts for its priority:
      its own, the ceiling, the first waiter still there, or another mutex it holds. */
  ghost predicate OwnerSettled(s: State, m: Mutex, t: Thread)
    requires m in s.m && t in s.t
  {
    var o := s.m[m].owner;
    o != null && o in s.t ==>
      || s.t[o].cur == s.t[t].cur
      || s.t[o].init <= s.t[o].cur
      || s.m[m].ceiling <= s.t[o].cur
      || HeadAccounts(s, m, s.t[o].cur)
      || OtherAccounts(s, m, s.t[o].taken, s.t[o].cur)
  }

  /** `t` has left the wait list of `m`; everything is in order except that the mutex priority may
      still be that of a thread that left. */
  ghost predicate Departed(s: State, m: Mutex, t: Thread, mode: Mode) {
    && Struct(s) && m in s.m && t in s.t
    && (forall k :: k in s.m && k != m ==> PrioOk(s, k, mode))
    && PrioOk(s, m, Loose)
    && (forall x :: x in s.t ==> Bracket(s, x, mode))
    && (mode.Exact? ==> OwnerSettled(s, m, t))
  }

  /** The state once `mutex->priority` has been read off the list again. */
  function Reread(s: State, m: Mutex): State
    requires m in s.m && Known(s, s.m[m].waiters)
  {
    PutM(s, m, s.m[m].(prio := HeadPriority(s, s.m[m].waiters)))
  }

  lemma DepartedSound(s: State, m: Mutex, t: Thread, mode: Mode)
    requires Departed(s, m, t, mode)
    ensures Sound(s) && Known(s, s.m[m].waiters) && Sound(Reread(s, m))
  {
    assert forall k :: k in s.m ==> SortedWaiters(s, s.m[k].waiters) by {
      forall k | k in s.m ensures SortedWaiters(s, s.m[k].waiters) {
        assert k != m ==> PrioOk(s, k, mode);
      }
    }
    HeadRange(s, s.m[m].waiters);
    SetPrioSound(s, m, HeadPriority(s, s.m[m].waiters));
  }

  lemma RereadPriorities(s: State, m: Mutex, t: Thread, mode: Mode)
    requires Departed(s, m, t, mode)
    ensures Known(s, s.m[m].waiters)
    ensures var r := Reread(s, m);
            && (forall k :: k in r.m ==> PrioOk(r, k, Fresh(mode, m)))
            && (forall x :: x in r.t && x != s.m[m].owner ==> Bracket(r, x, mode))
  {
    var r := Reread(s, m);
    forall k | k in r.m ensures PrioOk(r, k, Fresh(mode, m)) {
      assert k != m ==> PrioOk(s, k, mode);
      assert Curs(r, r.m[k].waiters) == Curs(s, s.m[k].waiters);
    }
    forall x | x in r.t && x != s.m[m].owner ensures Bracket(r, x, mode) {
      assert Bracket(s, x, mode) && ThreadOk(s, x);
    }
  }

  /** A settled owner that is not recomputed keeps its bracket. */
  lemma RereadOwner(s: State, m: Mutex, t: Thread, mode: Mode)
    requires Departed(s, m, t, mode)
    requires s.m[m].owner != null && s.m[m].owner in s.t && s.t[s.m[m].owner].cur != s.t[t].cur
    ensures Known(s, s.m[m].waiters) && Bracket(Reread(s, m), s.m[m].owner, mode)
  {
    var r, o := Reread(s, m), s.m[m].owner;
    assert Bracket(s, o, mode) && MutexOk(s, m) && ThreadOk(s, o);
    assert m in s.t[o].taken;
    if mode.Exact? && s.t[o].init > s.t[o].cur {
      if OtherAccounts(s, m, s.t[o].taken, s.t[o].cur) {
        var k :| k in s.t[o].taken && k != m && k in s.m && Min(s.m[k].prio, s.m[k].ceiling) <= s.t[o].cur;
        assert k in r.t[o].taken && Min(r.m[k].prio, r.m[k].ceiling) <= r.t[o].cur;
      } else {
        assert m in r.t[o].taken && Min(r.m[m].prio, r.m[m].ceiling) <= r.t[o].cur;
      }
    }
  }

  /** Recomputing an owner's priority from a sound state repairs it. */
  lemma RecomputeRepairs(s: State, o: Thread, mode: Mode)
    requires Sound(s) && o in s.t && KnownMutexes(s, s.t[o].taken)
    requires forall k :: k in s.m ==> PrioOk(s, k, mode)
    requires forall x :: x in s.t && x != o ==> Bracket(s, x, mode)
    ensures var p := Deserved(s, o);
            && 0 <= p <= NO_PRIORITY
            && (p == s.t[o].cur ==> Repaired(s, mode))
            && (p != s.t[o].cur ==> Repaired(UpdatePriority(s, o, p), mode) && SameShape(s, UpdatePriority(s, o, p)))
  {
    var p := Deserved(s, o);
    DeservedRange(s, o);
    if p == s.t[o].cur {
      DeservedBracket(s, o, mode);
    } else {
      SameDeserved(s, o, p);
      SetCurStruct(s, o, p);
      DeservedBracket(SetCur(s, o, p), o, mode);
      UpdateRepairs(s, o, p, mode);
    }
  }

  lemma SameShapeRefl(s: State, m: Mutex, t: Thread, mode: Mode)
    requires Departed(s, m, t, mode)
    ensures Known(s, s.m[m].waiters) && SameShape(s, Reread(s, m))
  {
    forall k | k in s.m ensures SameMutex(s.m[k], Reread(s, m).m[k]) { assert MutexOk(s, k); }
  }

  /** The clean-up makes the state whole again, whether or not it recomputes the owner. */
  lemma AbandonRepairs(s: State, m: Mutex, t: Thread, mode: Mode)
    requires Departed(s, m, t, mode)
    ensures Sound(s) && Repaired(Abandon(s, m, t), Fresh(mode, m)) && SameShape(s, Abandon(s, m, t))
  {
    DepartedSound(s, m, t, mode);
    RereadPriorities(s, m, t, mode);
    SameShapeRefl(s, m, t, mode);
    var s1, o := Reread(s, m), s.m[m].owner;
    assert MutexOk(s, m);
    if o != null && s.t[o].cur == s.t[t].cur {
      DeservedRange(s1, o);
      RecomputeRepairs(s1, o, Fresh(mode, m));
      if Deserved(s1, o) != s1.t[o].cur {
        SameShapeTransitive(s, s1, UpdatePriority(s1, o, Deserved(s1, o)));
      }
    } else if o != null {
      RereadOwner(s, m, t, mode);
    }
  }

  // ---- the two halves of a time-out ------------------------------------------------------

  lemma ExpireThreads(s: State, t: Thread)
    requires Inv(s, Loose) && t in s.t && Waiting(s, t) && s.t[t].pending in s.m
    ensures forall x :: x in s.t ==> ThreadOk(Expire(s, t), x) && CallOk(Expire(s, t), x)
  {
    assert MutexOk(s, s.t[t].pending);
    WithoutDistinct(s.m[s.t[t].pending].waiters, t);
    forall x | x in s.t ensures ThreadOk(Expire(s, t), x) && CallOk(Expire(s, t), x) {
      assert ThreadOk(s, x) && CallOk(s, x);
    }
  }

  lemma ExpireMutexes(s: State, t: Thread)
    requires Inv(s, Loose) && t in s.t && Waiting(s, t) && s.t[t].pending in s.m
    ensures forall k :: k in s.m && k != s.t[t].pending ==> MutexOk(Expire(s, t), k)
  {
    forall k | k in s.m && k != s.t[t].pending ensures MutexOk(Expire(s, t), k) { assert MutexOk(s, k); }
  }

  lemma ExpireMutex(s: State, t: Thread, m: Mutex)
    requires Inv(s, Loose) && t in s.t && Waiting(s, t) && s.t[t].pending == m && m in s.m
    ensures MutexOk(Expire(s, t), m)
  {
    assert MutexOk(s, m);
    WithoutDistinct(s.m[m].waiters, t);
  }

  lemma ExpireStruct(s: State, t: Thread)
    requires Inv(s, Loose) && t in s.t && Waiting(s, t)
    ensures s.t[t].pending in s.m && Struct(Expire(s, t))
    ensures forall x :: x in s.t ==> CallOk(Expire(s, t), x)
    ensures Expire(s, t).t[t].call == s.t[t].pending
  {
    assert ThreadOk(s, t) && CallOk(s, t);
    ExpireThreads(s, t);
    ExpireMutexes(s, t);
    ExpireMutex(s, t, s.t[t].pending);
  }

  lemma ExpireBrackets(s: State, t: Thread, mode: Mode)
    requires Inv(s, mode) && t in s.t && s.t[t].pending != null && s.t[t].pending in s.m
    ensures forall x :: x in Expire(s, t).t ==> Bracket(Expire(s, t), x, mode)
  {
    var r := Expire(s, t);
    forall x | x in r.t ensures Bracket(r, x, mode) { assert Bracket(s, x, mode); }
  }

  lemma ExpireOthers(s: State, t: Thread, mode: Mode)
    requires Inv(s, mode) && t in s.t && s.t[t].pending != null && s.t[t].pending in s.m
    ensures var r := Expire(s, t);
            && (forall k :: k in r.m && k != s.t[t].pending ==> PrioOk(r, k, mode))
            && (forall x :: x in r.t ==> Bracket(r, x, mode))
  {
    ExpireBrackets(s, t, mode);
    var r := Expire(s, t);
    forall k | k in r.m && k != s.t[t].pending ensures PrioOk(r, k, mode) {
      assert PrioOk(s, k, mode);
      assert Curs(r, r.m[k].waiters) == Curs(s, s.m[k].waiters);
    }
  }

  /** Leaving a sorted list does not make its head more urgent. */
  lemma ExpireHead(s: State, m: Mutex, t: Thread)
    requires m in s.m && SortedWaiters(s, s.m[m].waiters) && t in s.m[m].waiters && t in s.t
    requires forall x :: x in s.t ==> s.t[x].cur <= NO_PRIORITY
    ensures var w := s.m[m].waiters; var w' := Without(w, t);
            && Known(s, w')
            && HeadPriority(s, w) <= HeadPriority(s, w')
            && (w[0] != t ==> HeadPriority(s, w) == HeadPriority(s, w'))
  {
    var w := s.m[m].waiters;
    var i := IndexOf(w, t);
    var w' := Without(w, t);
    WithoutKnown(w, t);
    if i == 0 && |w| > 1 {
      assert w'[0] == w[1];
      assert Curs(s, w)[0] <= Curs(s, w)[1];
    }
  }

  lemma ExpireList(s: State, t: Thread, mode: Mode)
    requires Inv(s, mode) && t in s.t && Waiting(s, t)
    ensures s.t[t].pending in s.m
    ensures var r, m := Expire(s, t), s.t[t].pending;
            && PrioOk(r, m, Loose)
            && (!mode.Loose? && m !in mode.stale ==>
                  r.m[m].prio == HeadPriority(r, r.m[m].waiters) || r.m[m].prio == r.t[t].cur)
  {
    assert ThreadOk(s, t);
    var r, m := Expire(s, t), s.t[t].pending;
    var w := s.m[m].waiters;
    assert PrioOk(s, m, mode);
    forall x | x in s.t ensures s.t[x].cur <= NO_PRIORITY { assert ThreadOk(s, x); }
    SubSorted(s, w, t);
    ExpireHead(s, m, t);
    assert Curs(r, Without(w, t)) == Curs(s, Without(w, t));
  }

  /** The owner of an up-to-date mutex is settled, whoever cleans up. */
  lemma SettledCurrent(s: State, t: Thread, m: Mutex, mode: Mode)
    requires Inv(s, mode) && mode.Exact? && m in s.m && m !in mode.stale && t in s.t
    ensures OwnerSettled(s, m, t)
  {
    var o := s.m[m].owner;
    if o != null && o in s.t && s.t[o].cur < s.t[o].init {
      assert Bracket(s, o, mode) && PrioOk(s, m, mode) && ThreadOk(s, o) && MutexOk(s, m);
      var k :| k in s.t[o].taken && k in s.m && Min(s.m[k].prio, s.m[k].ceiling) <= s.t[o].cur;
      if k != m {
        assert OtherAccounts(s, m, s.t[o].taken, s.t[o].cur);
      }
    }
  }

  /** A thread that leaves an up-to-date mutex leaves its owner settled: if it was the first waiter and
      the owner owes it, the two priorities are equal. */
  lemma ExpireSettled(s: State, t: Thread, mode: Mode)
    requires Inv(s, Loose) && Inv(s, mode) && t in s.t && Waiting(s, t)
    requires mode.Exact? && s.t[t].pending !in mode.stale
    ensures s.t[t].pending in s.m && OwnerSettled(Expire(s, t), s.t[t].pending, t)
  {
    ExpireStruct(s, t);
    ExpireList(s, t, mode);
    var r, m := Expire(s, t), s.t[t].pending;
    var o := s.m[m].owner;
    if o != null && o in s.t && s.t[o].cur < s.t[o].init {
      assert Bracket(s, o, mode) && MutexOk(s, m);
      var k :| k in s.t[o].taken && k in s.m && Min(s.m[k].prio, s.m[k].ceiling) <= s.t[o].cur;
      if k != m {
        assert OtherAccounts(r, m, r.t[o].taken, r.t[o].cur);
      } else {
        assert s.t[o].cur <= s.m[m].prio;
      }
    }
  }

  lemma StaledInv(r: State, m: Mutex, mode: Mode)
    requires Struct(r) && m in r.m && PrioOk(r, m, Loose)
    requires forall x :: x in r.t ==> CallOk(r, x) && Bracket(r, x, mode)
    requires forall k :: k in r.m && k != m ==> PrioOk(r, k, mode)
    ensures Inv(r, Staled(mode, m))
  {
    forall k | k in r.m ensures PrioOk(r, k, Staled(mode, m)) {
      assert k != m ==> PrioOk(r, k, mode);
    }
    forall x | x in r.t ensures Bracket(r, x, Staled(mode, m)) { assert Bracket(r, x, mode); }
  }

  /** The first half alone keeps the invariant, but the priority of the mutex may become stale. */
  lemma ExpireInv(s: State, t: Thread, mode: Mode)
    requires Inv(s, Loose) && Inv(s, mode) && t in s.t && Waiting(s, t)
    ensures s.t[t].pending in s.m && Inv(Expire(s, t), Staled(mode, s.t[t].pending))
  {
    ExpireStruct(s, t);
    ExpireList(s, t, mode);
    ExpireOthers(s, t, mode);
    StaledInv(Expire(s, t), s.t[t].pending, mode);
  }

  /** `t` has left a wait list without getting the mutex, and has not cleaned up. */
  ghost predicate Leaver(s: State, t: Thread) {
    t in s.t && !s.t[t].suspended && s.t[t].call != null && s.t[t].error != Ok
  }

  lemma LeaveInv(s: State, t: Thread, mode: Mode)
    requires Repaired(s, mode) && t in s.t && !s.t[t].suspended
    requires forall x :: x in s.t && x != t ==> CallOk(s, x)
    ensures Inv(PutT(s, t, s.t[t].(pending := null, call := null)), mode)
  {
    var r := PutT(s, t, s.t[t].(pending := null, call := null));
    PrioritiesKept(s, r, mode);
    forall x | x in r.t ensures ThreadOk(r, x) && CallOk(r, x) {
      assert ThreadOk(s, x) && (x != t ==> CallOk(s, x));
    }
    forall k | k in r.m ensures MutexOk(r, k) { assert MutexOk(s, k); }
  }

  /** The second half restores the invariant from whatever the first half left. */
  lemma CleanupInv(s: State, t: Thread, m: Mutex, mode: Mode)
    requires Departed(s, m, t, mode) && Leaver(s, t) && s.t[t].call == m && forall x :: x in s.t ==> CallOk(s, x)
    ensures Sound(s) && Inv(Cleanup(s, t), Fresh(mode, m))
  {
    AbandonRepairs(s, m, t, mode);
    var r := Abandon(s, m, t);
    CallsKept(s, r);
    assert SameThread(s.t[t], r.t[t]);
    LeaveInv(r, t, Fresh(mode, m));
  }

  /** The second half run later, after any number of other steps: it brings the mutex up to date, and
      keeps exactness if the owner is settled. */
  lemma CleanupLateInv(s: State, t: Thread, mode: Mode)
    requires Inv(s, Loose) && Inv(s, mode) && Leaver(s, t)
    requires mode.Exact? ==> s.t[t].call in s.m && OwnerSettled(s, s.t[t].call, t)
    ensures s.t[t].call in s.m && Sound(s) && Inv(Cleanup(s, t), Fresh(mode, s.t[t].call))
  {
    assert CallOk(s, t);
    CleanupInv(s, t, s.t[t].call, mode);
  }

  // ---- the two regions of rt_thread_detach -----------------------------------------------

  lemma ErrorThreads(s: State, t: Thread, e: Error)
    requires Inv(s, Loose) && Leaver(s, t) && e != Ok && e != Failed
    ensures forall x :: x in s.t ==> ThreadOk(PutT(s, t, s.t[t].(error := e)), x) && CallOk(PutT(s, t, s.t[t].(error := e)), x)
  {
    var r := PutT(s, t, s.t[t].(error := e));
    forall x | x in s.t ensures ThreadOk(r, x) && CallOk(r, x) { assert ThreadOk(s, x) && CallOk(s, x); }
  }

  /** The error of a thread matters to no list and to no priority; a leaver may have any. */
  lemma ErrorInv(s: State, t: Thread, e: Error, mode: Mode)
    requires Inv(s, Loose) && Inv(s, mode) && Leaver(s, t) && e != Ok && e != Failed
    ensures Inv(PutT(s, t, s.t[t].(error := e)), mode)
  {
    var r := PutT(s, t, s.t[t].(error := e));
    PrioritiesKept(s, r, mode);
    ErrorThreads(s, t, e);
    forall k | k in r.m ensures MutexOk(r, k) { assert MutexOk(s, k); }
  }

  /** Nor does it matter to whether the owner is settled. */
  lemma ErrorSettled(s: State, t: Thread, e: Error, m: Mutex)
    requires m in s.m && t in s.t
    ensures OwnerSettled(PutT(s, t, s.t[t].(error := e)), m, t) <==> OwnerSettled(s, m, t)
  {
    var r, o := PutT(s, t, s.t[t].(error := e)), s.m[m].owner;
    if o != null && o in s.t {
      assert HeadAccounts(s, m, s.t[o].cur) <==> HeadAccounts(r, m, r.t[o].cur);
      assert OtherAccounts(s, m, s.t[o].taken, s.t[o].cur) <==> OtherAccounts(r, m, r.t[o].taken, r.t[o].cur);
    }
  }

  /** Somebody inside a take is in the list or has left it. */
  lemma WaitingOrLeaver(s: State, t: Thread)
    requires Inv(s, Loose) && t in s.t && s.t[t].pending != null
    ensures s.t[t].pending in s.m && s.t[t].call == s.t[t].pending && (Waiting(s, t) || Leaver(s, t))
    ensures Leaver(s, t) ==> t !in s.m[s.t[t].pending].waiters
  {
    assert ThreadOk(s, t) && CallOk(s, t) && MutexOk(s, s.t[t].pending);
  }

  /** Removing a leaver changes nothing but its error. */
  lemma RemoveLeaver(s: State, t: Thread)
    requires Inv(s, Loose) && Leaver(s, t) && s.t[t].pending != null
    ensures s.t[t].pending in s.m && Remove(s, t) == PutT(s, t, s.t[t].(error := Closing))
  {
    WaitingOrLeaver(s, t);
    assert Remove(s, t).m == s.m;
  }

  lemma StaledMore(s: State, m: Mutex, mode: Mode)
    requires Inv(s, Loose) && Inv(s, mode) && m in s.m
    ensures Inv(s, Staled(mode, m))
  {
    assert PrioOk(s, m, Loose);
    StaledInv(s, m, mode);
  }

  /** The first region of rt_thread_detach keeps the invariant as a time-out does. */
  lemma RemoveInv(s: State, t: Thread, mode: Mode)
    requires Inv(s, Loose) && Inv(s, mode) && t in s.t && s.t[t].pending != null
    ensures s.t[t].pending in s.m && Inv(Remove(s, t), Staled(mode, s.t[t].pending)) && Leaver(Remove(s, t), t)
  {
    WaitingOrLeaver(s, t);
    var m := s.t[t].pending;
    if Waiting(s, t) {
      ExpireInv(s, t, mode);
      ExpireInv(s, t, Loose);
      ErrorInv(Expire(s, t), t, Closing, Staled(mode, m));
    } else {
      RemoveLeaver(s, t);
      StaledMore(s, m, mode);
      ErrorInv(s, t, Closing, Staled(mode, m));
    }
  }

  lemma DroppedAlready(s: State, m: Mutex, t: Thread)
    requires m in s.m && t !in s.m[m].waiters
    ensures PutM(s, m, s.m[m].(waiters := Without(s.m[m].waiters, t))) == s
  {
    assert s.m[m].(waiters := Without(s.m[m].waiters, t)) == s.m[m];
  }

  /** The second region is the clean-up of a time-out. */
  lemma DetachIs(s: State, t: Thread)
    requires Inv(s, Loose) && Leaver(s, t)
    ensures s.t[t].call in s.m && s.t[t].pending == s.t[t].call && Sound(s)
    ensures var m := s.t[t].call;
            && PutM(s, m, s.m[m].(waiters := Without(s.m[m].waiters, t))) == s
            && Detach(s, t) == Cleanup(s, t)
  {
    assert CallOk(s, t);
    WaitingOrLeaver(s, t);
    CleanupLateInv(s, t, Loose);
    DroppedAlready(s, s.t[t].call, t);
  }

  /** It brings the mutex up to date, and keeps exactness if the owner is settled. */
  lemma DetachInv(s: State, t: Thread, mode: Mode)
    requires Inv(s, Loose) && Inv(s, mode) && Leaver(s, t)
    requires mode.Exact? ==> s.t[t].call in s.m && OwnerSettled(s, s.t[t].call, t)
    ensures var m := s.t[t].call;
            && m in s.m && s.t[t].pending == m && Sound(PutM(s, m, s.m[m].(waiters := Without(s.m[m].waiters, t))))
            && Inv(Detach(s, t), Fresh(mode, m))
  {
    DetachIs(s, t);
    CleanupLateInv(s, t, mode);
  }

  // ---- rt_mutex_setprioceiling and the rest ----------------------------------------------

  /** Recomputing an owner makes the whole invariant hold. */
  lemma RecomputeInv(s: State, o: Thread, mode: Mode)
    requires Sound(s) && o in s.t
    requires forall x :: x in s.t ==> CallOk(s, x) && (x != o ==> Bracket(s, x, mode))
    requires forall k :: k in s.m ==> PrioOk(s, k, mode)
    ensures KnownMutexes(s, s.t[o].taken) && UpdatePre(s, o, Deserved(s, o))
    ensures var r := if Deserved(s, o) == s.t[o].cur then s else UpdatePriority(s, o, Deserved(s, o));
            Inv(r, mode) && SameShape(s, r)
  {
    DeservedRange(s, o);
    RecomputeRepairs(s, o, mode);
    if Deserved(s, o) == s.t[o].cur {
      forall k | k in s.m ensures SameMutex(s.m[k], s.m[k]) { assert MutexOk(s, k); }
    } else {
      CallsKept(s, UpdatePriority(s, o, Deserved(s, o)));
    }
  }

  lemma CeilingShape(s: State, m: Mutex, p: int)
    requires m in s.m && forall x :: x in s.t ==> CallOk(s, x)
    ensures var r := PutM(s, m, s.m[m].(ceiling := p)); forall x :: x in r.t ==> CallOk(r, x)
  {
    var r := PutM(s, m, s.m[m].(ceiling := p));
    forall x | x in r.t ensures CallOk(r, x) { assert CallOk(s, x); }
  }

  lemma CeilingPriorities(s: State, m: Mutex, p: int, mode: Mode)
    requires Inv(s, mode) && m in s.m
    ensures var r := PutM(s, m, s.m[m].(ceiling := p));
            && (forall k :: k in r.m ==> PrioOk(r, k, mode))
            && (forall x :: x in r.t && x != s.m[m].owner ==> Bracket(r, x, mode))
  {
    var r := PutM(s, m, s.m[m].(ceiling := p));
    forall k | k in r.m ensures PrioOk(r, k, mode) {
      assert PrioOk(s, k, mode);
      assert Curs(r, r.m[k].waiters) == Curs(s, s.m[k].waiters);
    }
    forall x | x in r.t && x != s.m[m].owner ensures Bracket(r, x, mode) {
      assert Bracket(s, x, mode) && ThreadOk(s, x);
    }
  }

  lemma SetCeilingInv(s: State, m: Mutex, p: int, mode: Mode)
    requires Inv(s, mode) && m in s.m && 0 <= p
    ensures Sound(s) && Inv(SetCeiling(s, m, p).0, mode)
    ensures p < PRIORITY_MAX ==> SameShape(PutM(s, m, s.m[m].(ceiling := p)), SetCeiling(s, m, p).0)
  {
    assert Sound(s) by { forall k | k in s.m ensures SortedWaiters(s, s.m[k].waiters) { assert PrioOk(s, k, mode); } }
    if p < PRIORITY_MAX {
      var s1 := PutM(s, m, s.m[m].(ceiling := p));
      CeilingPriorities(s, m, p, mode);
      SetCeilingSound(s, m, p);
      CeilingShape(s, m, p);
      assert MutexOk(s, m);
      var o := s.m[m].owner;
      if o == null {
        forall k | k in s1.m ensures SameMutex(s1.m[k], s1.m[k]) { assert MutexOk(s1, k); }
      } else {
        RecomputeInv(s1, o, mode);
      }
    }
  }

  lemma ReturnInv(s: State, t: Thread, mode: Mode)
    requires Inv(s, mode) && t in s.t && !s.t[t].suspended && s.t[t].call != null && s.t[t].error == Ok
    ensures Inv(Return(s, t), mode) && s.t[t].call in s.m && s.m[s.t[t].call].owner == t
  {
    assert CallOk(s, t);
    assert Return(s, t) == PutT(s, t, s.t[t].(pending := null, call := null));
    LeaveInv(s, t, mode);
  }

  lemma DozeInv(s: State, t: Thread, asleep: bool, mode: Mode)
    requires Inv(s, mode) && t in s.t && s.t[t].call == null
    ensures Inv(Doze(s, t, asleep), mode)
  {
    var r := Doze(s, t, asleep);
    PrioritiesKept(s, r, mode);
    assert CallOk(s, t);
    forall x | x in r.t ensures ThreadOk(r, x) && CallOk(r, x) { assert ThreadOk(s, x) && CallOk(s, x); }
    forall k | k in r.m ensures MutexOk(r, k) { assert MutexOk(s, k); }
  }
}
