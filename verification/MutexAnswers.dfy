/** What each mutex call answers and to whom it happens, on the fields of the records. */
module MutexAnswers {
  import opened Objects
  import opened WaitList
  import opened MutexSpec
  import opened MutexSettle
  import opened MutexOps
  import opened MutexInv
  import opened MutexRelease
  import opened MutexTimeout

  /** All threads but `ts` and all mutexes but `ms` have the records they had. */
  ghost predicate Others(s: State, r: State, ts: set<Thread>, ms: set<Mutex>) {
    && s.t.Keys == r.t.Keys && s.m.Keys == r.m.Keys
    && (forall x :: x in s.t && x !in ts ==> r.t[x] == s.t[x])
    && (forall k :: k in s.m && k !in ms ==> r.m[k] == s.m[k])
  }

  ghost predicate CanTake(s: State, t: Thread, m: Mutex) {
    Inv(s, Loose) && Running(s, t) && m in s.m
  }

  // ---- rt_mutex_take ---------------------------------------------------------------------

  /** A free mutex is taken at once: one hold for the caller, whose priority the ceiling may raise. */
  lemma TakeFreeAnswers(s: State, t: Thread, m: Mutex, wait: bool)
    requires CanTake(s, t, m) && s.m[m].owner == null
    ensures var (r, a) := Take(s, t, m, wait);
            && a == Eok && Others(s, r, {t}, {m})
            && r.m[m] == s.m[m].(owner := t, hold := 1, prio := 255)
            && r.t[t] == s.t[t].(error := Ok, taken := [m] + s.t[t].taken, cur := Min(s.m[m].ceiling, s.t[t].cur))
  {
    ErrorKeepsInv(s, t, Ok, Loose);
    TakeFreeShape(PutT(s, t, s.t[t].(error := Ok)), t, m);
  }

  /** A nested take by the owner only counts; the 256th is refused, and nothing is counted. */
  lemma TakeOwnAnswers(s: State, t: Thread, m: Mutex, wait: bool)
    requires CanTake(s, t, m) && s.m[m].owner == t
    ensures var (r, a) := Take(s, t, m, wait);
            && 1 <= s.m[m].hold <= 255 && a == (if s.m[m].hold < 255 then Eok else Efull)
            && Others(s, r, {t}, {m}) && r.t[t] == s.t[t].(error := Ok)
            && r.m[m] == s.m[m].(hold := if a == Eok then s.m[m].hold + 1 else s.m[m].hold)
  {
    ErrorKeepsInv(s, t, Ok, Loose);
    OwnTake(PutT(s, t, s.t[t].(error := Ok)), t, m, wait);
  }

  /** A take that may not wait fails at once on a mutex somebody else owns: the caller keeps running with
      the error -RT_ETIMEOUT, and no mutex and no other thread has changed. */
  lemma TryAnswers(s: State, t: Thread, m: Mutex)
    requires CanTake(s, t, m) && s.m[m].owner != null && s.m[m].owner != t
    ensures var (r, a) := Take(s, t, m, false);
            && a == Etimeout && Others(s, r, {t}, {})
            && r.t[t] == s.t[t].(error := TimedOut) && !r.t[t].suspended
  {
    ErrorKeepsInv(s, t, Ok, Loose);
  }

  /** Two records are written, then priorities and list orders change. */
  lemma ShapeOn(s: State, j: State, r: State, t: Thread, f: Tcb, m: Mutex, h: Mcb)
    requires t in s.t && m in s.m && j.t == s.t[t := f] && j.m == s.m[m := h] && SameShape(j, r)
    ensures s.t.Keys == r.t.Keys && s.m.Keys == r.m.Keys && SameThread(f, r.t[t]) && SameMutex(h, r.m[m])
    ensures forall x :: x in s.t && x != t ==> SameThread(s.t[x], r.t[x])
    ensures forall k :: k in s.m && k != m ==> SameMutex(s.m[k], r.m[k])
  {
    assert t in j.t && m in j.m;
    forall x | x in s.t && x != t ensures SameThread(s.t[x], r.t[x]) { assert x in j.t; }
    forall k | k in s.m && k != m ensures SameMutex(s.m[k], r.m[k]) { assert k in j.m; }
  }

  lemma JoinedIs(s: State, t: Thread, m: Mutex, q: int)
    requires t in s.t && m in s.m && Known(s, s.m[m].waiters)
    ensures var j := Joined(PutT(s, t, s.t[t].(error := Ok)), t, m, q);
            && j.t == s.t[t := s.t[t].(error := Ok, suspended := true, pending := m, call := m)]
            && j.m == s.m[m := s.m[m].(waiters := j.m[m].waiters, prio := q)]
  {
  }

  /** One that may wait suspends the caller on the mutex, which keeps its owner and its holds. No thread but
      the caller has more than its priority changed, and no other mutex more than priority and list order. */
  lemma BlockAnswers(s: State, t: Thread, m: Mutex)
    requires CanTake(s, t, m) && s.m[m].owner != null && s.m[m].owner != t
    ensures var (r, a) := Take(s, t, m, true);
            && a == Blocked && s.t.Keys == r.t.Keys && s.m.Keys == r.m.Keys
            && r.t[t] == s.t[t].(error := Ok, suspended := true, pending := m, call := m, cur := r.t[t].cur)
            && (forall x :: x in s.t && x != t ==> SameThread(s.t[x], r.t[x]))
            && r.m[m] == s.m[m].(waiters := r.m[m].waiters, prio := r.m[m].prio)
            && (forall x :: x in r.m[m].waiters <==> x in s.m[m].waiters || x == t)
            && (forall k :: k in s.m && k != m ==> SameMutex(s.m[k], r.m[k]))
  {
    ErrorKeepsInv(s, t, Ok, Loose);
    var s0 := PutT(s, t, s.t[t].(error := Ok));
    BlockInv(s0, t, m, Loose);
    JoinList(s0, t, m);
    var q := Min(s0.t[t].cur, s0.m[m].prio);
    JoinedIs(s, t, m, q);
    var j, r := Joined(s0, t, m, q), Block(s0, t, m);
    ShapeOn(s, j, r, t, j.t[t], m, j.m[m]);
  }

  /** The answer of every take. */
  lemma TakeAnswers(s: State, t: Thread, m: Mutex, wait: bool)
    requires CanTake(s, t, m)
    ensures Take(s, t, m, wait).1 ==
            if s.m[m].owner == null then Eok
            else if s.m[m].owner == t then if s.m[m].hold < 255 then Eok else Efull
            else if wait then Blocked else Etimeout
  {
    if s.m[m].owner == null { TakeFreeAnswers(s, t, m, wait); }
    else if s.m[m].owner == t { TakeOwnAnswers(s, t, m, wait); }
    else if wait { BlockAnswers(s, t, m); }
    else { TryAnswers(s, t, m); }
  }

  /** The caller joins behind every waiter at least as urgent, in front of every less urgent one, and the
      others keep their order. */
  lemma JoinPlace(s: State, t: Thread, m: Mutex) returns (i: nat)
    requires t in s.t && m in s.m && SortedWaiters(s, s.m[m].waiters)
    ensures var w := s.m[m].waiters;
            && i <= |w| && Join(s, t, m).m[m].waiters == w[..i] + [t] + w[i..]
            && forall k :: 0 <= k < |w| ==> (k < i <==> s.t[w[k]].cur <= s.t[t].cur)
  {
    var ps := Curs(s, s.m[m].waiters);
    i := Position(ps, s.t[t].cur);
    InsertSorted(ps, s.t[t].cur);
  }

  /** The same for a waiter that is put back after its priority changed. */
  lemma RequeuePlace(s: State, t: Thread) returns (i: nat)
    requires t in s.t && Waiting(s, t) && s.t[t].pending in s.m && Known(s, s.m[s.t[t].pending].waiters)
    requires SortedWaiters(s, Without(s.m[s.t[t].pending].waiters, t))
    ensures var w := Without(s.m[s.t[t].pending].waiters, t);
            && i <= |w| && Requeue(s, t).m[s.t[t].pending].waiters == w[..i] + [t] + w[i..]
            && forall k :: 0 <= k < |w| ==> (k < i <==> s.t[w[k]].cur <= s.t[t].cur)
  {
    var ps := Curs(s, Without(s.m[s.t[t].pending].waiters, t));
    i := Position(ps, s.t[t].cur);
    InsertSorted(ps, s.t[t].cur);
  }

  // ---- rt_mutex_release ------------------------------------------------------------------

  /** Only the owner can release; anybody else is told -RT_ERROR, and nothing else changes. A nested
      release only counts. */
  lemma ReleaseAnswers(s: State, t: Thread, m: Mutex)
    requires CanTake(s, t, m)
    ensures KnownMutexes(s, s.t[t].taken) && Known(s, s.m[m].waiters)
    ensures var (r, a) := Release(s, t, m);
            && (a == Eok <==> s.m[m].owner == t) && (a != Eok ==> a == Eerror)
            && (a == Eerror ==> Others(s, r, {t}, {}) && r.t[t] == s.t[t].(error := Failed))
            && (a == Eok && s.m[m].hold > 1 ==>
                  Others(s, r, {}, {m}) && r.m[m] == s.m[m].(hold := s.m[m].hold - 1))
  {
    ReleaseIs(s, t, m);
  }

  /** The last release without waiters frees the mutex, which leaves the caller's list. */
  lemma FreeAnswers(s: State, t: Thread, m: Mutex)
    requires LastHold(s, t, m) && s.m[m].waiters == []
    ensures KnownMutexes(s, s.t[t].taken)
    ensures var r := Release(s, t, m).0;
            && Others(s, r, {t}, {m})
            && r.m[m] == s.m[m].(owner := null, hold := 0, prio := 255)
            && r.t[t] == s.t[t].(taken := Without(s.t[t].taken, m), cur := PriorityAfter(s, t, m))
  {
    ReleaseLast(s, t, m);
  }

  lemma FirstWaits(s: State, m: Mutex)
    requires Inv(s, Loose) && m in s.m && s.m[m].waiters != []
    ensures var n := s.m[m].waiters[0]; n in s.t && s.t[n].suspended && s.t[n].call == m && s.t[n].error == Ok
  {
    assert s.m[m].waiters[0] in s.m[m].waiters;
    assert MutexOk(s, m) && CallOk(s, s.m[m].waiters[0]);
  }

  lemma TwoRecords(s: State, r: State, t: Thread, f: Tcb, n: Thread, g: Tcb, m: Mutex, h: Mcb)
    requires t in s.t && n in s.t && t != n && m in s.m
    requires r.t == s.t[t := f][n := g] && r.m == s.m[m := h]
    ensures Others(s, r, {t, n}, {m}) && r.t[t] == f && r.t[n] == g && r.m[m] == h
  {
  }

  /** The last release with waiters wakes the first of them, and only it, with RT_EOK, one hold and the
      mutex in its list; the other waiters keep their order. */
  lemma HandOverAnswers(s: State, t: Thread, m: Mutex)
    requires CanHand(s, t, m)
    ensures KnownMutexes(s, s.t[t].taken) && Known(s, s.m[m].waiters)
    ensures var r, n := Release(s, t, m).0, s.m[m].waiters[0];
            && n != t && n in s.t && Others(s, r, {t, n}, {m})
            && s.t[n].suspended && s.t[n].call == m
            && r.t[n] == s.t[n].(suspended := false, pending := null, taken := [m] + s.t[n].taken)
            && r.t[n].error == Ok
            && r.t[t] == s.t[t].(taken := Without(s.t[t].taken, m), cur := PriorityAfter(s, t, m))
            && r.m[m].owner == n && r.m[m].hold == 1 && r.m[m].waiters == s.m[m].waiters[1..]
            && r.m[m].ceiling == s.m[m].ceiling
  {
    ReleaseLast(s, t, m);
    HandedIs(s, t, m);
    WaitersApart(s, t, m);
    FirstWaits(s, m);
    var r, n := Handed(s, t, m), s.m[m].waiters[0];
    assert Release(s, t, m).0 == r;
    TwoRecords(s, r, t, r.t[t], n, r.t[n], m, r.m[m]);
  }

  // ---- time-outs and rt_mutex_setprioceiling ---------------------------------------------

  /** The timer takes exactly its thread off the list, and marks it -RT_ETIMEOUT. */
  lemma ExpireAnswers(s: State, t: Thread)
    requires Inv(s, Loose) && t in s.t && Waiting(s, t)
    ensures var m := s.t[t].pending;
            && m in s.m && Others(s, Expire(s, t), {t}, {m})
            && Expire(s, t).t[t] == s.t[t].(error := TimedOut, suspended := false)
            && Expire(s, t).m[m] == s.m[m].(waiters := Expire(s, t).m[m].waiters)
            && exists i :: && 0 <= i < |s.m[m].waiters| && s.m[m].waiters[i] == t
                           && Expire(s, t).m[m].waiters == s.m[m].waiters[..i] + s.m[m].waiters[i + 1..]
  {
    ExpireStruct(s, t);
    assert ThreadOk(s, t);
    WithoutInOrder(s.m[s.t[t].pending].waiters, t);
  }

  /** `rt_thread_detach` does the same with the mark of the model for a thread that will not run again,
      and a thread that has left the list already it only marks. */
  lemma RemoveAnswers(s: State, t: Thread)
    requires Inv(s, Loose) && t in s.t && s.t[t].pending != null
    ensures var m := s.t[t].pending;
            && m in s.m && Others(s, Remove(s, t), {t}, {m})
            && Remove(s, t).t[t] == s.t[t].(error := Closing, suspended := false)
            && Remove(s, t).m[m] == s.m[m].(waiters := Without(s.m[m].waiters, t))
            && (!Waiting(s, t) ==> Remove(s, t).m == s.m)
  {
    WaitingOrLeaver(s, t);
    if !Waiting(s, t) { RemoveLeaver(s, t); }
  }

  lemma LeftOn(s: State, a: State, t: Thread)
    requires t in s.t && SameShape(s, a)
    ensures t in a.t
    ensures var r := PutT(a, t, a.t[t].(pending := null, call := null));
            && r.t.Keys == s.t.Keys && r.m == a.m
            && r.t[t] == s.t[t].(pending := null, call := null, cur := r.t[t].cur)
            && (forall x :: x in s.t && x != t ==> SameThread(s.t[x], r.t[x]))
  {
    assert SameThread(s.t[t], a.t[t]);
  }

  /** A take whose wait was cut short finds -RT_ETIMEOUT, whatever happened since, and that is what it
      returns: the clean-up ends the call and leaves the error alone. */
  lemma CleanupAnswers(s: State, t: Thread)
    requires Inv(s, Loose) && Leaver(s, t) && s.t[t].error != Closing
    ensures s.t[t].call in s.m && Sound(s) && s.t[t].error == TimedOut
    ensures var r := Cleanup(s, t);
            && r.t.Keys == s.t.Keys && r.m.Keys == s.m.Keys
            && r.t[t] == s.t[t].(pending := null, call := null, cur := r.t[t].cur)
            && (forall x :: x in s.t && x != t ==> SameThread(s.t[x], r.t[x]))
            && (forall k :: k in s.m ==> SameMutex(s.m[k], r.m[k]))
  {
    assert CallOk(s, t);
    CleanupLateInv(s, t, Loose);
    var m := s.t[t].call;
    AbandonRepairs(s, m, t, Loose);
    LeftOn(s, Abandon(s, m, t), t);
  }

  /** A valid priority becomes the ceiling, and the answer is the ceiling before; an invalid one is answered
      0xff and changes nothing. Nobody's ownership, holds or waiting change in either case. */
  lemma CeilingAnswers(s: State, m: Mutex, p: int)
    requires Inv(s, Loose) && m in s.m && 0 <= p
    ensures Sound(s)
    ensures var (r, a) := SetCeiling(s, m, p);
            if p < 32 then
              && a == s.m[m].ceiling && SameShape(s.(m := s.m[m := s.m[m].(ceiling := p)]), r) && r.m[m].ceiling == p
            else a == 255 && r == s
  {
    SetCeilingInv(s, m, p, Loose);
    if p < 32 { assert SameMutex(PutM(s, m, s.m[m].(ceiling := p)).m[m], SetCeiling(s, m, p).0.m[m]); }
  }
}
