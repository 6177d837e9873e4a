/** rt_mutex_release keeps the invariant: recomputed priority, direct hand-off, or a free mutex. */
module MutexRelease {
  import opened Objects
  import opened WaitList
  import opened MutexSpec
  import opened MutexSettle
  import opened MutexOps
  import opened MutexInv

  ghost predicate LastHold(s: State, t: Thread, m: Mutex) {
    Inv(s, Loose) && Running(s, t) && m in s.m && s.m[m].owner == t && s.m[m].hold == 1
  }

  /** The caller's priority after it has given the mutex up. */
  function PriorityAfter(s: State, t: Thread, m: Mutex): int
    requires t in s.t && m in s.m && KnownMutexes(s, s.t[t].taken)
  {
    if s.m[m].ceiling != NO_PRIORITY || s.t[t].cur == s.m[m].prio
    then FoldTaken(s, Without(s.t[t].taken, m), s.t[t].init)
    else s.t[t].cur
  }

  lemma TakenKnown(s: State, t: Thread)
    requires Inv(s, Loose) && t in s.t
    ensures KnownMutexes(s, s.t[t].taken) && ThreadOk(s, t)
  {
    assert ThreadOk(s, t);
  }

  lemma PriorityAfterBracket(s: State, t: Thread, m: Mutex, mode: Mode)
    requires LastHold(s, t, m) && Inv(s, mode)
    ensures KnownMutexes(s, s.t[t].taken)
    ensures var c, w := PriorityAfter(s, t, m), Without(s.t[t].taken, m);
            && 0 <= c <= s.t[t].init
            && (forall k :: k in w ==> k in s.m && c <= s.m[k].prio)
            && (mode.Exact? ==> s.t[t].init <= c || exists k :: k in w && k in s.m && Min(s.m[k].prio, s.m[k].ceiling) <= c)
  {
    TakenKnown(s, t);
    var w := Without(s.t[t].taken, m);
    WithoutDistinct(s.t[t].taken, m);
    assert Bracket(s, t, mode) && Upper(s, t);
    if s.m[m].ceiling != NO_PRIORITY || s.t[t].cur == s.m[m].prio {
      FoldTakenMeaning(s, w, s.t[t].init);
      forall k | k in w ensures 0 <= Min(s.m[k].prio, s.m[k].ceiling) { assert MutexOk(s, k); }
    }
  }

  /** The state in which the mutex has left its last owner, before it is freed or handed on. */
  function GivenUp(s: State, t: Thread, m: Mutex): State
    requires t in s.t && m in s.m && KnownMutexes(s, s.t[t].taken)
  {
    PutM(PutT(s, t, s.t[t].(taken := Without(s.t[t].taken, m), cur := PriorityAfter(s, t, m))),
         m, s.m[m].(hold := 0))
  }

  lemma RecordIs(ts: map<Thread, Tcb>, t: Thread, r: Tcb, p: int)
    ensures ts[t := r][t := r.(cur := p)] == ts[t := r.(cur := p)]
  {
  }

  lemma RelinquishFields(s: State, t: Thread, m: Mutex)
    requires t in s.t && m in s.m && KnownMutexes(s, s.t[t].taken) && KnownMutexes(s, Without(s.t[t].taken, m))
    ensures Relinquish(PutM(s, m, s.m[m].(hold := 0)), t, m) == GivenUp(s, t, m)
  {
    var s1, w := PutM(s, m, s.m[m].(hold := 0)), Without(s.t[t].taken, m);
    var s2 := PutT(s1, t, s1.t[t].(taken := w));
    SameFold(s, s2, w, s.t[t].init);
    RecordIs(s.t, t, s.t[t].(taken := w), PriorityAfter(s, t, m));
  }

  lemma RelinquishIs(s: State, t: Thread, m: Mutex)
    requires LastHold(s, t, m)
    ensures KnownMutexes(s, s.t[t].taken)
    ensures Relinquish(PutM(s, m, s.m[m].(hold := 0)), t, m) == GivenUp(s, t, m)
  {
    TakenKnown(s, t);
    WithoutDistinct(s.t[t].taken, m);
    RelinquishFields(s, t, m);
  }

  /** With nobody waiting the mutex becomes free. */
  function Freed(s: State, t: Thread, m: Mutex): State
    requires t in s.t && m in s.m && KnownMutexes(s, s.t[t].taken)
  {
    var r := GivenUp(s, t, m);
    PutM(r, m, r.m[m].(owner := null, prio := NO_PRIORITY))
  }

  lemma FreedThreads(s: State, t: Thread, m: Mutex)
    requires LastHold(s, t, m) && s.m[m].waiters == []
    ensures KnownMutexes(s, s.t[t].taken)
    ensures forall x :: x in s.t ==> x in Freed(s, t, m).t && ThreadOk(Freed(s, t, m), x) && CallOk(Freed(s, t, m), x)
  {
    TakenKnown(s, t);
    WithoutDistinct(s.t[t].taken, m);
    PriorityAfterBracket(s, t, m, Loose);
    var r := Freed(s, t, m);
    forall x | x in r.t ensures ThreadOk(r, x) && CallOk(r, x) { assert ThreadOk(s, x) && CallOk(s, x); }
  }

  lemma FreedBracket(s: State, t: Thread, m: Mutex, mode: Mode)
    requires LastHold(s, t, m) && Inv(s, mode)
    ensures KnownMutexes(s, s.t[t].taken) && t in Freed(s, t, m).t && Bracket(Freed(s, t, m), t, mode)
  {
    PriorityAfterBracket(s, t, m, mode);
    TakenKnown(s, t);
    WithoutDistinct(s.t[t].taken, m);
    var r := Freed(s, t, m);
    assert forall k :: k in r.t[t].taken ==> r.m[k] == s.m[k];
  }

  lemma FreedBrackets(s: State, t: Thread, m: Mutex, mode: Mode)
    requires LastHold(s, t, m) && Inv(s, mode) && s.m[m].waiters == []
    ensures KnownMutexes(s, s.t[t].taken)
    ensures forall x :: x in s.t ==> x in Freed(s, t, m).t && Bracket(Freed(s, t, m), x, mode)
  {
    FreedBracket(s, t, m, mode);
    var r := Freed(s, t, m);
    forall x | x in s.t && x != t ensures Bracket(r, x, mode) { assert ThreadOk(s, x) && Bracket(s, x, mode); }
  }

  lemma FreedMutexes(s: State, t: Thread, m: Mutex, mode: Mode)
    requires LastHold(s, t, m) && Inv(s, mode) && s.m[m].waiters == []
    ensures KnownMutexes(s, s.t[t].taken)
    ensures forall k :: k in s.m ==>
              k in Freed(s, t, m).m && MutexOk(Freed(s, t, m), k) && PrioOk(Freed(s, t, m), k, mode)
  {
    TakenKnown(s, t);
    WithoutDistinct(s.t[t].taken, m);
    var r := Freed(s, t, m);
    forall k | k in s.m ensures MutexOk(r, k) && PrioOk(r, k, mode) {
      assert MutexOk(s, k) && PrioOk(s, k, mode);
      assert Curs(r, r.m[k].waiters) == Curs(s, s.m[k].waiters);
    }
  }

  lemma FreedInv(s: State, t: Thread, m: Mutex, mode: Mode)
    requires LastHold(s, t, m) && Inv(s, mode) && s.m[m].waiters == []
    ensures KnownMutexes(s, s.t[t].taken) && Inv(Freed(s, t, m), mode)
  {
    FreedThreads(s, t, m);
    FreedBrackets(s, t, m, mode);
    FreedMutexes(s, t, m, mode);
  }

  /** The first waiter becomes the owner. */
  function Handed(s: State, t: Thread, m: Mutex): State
    requires t in s.t && m in s.m && KnownMutexes(s, s.t[t].taken)
    requires s.m[m].waiters != [] && Known(s, s.m[m].waiters)
  {
    HandOff(GivenUp(s, t, m), m)
  }

  ghost predicate CanHand(s: State, t: Thread, m: Mutex) {
    LastHold(s, t, m) && s.m[m].waiters != []
  }

  lemma WaitersApart(s: State, t: Thread, m: Mutex)
    requires CanHand(s, t, m)
    ensures var w := s.m[m].waiters;
            Known(s, w) && w[0] in w && w[0] != t && w[0] !in w[1..] && t !in w && t !in w[1..]
  {
    assert MutexOk(s, m);
  }

  /** A hand-off by `t`, whose record has become `f`. */
  lemma HandOffIs(s: State, g: State, t: Thread, f: Tcb, m: Mutex)
    requires t in s.t && m in s.m && s.m[m].waiters != [] && Known(s, s.m[m].waiters)
    requires g.t == s.t[t := f] && g.m == s.m[m := s.m[m].(hold := 0)]
    requires var w := s.m[m].waiters; w[0] != t && w[0] !in w[1..] && t !in w[1..]
    ensures Known(g, g.m[m].waiters)
    ensures var n, w, r := s.m[m].waiters[0], s.m[m].waiters[1..], HandOff(g, m);
            && r.t == s.t[t := f][n := s.t[n].(taken := [m] + s.t[n].taken, pending := null, suspended := false)]
            && r.m == s.m[m := s.m[m].(owner := n, hold := 1, waiters := w, prio := HeadPriority(s, w))]
  {
    var n, w := s.m[m].waiters[0], s.m[m].waiters[1..];
    assert Without(s.m[m].waiters, n) == w;
    assert HeadPriority(g, w) == HeadPriority(s, w);
  }

  /** The fields after a hand-off. */
  lemma HandedIs(s: State, t: Thread, m: Mutex)
    requires CanHand(s, t, m)
    ensures KnownMutexes(s, s.t[t].taken) && Known(s, s.m[m].waiters)
    ensures var n, w, r := s.m[m].waiters[0], s.m[m].waiters[1..], Handed(s, t, m);
            && n != t
            && r.t == s.t[t := s.t[t].(taken := Without(s.t[t].taken, m), cur := PriorityAfter(s, t, m))]
                         [n := s.t[n].(taken := [m] + s.t[n].taken, pending := null, suspended := false)]
            && r.m == s.m[m := s.m[m].(owner := n, hold := 1, waiters := w, prio := HeadPriority(s, w))]
  {
    TakenKnown(s, t);
    WaitersApart(s, t, m);
    HandOffIs(s, GivenUp(s, t, m), t, s.t[t].(taken := Without(s.t[t].taken, m), cur := PriorityAfter(s, t, m)), m);
  }

  lemma HandedThreads(s: State, t: Thread, m: Mutex)
    requires CanHand(s, t, m)
    ensures KnownMutexes(s, s.t[t].taken) && Known(s, s.m[m].waiters)
    ensures forall x :: x in s.t ==> x in Handed(s, t, m).t && ThreadOk(Handed(s, t, m), x)
  {
    HandedIs(s, t, m);
    PriorityAfterBracket(s, t, m, Loose);
    WithoutDistinct(s.t[t].taken, m);
    var r, n, w := Handed(s, t, m), s.m[m].waiters[0], s.m[m].waiters;
    forall x | x in s.t ensures ThreadOk(r, x) {
      assert ThreadOk(s, x) && MutexOk(s, m);
      if x != n && x in w { assert x in w[1..]; }
    }
  }

  /** A mutex that two threads neither wait for nor lose notices no change of theirs. */
  lemma OtherMutexKept(s: State, r: State, t: Thread, f: Tcb, n: Thread, g: Tcb, m: Mutex, h: Mcb, k: Mutex)
    requires t in s.t && n in s.t && t != n && r.t == s.t[t := f][n := g] && r.m == s.m[m := h]
    requires k in s.m && k != m && MutexOk(s, k) && !s.t[t].suspended && s.t[n].pending == m
    requires k in s.t[t].taken ==> k in f.taken
    requires k in s.t[n].taken ==> k in g.taken
    ensures MutexOk(r, k)
  {
  }

  lemma HandedMutex(s: State, t: Thread, m: Mutex)
    requires CanHand(s, t, m)
    ensures KnownMutexes(s, s.t[t].taken) && Known(s, s.m[m].waiters)
    ensures m in Handed(s, t, m).m && MutexOk(Handed(s, t, m), m)
  {
    HandedIs(s, t, m);
    WaitersApart(s, t, m);
    assert MutexOk(s, m);
    var r, n, w := Handed(s, t, m), s.m[m].waiters[0], s.m[m].waiters;
    HeadRange(s, w[1..]);
    assert r.t[n].taken[0] == m;
    assert forall x :: x in w[1..] ==> x in w && r.t[x] == s.t[x];
  }

  lemma TakenKept(s: State, t: Thread, m: Mutex, k: Mutex, x: Thread)
    requires CanHand(s, t, m) && k != m && x in s.t && k in s.t[x].taken
    ensures KnownMutexes(s, s.t[t].taken) && Known(s, s.m[m].waiters)
    ensures x in Handed(s, t, m).t && k in Handed(s, t, m).t[x].taken
  {
    HandedIs(s, t, m);
    TakenKnown(s, t);
    WithoutDistinct(s.t[t].taken, m);
    var n := s.m[m].waiters[0];
    if x == n { assert k in [m] + s.t[n].taken; }
  }

  lemma HandedOther(s: State, t: Thread, m: Mutex, k: Mutex)
    requires CanHand(s, t, m) && k in s.m && k != m
    ensures KnownMutexes(s, s.t[t].taken) && Known(s, s.m[m].waiters)
    ensures k in Handed(s, t, m).m && MutexOk(Handed(s, t, m), k)
  {
    HandedIs(s, t, m);
    WaitersApart(s, t, m);
    assert MutexOk(s, k) && MutexOk(s, m);
    var r, n := Handed(s, t, m), s.m[m].waiters[0];
    if k in s.t[t].taken { TakenKept(s, t, m, k, t); }
    if k in s.t[n].taken { TakenKept(s, t, m, k, n); }
    OtherMutexKept(s, r, t, r.t[t], n, r.t[n], m, r.m[m], k);
  }

  lemma HandedMutexes(s: State, t: Thread, m: Mutex)
    requires CanHand(s, t, m)
    ensures KnownMutexes(s, s.t[t].taken) && Known(s, s.m[m].waiters)
    ensures forall k :: k in s.m ==> k in Handed(s, t, m).m && MutexOk(Handed(s, t, m), k)
  {
    HandedMutex(s, t, m);
    forall k | k in s.m && k != m ensures k in Handed(s, t, m).m && MutexOk(Handed(s, t, m), k) {
      HandedOther(s, t, m, k);
    }
  }

  lemma HandedCalls(s: State, t: Thread, m: Mutex)
    requires CanHand(s, t, m)
    ensures KnownMutexes(s, s.t[t].taken) && Known(s, s.m[m].waiters)
    ensures forall x :: x in s.t ==> x in Handed(s, t, m).t && CallOk(Handed(s, t, m), x)
  {
    HandedIs(s, t, m);
    var r, n := Handed(s, t, m), s.m[m].waiters[0];
    assert MutexOk(s, m) && n in s.m[m].waiters;
    forall x | x in s.t ensures CallOk(r, x) { assert CallOk(s, x); }
  }

  lemma SortedTail(s: State, r: State, w: seq<Thread>)
    requires SortedWaiters(s, w) && w != []
    requires forall x :: x in w[1..] ==> x in w && x in r.t && r.t[x].cur == s.t[x].cur
    ensures SortedWaiters(r, w[1..]) && HeadPriority(r, w[1..]) == HeadPriority(s, w[1..])
  {
    assert Curs(r, w[1..]) == Curs(s, w)[1..];
  }

  lemma HandedPriorities(s: State, t: Thread, m: Mutex, mode: Mode)
    requires CanHand(s, t, m) && Inv(s, mode)
    ensures KnownMutexes(s, s.t[t].taken) && Known(s, s.m[m].waiters)
    ensures forall k :: k in s.m && k != m ==> k in Handed(s, t, m).m && PrioOk(Handed(s, t, m), k, mode)
  {
    HandedIs(s, t, m);
    var r := Handed(s, t, m);
    forall k | k in s.m && k != m ensures PrioOk(r, k, mode) {
      assert PrioOk(s, k, mode) && MutexOk(s, k);
      assert t !in s.m[k].waiters;
      assert Curs(r, r.m[k].waiters) == Curs(s, s.m[k].waiters);
    }
  }

  lemma HandedPrioOk(s: State, t: Thread, m: Mutex, mode: Mode)
    requires CanHand(s, t, m) && Inv(s, mode)
    ensures KnownMutexes(s, s.t[t].taken) && Known(s, s.m[m].waiters)
    ensures forall k :: k in s.m ==> k in Handed(s, t, m).m && PrioOk(Handed(s, t, m), k, mode)
  {
    HandedIs(s, t, m);
    HandedPriorities(s, t, m, mode);
    var r, w := Handed(s, t, m), s.m[m].waiters;
    assert PrioOk(s, m, mode) && MutexOk(s, m);
    assert forall x :: x in w[1..] ==> x in w;
    SortedTail(s, r, w);
  }

  lemma HandedGiver(s: State, t: Thread, m: Mutex, mode: Mode)
    requires CanHand(s, t, m) && Inv(s, mode)
    ensures KnownMutexes(s, s.t[t].taken) && Known(s, s.m[m].waiters)
    ensures t in Handed(s, t, m).t && Bracket(Handed(s, t, m), t, mode)
  {
    HandedIs(s, t, m);
    PriorityAfterBracket(s, t, m, mode);
    TakenKnown(s, t);
    WithoutDistinct(s.t[t].taken, m);
    var r := Handed(s, t, m);
    assert forall k :: k in r.t[t].taken ==> r.m[k] == s.m[k];
  }

  lemma TakerLower(s: State, r: State, m: Mutex, n: Thread)
    requires n in s.t && n in r.t && m !in s.t[n].taken && Lower(s, n)
    requires r.t[n].cur == s.t[n].cur && r.t[n].init == s.t[n].init && r.t[n].taken == [m] + s.t[n].taken
    requires forall k :: k in s.m && k != m ==> k in r.m && r.m[k] == s.m[k]
    ensures Lower(r, n)
  {
    if s.t[n].init > s.t[n].cur {
      var k :| k in s.t[n].taken && k in s.m && Min(s.m[k].prio, s.m[k].ceiling) <= s.t[n].cur;
      assert k in r.t[n].taken && Min(r.m[k].prio, r.m[k].ceiling) <= r.t[n].cur;
    }
  }

  /** The new owner is no less urgent than the waiters left behind it. */
  lemma HandedTaker(s: State, t: Thread, m: Mutex, mode: Mode)
    requires CanHand(s, t, m) && Inv(s, mode)
    ensures KnownMutexes(s, s.t[t].taken) && Known(s, s.m[m].waiters)
    ensures s.m[m].waiters[0] in Handed(s, t, m).t && Bracket(Handed(s, t, m), s.m[m].waiters[0], mode)
  {
    HandedIs(s, t, m);
    var r, n, w := Handed(s, t, m), s.m[m].waiters[0], s.m[m].waiters;
    TakenKnown(s, n);
    assert Bracket(s, n, mode) && PrioOk(s, m, mode) && MutexOk(s, m);
    assert n in w && m !in s.t[n].taken;
    if |w| > 1 { assert Curs(s, w)[0] <= Curs(s, w)[1]; }
    assert forall k :: k in r.t[n].taken ==> k == m || (k in s.t[n].taken && r.m[k] == s.m[k]);
    if mode.Exact? { TakerLower(s, r, m, n); }
  }

  lemma HandedBrackets(s: State, t: Thread, m: Mutex, mode: Mode)
    requires CanHand(s, t, m) && Inv(s, mode)
    ensures KnownMutexes(s, s.t[t].taken) && Known(s, s.m[m].waiters)
    ensures forall x :: x in s.t ==> x in Handed(s, t, m).t && Bracket(Handed(s, t, m), x, mode)
  {
    HandedIs(s, t, m);
    var r, n := Handed(s, t, m), s.m[m].waiters[0];
    forall x | x in s.t ensures Bracket(r, x, mode) {
      assert ThreadOk(s, x) && Bracket(s, x, mode);
      if x == t { HandedGiver(s, t, m, mode); }
      else if x == n { HandedTaker(s, t, m, mode); }
    }
  }

  lemma HandedInv(s: State, t: Thread, m: Mutex, mode: Mode)
    requires CanHand(s, t, m) && Inv(s, mode)
    ensures KnownMutexes(s, s.t[t].taken) && Known(s, s.m[m].waiters) && Inv(Handed(s, t, m), mode)
  {
    HandedIs(s, t, m);
    HandedThreads(s, t, m);
    HandedMutexes(s, t, m);
    HandedCalls(s, t, m);
    HandedPrioOk(s, t, m, mode);
    HandedBrackets(s, t, m, mode);
  }

  lemma WaitersKnown(s: State, m: Mutex)
    requires Inv(s, Loose) && m in s.m
    ensures Known(s, s.m[m].waiters) && (s.m[m].owner != null ==> 1 <= s.m[m].hold)
  {
    assert MutexOk(s, m);
  }

  lemma ReleaseLast(s: State, t: Thread, m: Mutex)
    requires LastHold(s, t, m)
    ensures KnownMutexes(s, s.t[t].taken) && Known(s, s.m[m].waiters)
    ensures Release(s, t, m) == (if s.m[m].waiters != [] then Handed(s, t, m) else Freed(s, t, m), Eok)
  {
    WaitersKnown(s, m);
    RelinquishIs(s, t, m);
    assert GivenUp(s, t, m).m[m].waiters == s.m[m].waiters;
  }

  /** What release does, by case. */
  lemma ReleaseIs(s: State, t: Thread, m: Mutex)
    requires Inv(s, Loose) && Running(s, t) && m in s.m
    ensures KnownMutexes(s, s.t[t].taken) && Known(s, s.m[m].waiters)
    ensures s.m[m].owner == t ==> 1 <= s.m[m].hold
    ensures Release(s, t, m) ==
            if s.m[m].owner != t then (PutT(s, t, s.t[t].(error := Failed)), Eerror)
            else if s.m[m].hold > 1 then (PutM(s, m, s.m[m].(hold := s.m[m].hold - 1)), Eok)
            else if s.m[m].waiters != [] then (Handed(s, t, m), Eok)
            else (Freed(s, t, m), Eok)
  {
    TakenKnown(s, t);
    WaitersKnown(s, m);
    if s.m[m].owner == t && s.m[m].hold == 1 { ReleaseLast(s, t, m); }
  }

  lemma ReleaseInv(s: State, t: Thread, m: Mutex, mode: Mode)
    requires Inv(s, mode) && Inv(s, Loose) && Running(s, t) && m in s.m
    ensures KnownMutexes(s, s.t[t].taken) && Known(s, s.m[m].waiters)
    ensures Inv(Release(s, t, m).0, mode)
  {
    ReleaseIs(s, t, m);
    if s.m[m].owner != t { ErrorKeepsInv(s, t, Failed, mode); }
    else if s.m[m].hold > 1 {
      assert MutexOk(s, m);
      HoldInv(s, m, s.m[m].hold - 1, mode);
    }
    else if s.m[m].waiters != [] { HandedInv(s, t, m, mode); }
    else { FreedInv(s, t, m, mode); }
  }
}
