/** Every region of the mutex functions keeps the invariant. */
module MutexInv {
  import opened Objects
  import opened MutexSpec
  import opened MutexSettle
  import opened MutexOps

  // ---- take ------------------------------------------------------------------------------

  lemma HoldInv(s: State, m: Mutex, h: int, mode: Mode)
    requires Inv(s, mode) && m in s.m && s.m[m].owner != null && 1 <= h <= HOLD_MAX
    ensures Inv(PutM(s, m, s.m[m].(hold := h)), mode)
  {
    var r := PutM(s, m, s.m[m].(hold := h));
    PrioritiesKept(s, r, mode);
    forall x | x in r.t ensures ThreadOk(r, x) && CallOk(r, x) { assert ThreadOk(s, x) && CallOk(s, x); }
    forall k | k in r.m ensures MutexOk(r, k) { assert MutexOk(s, k); }
  }

  lemma TakeFreeShape(s: State, t: Thread, m: Mutex)
    requires Inv(s, Loose) && Running(s, t) && m in s.m && s.m[m].owner == null
    ensures !Waiting(s, t) && 0 <= s.m[m].ceiling && MutexOk(s, m) && ThreadOk(s, t)
    ensures var c := Min(s.m[m].ceiling, s.t[t].cur);
            && 0 <= c <= NO_PRIORITY
            && TakeFree(s, t, m)
               == PutT(PutM(s, m, s.m[m].(owner := t, prio := NO_PRIORITY, hold := 1)), t,
                       s.t[t].(cur := c, taken := [m] + s.t[t].taken))
  {
    assert MutexOk(s, m) && ThreadOk(s, t) && Bracket(s, t, Loose);
  }

  lemma TakeFreeMutexes(s: State, t: Thread, m: Mutex)
    requires Inv(s, Loose) && Running(s, t) && m in s.m && s.m[m].owner == null
    ensures !Waiting(s, t) && 0 <= s.m[m].ceiling
    ensures forall k :: k in s.m ==> k in TakeFree(s, t, m).m && MutexOk(TakeFree(s, t, m), k)
  {
    TakeFreeShape(s, t, m);
    var r := TakeFree(s, t, m);
    assert r.t[t].taken[0] == m;
    forall k | k in s.m ensures MutexOk(r, k) {
      assert MutexOk(s, k);
      assert t !in s.m[k].waiters;
    }
  }

  lemma TakeFreeStruct(s: State, t: Thread, m: Mutex)
    requires Inv(s, Loose) && Running(s, t) && m in s.m && s.m[m].owner == null
    ensures !Waiting(s, t) && 0 <= s.m[m].ceiling && Struct(TakeFree(s, t, m))
    ensures forall x :: x in s.t ==> CallOk(TakeFree(s, t, m), x)
  {
    TakeFreeShape(s, t, m);
    var r := TakeFree(s, t, m);
    assert m !in s.t[t].taken;
    forall x | x in r.t ensures ThreadOk(r, x) && CallOk(r, x) {
      assert ThreadOk(s, x) && CallOk(s, x);
    }
    TakeFreeMutexes(s, t, m);
  }

  lemma TakeFreeBracket(s: State, t: Thread, m: Mutex, mode: Mode)
    requires Inv(s, mode) && Inv(s, Loose) && Running(s, t) && m in s.m && s.m[m].owner == null
    ensures !Waiting(s, t) && 0 <= s.m[m].ceiling
    ensures t in TakeFree(s, t, m).t && Bracket(TakeFree(s, t, m), t, mode)
  {
    TakeFreeShape(s, t, m);
    var r := TakeFree(s, t, m);
    assert Bracket(s, t, mode) && ThreadOk(s, t);
    assert r.t[t].taken[0] == m;
    assert forall k :: k in s.t[t].taken ==> k in r.t[t].taken && r.m[k] == s.m[k];
    if s.m[m].ceiling <= s.t[t].cur {
      assert Min(r.m[m].prio, r.m[m].ceiling) <= r.t[t].cur;
    }
  }

  lemma TakeFreePriorities(s: State, t: Thread, m: Mutex, mode: Mode)
    requires Inv(s, mode) && Inv(s, Loose) && Running(s, t) && m in s.m && s.m[m].owner == null
    ensures !Waiting(s, t) && 0 <= s.m[m].ceiling
    ensures forall x :: x in s.t ==> Bracket(TakeFree(s, t, m), x, mode)
    ensures forall k :: k in s.m ==> PrioOk(TakeFree(s, t, m), k, mode)
  {
    TakeFreeShape(s, t, m);
    var r := TakeFree(s, t, m);
    forall x | x in r.t ensures Bracket(r, x, mode) {
      assert Bracket(s, x, mode) && ThreadOk(s, x);
      if x == t { TakeFreeBracket(s, t, m, mode); }
    }
    forall k | k in r.m ensures PrioOk(r, k, mode) {
      assert PrioOk(s, k, mode) && MutexOk(s, k);
      assert t !in s.m[k].waiters;
      assert Curs(r, r.m[k].waiters) == Curs(s, s.m[k].waiters);
    }
  }

  lemma TakeFreeInv(s: State, t: Thread, m: Mutex, mode: Mode)
    requires Inv(s, mode) && Inv(s, Loose) && Running(s, t) && m in s.m && s.m[m].owner == null
    ensures !Waiting(s, t) && 0 <= s.m[m].ceiling && Inv(TakeFree(s, t, m), mode)
  {
    TakeFreeShape(s, t, m);
    TakeFreeStruct(s, t, m);
    TakeFreePriorities(s, t, m, mode);
  }

  lemma JoinPriorities(s: State, t: Thread, m: Mutex, q: int, mode: Mode)
    requires CanBlock(s, t, m) && Inv(s, mode)
    ensures MutexOk(s, m)
    ensures forall k :: k in s.m && k != m ==> PrioOk(Joined(s, t, m, q), k, mode)
  {
    assert MutexOk(s, m);
    var r := Joined(s, t, m, q);
    forall k | k in s.m && k != m ensures PrioOk(r, k, mode) {
      assert PrioOk(s, k, mode);
      assert Curs(r, r.m[k].waiters) == Curs(s, s.m[k].waiters);
    }
  }

  lemma JoinBrackets(s: State, t: Thread, m: Mutex, q: int, mode: Mode)
    requires CanBlock(s, t, m) && Inv(s, mode)
    ensures MutexOk(s, m)
    ensures forall x :: x in s.t && x != s.m[m].owner ==> Bracket(Joined(s, t, m, q), x, mode)
  {
    assert MutexOk(s, m);
    var r := Joined(s, t, m, q);
    forall x | x in s.t && x != s.m[m].owner ensures Bracket(r, x, mode) {
      assert Bracket(s, x, mode) && ThreadOk(s, x);
    }
  }

  /** The list the caller joins: the mutex priority is again that of the head, or older. */
  lemma JoinPrioOk(s: State, t: Thread, m: Mutex, mode: Mode)
    requires CanBlock(s, t, m) && Inv(s, mode)
    ensures MutexOk(s, m)
    ensures var r := Joined(s, t, m, Min(s.t[t].cur, s.m[m].prio));
            && (forall k :: k in r.m ==> PrioOk(r, k, mode))
            && (forall x :: x in r.t && x != s.m[m].owner ==> Bracket(r, x, mode))
  {
    JoinList(s, t, m);
    var q := Min(s.t[t].cur, s.m[m].prio);
    var r := Joined(s, t, m, q);
    JoinSorted(s, t, m, q);
    JoinPriorities(s, t, m, q, mode);
    JoinBrackets(s, t, m, q, mode);
    assert PrioOk(s, m, mode);
  }

  lemma JoinCalls(s: State, t: Thread, m: Mutex, q: int)
    requires CanBlock(s, t, m) && s.t[t].error == Ok
    ensures MutexOk(s, m) && forall x :: x in s.t ==> CallOk(Joined(s, t, m, q), x)
  {
    assert MutexOk(s, m);
    var r := Joined(s, t, m, q);
    forall x | x in s.t ensures CallOk(r, x) { assert CallOk(s, x); }
  }

  /** The owner after the mutex priority became `q`: left alone, or raised to it. */
  lemma JoinOwner(s: State, t: Thread, m: Mutex, mode: Mode)
    requires CanBlock(s, t, m) && Inv(s, mode)
    ensures MutexOk(s, m)
    ensures var q := Min(s.t[t].cur, s.m[m].prio); var o := s.m[m].owner;
            var r := Joined(s, t, m, q);
            && (q >= s.t[o].cur ==> Bracket(r, o, mode))
            && (q < s.t[o].cur ==> q == s.t[t].cur && q < s.m[m].prio && Bracket(SetCur(r, o, q), o, mode))
  {
    assert MutexOk(s, m);
    var o := s.m[m].owner;
    assert Bracket(s, o, mode) && ThreadOk(s, o);
    var r := Joined(s, t, m, Min(s.t[t].cur, s.m[m].prio));
    assert r.t[o] == s.t[o] && m in r.t[o].taken;
    if s.t[t].cur < s.t[o].cur {
      var r' := SetCur(r, o, s.t[t].cur);
      assert m in r'.t[o].taken && Min(r'.m[m].prio, r'.m[m].ceiling) <= r'.t[o].cur;
    } else if mode.Exact? && s.t[o].init > s.t[o].cur {
      var k :| k in s.t[o].taken && k in s.m && Min(s.m[k].prio, s.m[k].ceiling) <= s.t[o].cur;
      assert k in r.t[o].taken && Min(r.m[k].prio, r.m[k].ceiling) <= r.t[o].cur;
    }
  }

  lemma BlockIsJoined(s: State, t: Thread, m: Mutex)
    requires CanBlock(s, t, m) && MutexOk(s, m)
    requires Min(s.t[t].cur, s.m[m].prio) >= s.t[s.m[m].owner].cur
    ensures Block(s, t, m) == Joined(s, t, m, Min(s.t[t].cur, s.m[m].prio))
  {
    var r := Join(s, t, m);
    assert PutM(r, m, r.m[m].(prio := s.m[m].prio)) == r;
  }

  lemma SameShapeReflexive(s: State)
    requires Struct(s)
    ensures SameShape(s, s)
  {
    forall m | m in s.m ensures SameMutex(s.m[m], s.m[m]) { assert MutexOk(s, m); }
  }

  lemma PartsInv(r: State, o: Thread, mode: Mode)
    requires o in r.t && Struct(r)
    requires forall k :: k in r.m ==> PrioOk(r, k, mode)
    requires forall x :: x in r.t && x != o ==> Bracket(r, x, mode)
    requires Bracket(r, o, mode)
    requires forall x :: x in r.t ==> CallOk(r, x)
    ensures Inv(r, mode) && SameShape(r, r)
  {
    SameShapeReflexive(r);
  }

  /** The owner is already urgent enough. */
  lemma BlockOnly(s: State, t: Thread, m: Mutex, mode: Mode)
    requires CanBlock(s, t, m) && Inv(s, mode) && s.t[t].error == Ok
    requires MutexOk(s, m) && Min(s.t[t].cur, s.m[m].prio) >= s.t[s.m[m].owner].cur
    ensures Inv(Block(s, t, m), mode)
    ensures SameShape(Joined(s, t, m, Min(s.t[t].cur, s.m[m].prio)), Block(s, t, m))
  {
    assert ThreadOk(s, t);
    var q := Min(s.t[t].cur, s.m[m].prio);
    JoinPrioOk(s, t, m, mode);
    JoinStruct(s, t, m, q);
    JoinCalls(s, t, m, q);
    JoinOwner(s, t, m, mode);
    PartsInv(Joined(s, t, m, q), s.m[m].owner, mode);
    BlockIsJoined(s, t, m);
  }

  lemma RaisedInv(r: State, o: Thread, q: int, mode: Mode)
    requires o in r.t && 0 <= q <= NO_PRIORITY && Struct(r)
    requires forall k :: k in r.m ==> PrioOk(r, k, mode)
    requires forall x :: x in r.t && x != o ==> Bracket(r, x, mode)
    requires Bracket(SetCur(r, o, q), o, mode)
    requires forall x :: x in r.t ==> CallOk(r, x)
    ensures Sound(r) && Inv(UpdatePriority(r, o, q), mode) && SameShape(r, UpdatePriority(r, o, q))
  {
    UpdateRepairs(r, o, q, mode);
    CallsKept(r, UpdatePriority(r, o, q));
  }

  /** The owner is raised, and everybody it waits for. */
  lemma BlockRaises(s: State, t: Thread, m: Mutex, mode: Mode)
    requires CanBlock(s, t, m) && Inv(s, mode) && s.t[t].error == Ok
    requires MutexOk(s, m) && Min(s.t[t].cur, s.m[m].prio) < s.t[s.m[m].owner].cur
    ensures Inv(Block(s, t, m), mode)
    ensures SameShape(Joined(s, t, m, Min(s.t[t].cur, s.m[m].prio)), Block(s, t, m))
  {
    assert ThreadOk(s, t);
    var q := Min(s.t[t].cur, s.m[m].prio);
    JoinPrioOk(s, t, m, mode);
    JoinStruct(s, t, m, q);
    JoinCalls(s, t, m, q);
    JoinOwner(s, t, m, mode);
    RaisedInv(Joined(s, t, m, q), s.m[m].owner, q, mode);
    assert Block(s, t, m) == UpdatePriority(Joined(s, t, m, q), s.m[m].owner, q);
  }

  lemma BlockInv(s: State, t: Thread, m: Mutex, mode: Mode)
    requires CanBlock(s, t, m) && Inv(s, mode) && s.t[t].error == Ok
    ensures Inv(Block(s, t, m), mode)
    ensures MutexOk(s, m) && SameShape(Joined(s, t, m, Min(s.t[t].cur, s.m[m].prio)), Block(s, t, m))
  {
    assert MutexOk(s, m) && ThreadOk(s, t);
    if Min(s.t[t].cur, s.m[m].prio) < s.t[s.m[m].owner].cur {
      BlockRaises(s, t, m, mode);
    } else {
      BlockOnly(s, t, m, mode);
    }
  }

  lemma BlockCase(s: State, t: Thread, m: Mutex, mode: Mode)
    requires Inv(s, mode) && Inv(s, Loose) && Running(s, t) && s.t[t].error == Ok && m in s.m
    requires s.m[m].owner != t && s.m[m].owner != null
    ensures TakeFrom(s, t, m, true) == (Block(s, t, m), Blocked) && Inv(Block(s, t, m), mode)
  {
    BlockInv(s, t, m, mode);
  }

  lemma FreeCase(s: State, t: Thread, m: Mutex, mode: Mode)
    requires Inv(s, mode) && Inv(s, Loose) && Running(s, t) && m in s.m && s.m[m].owner == null
    ensures forall wait :: Inv(TakeFrom(s, t, m, wait).0, mode)
  {
    TakeFreeInv(s, t, m, mode);
  }

  lemma OwnTake(s: State, t: Thread, m: Mutex, wait: bool)
    requires Inv(s, Loose) && Running(s, t) && m in s.m && s.m[m].owner == t
    ensures 1 <= s.m[m].hold <= HOLD_MAX
    ensures TakeFrom(s, t, m, wait) ==
            if s.m[m].hold < HOLD_MAX then (PutM(s, m, s.m[m].(hold := s.m[m].hold + 1)), Eok) else (s, Efull)
  {
    assert MutexOk(s, m);
  }

  lemma NestedCase(s: State, t: Thread, m: Mutex, wait: bool, mode: Mode)
    requires Inv(s, mode) && Inv(s, Loose) && Running(s, t) && m in s.m && s.m[m].owner == t
    requires s.m[m].hold < HOLD_MAX
    ensures Inv(TakeFrom(s, t, m, wait).0, mode)
  {
    OwnTake(s, t, m, wait);
    HoldInv(s, m, s.m[m].hold + 1, mode);
  }

  lemma FullCase(s: State, t: Thread, m: Mutex, wait: bool, mode: Mode)
    requires Inv(s, mode) && Inv(s, Loose) && Running(s, t) && m in s.m && s.m[m].owner == t
    requires s.m[m].hold >= HOLD_MAX
    ensures Inv(TakeFrom(s, t, m, wait).0, mode)
  {
    OwnTake(s, t, m, wait);
  }

  lemma TakeFromInv(s: State, t: Thread, m: Mutex, wait: bool, mode: Mode)
    requires Inv(s, mode) && Inv(s, Loose) && Running(s, t) && s.t[t].error == Ok && m in s.m
    ensures Inv(TakeFrom(s, t, m, wait).0, mode)
  {
    var o := s.m[m].owner;
    if o == t && s.m[m].hold < HOLD_MAX {
      NestedCase(s, t, m, wait, mode);
    } else if o == t {
      FullCase(s, t, m, wait, mode);
    } else if o == null {
      FreeCase(s, t, m, mode);
    } else if wait {
      BlockCase(s, t, m, mode);
    } else {
      ErrorKeepsInv(s, t, TimedOut, mode);
    }
  }

  lemma TakeInv(s: State, t: Thread, m: Mutex, wait: bool, mode: Mode)
    requires Inv(s, mode) && Inv(s, Loose) && Running(s, t) && m in s.m
    ensures Inv(Take(s, t, m, wait).0, mode)
  {
    ErrorKeepsInv(s, t, Ok, mode);
    ErrorKeepsInv(s, t, Ok, Loose);
    TakeFromInv(PutT(s, t, s.t[t].(error := Ok)), t, m, wait, mode);
  }
}
