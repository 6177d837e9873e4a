/** `_thread_update_priority` (ipc.c:792-845): the loop that carries a priority change along the
    chain thread -> mutex it waits for -> owner, re-sorting each wait list on the way. */
module MutexSettle {
  import opened Objects
  import opened WaitList
  import opened MutexSpec

  function SetCur(s: State, t: Thread, p: int): State
    requires t in s.t
  {
    s.(t := s.t[t := s.t[t].(cur := p)])
  }

  /** Re-insert `t` in the list it waits in, then `_mutex_update_priority`. */
  function Requeue(s: State, t: Thread): State
    requires t in s.t && Waiting(s, t) && s.t[t].pending in s.m
    requires Known(s, s.m[s.t[t].pending].waiters)
  {
    var m := s.t[t].pending;
    var w := Without(s.m[m].waiters, t);
    var w' := InsertAt(w, Position(Curs(s, w), s.t[t].cur), t);
    s.(m := s.m[m := s.m[m].(waiters := w', prio := s.t[w'[0]].cur)])
  }

  /** Every wait list is sorted, except that `t` may be out of place in the one it waits in. */
  ghost predicate SortedBut(s: State, t: Thread)
    requires t in s.t
  {
    forall m :: m in s.m ==>
      SortedWaiters(s, if Waiting(s, t) && s.t[t].pending == m then Without(s.m[m].waiters, t) else s.m[m].waiters)
  }

  /** What the loop needs: `visited` are the threads already changed; none is more urgent than `t`. */
  ghost predicate SettlePre(s: State, t: Thread, visited: set<Thread>) {
    && t in s.t
    && (Waiting(s, t) ==>
          && Struct(s) && SortedBut(s, t)
          && t in visited && visited <= s.t.Keys
          && forall v :: v in visited ==> s.t[t].cur <= s.t[v].cur)
  }

  ghost predicate SameThread(a: Tcb, b: Tcb) {
    b == a.(cur := b.cur)
  }

  ghost predicate SameMutex(a: Mcb, b: Mcb) {
    && b == a.(prio := b.prio, waiters := b.waiters)
    && Distinct(b.waiters)
    && |a.waiters| == |b.waiters|
    && (forall x :: x in a.waiters ==> x in b.waiters)
    && (forall x :: x in b.waiters ==> x in a.waiters)
  }

  /** Only priorities and the order of wait lists differ. */
  ghost predicate SameShape(s: State, r: State) {
    && s.t.Keys == r.t.Keys && s.m.Keys == r.m.Keys
    && (forall t :: t in s.t ==> SameThread(s.t[t], r.t[t]))
    && (forall m :: m in s.m ==> SameMutex(s.m[m], r.m[m]))
  }

  lemma WithoutKnown(w: seq<Thread>, t: Thread)
    ensures forall x :: x in Without(w, t) ==> x in w
  {
  }

  lemma CursCut(s: State, w: seq<Thread>, i: nat)
    requires Known(s, w) && i < |w|
    ensures Known(s, w[..i] + w[i + 1..])
    ensures Curs(s, w[..i] + w[i + 1..]) == Curs(s, w)[..i] + Curs(s, w)[i + 1..]
  {
    var r := w[..i] + w[i + 1..];
    assert forall k :: 0 <= k < |r| ==> r[k] == if k < i then w[k] else w[k + 1];
  }

  lemma SubSorted(s: State, w: seq<Thread>, t: Thread)
    requires SortedWaiters(s, w)
    ensures SortedWaiters(s, Without(w, t))
  {
    if t in w {
      var i := IndexOf(w, t);
      CutAscending(Curs(s, w), i);
      CursCut(s, w, i);
    }
  }

  /** A list without `t` does not notice a change of t's priority. */
  lemma SetCurKeepsOthers(s: State, t: Thread, p: int, w: seq<Thread>)
    requires t in s.t && t !in w && SortedWaiters(s, w)
    ensures SortedWaiters(SetCur(s, t, p), w)
  {
    assert Curs(SetCur(s, t, p), w) == Curs(s, w);
  }

  lemma SetCurSortedBut(s: State, t: Thread, p: int)
    requires t in s.t && Struct(s) && forall m :: m in s.m ==> SortedWaiters(s, s.m[m].waiters)
    ensures SortedBut(SetCur(s, t, p), t)
  {
    var r := SetCur(s, t, p);
    forall m | m in r.m
      ensures SortedWaiters(r, if Waiting(r, t) && r.t[t].pending == m then Without(r.m[m].waiters, t) else r.m[m].waiters)
    {
      assert MutexOk(s, m);
      if Waiting(r, t) && r.t[t].pending == m {
        SubSorted(s, s.m[m].waiters, t);
        WithoutDistinct(s.m[m].waiters, t);
        SetCurKeepsOthers(s, t, p, Without(s.m[m].waiters, t));
      } else {
        SetCurKeepsOthers(s, t, p, s.m[m].waiters);
      }
    }
  }

  lemma SetCurStruct(s: State, t: Thread, p: int)
    requires t in s.t && Struct(s) && 0 <= p <= NO_PRIORITY
    ensures Struct(SetCur(s, t, p)) && SameShape(s, SetCur(s, t, p))
  {
    var r := SetCur(s, t, p);
    forall x | x in r.t ensures ThreadOk(r, x) { assert ThreadOk(s, x); }
    forall m | m in r.m ensures MutexOk(r, m) && SameMutex(s.m[m], r.m[m]) { assert MutexOk(s, m); }
  }

  lemma CursInsert(s: State, w: seq<Thread>, i: nat, t: Thread)
    requires t in s.t && Known(s, w) && i <= |w|
    ensures Known(s, InsertAt(w, i, t)) && Curs(s, InsertAt(w, i, t)) == InsertAt(Curs(s, w), i, s.t[t].cur)
  {
  }

  /** Inserting `t` where the scan stops keeps a list sorted and its head no less urgent than t. */
  lemma InsertCurs(s: State, w: seq<Thread>, t: Thread)
    requires t in s.t && SortedWaiters(s, w)
    ensures var w' := InsertAt(w, Position(Curs(s, w), s.t[t].cur), t);
            && SortedWaiters(s, w') && t in w'
            && s.t[w'[0]].cur <= s.t[t].cur
            && (w != [] ==> s.t[w'[0]].cur <= s.t[w[0]].cur)
  {
    var i := Position(Curs(s, w), s.t[t].cur);
    var w' := InsertAt(w, i, t);
    InsertSorted(Curs(s, w), s.t[t].cur);
    CursInsert(s, w, i, t);
    assert w'[i] == t;
    assert Curs(s, w')[0] <= Curs(s, w')[i];
  }

  /** The re-inserted list is sorted with the same threads, and its head is at least as urgent as t. */
  lemma RequeueList(s: State, t: Thread)
    requires t in s.t && Struct(s) && Waiting(s, t) && SortedBut(s, t)
    ensures var m := s.t[t].pending; var r := Requeue(s, t);
            && SameMutex(s.m[m], r.m[m])
            && SortedWaiters(r, r.m[m].waiters)
            && t in r.m[m].waiters
            && r.m[m].prio == HeadPriority(r, r.m[m].waiters) <= s.t[t].cur
  {
    var m := s.t[t].pending;
    var r := Requeue(s, t);
    assert ThreadOk(s, t);
    assert MutexOk(s, m);
    WithoutDistinct(s.m[m].waiters, t);
    var w := Without(s.m[m].waiters, t);
    assert SortedWaiters(s, w);
    var i := Position(Curs(s, w), s.t[t].cur);
    InsertDistinct(w, i, t);
    InsertCurs(s, w, t);
    assert r.m[m].waiters == InsertAt(w, i, t);
    InsertCurs(r, w, t);
    assert Curs(r, w) == Curs(s, w);
  }

  /** `r` is `s` but for the order and the priority of `m`. */
  ghost predicate OnlyReordered(s: State, r: State, m: Mutex) {
    && m in s.m && r.t == s.t && r.m.Keys == s.m.Keys && SameMutex(s.m[m], r.m[m])
    && (forall k :: k in s.m && k != m ==> r.m[k] == s.m[k])
    && 0 <= r.m[m].prio <= NO_PRIORITY
  }

  lemma ThreadKept(s: State, r: State, m: Mutex, x: Thread)
    requires OnlyReordered(s, r, m) && x in s.t && ThreadOk(s, x)
    ensures ThreadOk(r, x)
  {
  }

  lemma MutexKept(s: State, r: State, m: Mutex, k: Mutex)
    requires OnlyReordered(s, r, m) && k in s.m && MutexOk(s, k)
    ensures k in r.m && MutexOk(r, k) && SameMutex(s.m[k], r.m[k])
  {
  }

  lemma RequeueReorders(s: State, t: Thread)
    requires t in s.t && Struct(s) && Waiting(s, t) && SortedBut(s, t)
    ensures OnlyReordered(s, Requeue(s, t), s.t[t].pending)
  {
    RequeueList(s, t);
    assert ThreadOk(s, t);
    var w := Requeue(s, t).m[s.t[t].pending].waiters;
    assert w != [] && w[0] in w;
    assert ThreadOk(s, w[0]);
  }

  lemma RecordsKept(s: State, r: State, m: Mutex)
    requires OnlyReordered(s, r, m) && Struct(s)
    ensures Struct(r) && SameShape(s, r)
  {
    forall x | x in s.t ensures ThreadOk(r, x) && SameThread(s.t[x], r.t[x]) { ThreadKept(s, r, m, x); }
    forall k | k in s.m ensures k in r.m && MutexOk(r, k) && SameMutex(s.m[k], r.m[k]) { MutexKept(s, r, m, k); }
  }

  lemma OwnerThere(s: State, r: State, m: Mutex, t: Thread)
    requires OnlyReordered(s, r, m) && Struct(s) && t in s.m[m].waiters
    ensures r.m[m].owner != null && r.m[m].owner in r.t && r.m[m].owner != t
  {
    assert MutexOk(s, m);
  }

  lemma RequeueSorted(s: State, t: Thread)
    requires t in s.t && Struct(s) && Waiting(s, t) && SortedBut(s, t)
    ensures forall k :: k in s.m ==> SortedWaiters(Requeue(s, t), Requeue(s, t).m[k].waiters)
  {
    RequeueList(s, t);
    assert ThreadOk(s, t);
    var r, m := Requeue(s, t), s.t[t].pending;
    forall k | k in s.m ensures SortedWaiters(r, r.m[k].waiters) {
      if k != m {
        assert SortedWaiters(s, s.m[k].waiters);
        assert Curs(r, r.m[k].waiters) == Curs(s, s.m[k].waiters);
      }
    }
  }

  lemma RequeueStruct(s: State, t: Thread)
    requires t in s.t && Struct(s) && Waiting(s, t) && SortedBut(s, t)
    ensures var r := Requeue(s, t);
            && Struct(r) && SameShape(s, r)
            && (forall m :: m in r.m ==> SortedWaiters(r, r.m[m].waiters))
            && r.m[s.t[t].pending].owner != null && r.m[s.t[t].pending].owner in r.t
            && r.m[s.t[t].pending].owner != t
  {
    assert ThreadOk(s, t);
    RequeueReorders(s, t);
    RecordsKept(s, Requeue(s, t), s.t[t].pending);
    RequeueSorted(s, t);
    OwnerThere(s, Requeue(s, t), s.t[t].pending, t);
  }

  lemma DeservedRange(s: State, t: Thread)
    requires Struct(s) && t in s.t
    ensures KnownMutexes(s, s.t[t].taken)
    ensures 0 <= Deserved(s, t) <= NO_PRIORITY
    ensures forall m :: m in s.t[t].taken ==> Deserved(s, t) <= s.m[m].prio
  {
    assert ThreadOk(s, t);
    FoldTakenMeaning(s, s.t[t].taken, s.t[t].init);
    forall m | m in s.t[t].taken ensures 0 <= Min(s.m[m].prio, s.m[m].ceiling) { assert MutexOk(s, m); }
  }

  /** One turn of the loop can be taken from here. */
  ghost predicate Turn(s: State, t: Thread) {
    t in s.t && Struct(s) && Waiting(s, t) && SortedBut(s, t)
  }

  /** `pending_mutex->owner`, who exists because somebody waits. */
  ghost function OwnerOf(s: State, t: Thread): (o: Thread)
    requires Turn(s, t)
    ensures o in s.t && o != t && s.m[s.t[t].pending].owner == o
  {
    RequeueStruct(s, t);
    assert ThreadOk(s, t);
    s.m[s.t[t].pending].owner
  }

  /** What the owner deserves once `t` is re-queued. */
  ghost function OwnerDeserves(s: State, t: Thread): (p: int)
    requires Turn(s, t)
    ensures 0 <= p <= s.t[t].cur <= NO_PRIORITY
  {
    RequeueStruct(s, t);
    RequeueList(s, t);
    assert ThreadOk(s, t);
    assert MutexOk(Requeue(s, t), s.t[t].pending);
    DeservedRange(Requeue(s, t), OwnerOf(s, t));
    Deserved(Requeue(s, t), OwnerOf(s, t))
  }

  lemma TurnKnown(s: State, t: Thread)
    requires Turn(s, t)
    ensures s.t[t].pending in s.m && Known(s, s.m[s.t[t].pending].waiters)
  {
    assert ThreadOk(s, t);
    assert MutexOk(s, s.t[t].pending);
  }

  /** The state after the turn when the owner's priority has to change. */
  ghost function AfterTurn(s: State, t: Thread): (r: State)
    requires Turn(s, t)
    ensures r.t.Keys == s.t.Keys && r.t == s.t[OwnerOf(s, t) := s.t[OwnerOf(s, t)].(cur := OwnerDeserves(s, t))]
  {
    TurnKnown(s, t);
    SetCur(Requeue(s, t), OwnerOf(s, t), OwnerDeserves(s, t))
  }

  lemma SameShapeTransitive(a: State, b: State, c: State)
    requires SameShape(a, b) && SameShape(b, c)
    ensures SameShape(a, c)
  {
    forall m | m in a.m ensures SameMutex(a.m[m], c.m[m]) {
      assert SameMutex(a.m[m], b.m[m]) && SameMutex(b.m[m], c.m[m]);
    }
    forall t | t in a.t ensures SameThread(a.t[t], c.t[t]) {
      assert SameThread(a.t[t], b.t[t]) && SameThread(b.t[t], c.t[t]);
    }
  }

  lemma AfterTurnStruct(s: State, t: Thread)
    requires Turn(s, t)
    ensures var r := AfterTurn(s, t);
            Struct(r) && SameShape(s, r) && SortedBut(r, OwnerOf(s, t))
  {
    RequeueStruct(s, t);
    var s1 := Requeue(s, t);
    SetCurStruct(s1, OwnerOf(s, t), OwnerDeserves(s, t));
    SetCurSortedBut(s1, OwnerOf(s, t), OwnerDeserves(s, t));
    SameShapeTransitive(s, s1, AfterTurn(s, t));
  }

  ghost function Above(s: State, visited: set<Thread>, p: int): set<Thread> {
    set v | v in visited && v in s.t && s.t[v].cur > p
  }

  lemma TurnPriorities(s: State, t: Thread, visited: set<Thread>)
    requires Turn(s, t) && visited <= s.t.Keys
    requires forall v :: v in visited ==> s.t[t].cur <= s.t[v].cur
    ensures var o, r := OwnerOf(s, t), AfterTurn(s, t);
            && visited + {o} <= r.t.Keys
            && forall v :: v in visited + {o} ==> r.t[o].cur <= r.t[v].cur
  {
    var o, r, p := OwnerOf(s, t), AfterTurn(s, t), OwnerDeserves(s, t);
    assert r.t[o].cur == p;
    forall v | v in visited + {o} ensures r.t[o].cur <= r.t[v].cur {
      if v != o { assert r.t[v] == s.t[v]; }
    }
  }

  lemma TurnPre(s: State, t: Thread, visited: set<Thread>)
    requires SettlePre(s, t, visited) && Waiting(s, t)
    ensures SettlePre(AfterTurn(s, t), OwnerOf(s, t), visited + {OwnerOf(s, t)})
  {
    TurnPriorities(s, t, visited);
    AfterTurnStruct(s, t);
  }

  lemma AboveShrinks(s: State, r: State, visited: set<Thread>, o: Thread, p: int)
    requires o in visited && o in s.t && r.t == s.t[o := s.t[o].(cur := p)] && p < s.t[o].cur
    ensures Above(r, visited, p) < Above(s, visited, p)
  {
    assert o in Above(s, visited, p) && o !in Above(r, visited, p);
    assert Above(r, visited, p) <= Above(s, visited, p);
  }

  lemma MeasureDecreases(s: State, r: State, visited: set<Thread>, o: Thread, p: int, q: int)
    requires o in s.t && visited <= s.t.Keys && r.t == s.t[o := s.t[o].(cur := p)] && p <= q && p != s.t[o].cur
    requires forall v :: v in visited ==> q <= s.t[v].cur
    ensures || r.t.Keys - (visited + {o}) < s.t.Keys - visited
            || (&& r.t.Keys - (visited + {o}) == s.t.Keys - visited
                && (p < q || (p == q && Above(r, visited + {o}, p) < Above(s, visited, q))))
  {
    if o in visited {
      assert visited + {o} == visited;
      AboveShrinks(s, r, visited, o, p);
    } else {
      assert o in s.t.Keys - visited;
    }
  }

  /** Why the loop ends on every wait-for graph, cycles of owners included: the thread changed next
      is no less urgent than `t`, and one met a second time only becomes strictly more urgent. */
  lemma TurnDecreases(s: State, t: Thread, visited: set<Thread>)
    requires SettlePre(s, t, visited) && Waiting(s, t)
    requires OwnerDeserves(s, t) != s.t[OwnerOf(s, t)].cur
    ensures var o, r, p, q := OwnerOf(s, t), AfterTurn(s, t), OwnerDeserves(s, t), s.t[t].cur;
            && SettlePre(r, o, visited + {o})
            && (|| r.t.Keys - (visited + {o}) < s.t.Keys - visited
                || (&& r.t.Keys - (visited + {o}) == s.t.Keys - visited
                    && (p < q || (p == q && Above(r, visited + {o}, p) < Above(s, visited, q)))))
  {
    TurnPre(s, t, visited);
    MeasureDecreases(s, AfterTurn(s, t), visited, OwnerOf(s, t), OwnerDeserves(s, t), s.t[t].cur);
  }

  /** The loop of `_thread_update_priority`, entered when `t` has just been given a new priority. */
  ghost function Settle(s: State, t: Thread, visited: set<Thread>): (r: State)
    requires SettlePre(s, t, visited)
    ensures r.t.Keys == s.t.Keys && r.m.Keys == s.m.Keys
    decreases s.t.Keys - visited, s.t[t].cur, Above(s, visited, s.t[t].cur)
  {
    if !Waiting(s, t) then s
    else if OwnerDeserves(s, t) == s.t[OwnerOf(s, t)].cur then
      RequeueStruct(s, t);
      Requeue(s, t)
    else
      TurnDecreases(s, t, visited);
      Settle(AfterTurn(s, t), OwnerOf(s, t), visited + {OwnerOf(s, t)})
  }

  // ---- what the loop restores ------------------------------------------------------------

  /** The invariant, except that the list `t` waits in may be out of order, with a stale mutex
      priority, and that mutex's owner may have the wrong priority. */
  ghost predicate BrokenAt(s: State, t: Thread, mode: Mode) {
    && t in s.t && Struct(s) && SortedBut(s, t)
    && (forall m :: m in s.m && !(Waiting(s, t) && s.t[t].pending == m) ==> PrioOk(s, m, mode))
    && (forall x :: x in s.t && !(Waiting(s, t) && s.m[s.t[t].pending].owner == x) ==> Bracket(s, x, mode))
  }

  ghost predicate Repaired(s: State, mode: Mode) {
    && Struct(s)
    && (forall m :: m in s.m ==> PrioOk(s, m, mode))
    && (forall x :: x in s.t ==> Bracket(s, x, mode))
  }

  lemma DeservedBracket(s: State, t: Thread, mode: Mode)
    requires t in s.t && Struct(s) && KnownMutexes(s, s.t[t].taken) && s.t[t].cur == Deserved(s, t)
    ensures Bracket(s, t, mode)
  {
    BracketIsFolds(s, t);
  }

  lemma SetCurPrioOk(s: State, t: Thread, p: int, m: Mutex, mode: Mode)
    requires t in s.t && m in s.m && PrioOk(s, m, mode) && t !in s.m[m].waiters
    ensures PrioOk(SetCur(s, t, p), m, mode)
  {
    SetCurKeepsOthers(s, t, p, s.m[m].waiters);
  }

  /** A thread given a new priority inside its bracket leaves the state broken only at itself. */
  lemma SetCurBroken(s: State, t: Thread, p: int, mode: Mode)
    requires Struct(s) && t in s.t && 0 <= p <= NO_PRIORITY
    requires forall m :: m in s.m ==> PrioOk(s, m, mode)
    requires forall x :: x in s.t && x != t ==> Bracket(s, x, mode)
    requires Bracket(SetCur(s, t, p), t, mode)
    ensures BrokenAt(SetCur(s, t, p), t, mode)
  {
    var r := SetCur(s, t, p);
    SetCurStruct(s, t, p);
    SetCurSortedBut(s, t, p);
    forall m | m in r.m && !(Waiting(r, t) && r.t[t].pending == m) ensures PrioOk(r, m, mode) {
      assert MutexOk(s, m);
      SetCurPrioOk(s, t, p, m, mode);
    }
    forall x | x in r.t ensures Bracket(r, x, mode) {
      if x != t { assert Bracket(s, x, mode); }
    }
  }

  lemma RequeueLists(s: State, t: Thread, mode: Mode)
    requires Turn(s, t) && BrokenAt(s, t, mode)
    ensures forall m :: m in Requeue(s, t).m ==> PrioOk(Requeue(s, t), m, mode)
  {
    var s1 := Requeue(s, t);
    RequeueList(s, t);
    forall m | m in s1.m ensures PrioOk(s1, m, mode) {
      if m != s.t[t].pending {
        assert PrioOk(s, m, mode);
        assert Curs(s1, s1.m[m].waiters) == Curs(s, s.m[m].waiters);
      }
    }
  }

  /** Re-queueing mends the mutex; only its owner's priority may now be wrong. */
  lemma RequeueRepairs(s: State, t: Thread, mode: Mode)
    requires Turn(s, t) && BrokenAt(s, t, mode)
    ensures var s1 := Requeue(s, t);
            && Struct(s1)
            && (forall m :: m in s1.m ==> PrioOk(s1, m, mode))
            && (forall x :: x in s1.t && x != OwnerOf(s, t) ==> Bracket(s1, x, mode))
  {
    var s1 := Requeue(s, t);
    RequeueStruct(s, t);
    RequeueLists(s, t, mode);
    forall x | x in s1.t && x != OwnerOf(s, t) ensures Bracket(s1, x, mode) {
      assert Bracket(s, x, mode) && ThreadOk(s, x);
    }
  }

  /** The fold depends only on priorities and ceilings of the mutexes visited. */
  lemma {:induction false} SameFold(s: State, r: State, ms: seq<Mutex>, acc: int)
    requires KnownMutexes(s, ms) && KnownMutexes(r, ms)
    requires forall k :: k in ms ==> r.m[k].prio == s.m[k].prio && r.m[k].ceiling == s.m[k].ceiling
    ensures FoldTaken(r, ms, acc) == FoldTaken(s, ms, acc)
  {
    if ms != [] {
      SameFold(s, r, ms[1..], Min(acc, Min(s.m[ms[0]].prio, s.m[ms[0]].ceiling)));
    }
  }

  lemma SameDeserved(s: State, t: Thread, p: int)
    requires t in s.t && KnownMutexes(s, s.t[t].taken)
    ensures Deserved(SetCur(s, t, p), t) == Deserved(s, t)
  {
    SameFold(s, SetCur(s, t, p), s.t[t].taken, s.t[t].init);
  }

  lemma TurnBreaks(s: State, t: Thread, mode: Mode)
    requires Turn(s, t) && BrokenAt(s, t, mode)
    ensures BrokenAt(AfterTurn(s, t), OwnerOf(s, t), mode)
  {
    RequeueRepairs(s, t, mode);
    var s1, o, p := Requeue(s, t), OwnerOf(s, t), OwnerDeserves(s, t);
    DeservedRange(s1, o);
    SameDeserved(s1, o, p);
    SetCurStruct(s1, o, p);
    DeservedBracket(SetCur(s1, o, p), o, mode);
    SetCurBroken(s1, o, p, mode);
  }

  /** Started from a state broken at its first thread, the loop ends in a state that is whole,
      having changed nothing but priorities and the order inside wait lists. */
  lemma {:induction false} SettleRepairs(s: State, t: Thread, visited: set<Thread>, mode: Mode)
    requires SettlePre(s, t, visited) && BrokenAt(s, t, mode)
    ensures Repaired(Settle(s, t, visited), mode)
    ensures SameShape(s, Settle(s, t, visited))
    decreases s.t.Keys - visited, s.t[t].cur, Above(s, visited, s.t[t].cur)
  {
    if !Waiting(s, t) {
      assert forall m :: m in s.m ==> MutexOk(s, m);
    } else {
      RequeueRepairs(s, t, mode);
      var s1, o := Requeue(s, t), OwnerOf(s, t);
      RequeueStruct(s, t);
      if OwnerDeserves(s, t) == s.t[o].cur {
        DeservedRange(s1, o);
        DeservedBracket(s1, o, mode);
      } else {
        TurnBreaks(s, t, mode);
        TurnDecreases(s, t, visited);
        AfterTurnStruct(s, t);
        SettleRepairs(AfterTurn(s, t), o, visited + {o}, mode);
        SameShapeTransitive(s, AfterTurn(s, t), Settle(s, t, visited));
      }
    }
  }

  // ---- what the loop leaves alone --------------------------------------------------------

  /** `chain` contains, with every waiting thread, the owner of the mutex it waits for. */
  ghost predicate ChainClosed(s: State, chain: set<Thread>) {
    forall x :: x in chain && x in s.t && Waiting(s, x) && s.t[x].pending in s.m
      ==> s.m[s.t[x].pending].owner in chain
  }

  ghost predicate AwaitedBy(s: State, chain: set<Thread>, m: Mutex) {
    exists x :: x in chain && x in s.t && Waiting(s, x) && s.t[x].pending == m
  }

  ghost predicate Untouched(s: State, r: State, chain: set<Thread>) {
    && (forall x :: x in s.t && x !in chain ==> x in r.t && r.t[x] == s.t[x])
    && (forall m :: m in s.m && !AwaitedBy(s, chain, m) ==> m in r.m && r.m[m] == s.m[m])
  }

  lemma SameShapeChain(s: State, r: State, chain: set<Thread>)
    requires SameShape(s, r) && ChainClosed(s, chain)
    ensures ChainClosed(r, chain)
    ensures forall m :: m in s.m ==> (AwaitedBy(s, chain, m) <==> AwaitedBy(r, chain, m))
  {
    forall x | x in chain && x in s.t ensures Waiting(s, x) == Waiting(r, x) && s.t[x].pending == r.t[x].pending {
      assert SameThread(s.t[x], r.t[x]);
    }
    forall x | x in chain && x in r.t && Waiting(r, x) && r.t[x].pending in r.m
      ensures r.m[r.t[x].pending].owner in chain
    {
      assert SameMutex(s.m[s.t[x].pending], r.m[s.t[x].pending]);
    }
    forall m | m in s.m ensures AwaitedBy(s, chain, m) <==> AwaitedBy(r, chain, m) {
    }
  }

  lemma RequeueUntouched(s: State, t: Thread, chain: set<Thread>)
    requires Turn(s, t) && t in chain && s.t[t].pending in s.m && Known(s, s.m[s.t[t].pending].waiters)
    ensures Untouched(s, Requeue(s, t), chain)
  {
    assert AwaitedBy(s, chain, s.t[t].pending);
  }

  lemma SetCurUntouched(s: State, r: State, o: Thread, p: int, chain: set<Thread>)
    requires Untouched(s, r, chain) && o in chain && o in r.t
    ensures Untouched(s, SetCur(r, o, p), chain)
  {
  }

  lemma TurnUntouched(s: State, t: Thread, chain: set<Thread>)
    requires Turn(s, t) && t in chain && ChainClosed(s, chain)
    ensures s.t[t].pending in s.m && Known(s, s.m[s.t[t].pending].waiters)
    ensures Untouched(s, Requeue(s, t), chain) && OwnerOf(s, t) in chain
    ensures Untouched(s, AfterTurn(s, t), chain)
  {
    assert ThreadOk(s, t);
    assert MutexOk(s, s.t[t].pending);
    RequeueUntouched(s, t, chain);
    SetCurUntouched(s, Requeue(s, t), OwnerOf(s, t), OwnerDeserves(s, t), chain);
  }

  /** Threads that are not on the chain of owners from `t`, and mutexes nobody on it waits for, are
      untouched. */
  lemma {:induction false} SettleFrame(s: State, t: Thread, visited: set<Thread>, chain: set<Thread>)
    requires SettlePre(s, t, visited) && t in chain && ChainClosed(s, chain)
    ensures Untouched(s, Settle(s, t, visited), chain)
    decreases s.t.Keys - visited, s.t[t].cur, Above(s, visited, s.t[t].cur)
  {
    if Waiting(s, t) {
      RequeueStruct(s, t);
      TurnUntouched(s, t, chain);
      var o := OwnerOf(s, t);
      if OwnerDeserves(s, t) != s.t[o].cur {
        TurnDecreases(s, t, visited);
        AfterTurnStruct(s, t);
        SameShapeChain(s, AfterTurn(s, t), chain);
        SettleFrame(AfterTurn(s, t), o, visited + {o}, chain);
      }
    }
  }
}
