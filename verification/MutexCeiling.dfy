/** Priority ceilings: a thread is as urgent as the ceilings it holds, except after a hand-off, which does
    not apply the ceiling to the new owner (ipc.c:1486-1523). */
module MutexCeiling {
  import opened Objects
  import opened WaitList
  import opened MutexSpec
  import opened MutexSettle
  import opened MutexOps
  import opened MutexInv
  import opened MutexRelease
  import opened MutexTimeout
  import opened MutexRuns
  import opened MutexExact
  import opened MutexScene

  /** No less urgent than the ceiling of any mutex it holds. */
  ghost predicate Honours(s: State, x: Thread)
    requires x in s.t
  {
    forall m :: m in s.t[x].taken && m in s.m ==> s.t[x].cur <= s.m[m].ceiling
  }

  ghost predicate Honoured(s: State) {
    forall x :: x in s.t ==> Honours(s, x)
  }

  /** Within the bracket, honouring the ceilings is having exactly the priority deserved. */
  lemma DeservedIff(s: State, x: Thread)
    requires x in s.t && KnownMutexes(s, s.t[x].taken) && Bracket(s, x, Exact({}))
    ensures s.t[x].cur == Deserved(s, x) <==> Honours(s, x)
  {
    BracketIsFolds(s, x);
    FoldTakenMeaning(s, s.t[x].taken, s.t[x].init);
    forall m | m in s.t[x].taken ensures Min(s.m[m].prio, s.m[m].ceiling) <= s.m[m].ceiling {}
    assert Upper(s, x);
  }

  // ---- frames ----------------------------------------------------------------------------

  /** The same priorities and ceilings, and the same mutexes in the same hands. */
  ghost predicate SameClaims(s: State, r: State) {
    && r.t.Keys == s.t.Keys && r.m.Keys == s.m.Keys
    && (forall x :: x in s.t ==> r.t[x].cur == s.t[x].cur && r.t[x].taken == s.t[x].taken)
    && (forall m :: m in s.m ==> r.m[m].ceiling == s.m[m].ceiling)
  }

  lemma ClaimsKept(s: State, r: State)
    requires SameClaims(s, r)
    ensures Honoured(s) <==> Honoured(r)
  {
    forall x | x in s.t ensures Honours(s, x) <==> Honours(r, x) {}
  }

  /** A recomputed priority honours every ceiling. */
  lemma RecomputedHonours(s: State, o: Thread)
    requires o in s.t && KnownMutexes(s, s.t[o].taken)
    ensures Honours(SetCur(s, o, Deserved(s, o)), o)
  {
    FoldTakenMeaning(s, s.t[o].taken, s.t[o].init);
    forall m | m in s.t[o].taken ensures Min(s.m[m].prio, s.m[m].ceiling) <= s.m[m].ceiling {}
  }

  lemma OneChanged(s: State, o: Thread, p: int)
    requires o in s.t && (forall x :: x in s.t && x != o ==> Honours(s, x)) && Honours(SetCur(s, o, p), o)
    ensures Honoured(SetCur(s, o, p))
  {
    var r := SetCur(s, o, p);
    forall x | x in r.t ensures Honours(r, x) { assert x != o ==> Honours(s, x); }
  }

  // ---- the propagation loop --------------------------------------------------------------

  lemma TurnHonours(s: State, t: Thread)
    requires Turn(s, t) && Honoured(s)
    ensures s.t[t].pending in s.m && Known(s, s.m[s.t[t].pending].waiters)
    ensures Honoured(Requeue(s, t)) && Honoured(AfterTurn(s, t))
  {
    TurnKnown(s, t);
    var q, o := Requeue(s, t), OwnerOf(s, t);
    ClaimsKept(s, q);
    RequeueStruct(s, t);
    DeservedRange(q, o);
    RecomputedHonours(q, o);
    OneChanged(q, o, Deserved(q, o));
  }

  lemma {:induction false} SettleHonours(s: State, t: Thread, visited: set<Thread>)
    requires SettlePre(s, t, visited) && Honoured(s)
    ensures Honoured(Settle(s, t, visited))
    decreases s.t.Keys - visited, s.t[t].cur, Above(s, visited, s.t[t].cur)
  {
    if Waiting(s, t) {
      TurnHonours(s, t);
      if OwnerDeserves(s, t) != s.t[OwnerOf(s, t)].cur {
        TurnDecreases(s, t, visited);
        SettleHonours(AfterTurn(s, t), OwnerOf(s, t), visited + {OwnerOf(s, t)});
      }
    }
  }

  lemma UpdateHonours(s: State, t: Thread, p: int)
    requires UpdatePre(s, t, p) && (forall x :: x in s.t && x != t ==> Honours(s, x)) && Honours(SetCur(s, t, p), t)
    ensures Honoured(UpdatePriority(s, t, p))
  {
    OneChanged(s, t, p);
    UpdateReady(s, t, p);
    SettleHonours(SetCur(s, t, p), t, {t});
  }

  lemma RecomputeHonours(s: State, o: Thread)
    requires Sound(s) && o in s.t && KnownMutexes(s, s.t[o].taken) && forall x :: x in s.t && x != o ==> Honours(s, x)
    ensures 0 <= Deserved(s, o) <= NO_PRIORITY
    ensures Honoured(if Deserved(s, o) != s.t[o].cur then UpdatePriority(s, o, Deserved(s, o)) else s)
  {
    DeservedRange(s, o);
    RecomputedHonours(s, o);
    if Deserved(s, o) != s.t[o].cur {
      UpdateHonours(s, o, Deserved(s, o));
    } else {
      assert SetCur(s, o, Deserved(s, o)) == s;
    }
  }

  // ---- take ------------------------------------------------------------------------------

  lemma TakeFreeHonours(s: State, t: Thread, m: Mutex)
    requires Inv(s, Loose) && Running(s, t) && m in s.m && s.m[m].owner == null && Honoured(s)
    ensures !Waiting(s, t) && 0 <= s.m[m].ceiling && Honoured(TakeFree(s, t, m))
  {
    TakeFreeShape(s, t, m);
    var r := TakeFree(s, t, m);
    forall x | x in r.t ensures Honours(r, x) { assert Honours(s, x); }
  }

  /** Raising an owner does not take it away from its ceilings. */
  lemma RaiseHonours(s: State, t: Thread, m: Mutex)
    requires CanBlock(s, t, m) && MutexOk(s, m) && Min(s.t[t].cur, s.m[m].prio) < s.t[s.m[m].owner].cur
    requires Honoured(Joined(s, t, m, Min(s.t[t].cur, s.m[m].prio)))
    ensures Honoured(Block(s, t, m))
  {
    var o := s.m[m].owner;
    assert Bracket(s, o, Loose) && ThreadOk(s, o);
    assert s.t[t].cur < s.m[m].prio;
    JoinSound(s, t, m);
    var j := Joined(s, t, m, s.t[t].cur);
    assert Honours(j, o);
    UpdateHonours(j, o, s.t[t].cur);
    assert Block(s, t, m) == UpdatePriority(j, o, s.t[t].cur);
  }

  lemma BlockHonours(s: State, t: Thread, m: Mutex)
    requires CanBlock(s, t, m) && s.t[t].error == Ok && Honoured(s)
    ensures Honoured(Block(s, t, m))
  {
    assert MutexOk(s, m);
    var q, o := Min(s.t[t].cur, s.m[m].prio), s.m[m].owner;
    var j := Joined(s, t, m, q);
    ClaimsKept(s, j);
    if q < s.t[o].cur {
      RaiseHonours(s, t, m);
    } else {
      BlockIsJoined(s, t, m);
    }
  }

  lemma ErrorHonours(s: State, t: Thread, e: Error)
    requires t in s.t && Honoured(s)
    ensures Honoured(PutT(s, t, s.t[t].(error := e)))
  {
    ClaimsKept(s, PutT(s, t, s.t[t].(error := e)));
  }

  lemma TakeFromHonours(s: State, t: Thread, m: Mutex, wait: bool)
    requires Inv(s, Loose) && Running(s, t) && s.t[t].error == Ok && m in s.m && Honoured(s)
    ensures Honoured(TakeFrom(s, t, m, wait).0)
  {
    if s.m[m].owner == t { ClaimsKept(s, TakeFrom(s, t, m, wait).0); }
    else if s.m[m].owner == null { TakeFreeHonours(s, t, m); }
    else if wait { BlockHonours(s, t, m); }
    else { ErrorHonours(s, t, TimedOut); }
  }

  lemma TakeHonours(s: State, t: Thread, m: Mutex, wait: bool)
    requires Inv(s, Loose) && Running(s, t) && m in s.m && Honoured(s)
    ensures Honoured(Take(s, t, m, wait).0)
  {
    ErrorKeepsInv(s, t, Ok, Loose);
    ErrorHonours(s, t, Ok);
    TakeFromHonours(PutT(s, t, s.t[t].(error := Ok)), t, m, wait);
  }

  // ---- release ---------------------------------------------------------------------------

  /** The giver keeps honouring what it still holds. */
  lemma GiverHonours(s: State, t: Thread, m: Mutex)
    requires LastHold(s, t, m) && Honours(s, t)
    ensures KnownMutexes(s, s.t[t].taken)
    ensures forall k :: k in Without(s.t[t].taken, m) && k in s.m ==> PriorityAfter(s, t, m) <= s.m[k].ceiling
  {
    TakenKnown(s, t);
    var w := Without(s.t[t].taken, m);
    WithoutDistinct(s.t[t].taken, m);
    FoldTakenMeaning(s, w, s.t[t].init);
    forall k | k in w ensures Min(s.m[k].prio, s.m[k].ceiling) <= s.m[k].ceiling {}
  }

  lemma FreedHonours(s: State, t: Thread, m: Mutex)
    requires LastHold(s, t, m) && Honoured(s)
    ensures KnownMutexes(s, s.t[t].taken) && Honoured(Freed(s, t, m))
  {
    assert Honours(s, t);
    GiverHonours(s, t, m);
    var r := Freed(s, t, m);
    forall x | x in r.t ensures Honours(r, x) { assert Honours(s, x); }
  }

  lemma HeirHonoursIff(s: State, t: Thread, m: Mutex)
    requires CanHand(s, t, m) && Known(s, s.m[m].waiters) && Honours(s, s.m[m].waiters[0])
    ensures KnownMutexes(s, s.t[t].taken)
    ensures var n, r := s.m[m].waiters[0], Handed(s, t, m);
            n in r.t && (Honours(r, n) <==> s.t[n].cur <= s.m[m].ceiling)
  {
    HandedIs(s, t, m);
    var n, r := s.m[m].waiters[0], Handed(s, t, m);
    assert r.t[n].taken[0] == m && r.t[n].taken == [m] + s.t[n].taken;
    assert m in r.t[n].taken;
    forall k | k in s.t[n].taken ensures k in r.t[n].taken { }
    if s.t[n].cur <= s.m[m].ceiling {
      forall k | k in r.t[n].taken && k in r.m ensures r.t[n].cur <= r.m[k].ceiling {
        assert k == m || k in s.t[n].taken;
      }
    }
  }

  lemma OthersHonour(s: State, t: Thread, m: Mutex)
    requires CanHand(s, t, m) && Honoured(s)
    ensures KnownMutexes(s, s.t[t].taken) && Known(s, s.m[m].waiters)
    ensures forall x :: x in Handed(s, t, m).t && x != s.m[m].waiters[0] ==> Honours(Handed(s, t, m), x)
  {
    HandedIs(s, t, m);
    assert Honours(s, t);
    GiverHonours(s, t, m);
    var r := Handed(s, t, m);
    forall x | x in r.t && x != s.m[m].waiters[0] ensures Honours(r, x) { assert Honours(s, x); }
  }

  /** After a hand-off the ceilings are honoured if and only if the new owner was urgent enough before:
      the check missing from ipc.c:1489-1508. */
  lemma HandedHonoursIff(s: State, t: Thread, m: Mutex)
    requires CanHand(s, t, m) && Honoured(s)
    ensures KnownMutexes(s, s.t[t].taken) && Known(s, s.m[m].waiters)
    ensures Honoured(Handed(s, t, m)) <==> s.t[s.m[m].waiters[0]].cur <= s.m[m].ceiling
  {
    WaitersKnown(s, m);
    assert Honours(s, s.m[m].waiters[0]);
    OthersHonour(s, t, m);
    HeirHonoursIff(s, t, m);
  }

  /** The same in terms of the new owner's priority: a heir that had what it deserved has it after the
      hand-off if and only if it was at least as urgent as the ceiling. */
  lemma HeirDeservedIff(s: State, t: Thread, m: Mutex, stale: set<Mutex>)
    requires CanHand(s, t, m) && Inv(s, Exact(stale))
    requires Known(s, s.m[m].waiters) && KnownMutexes(s, s.t[s.m[m].waiters[0]].taken)
    requires s.t[s.m[m].waiters[0]].cur == Deserved(s, s.m[m].waiters[0])
    ensures KnownMutexes(s, s.t[t].taken)
    ensures var n, r := s.m[m].waiters[0], Handed(s, t, m);
            && n in r.t && KnownMutexes(r, r.t[n].taken)
            && (r.t[n].cur == Deserved(r, n) <==> s.t[n].cur <= s.m[m].ceiling)
  {
    HandedIs(s, t, m);
    HandedTaker(s, t, m, Exact(stale));
    HandedThreads(s, t, m);
    var n, r := s.m[m].waiters[0], Handed(s, t, m);
    assert ThreadOk(r, n) && Bracket(r, n, Exact({}));
    assert Bracket(s, n, Exact(stale)) && Bracket(s, n, Exact({}));
    DeservedIff(s, n);
    DeservedIff(r, n);
    HeirHonoursIff(s, t, m);
  }

  /** The mutex goes to a waiter less urgent than its ceiling. */
  ghost predicate HandsDown(s: State, t: Thread, m: Mutex)
    requires m in s.m
  {
    && s.m[m].owner == t && s.m[m].hold == 1
    && s.m[m].waiters != [] && s.m[m].waiters[0] in s.t && s.t[s.m[m].waiters[0]].cur > s.m[m].ceiling
  }

  lemma ReleaseHonoursIff(s: State, t: Thread, m: Mutex)
    requires Inv(s, Loose) && Running(s, t) && m in s.m && Honoured(s)
    ensures KnownMutexes(s, s.t[t].taken) && Known(s, s.m[m].waiters)
    ensures Honoured(Release(s, t, m).0) <==> !HandsDown(s, t, m)
  {
    ReleaseIs(s, t, m);
    var r := Release(s, t, m).0;
    if s.m[m].owner != t || s.m[m].hold > 1 {
      ClaimsKept(s, r);
    } else if s.m[m].waiters != [] {
      HandedHonoursIff(s, t, m);
    } else {
      FreedHonours(s, t, m);
    }
  }

  // ---- time-outs, closing and ceilings ---------------------------------------------------

  lemma AbandonHonours(s: State, m: Mutex, t: Thread)
    requires Sound(s) && m in s.m && t in s.t && Honoured(s)
    ensures Honoured(Abandon(s, m, t))
  {
    assert MutexOk(s, m);
    HeadRange(s, s.m[m].waiters);
    var o, s1 := s.m[m].owner, Reread(s, m);
    ClaimsKept(s, s1);
    if o != null && s.t[o].cur == s.t[t].cur {
      SetPrioSound(s, m, HeadPriority(s, s.m[m].waiters));
      DeservedRange(s1, o);
      RecomputeHonours(s1, o);
    }
  }

  lemma LeaveHonours(s: State, t: Thread)
    requires t in s.t && Honoured(s)
    ensures Honoured(PutT(s, t, s.t[t].(pending := null, call := null)))
  {
    ClaimsKept(s, PutT(s, t, s.t[t].(pending := null, call := null)));
  }

  lemma CleanupHonours(s: State, t: Thread)
    requires Inv(s, Loose) && Leaver(s, t) && Honoured(s)
    ensures s.t[t].call in s.m && Sound(s) && Honoured(Cleanup(s, t))
  {
    CleanupShape(s, t);
    AbandonHonours(s, s.t[t].call, t);
    LeaveHonours(Abandon(s, s.t[t].call, t), t);
  }

  lemma LeaveListHonours(s: State, t: Thread)
    requires t in s.t && s.t[t].pending != null && s.t[t].pending in s.m && Honoured(s)
    ensures Honoured(Expire(s, t))
  {
    ClaimsKept(s, Expire(s, t));
  }

  lemma ExpireHonours(s: State, t: Thread)
    requires Inv(s, Loose) && t in s.t && Waiting(s, t) && Honoured(s)
    ensures s.t[t].pending in s.m && Honoured(Expire(s, t))
  {
    ExpireStruct(s, t);
    LeaveListHonours(s, t);
  }

  /** Returning and sleeping elsewhere touch no priority. */
  lemma RestHonours(s: State, t: Thread)
    requires t in s.t && Honoured(s)
    ensures Honoured(Return(s, t)) && Honoured(Doze(s, t, true)) && Honoured(Doze(s, t, false))
  {
    ClaimsKept(s, Return(s, t));
    ClaimsKept(s, Doze(s, t, true));
    ClaimsKept(s, Doze(s, t, false));
  }

  lemma RemoveHonours(s: State, t: Thread)
    requires Inv(s, Loose) && t in s.t && s.t[t].pending != null && Honoured(s)
    ensures s.t[t].pending in s.m && Honoured(Remove(s, t))
  {
    WaitingOrLeaver(s, t);
    LeaveListHonours(s, t);
    ErrorHonours(Expire(s, t), t, Closing);
  }

  lemma DetachHonours(s: State, t: Thread)
    requires Inv(s, Loose) && Enabled(s, DropOf(t)) && Honoured(s)
    ensures Honoured(Apply(s, DropOf(t)))
  {
    DetachIs(s, t);
    CleanupHonours(s, t);
  }

  /** A new ceiling is honoured at once, by the recomputed owner. */
  lemma CeilingHonours(s: State, m: Mutex, p: int)
    requires Inv(s, Loose) && m in s.m && 0 <= p && Honoured(s)
    ensures Sound(s) && Honoured(SetCeiling(s, m, p).0)
  {
    SetCeilingInv(s, m, p, Loose);
    if p < PRIORITY_MAX {
      assert MutexOk(s, m);
      var s1, o := PutM(s, m, s.m[m].(ceiling := p)), s.m[m].owner;
      forall x | x in s1.t && x != o ensures Honours(s1, x) { assert Honours(s, x) && ThreadOk(s, x); }
      if o != null {
        SetCeilingSound(s, m, p);
        DeservedRange(s1, o);
        RecomputeHonours(s1, o);
      }
    }
  }

  // ---- steps and runs --------------------------------------------------------------------

  ghost predicate StepsDown(s: State, e: Step)
    requires Enabled(s, e)
  {
    e.ReleaseBy? && HandsDown(s, e.t, e.m)
  }

  /** Any step keeps all ceilings honoured, except exactly a hand-off to a waiter less urgent than the
      ceiling. */
  lemma StepHonoursIff(s: State, e: Step)
    requires Inv(s, Loose) && Honoured(s) && Enabled(s, e)
    ensures Honoured(Apply(s, e)) <==> !StepsDown(s, e)
  {
    match e
    case TakeBy(t, m, wait) => TakeHonours(s, t, m, wait);
    case ReturnBy(t) => RestHonours(s, t);
    case ReleaseBy(t, m) => ReleaseHonoursIff(s, t, m);
    case ExpireOf(t) => ExpireHonours(s, t);
    case CleanupBy(t) => CleanupHonours(s, t);
    case RemoveOf(t) => RemoveHonours(s, t);
    case DropOf(t) => DetachHonours(s, t);
    case CeilingOf(m, p) => CeilingHonours(s, m, p);
    case DozeOf(t, asleep) => RestHonours(s, t);
  }

  /** No mutex is handed to a waiter less urgent than its ceiling. */
  ghost predicate NeverDown(s: State, run: seq<Step>)
    requires Inv(s, Loose) && Legal(s, run)
    decreases |run|
  {
    run == [] || (!StepsDown(s, run[0]) && NeverDown(Apply(s, run[0]), run[1..]))
  }

  lemma {:induction false} RunHonours(s: State, run: seq<Step>)
    requires Inv(s, Loose) && Honoured(s) && Legal(s, run) && NeverDown(s, run)
    ensures Honoured(Exec(s, run))
    decreases |run|
  {
    if run != [] {
      StepHonoursIff(s, run[0]);
      RunHonours(Apply(s, run[0]), run[1..]);
    }
  }

  /** Priority inheritance and ceilings together, exactly: over every run in which every hand-off goes to a
      waiter as urgent as the ceiling and every clean-up finds its owner settled, every thread has at all
      times exactly the minimum of its own priority and the priority and ceiling of every mutex it holds. */
  lemma ExactlyDeserved(s: State, run: seq<Step>, t: Thread)
    requires Initial(s) && Inv(s, Loose) && Legal(s, run) && AllSettled(s, run) && NeverDown(s, run)
    requires t in Exec(s, run).t
    ensures KnownMutexes(Exec(s, run), Exec(s, run).t[t].taken)
    ensures Exec(s, run).t[t].cur == Deserved(Exec(s, run), t)
  {
    InitialAccounted(s);
    forall x | x in s.t ensures Honours(s, x) {}
    RunAccounted(s, run);
    RunHonours(s, run);
    var r := Exec(s, run);
    assert ThreadOk(r, t) && Bracket(r, t, Exact(Departing(r))) && Honours(r, t);
    DeservedIff(r, t);
  }

  // ---- a run that loses a ceiling --------------------------------------------------------

  /** Threads with priorities 20 and 10 and one mutex. */
  datatype Pair = Pair(a: Thread, b: Thread, m: Mutex) {
    ghost predicate Apart() { a != b }

    function S0(): State { State(map[a := NewThread(20), b := NewThread(10)], map[m := NewMutex()]) }

    function S1(): State { PutM(S0(), m, NewMutex().(ceiling := 3)) }

    function S2(): State {
      PutT(PutM(S1(), m, S1().m[m].(owner := a, hold := 1)), a, NewThread(20).(cur := 3, taken := [m]))
    }

    function S3(): State {
      PutM(PutT(S2(), b, NewThread(10).(suspended := true, pending := m, call := m)),
           m, S2().m[m].(waiters := [b], prio := 10))
    }

    function S4(): State {
      PutM(PutT(PutT(S3(), a, S3().t[a].(taken := [], cur := 20)), b,
                S3().t[b].(taken := [m], pending := null, suspended := false)),
           m, S3().m[m].(owner := b, hold := 1, waiters := [], prio := NO_PRIORITY))
    }

    function At(i: nat): State {
      match i
      case 0 => S0() case 1 => S1() case 2 => S2() case 3 => S3() case _ => S4()
    }

    function Run(): seq<Step> { [CeilingOf(m, 3), TakeBy(a, m, true), TakeBy(b, m, true), ReleaseBy(a, m)] }
  }

  lemma Pair0(k: Pair)
    requires k.Apart() && Inv(k.S0(), Loose)
    ensures Enabled(k.S0(), k.Run()[0]) && Apply(k.S0(), k.Run()[0]) == k.S1()
  {
  }

  lemma Pair1(k: Pair)
    requires k.Apart() && Inv(k.S1(), Loose)
    ensures Enabled(k.S1(), k.Run()[1]) && Apply(k.S1(), k.Run()[1]) == k.S2()
  {
    CeilingTakeStep(k.S1(), k.a, k.m);
  }

  lemma Pair2(k: Pair)
    requires k.Apart() && Inv(k.S2(), Loose)
    ensures Enabled(k.S2(), k.Run()[2]) && Apply(k.S2(), k.Run()[2]) == k.S3()
  {
    QueueStep(k.S2(), k.b, k.m);
  }

  lemma Pair3(k: Pair)
    requires k.Apart() && Inv(k.S3(), Loose)
    ensures Enabled(k.S3(), k.Run()[3]) && Apply(k.S3(), k.Run()[3]) == k.S4()
    ensures StepsDown(k.S3(), k.Run()[3])
  {
    HandStep(k.S3(), k.a, k.m, k.b);
  }

  lemma Pairs(k: Pair, i: nat)
    requires k.Apart() && Inv(k.S0(), Loose) && i < 4
    ensures Follows(k.At(i), k.Run()[i], k.At(i + 1)) && Inv(k.At(i + 1), Loose)
  {
    if i > 0 { Pairs(k, i - 1); }
    match i
    case 0 => Pair0(k);
    case 1 => Pair1(k);
    case 2 => Pair2(k);
    case _ => Pair3(k);
  }

  lemma Through(k: Pair) returns (states: seq<State>)
    requires k.Apart() && Inv(k.S0(), Loose)
    ensures Trace(k.Run(), states) && states[0] == k.S0() && states[4] == k.S4()
  {
    states := seq(5, i requires 0 <= i < 5 => k.At(i));
    forall i | 0 <= i < 4 ensures Hop(k.Run(), states, i) { Pairs(k, i); }
  }

  lemma Passed(k: Pair)
    requires k.Apart() && Inv(k.S0(), Loose)
    ensures Legal(k.S0(), k.Run()) && Exec(k.S0(), k.Run()) == k.S4()
  {
    var states := Through(k);
    Traced(k.Run(), states);
  }

  lemma CeilingLost(k: Pair, r: State)
    requires k.Apart() && r == k.S4()
    ensures && k.m in r.m && k.b in r.t && r.m[k.m].owner == k.b && r.m[k.m].ceiling == 3
            && r.t[k.b].cur == 10 && KnownMutexes(r, r.t[k.b].taken) && Deserved(r, k.b) == 3
  {
    assert r.t[k.b].taken == [k.m];
    assert FoldTaken(r, [k.m], 10) == FoldTaken(r, [], 3);
  }

  /** The ceiling is lost: `b` gets a mutex whose ceiling is 3 and keeps priority 10. */
  lemma HandOffLosesCeiling(k: Pair)
    requires k.Apart()
    ensures Initial(k.S0()) && Inv(k.S0(), Loose) && Legal(k.S0(), k.Run())
    ensures var r := Exec(k.S0(), k.Run());
            && k.m in r.m && k.b in r.t && r.m[k.m].owner == k.b && r.m[k.m].ceiling == 3
            && r.t[k.b].cur == 10 && KnownMutexes(r, r.t[k.b].taken) && Deserved(r, k.b) == 3
  {
    InitialInv(k.S0(), Loose);
    Passed(k);
    CeilingLost(k, Exec(k.S0(), k.Run()));
  }
}
