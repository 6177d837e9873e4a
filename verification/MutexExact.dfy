/** Exact priority inheritance: which steps keep it, which runs have it. */
module MutexExact {
  import opened Objects
  import opened MutexSpec
  import opened MutexSettle
  import opened MutexOps
  import opened MutexInv
  import opened MutexRelease
  import opened MutexTimeout
  import opened MutexRuns

  // ---- threads between the two halves of a time-out --------------------------------------

  /** `t` has left the list of `m` and not yet cleaned up. */
  ghost predicate Leaving(s: State, t: Thread, m: Mutex) {
    Leaver(s, t) && s.t[t].call == m
  }

  ghost predicate SomebodyLeaves(s: State, m: Mutex) {
    exists t :: t in s.t && Leaving(s, t, m)
  }

  ghost function Departing(s: State): set<Mutex> {
    set m | m in s.m && SomebodyLeaves(s, m)
  }

  /** No priority is more urgent than something accounts for, and the priority of every mutex that
      nobody is leaving is that of its first waiter. */
  ghost predicate Accounted(s: State) {
    Inv(s, Exact(Departing(s)))
  }

  lemma Weaken(s: State, a: Mode, b: Mode)
    requires Inv(s, a) && !a.Loose? && !b.Loose? && a.stale <= b.stale && (b.Exact? ==> a.Exact?)
    ensures Inv(s, b)
  {
    forall t | t in s.t ensures CallOk(s, t) && Bracket(s, t, b) { assert Bracket(s, t, a); }
    forall m | m in s.m ensures PrioOk(s, m, b) { assert PrioOk(s, m, a); }
  }

  // ---- a step ----------------------------------------------------------------------------

  /** A thread leaves the list; a thread cleans up; the clean-up that goes with a leaving. */
  predicate Leaves(e: Step) { e.ExpireOf? || e.RemoveOf? }

  predicate CleansUp(e: Step) { e.CleanupBy? || e.DropOf? }

  function CleanupFor(e: Step): Step
    requires Leaves(e)
  {
    if e.ExpireOf? then CleanupBy(e.t) else DropOf(e.t)
  }

  /** A clean-up, of a time-out or of a closing thread, finds the owner settled. */
  ghost predicate Settled(s: State, e: Step)
    requires Inv(s, Loose) && Enabled(s, e)
  {
    match e
    case CleanupBy(t) => assert CallOk(s, t); OwnerSettled(s, s.t[t].call, t)
    case DropOf(t) => assert CallOk(s, t); OwnerSettled(s, s.t[t].call, t)
    case _ => true
  }

  /** The mutexes whose priority may be out of date after the step. */
  function StaleAfter(s: State, e: Step, stale: set<Mutex>): set<Mutex>
    requires Enabled(s, e)
  {
    match e
    case ExpireOf(t) => stale + {s.t[t].pending}
    case RemoveOf(t) => stale + {s.t[t].pending}
    case CleanupBy(t) => stale - {s.t[t].call}
    case DropOf(t) => stale - {s.t[t].call}
    case _ => stale
  }

  /** What can be claimed after the step. */
  function After(s: State, e: Step, mode: Mode): Mode
    requires Enabled(s, e)
  {
    match mode
    case Loose => Loose
    case Current(stale) => Current(StaleAfter(s, e, stale))
    case Exact(stale) => Exact(StaleAfter(s, e, stale))
  }

  /** Every step keeps the invariant, but for the mutex a thread leaves; the exact one, if a clean-up
      finds the owner settled. */
  lemma StepKeeps(s: State, e: Step, mode: Mode)
    requires Inv(s, mode) && Inv(s, Loose) && Enabled(s, e) && (mode.Exact? ==> Settled(s, e))
    ensures Inv(Apply(s, e), After(s, e, mode))
  {
    match e
    case TakeBy(t, m, wait) => TakeInv(s, t, m, wait, mode);
    case ReturnBy(t) => ReturnInv(s, t, mode);
    case ReleaseBy(t, m) => ReleaseInv(s, t, m, mode);
    case ExpireOf(t) => ExpireInv(s, t, mode);
    case CleanupBy(t) => assert CallOk(s, t); CleanupLateInv(s, t, mode);
    case RemoveOf(t) => RemoveInv(s, t, mode);
    case DropOf(t) => assert CallOk(s, t); DetachInv(s, t, mode);
    case CeilingOf(m, p) => SetCeilingInv(s, m, p, mode);
    case DozeOf(t, asleep) => DozeInv(s, t, asleep, mode);
  }

  lemma StepExact(s: State, e: Step, stale: set<Mutex>)
    requires Inv(s, Exact(stale)) && Inv(s, Loose) && Enabled(s, e) && Settled(s, e)
    ensures Inv(Apply(s, e), Exact(StaleAfter(s, e, stale)))
  {
    StepKeeps(s, e, Exact(stale));
  }

  lemma StepCurrent(s: State, e: Step, stale: set<Mutex>)
    requires Inv(s, Current(stale)) && Inv(s, Loose) && Enabled(s, e)
    ensures Inv(Apply(s, e), Current(StaleAfter(s, e, stale)))
  {
    StepKeeps(s, e, Current(stale));
  }

  /** A record in which the same call is as far as before. */
  ghost predicate SameCall(a: Tcb, b: Tcb) {
    a.suspended == b.suspended && a.call == b.call && a.error == b.error
  }

  lemma BlockKeepsCalls(s: State, x: Thread, m: Mutex, t: Thread)
    requires CanBlock(s, x, m) && s.t[x].error == Ok && t in s.t && t != x
    ensures t in Block(s, x, m).t && SameCall(s.t[t], Block(s, x, m).t[t])
  {
    BlockInv(s, x, m, Loose);
    assert SameThread(Joined(s, x, m, Min(s.t[x].cur, s.m[m].prio)).t[t], Block(s, x, m).t[t]);
  }

  lemma TakeKeepsCalls(s: State, x: Thread, m: Mutex, wait: bool, t: Thread)
    requires Inv(s, Loose) && Running(s, x) && m in s.m && t in s.t && t != x
    ensures t in Take(s, x, m, wait).0.t && SameCall(s.t[t], Take(s, x, m, wait).0.t[t])
  {
    ErrorKeepsInv(s, x, Ok, Loose);
    var s0 := PutT(s, x, s.t[x].(error := Ok));
    if s0.m[m].owner == x { OwnTake(s0, x, m, wait); }
    else if s0.m[m].owner == null { TakeFreeShape(s0, x, m); }
    else if wait { BlockKeepsCalls(s0, x, m, t); }
  }

  lemma ReleaseKeepsCalls(s: State, x: Thread, m: Mutex, t: Thread)
    requires Inv(s, Loose) && Running(s, x) && m in s.m && t in s.t && t != x && !s.t[t].suspended
    ensures KnownMutexes(s, s.t[x].taken) && Known(s, s.m[m].waiters)
    ensures t in Release(s, x, m).0.t && SameCall(s.t[t], Release(s, x, m).0.t[t])
  {
    ReleaseIs(s, x, m);
    if s.m[m].owner == x && s.m[m].hold == 1 && s.m[m].waiters != [] {
      HandedIs(s, x, m);
      HeirCall(s, m, s.m[m].waiters[0]);
    }
  }

  lemma CleanupKeepsCalls(s: State, x: Thread, t: Thread)
    requires Inv(s, Loose) && Leaver(s, x) && t in s.t && t != x
    ensures s.t[x].call in s.m && Sound(s) && t in Cleanup(s, x).t && SameCall(s.t[t], Cleanup(s, x).t[t])
  {
    CleanupShape(s, x);
    assert SameThread(s.t[t], Abandon(s, s.t[x].call, x).t[t]);
  }

  lemma DetachKeepsCalls(s: State, x: Thread, t: Thread)
    requires Inv(s, Loose) && Enabled(s, DropOf(x)) && t in s.t && t != x
    ensures t in Apply(s, DropOf(x)).t && SameCall(s.t[t], Apply(s, DropOf(x)).t[t])
  {
    DetachIs(s, x);
    CleanupKeepsCalls(s, x, t);
  }

  lemma CeilingKeepsCalls(s: State, m: Mutex, p: int, t: Thread)
    requires Inv(s, Loose) && m in s.m && 0 <= p && t in s.t
    ensures Sound(s) && t in SetCeiling(s, m, p).0.t && SameCall(s.t[t], SetCeiling(s, m, p).0.t[t])
  {
    SetCeilingInv(s, m, p, Loose);
    if p < PRIORITY_MAX {
      assert SameThread(PutM(s, m, s.m[m].(ceiling := p)).t[t], SetCeiling(s, m, p).0.t[t]);
    }
  }

  lemma RemoveKeepsLeaving(s: State, x: Thread, t: Thread, m: Mutex)
    requires Inv(s, Loose) && x in s.t && s.t[x].pending != null && Leaving(s, t, m)
    ensures s.t[x].pending in s.m && Leaving(Remove(s, x), t, m)
  {
    WaitingOrLeaver(s, x);
  }

  /** A leaver stays one until its own clean-up. */
  lemma LeavingKept(s: State, e: Step, t: Thread, m: Mutex)
    requires Inv(s, Loose) && Enabled(s, e) && Leaving(s, t, m) && e != CleanupBy(t) && e != DropOf(t)
    ensures Leaving(Apply(s, e), t, m)
  {
    match e
    case TakeBy(x, k, wait) => TakeKeepsCalls(s, x, k, wait, t);
    case ReturnBy(x) =>
    case ReleaseBy(x, k) => ReleaseKeepsCalls(s, x, k, t);
    case ExpireOf(x) => ExpireStruct(s, x);
    case CleanupBy(x) => CleanupKeepsCalls(s, x, t);
    case RemoveOf(x) => RemoveKeepsLeaving(s, x, t, m);
    case DropOf(x) => DetachKeepsCalls(s, x, t);
    case CeilingOf(k, p) => CeilingKeepsCalls(s, k, p, t);
    case DozeOf(x, asleep) =>
  }

  lemma TakeKeepsMutexes(s: State, x: Thread, k: Mutex, wait: bool, m: Mutex)
    requires Inv(s, Loose) && Running(s, x) && k in s.m && m in s.m
    ensures m in Take(s, x, k, wait).0.m
  {
    ErrorKeepsInv(s, x, Ok, Loose);
    var s0 := PutT(s, x, s.t[x].(error := Ok));
    if s0.m[k].owner == x { OwnTake(s0, x, k, wait); }
    else if s0.m[k].owner == null { TakeFreeShape(s0, x, k); }
    else if wait { BlockInv(s0, x, k, Loose); }
  }

  lemma ReleaseKeepsMutexes(s: State, x: Thread, k: Mutex, m: Mutex)
    requires Inv(s, Loose) && Running(s, x) && k in s.m && m in s.m
    ensures KnownMutexes(s, s.t[x].taken) && Known(s, s.m[k].waiters)
    ensures m in Release(s, x, k).0.m
  {
    ReleaseIs(s, x, k);
    if s.m[k].owner == x && s.m[k].hold == 1 && s.m[k].waiters != [] { HandedIs(s, x, k); }
  }

  lemma LeavesIt(s: State, e: Step)
    requires Inv(s, Loose) && Leaves(e) && Enabled(s, e)
    ensures s.t[e.t].pending in s.m && Leaving(Apply(s, e), e.t, s.t[e.t].pending)
  {
    if e.ExpireOf? {
      ExpireStruct(s, e.t);
    } else {
      WaitingOrLeaver(s, e.t);
      RemoveInv(s, e.t, Loose);
    }
  }

  lemma SameMutexes(s: State, e: Step, m: Mutex)
    requires Inv(s, Loose) && Enabled(s, e) && (m in s.m || (Leaves(e) && s.t[e.t].pending == m))
    ensures m in Apply(s, e).m
  {
    match e
    case TakeBy(x, k, wait) => TakeKeepsMutexes(s, x, k, wait, m);
    case ReturnBy(x) =>
    case ReleaseBy(x, k) => ReleaseKeepsMutexes(s, x, k, m);
    case ExpireOf(x) => ExpireStruct(s, x);
    case CleanupBy(x) => CleanupShape(s, x);
    case RemoveOf(x) => WaitingOrLeaver(s, x);
    case DropOf(x) => DetachIs(s, x); CleanupShape(s, x);
    case CeilingOf(k, p) => SetCeilingInv(s, k, p, Loose);
    case DozeOf(x, asleep) =>
  }

  lemma StaleBound(s: State, e: Step)
    requires Inv(s, Loose) && Enabled(s, e)
    ensures StaleAfter(s, e, Departing(s)) <= Departing(Apply(s, e))
  {
    var r := Apply(s, e);
    forall m | m in StaleAfter(s, e, Departing(s)) ensures m in Departing(r) {
      if Leaves(e) && s.t[e.t].pending == m {
        LeavesIt(s, e);
        assert Leaving(r, e.t, m);
      } else {
        var t :| t in s.t && Leaving(s, t, m);
        LeavingKept(s, e, t, m);
        assert t in r.t;
      }
      assert SomebodyLeaves(r, m);
      SameMutexes(s, e, m);
    }
  }

  // ---- mutex priorities, over every run --------------------------------------------------

  lemma {:induction false} RunCurrent(s: State, run: seq<Step>)
    requires Inv(s, Loose) && Inv(s, Current(Departing(s))) && Legal(s, run)
    ensures Inv(Exec(s, run), Current(Departing(Exec(s, run))))
    decreases |run|
  {
    if run != [] {
      var r := Apply(s, run[0]);
      StepCurrent(s, run[0], Departing(s));
      StaleBound(s, run[0]);
      Weaken(r, Current(StaleAfter(s, run[0], Departing(s))), Current(Departing(r)));
      RunCurrent(r, run[1..]);
    }
  }

  /** In every reachable state, owners settled or not, the priority of a mutex that nobody is leaving is
      exactly that of its first waiter, 0xff without one; that of any other is no less urgent. */
  lemma MutexPriorities(s: State, run: seq<Step>, m: Mutex)
    requires Initial(s) && Inv(s, Loose) && Legal(s, run) && m in Exec(s, run).m
    ensures var r := Exec(s, run);
            && SortedWaiters(r, r.m[m].waiters)
            && r.m[m].prio <= HeadPriority(r, r.m[m].waiters)
            && (!SomebodyLeaves(r, m) ==> r.m[m].prio == HeadPriority(r, r.m[m].waiters))
  {
    InitialInv(s, Current(Departing(s)));
    RunCurrent(s, run);
    assert PrioOk(Exec(s, run), m, Current(Departing(Exec(s, run))));
  }

  // ---- an unsettled clean-up breaks exactness --------------------------------------------

  /** The owner an unsettled clean-up leaves alone keeps a priority nothing accounts for. */
  lemma UnsettledAbandon(s: State, m: Mutex, t: Thread)
    requires Sound(s) && m in s.m && t in s.t && !OwnerSettled(s, m, t)
    ensures var o, r := s.m[m].owner, Abandon(s, m, t);
            && o != null && o != t && o in r.t && r.t[o] == s.t[o] && !Lower(r, o)
  {
    assert MutexOk(s, m);
    HeadRange(s, s.m[m].waiters);
    var o, r := s.m[m].owner, Abandon(s, m, t);
    assert ThreadOk(s, o);
    assert r == Reread(s, m);
    forall k | k in r.t[o].taken && k in r.m ensures r.t[o].cur < Min(r.m[k].prio, r.m[k].ceiling) {
      assert k == m ==> !HeadAccounts(s, m, s.t[o].cur);
      assert k != m ==> !OtherAccounts(s, m, s.t[o].taken, s.t[o].cur) && r.m[k] == s.m[k];
    }
  }

  lemma LeaveLower(r: State, t: Thread, o: Thread)
    requires t in r.t && o in r.t && o != t && !Lower(r, o)
    ensures !Lower(PutT(r, t, r.t[t].(pending := null, call := null)), o)
  {
    var f := PutT(r, t, r.t[t].(pending := null, call := null));
    forall k | k in f.t[o].taken && k in f.m ensures f.t[o].cur < Min(f.m[k].prio, f.m[k].ceiling) {
      assert k in r.t[o].taken && k in r.m;
    }
  }

  lemma UnsettledLeave(d: State, m: Mutex, t: Thread, stale: set<Mutex>)
    requires Sound(d) && m in d.m && t in d.t && !OwnerSettled(d, m, t)
    ensures var r := Abandon(d, m, t);
            !Inv(PutT(r, t, r.t[t].(pending := null, call := null)), Exact(stale))
  {
    var r, o := Abandon(d, m, t), d.m[m].owner;
    UnsettledAbandon(d, m, t);
    LeaveLower(r, t, o);
    assert !Bracket(PutT(r, t, r.t[t].(pending := null, call := null)), o, Exact(stale));
  }

  lemma UnsettledCleanup(s: State, t: Thread, stale: set<Mutex>)
    requires Inv(s, Loose) && Enabled(s, CleanupBy(t)) && !Settled(s, CleanupBy(t))
    ensures !Inv(Apply(s, CleanupBy(t)), Exact(stale))
  {
    assert CallOk(s, t);
    CleanupShape(s, t);
    UnsettledLeave(s, s.t[t].call, t, stale);
  }

  lemma UnsettledDetach(s: State, t: Thread, stale: set<Mutex>)
    requires Inv(s, Loose) && Enabled(s, DropOf(t)) && !Settled(s, DropOf(t))
    ensures !Inv(Apply(s, DropOf(t)), Exact(stale))
  {
    DetachIs(s, t);
    UnsettledLeave(s, s.t[t].call, t, stale);
  }

  /** From a state in which every priority is accounted for, a step leads to one again if and only if it
      is not a clean-up that finds the owner unsettled. */
  lemma StepAccountedIff(s: State, e: Step)
    requires Inv(s, Loose) && Accounted(s) && Enabled(s, e)
    ensures Accounted(Apply(s, e)) <==> Settled(s, e)
  {
    if Settled(s, e) {
      StepExact(s, e, Departing(s));
      StaleBound(s, e);
      Weaken(Apply(s, e), Exact(StaleAfter(s, e, Departing(s))), Exact(Departing(Apply(s, e))));
    } else if e.CleanupBy? {
      UnsettledCleanup(s, e.t, Departing(Apply(s, e)));
    } else {
      UnsettledDetach(s, e.t, Departing(Apply(s, e)));
    }
  }

  // ---- runs ------------------------------------------------------------------------------

  ghost predicate AllSettled(s: State, run: seq<Step>)
    requires Inv(s, Loose) && Legal(s, run)
    decreases |run|
  {
    run == [] || (Settled(s, run[0]) && AllSettled(Apply(s, run[0]), run[1..]))
  }

  lemma {:induction false} RunAccounted(s: State, run: seq<Step>)
    requires Inv(s, Loose) && Accounted(s) && Legal(s, run) && AllSettled(s, run)
    ensures Accounted(Exec(s, run))
    decreases |run|
  {
    if run != [] {
      StepAccountedIff(s, run[0]);
      RunAccounted(Apply(s, run[0]), run[1..]);
    }
  }

  /** Only clean-ups need to be looked at. */
  lemma Onward(s: State, e: Step, r: State)
    requires Follows(s, e, r) && Accounted(s) && !CleansUp(e)
    ensures Accounted(r)
  {
    StepAccountedIff(s, e);
  }

  lemma {:induction false} AccountedAlong(run: seq<Step>, states: seq<State>, n: nat)
    requires Trace(run, states) && n <= |run| && Inv(states[0], Loose) && Accounted(states[0])
    requires forall i :: 0 <= i < n ==> !CleansUp(run[i])
    ensures Inv(states[n], Loose) && Accounted(states[n])
  {
    if n > 0 {
      AccountedAlong(run, states, n - 1);
      assert Hop(run, states, n - 1);
      Onward(states[n - 1], run[n - 1], states[n]);
    }
  }

  lemma InitialAccounted(s: State)
    requires Initial(s)
    ensures Inv(s, Loose) && Accounted(s)
  {
    InitialInv(s, Loose);
    InitialInv(s, Exact(Departing(s)));
  }

  lemma {:induction false} CeilinglessFolds(s: State, ms: seq<Mutex>, acc: int)
    requires Struct(s) && KnownMutexes(s, ms) && forall m :: m in ms ==> s.m[m].ceiling == NO_PRIORITY
    ensures FoldTaken(s, ms, acc) == FoldInherited(s, ms, acc)
  {
    if ms != [] {
      assert MutexOk(s, ms[0]);
      CeilinglessFolds(s, ms[1..], Min(acc, s.m[ms[0]].prio));
    }
  }

  /** Priority inheritance, exactly, over every run whose clean-ups find their owners settled: a thread's
      priority lies between what it deserves with and without ceilings, is both when no ceiling is set,
      and is its initial priority when it holds nothing; the priority of a mutex nobody is leaving is that
      of its first waiter. */
  lemma ExactInheritance(s: State, run: seq<Step>, t: Thread)
    requires Initial(s) && Inv(s, Loose) && Legal(s, run) && AllSettled(s, run)
    requires t in Exec(s, run).t
    ensures var r := Exec(s, run);
            && KnownMutexes(r, r.t[t].taken)
            && Deserved(r, t) <= r.t[t].cur <= Inherited(r, t)
            && (r.t[t].taken == [] ==> r.t[t].cur == r.t[t].init)
            && ((forall m :: m in r.t[t].taken ==> r.m[m].ceiling == NO_PRIORITY)
                  ==> r.t[t].cur == Deserved(r, t) == Inherited(r, t))
    ensures forall m :: m in Exec(s, run).m && !SomebodyLeaves(Exec(s, run), m) ==> PrioOk(Exec(s, run), m, Exact({}))
  {
    InitialAccounted(s);
    RunAccounted(s, run);
    var r := Exec(s, run);
    assert ThreadOk(r, t) && Bracket(r, t, Exact(Departing(r)));
    BracketIsFolds(r, t);
    if forall m :: m in r.t[t].taken ==> r.m[m].ceiling == NO_PRIORITY {
      CeilinglessFolds(r, r.t[t].taken, r.t[t].init);
    }
    forall m | m in r.m && !SomebodyLeaves(r, m) ensures PrioOk(r, m, Exact({})) {
      MutexPriorities(s, run, m);
    }
  }

  // ---- time-outs that are not split ------------------------------------------------------

  /** A thread that leaves a list runs its clean-up before any other region. */
  predicate Whole(run: seq<Step>)
    decreases |run|
  {
    if run == [] then true
    else if Leaves(run[0]) then |run| >= 2 && run[1] == CleanupFor(run[0]) && Whole(run[2..])
    else !CleansUp(run[0]) && Whole(run[1..])
  }

  lemma LeaveSettled(s: State, e: Step)
    requires Inv(s, Loose) && Inv(s, Exact({})) && Enabled(s, e) && Leaves(e)
    ensures s.t[e.t].pending in Apply(s, e).m && e.t in Apply(s, e).t
    ensures OwnerSettled(Apply(s, e), s.t[e.t].pending, e.t)
  {
    var t := e.t;
    WaitingOrLeaver(s, t);
    if Waiting(s, t) {
      ExpireSettled(s, t, Exact({}));
      if e.RemoveOf? { ErrorSettled(Expire(s, t), t, Closing, s.t[t].pending); }
    } else {
      RemoveLeaver(s, t);
      SettledCurrent(s, t, s.t[t].pending, Exact({}));
      ErrorSettled(s, t, Closing, s.t[t].pending);
    }
  }

  /** A clean-up directly after the thread has left finds the owner settled. */
  lemma {:induction false} WholeSettled(s: State, run: seq<Step>)
    requires Inv(s, Loose) && Inv(s, Exact({})) && Legal(s, run) && Whole(run)
    ensures AllSettled(s, run)
    decreases |run|, 1
  {
    if run != [] {
      if Leaves(run[0]) {
        WholeLeaving(s, run);
      } else {
        StepExact(s, run[0], {});
        assert StaleAfter(s, run[0], {}) == {};
        WholeSettled(Apply(s, run[0]), run[1..]);
      }
    }
  }

  lemma {:induction false} WholeLeaving(s: State, run: seq<Step>)
    requires Inv(s, Loose) && Inv(s, Exact({})) && Legal(s, run) && Whole(run) && run != [] && Leaves(run[0])
    ensures AllSettled(s, run)
    decreases |run|, 0
  {
    var s1 := Apply(s, run[0]);
    assert run[1..][0] == run[1] && run[1..][1..] == run[2..];
    LeaveSettled(s, run[0]);
    LeavesIt(s, run[0]);
    StepExact(s, run[0], {});
    StepExact(s1, run[1], StaleAfter(s, run[0], {}));
    assert StaleAfter(s1, run[1], StaleAfter(s, run[0], {})) == {};
    WholeSettled(Apply(s1, run[1]), run[2..]);
  }
}
