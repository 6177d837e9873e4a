/** Two runs in which other regions run between the two halves of a time-out (thread.c:131-160 and
    ipc.c:1303-1350), and an owner keeps a boost that nothing accounts for. A priority scheduler allows
    both. */
module MutexSplit {
  import opened Objects
  import opened MutexSpec
  import opened MutexOps
  import opened MutexTimeout
  import opened MutexRuns
  import opened MutexExact
  import opened MutexScene

  // ---- a leaver whose priority changes ---------------------------------------------------

  /** Three threads with priorities 20, 10 and 5 and two mutexes. */
  datatype Cast = Cast(a: Thread, b: Thread, c: Thread, m: Mutex, n: Mutex) {
    ghost predicate Apart() { a != b && a != c && b != c && m != n }

    function S0(): State {
      State(map[a := NewThread(20), b := NewThread(10), c := NewThread(5)], map[m := NewMutex(), n := NewMutex()])
    }

    function S1(): State { Took(S0(), a, m) }

    function S2(): State { Took(S1(), b, n) }

    function S3(): State { BlockedOn(S2(), b, m, a) }

    function S4(): State { TimedOutOf(S3(), b, m, []) }

    function S5(): State { BlockedOn(S4(), c, n, b) }

    function S6(): State { Cleaned(S5(), b, m) }

    function At(i: nat): State {
      match i
      case 0 => S0() case 1 => S1() case 2 => S2() case 3 => S3() case 4 => S4() case 5 => S5() case _ => S6()
    }

    function Run(): seq<Step> {
      [TakeBy(a, m, true), TakeBy(b, n, true), TakeBy(b, m, true), ExpireOf(b), TakeBy(c, n, true), CleanupBy(b)]
    }

    /** Each thread starts when the run names it first. */
    function Started(i: nat): set<Thread> { if i == 0 then {a} else if i < 4 then {a, b} else {a, b, c} }
  }

  lemma Step0(k: Cast)
    requires k.Apart() && Inv(k.S0(), Loose)
    ensures Enabled(k.S0(), k.Run()[0]) && Apply(k.S0(), k.Run()[0]) == k.S1()
    ensures Scheduled(k.S0(), k.Run()[0], k.Started(0))
  {
    FreeStep(k.S0(), k.a, k.m, k.Run()[0], k.S1());
  }

  lemma Step1(k: Cast)
    requires k.Apart() && Inv(k.S1(), Loose)
    ensures Enabled(k.S1(), k.Run()[1]) && Apply(k.S1(), k.Run()[1]) == k.S2()
    ensures Scheduled(k.S1(), k.Run()[1], k.Started(1))
  {
    FreeStep(k.S1(), k.b, k.n, k.Run()[1], k.S2());
  }

  lemma Step2(k: Cast)
    requires k.Apart() && Inv(k.S2(), Loose)
    ensures Enabled(k.S2(), k.Run()[2]) && Apply(k.S2(), k.Run()[2]) == k.S3()
    ensures Scheduled(k.S2(), k.Run()[2], k.Started(2))
  {
    BlockStep(k.S2(), k.b, k.m, k.a, k.Run()[2], k.S3());
  }

  lemma Step3(k: Cast)
    requires k.Apart() && Inv(k.S3(), Loose)
    ensures Enabled(k.S3(), k.Run()[3]) && Apply(k.S3(), k.Run()[3]) == k.S4()
    ensures Scheduled(k.S3(), k.Run()[3], k.Started(3))
  {
    ExpireStep(k.S3(), k.b, k.m, [], k.Run()[3], k.S4());
  }

  lemma Step4(k: Cast)
    requires k.Apart() && Inv(k.S4(), Loose)
    ensures Enabled(k.S4(), k.Run()[4]) && Apply(k.S4(), k.Run()[4]) == k.S5()
    ensures Scheduled(k.S4(), k.Run()[4], k.Started(4))
  {
    BlockStep(k.S4(), k.c, k.n, k.b, k.Run()[4], k.S5());
  }

  lemma Step5(k: Cast)
    requires k.Apart() && Inv(k.S5(), Loose)
    ensures Enabled(k.S5(), k.Run()[5]) && Apply(k.S5(), k.Run()[5]) == k.S6()
    ensures Scheduled(k.S5(), k.Run()[5], k.Started(5))
  {
    CleanupStep(k.S5(), k.b, k.m, k.a, k.Run()[5], k.S6());
  }

  lemma Steps(k: Cast, i: nat)
    requires k.Apart() && Inv(k.S0(), Loose) && i < 6
    ensures Follows(k.At(i), k.Run()[i], k.At(i + 1)) && Inv(k.At(i + 1), Loose)
    ensures Scheduled(k.At(i), k.Run()[i], k.Started(i))
  {
    if i > 0 { Steps(k, i - 1); }
    match i
    case 0 => Step0(k);
    case 1 => Step1(k);
    case 2 => Step2(k);
    case 3 => Step3(k);
    case 4 => Step4(k);
    case _ => Step5(k);
  }

  lemma Way(k: Cast) returns (states: seq<State>)
    requires k.Apart() && Inv(k.S0(), Loose)
    ensures Trace(k.Run(), states) && states[0] == k.S0() && states[5] == k.S5() && states[6] == k.S6()
  {
    states := seq(7, i requires 0 <= i < 7 => k.At(i));
    forall i | 0 <= i < 6 ensures Hop(k.Run(), states, i) { Steps(k, i); }
  }

  lemma Ran(k: Cast)
    requires k.Apart() && Inv(k.S0(), Loose)
    ensures Legal(k.S0(), k.Run()) && Exec(k.S0(), k.Run()) == k.S6()
  {
    var states := Way(k);
    Traced(k.Run(), states);
  }

  lemma NoneCleansUp(k: Cast)
    ensures |k.Run()| == 6 && forall i :: 0 <= i < 5 ==> !CleansUp(k.Run()[i])
  {
  }

  /** Up to the last clean-up every priority is accounted for. */
  lemma AccountedBefore(k: Cast)
    requires k.Apart() && Inv(k.S0(), Loose) && Accounted(k.S0())
    ensures Inv(k.S5(), Loose) && Accounted(k.S5())
  {
    var states := Way(k);
    NoneCleansUp(k);
    AccountedAlong(k.Run(), states, 5);
  }

  lemma BoostLeft(k: Cast)
    requires k.Apart() && Inv(k.S5(), Loose) && Enabled(k.S5(), CleanupBy(k.b))
    ensures !Settled(k.S5(), CleanupBy(k.b))
    ensures var r := k.S6();
            && k.m in r.m && r.m[k.m].waiters == []
            && k.a in r.t && r.t[k.a].cur == 10
            && KnownMutexes(r, r.t[k.a].taken) && Deserved(r, k.a) == 20
  {
    assert k.S5().t[k.a].taken == [k.m] && k.S5().t[k.a].cur == 10 && k.S5().t[k.b].cur == 5;
    assert !OtherAccounts(k.S5(), k.m, [k.m], 10) && !HeadAccounts(k.S5(), k.m, 10);
    assert k.S6().t[k.a].taken == [k.m] && k.S6().t[k.a].init == 20;
    assert FoldTaken(k.S6(), [k.m], 20) == FoldTaken(k.S6(), [], 20);
  }

  /** Exact inheritance is false of runs with split time-outs. In this one a leaver's priority changes:
      before its clean-up every priority is accounted for but the owner is not settled, and after it `a`,
      whose mutex nobody waits for, still has the priority 10 of the thread that gave up, not its own 20. */
  lemma SplitTimeoutLeavesBoost(k: Cast)
    requires k.Apart()
    ensures Initial(k.S0()) && Inv(k.S0(), Loose) && Legal(k.S0(), k.Run())
    ensures Inv(k.S5(), Loose) && Follows(k.S5(), CleanupBy(k.b), k.S6())
    ensures Accounted(k.S5()) && !Settled(k.S5(), CleanupBy(k.b))
    ensures forall i :: 0 <= i < 6 ==> Scheduled(k.At(i), k.Run()[i], k.Started(i))
    ensures var r := Exec(k.S0(), k.Run());
            && r == k.S6() && k.m in r.m && r.m[k.m].waiters == []
            && k.a in r.t && r.t[k.a].cur == 10
            && KnownMutexes(r, r.t[k.a].taken) && Deserved(r, k.a) == 20
  {
    InitialAccounted(k.S0());
    Ran(k);
    forall i | 0 <= i < 6 ensures Scheduled(k.At(i), k.Run()[i], k.Started(i)) { Steps(k, i); }
    AccountedBefore(k);
    Step5(k);
    BoostLeft(k);
  }

  // ---- two leavers, and an owner gone by then --------------------------------------------

  /** Four threads with priorities 20, 10, 5 and 12 and two mutexes. */
  datatype Quartet = Quartet(a: Thread, b: Thread, c: Thread, d: Thread, m: Mutex, n: Mutex) {
    ghost predicate Apart() { a != b && a != c && a != d && b != c && b != d && c != d && m != n }

    function R0(): State {
      State(map[a := NewThread(20), b := NewThread(10), c := NewThread(5), d := NewThread(12)],
            map[m := NewMutex(), n := NewMutex()])
    }

    function R1(): State { Took(R0(), a, m) }

    function R2(): State { BlockedOn(R1(), d, m, a) }

    function R3(): State { Took(R2(), b, n) }

    function R4(): State { BlockedOn(R3(), b, m, a) }

    function R5(): State { TimedOutOf(R4(), b, m, [d]) }

    function R6(): State { TimedOutOf(R5(), d, m, []) }

    function R7(): State { BlockedOn(R6(), c, n, b) }

    function R8(): State { Cleaned(R7(), b, m) }

    function R9(): State { Doze(R8(), b, true) }

    function R10(): State { Released(R9(), a, m) }

    function R11(): State { Doze(R10(), a, true) }

    function R12(): State { Cleaned(R11(), d, m) }

    function Early(i: nat): State {
      match i
      case 0 => R0() case 1 => R1() case 2 => R2() case 3 => R3() case 4 => R4() case 5 => R5() case _ => R6()
    }

    function Later(i: nat): State {
      match i
      case 7 => R7() case 8 => R8() case 9 => R9() case 10 => R10() case 11 => R11() case _ => R12()
    }

    function At(i: nat): State { if i < 7 then Early(i) else Later(i) }

    function Run(): seq<Step> {
      [TakeBy(a, m, true), TakeBy(d, m, true), TakeBy(b, n, true), TakeBy(b, m, true), ExpireOf(b), ExpireOf(d),
       TakeBy(c, n, true), CleanupBy(b), DozeOf(b, true), ReleaseBy(a, m), DozeOf(a, true), CleanupBy(d)]
    }

    function Started(i: nat): set<Thread> {
      if i == 0 then {a} else if i == 1 then {a, d} else if i < 6 then {a, b, d} else {a, b, c, d}
    }
  }

  lemma Leave0(k: Quartet)
    requires k.Apart() && Inv(k.R0(), Loose)
    ensures Enabled(k.R0(), k.Run()[0]) && Apply(k.R0(), k.Run()[0]) == k.R1()
  {
    FreeStep(k.R0(), k.a, k.m, k.Run()[0], k.R1());
  }

  lemma Leave1(k: Quartet)
    requires k.Apart() && Inv(k.R1(), Loose)
    ensures Enabled(k.R1(), k.Run()[1]) && Apply(k.R1(), k.Run()[1]) == k.R2()
  {
    BlockStep(k.R1(), k.d, k.m, k.a, k.Run()[1], k.R2());
  }

  lemma Leave2(k: Quartet)
    requires k.Apart() && Inv(k.R2(), Loose)
    ensures Enabled(k.R2(), k.Run()[2]) && Apply(k.R2(), k.Run()[2]) == k.R3()
  {
    FreeStep(k.R2(), k.b, k.n, k.Run()[2], k.R3());
  }

  lemma Leave3(k: Quartet)
    requires k.Apart() && Inv(k.R3(), Loose)
    ensures Enabled(k.R3(), k.Run()[3]) && Apply(k.R3(), k.Run()[3]) == k.R4()
  {
    BlockStep(k.R3(), k.b, k.m, k.a, k.Run()[3], k.R4());
  }

  lemma Leave4(k: Quartet)
    requires k.Apart() && Inv(k.R4(), Loose)
    ensures Enabled(k.R4(), k.Run()[4]) && Apply(k.R4(), k.Run()[4]) == k.R5()
  {
    ExpireStep(k.R4(), k.b, k.m, [k.d], k.Run()[4], k.R5());
  }

  lemma Leave5(k: Quartet)
    requires k.Apart() && Inv(k.R5(), Loose)
    ensures Enabled(k.R5(), k.Run()[5]) && Apply(k.R5(), k.Run()[5]) == k.R6()
  {
    ExpireStep(k.R5(), k.d, k.m, [], k.Run()[5], k.R6());
  }

  lemma Before6(k: Quartet, s: State)
    requires k.Apart() && s == k.R6()
    ensures k.b in s.t && k.c in s.t && k.n in s.m
    ensures s.t[k.c] == NewThread(5) && s.t[k.b].cur == 10 && !s.t[k.b].suspended
    ensures s.m[k.n] == NewMutex().(owner := k.b, hold := 1)
  {
  }

  lemma Leave6(k: Quartet)
    requires k.Apart() && Inv(k.R6(), Loose)
    ensures Enabled(k.R6(), k.Run()[6]) && Apply(k.R6(), k.Run()[6]) == k.R7()
  {
    Before6(k, k.R6());
    BlockStep(k.R6(), k.c, k.n, k.b, k.Run()[6], k.R7());
  }

  lemma Leave7(k: Quartet)
    requires k.Apart() && Inv(k.R7(), Loose)
    ensures Enabled(k.R7(), k.Run()[7]) && Apply(k.R7(), k.Run()[7]) == k.R8()
  {
    CleanupStep(k.R7(), k.b, k.m, k.a, k.Run()[7], k.R8());
  }

  lemma Leave8(k: Quartet)
    requires k.Apart() && Inv(k.R8(), Loose)
    ensures Enabled(k.R8(), k.Run()[8]) && Apply(k.R8(), k.Run()[8]) == k.R9()
  {
    DozeStep(k.R8(), k.b, k.Run()[8], k.R9());
  }

  lemma Leave9(k: Quartet)
    requires k.Apart() && Inv(k.R9(), Loose)
    ensures Enabled(k.R9(), k.Run()[9]) && Apply(k.R9(), k.Run()[9]) == k.R10()
  {
    FreeingStep(k.R9(), k.a, k.m, k.Run()[9], k.R10());
  }

  lemma Leave10(k: Quartet)
    requires k.Apart() && Inv(k.R10(), Loose)
    ensures Enabled(k.R10(), k.Run()[10]) && Apply(k.R10(), k.Run()[10]) == k.R11()
  {
    DozeStep(k.R10(), k.a, k.Run()[10], k.R11());
  }

  lemma Leave11(k: Quartet)
    requires k.Apart() && Inv(k.R11(), Loose)
    ensures Enabled(k.R11(), k.Run()[11]) && Apply(k.R11(), k.Run()[11]) == k.R12()
  {
    CleanupStep(k.R11(), k.d, k.m, null, k.Run()[11], k.R12());
  }

  lemma EarlyHop(k: Quartet, i: nat)
    requires k.Apart() && i < 7 && Inv(k.At(i), Loose)
    ensures Follows(k.At(i), k.Run()[i], k.At(i + 1)) && Inv(k.At(i + 1), Loose)
  {
    match i
    case 0 => Leave0(k);
    case 1 => Leave1(k);
    case 2 => Leave2(k);
    case 3 => Leave3(k);
    case 4 => Leave4(k);
    case 5 => Leave5(k);
    case _ => Leave6(k);
  }

  lemma LaterHop(k: Quartet, i: nat)
    requires k.Apart() && 7 <= i < 12 && Inv(k.At(i), Loose)
    ensures Follows(k.At(i), k.Run()[i], k.At(i + 1)) && Inv(k.At(i + 1), Loose)
  {
    match i
    case 7 => Leave7(k);
    case 8 => Leave8(k);
    case 9 => Leave9(k);
    case 10 => Leave10(k);
    case _ => Leave11(k);
  }

  lemma Hops(k: Quartet, i: nat)
    requires k.Apart() && Inv(k.R0(), Loose) && i < 12
    ensures Follows(k.At(i), k.Run()[i], k.At(i + 1)) && Inv(k.At(i + 1), Loose)
  {
    if i > 0 { Hops(k, i - 1); }
    if i < 7 { EarlyHop(k, i); } else { LaterHop(k, i); }
  }

  lemma Scheduled3(k: Quartet, i: nat)
    requires k.Apart() && i < 3
    ensures Scheduled(k.At(i), k.Run()[i], k.Started(i))
  {
    match i
    case 0 =>
    case 1 =>
    case _ =>
  }

  lemma Scheduled6(k: Quartet, i: nat)
    requires k.Apart() && 3 <= i < 6
    ensures Scheduled(k.At(i), k.Run()[i], k.Started(i))
  {
    match i
    case 3 =>
    case 4 =>
    case _ =>
  }

  lemma Scheduled8(k: Quartet, i: nat)
    requires k.Apart() && 6 <= i < 8
    ensures Scheduled(k.At(i), k.Run()[i], k.Started(i))
  {
    match i
    case 6 =>
    case _ =>
  }

  lemma Scheduled10(k: Quartet, i: nat)
    requires k.Apart() && 8 <= i < 10
    ensures Scheduled(k.At(i), k.Run()[i], k.Started(i))
  {
    match i
    case 8 =>
    case _ =>
  }

  lemma Scheduled11(k: Quartet)
    requires k.Apart()
    ensures Scheduled(k.At(10), k.Run()[10], k.Started(10))
  {
  }

  lemma Scheduled12(k: Quartet)
    requires k.Apart()
    ensures Scheduled(k.At(11), k.Run()[11], k.Started(11))
  {
  }

  lemma AllScheduled(k: Quartet, i: nat)
    requires k.Apart() && i < 12
    ensures Scheduled(k.At(i), k.Run()[i], k.Started(i))
  {
    if i < 3 { Scheduled3(k, i); }
    else if i < 6 { Scheduled6(k, i); }
    else if i < 8 { Scheduled8(k, i); }
    else if i < 10 { Scheduled10(k, i); }
    else if i == 10 { Scheduled11(k); }
    else { Scheduled12(k); }
  }

  lemma At0(k: Quartet)
    ensures k.At(0) == k.R0()
  {
  }

  lemma At11(k: Quartet)
    ensures k.At(11) == k.R11()
  {
  }

  lemma At12(k: Quartet)
    ensures k.At(12) == k.R12()
  {
  }

  lemma Path(k: Quartet) returns (states: seq<State>)
    requires k.Apart() && Inv(k.R0(), Loose)
    ensures Trace(k.Run(), states) && states[0] == k.R0() && states[11] == k.R11() && states[12] == k.R12()
  {
    states := seq(13, i requires 0 <= i < 13 => k.At(i));
    forall i | 0 <= i < 12 ensures Hop(k.Run(), states, i) { Hops(k, i); }
    At0(k);
    At11(k);
    At12(k);
  }

  lemma Left(k: Quartet)
    requires k.Apart() && Inv(k.R0(), Loose)
    ensures Legal(k.R0(), k.Run()) && Exec(k.R0(), k.Run()) == k.R12()
  {
    var states := Path(k);
    Traced(k.Run(), states);
  }

  lemma Last(k: Quartet)
    requires k.Apart() && Inv(k.R0(), Loose)
    ensures Inv(k.R11(), Loose) && Follows(k.R11(), CleanupBy(k.d), k.R12())
  {
    var states := Path(k);
    assert Hop(k.Run(), states, 11);
  }

  lemma BoostKept(k: Quartet, r: State)
    requires k.Apart() && r == k.R11()
    ensures k.m in r.m && r.m[k.m].owner == null && r.m[k.m].waiters == [] && k.a in r.t
    ensures Leaving(r, k.d, k.m)
    ensures r.t[k.a].taken == [] && r.t[k.a].cur == 10 && r.t[k.a].init == 20
  {
  }

  lemma BoostStays(k: Quartet, r: State)
    requires k.Apart() && r == k.R12()
    ensures k.m in r.m && r.m[k.m].waiters == [] && k.a in r.t
    ensures r.t[k.a].taken == [] && r.t[k.a].cur == 10 && r.t[k.a].init == 20
  {
  }

  /** Against the comment at ipc.c:1314-1318: when `d` cleans up, the mutex has no owner, and the owner it
      had has not reset its priority. The clean-up of `b`, whose priority has changed, left it alone; its
      release found a mutex without priority and left it alone too. In the end `a` holds nothing and still
      has the priority 10 of a thread that gave up, not its own 20. */
  lemma TwoLeaversLeaveBoost(k: Quartet)
    requires k.Apart()
    ensures Initial(k.R0()) && Inv(k.R0(), Loose) && Legal(k.R0(), k.Run())
    ensures forall i :: 0 <= i < 12 ==> Scheduled(k.At(i), k.Run()[i], k.Started(i))
    ensures Inv(k.R11(), Loose) && Follows(k.R11(), CleanupBy(k.d), k.R12())
    ensures var r := k.R11();
            && Leaving(r, k.d, k.m) && r.m[k.m].owner == null
            && r.t[k.a].taken == [] && r.t[k.a].cur == 10 && r.t[k.a].init == 20
    ensures var r := Exec(k.R0(), k.Run());
            && k.m in r.m && r.m[k.m].waiters == [] && k.a in r.t
            && r.t[k.a].taken == [] && r.t[k.a].cur == 10 && r.t[k.a].init == 20
  {
    InitialInv(k.R0(), Loose);
    Left(k);
    forall i | 0 <= i < 12 ensures Scheduled(k.At(i), k.Run()[i], k.Started(i)) { AllScheduled(k, i); }
    Last(k);
    BoostKept(k, k.R11());
    BoostStays(k, Exec(k.R0(), k.Run()));
  }
}
