/** Steps from small states, written out: what the witness runs are made of. */
module MutexScene {
  import opened Objects
  import opened WaitList
  import opened MutexSpec
  import opened MutexSettle
  import opened MutexOps
  import opened MutexInv
  import opened MutexRelease
  import opened MutexTimeout
  import opened MutexRuns

  function NewMutex(): Mcb { Mcb(null, 0, NO_PRIORITY, NO_PRIORITY, []) }

  function NewThread(p: int): Tcb { Tcb(p, p, false, Ok, null, [], null) }

  ghost predicate Foremost(s: State, t: Thread, started: set<Thread>) {
    && t in started && t in s.t && !s.t[t].suspended
    && forall x :: x in started && x in s.t && !s.t[x].suspended ==> s.t[t].cur <= s.t[x].cur
  }

  /** A uniprocessor priority scheduler lets the step happen: its thread is the most urgent of those
      started that do not sleep. Time-outs are interrupts. */
  ghost predicate Scheduled(s: State, e: Step, started: set<Thread>) {
    e.ExpireOf? || (!e.CeilingOf? && Foremost(s, e.t, started))
  }

  /** `t` holds `m`, its only mutex. */
  function Took(s: State, t: Thread, m: Mutex): State
    requires t in s.t && m in s.m
  {
    PutT(PutM(s, m, s.m[m].(owner := t, prio := NO_PRIORITY, hold := 1)), t, s.t[t].(taken := [m]))
  }

  /** `t` waits for `m` in front of everybody else and has raised its owner. */
  function BlockedOn(s: State, t: Thread, m: Mutex, o: Thread): State
    requires t in s.t && o in s.t && m in s.m
  {
    State(s.t[t := s.t[t].(suspended := true, pending := m, call := m)][o := s.t[o].(cur := s.t[t].cur)],
          s.m[m := s.m[m].(waiters := [t] + s.m[m].waiters, prio := s.t[t].cur)])
  }

  /** `t` has timed out; `w` still wait for `m`. */
  function TimedOutOf(s: State, t: Thread, m: Mutex, w: seq<Thread>): State
    requires t in s.t && m in s.m
  {
    PutM(PutT(s, t, s.t[t].(error := TimedOut, suspended := false)), m, s.m[m].(waiters := w))
  }

  /** `t` has cleaned up after `m`, for which nobody waits, and left its owner alone. */
  function Cleaned(s: State, t: Thread, m: Mutex): State
    requires t in s.t && m in s.m
  {
    PutT(PutM(s, m, s.m[m].(prio := NO_PRIORITY)), t, s.t[t].(pending := null, call := null))
  }

  /** `t` has given up `m`, its only mutex, for which nobody waits, and kept its priority. */
  function Released(s: State, t: Thread, m: Mutex): State
    requires t in s.t && m in s.m
  {
    PutT(PutM(s, m, s.m[m].(owner := null, hold := 0, prio := NO_PRIORITY)), t, s.t[t].(taken := []))
  }

  /** A thread outside any call, as ready to take a mutex. */
  predicate Idle(s: State, t: Thread) {
    t in s.t && !s.t[t].suspended && s.t[t].call == null && s.t[t].error == Ok
  }

  lemma FreeStep(s: State, t: Thread, m: Mutex, e: Step, r: State)
    requires Inv(s, Loose) && Idle(s, t) && m in s.m
    requires s.t[t].taken == [] && s.m[m].owner == null && s.m[m].ceiling == NO_PRIORITY
    requires e == TakeBy(t, m, true) && r == Took(s, t, m)
    ensures Enabled(s, e) && Apply(s, e) == r
  {
    assert PutT(s, t, s.t[t].(error := Ok)) == s;
    TakeFreeShape(s, t, m);
    assert [m] + s.t[t].taken == [m];
  }

  lemma JoinsFirst(s: State, t: Thread, m: Mutex, p: int)
    requires t in s.t && m in s.m && Known(s, s.m[m].waiters) && s.t[t].cur < HeadPriority(s, s.m[m].waiters)
    ensures Joined(s, t, m, p)
            == PutM(PutT(s, t, s.t[t].(suspended := true, pending := m, call := m)),
                    m, s.m[m].(waiters := [t] + s.m[m].waiters, prio := p))
  {
    var w := s.m[m].waiters;
    assert Position(Curs(s, w), s.t[t].cur) == 0;
    assert InsertAt(w, 0, t) == [t] + w;
  }

  lemma RaisedOnly(s: State, o: Thread, p: int)
    requires UpdatePre(s, o, p) && !Waiting(s, o)
    ensures UpdatePriority(s, o, p) == SetCur(s, o, p)
  {
  }

  /** Joining in front of the list and raising an owner that waits for nothing. */
  lemma BlockSimple(s: State, t: Thread, m: Mutex, o: Thread)
    requires CanBlock(s, t, m) && s.m[m].owner == o && o in s.t && !Waiting(s, o)
    requires s.t[t].cur < s.m[m].prio && s.t[t].cur < s.t[o].cur
    ensures Block(s, t, m) == BlockedOn(s, t, m, o)
  {
    assert MutexOk(s, m) && PrioOk(s, m, Loose);
    JoinSound(s, t, m);
    var p := s.t[t].cur;
    JoinsFirst(s, t, m, p);
    RaisedOnly(Joined(s, t, m, p), o, p);
  }

  lemma BlockStep(s: State, t: Thread, m: Mutex, o: Thread, e: Step, r: State)
    requires Inv(s, Loose) && Idle(s, t) && m in s.m && o in s.t && t != o && !s.t[o].suspended
    requires s.m[m].owner == o && s.t[t].cur < s.m[m].prio && s.t[t].cur < s.t[o].cur
    requires e == TakeBy(t, m, true) && r == BlockedOn(s, t, m, o)
    ensures Enabled(s, e) && Apply(s, e) == r
  {
    assert PutT(s, t, s.t[t].(error := Ok)) == s;
    BlockSimple(s, t, m, o);
  }

  lemma ExpireStep(s: State, t: Thread, m: Mutex, w: seq<Thread>, e: Step, r: State)
    requires Inv(s, Loose) && t in s.t && m in s.m && s.t[t].suspended && s.t[t].pending == m
    requires s.m[m].waiters == [t] + w && e == ExpireOf(t) && r == TimedOutOf(s, t, m, w)
    ensures Enabled(s, e) && Apply(s, e) == r
  {
    assert Without([t] + w, t) == w;
  }

  lemma CleanupStep(s: State, t: Thread, m: Mutex, o: Thread?, e: Step, r: State)
    requires Inv(s, Loose) && t in s.t && m in s.m && !s.t[t].suspended && s.t[t].call == m
    requires s.t[t].error == TimedOut && s.m[m].waiters == []
    requires s.m[m].owner == o && (o == null || (o in s.t && s.t[o].cur != s.t[t].cur))
    requires e == CleanupBy(t) && r == Cleaned(s, t, m)
    ensures Enabled(s, e) && Apply(s, e) == r
  {
    CleanupLateInv(s, t, Loose);
  }

  lemma FreedIs(s: State, t: Thread, m: Mutex)
    requires t in s.t && m in s.m && s.t[t].taken == [m] && s.m[m].ceiling == NO_PRIORITY && s.t[t].cur != s.m[m].prio
    ensures Freed(s, t, m) == Released(s, t, m)
  {
    assert Without([m], m) == [];
  }

  /** Giving up the last hold of a mutex nobody waits for and nobody boosts. */
  lemma FreeingStep(s: State, t: Thread, m: Mutex, e: Step, r: State)
    requires Inv(s, Loose) && Running(s, t) && m in s.m && s.m[m].owner == t && s.m[m].hold == 1
    requires s.m[m].waiters == [] && s.m[m].ceiling == NO_PRIORITY && s.t[t].cur != s.m[m].prio && s.t[t].taken == [m]
    requires e == ReleaseBy(t, m) && r == Released(s, t, m)
    ensures Enabled(s, e) && Apply(s, e) == r
  {
    ReleaseIs(s, t, m);
    FreedIs(s, t, m);
  }

  lemma DozeStep(s: State, t: Thread, e: Step, r: State)
    requires Inv(s, Loose) && t in s.t && s.t[t].call == null && e == DozeOf(t, true) && r == Doze(s, t, true)
    ensures Enabled(s, e) && Apply(s, e) == r
  {
  }

  /** Taking a free mutex with a ceiling. */
  lemma CeilingTakeStep(s: State, t: Thread, m: Mutex)
    requires Inv(s, Loose) && Running(s, t) && m in s.m && s.t[t].error == Ok && s.t[t].taken == [] && s.m[m].owner == null
    ensures Apply(s, TakeBy(t, m, true))
            == PutT(PutM(s, m, s.m[m].(owner := t, prio := NO_PRIORITY, hold := 1)), t,
                    s.t[t].(cur := Min(s.m[m].ceiling, s.t[t].cur), taken := [m]))
  {
    assert PutT(s, t, s.t[t].(error := Ok)) == s;
    TakeFreeShape(s, t, m);
    assert [m] + s.t[t].taken == [m];
  }

  lemma QueueSimple(s: State, t: Thread, m: Mutex)
    requires CanBlock(s, t, m) && s.m[m].waiters == [] && s.t[t].cur < s.m[m].prio
    requires s.m[m].owner in s.t && s.t[s.m[m].owner].cur <= s.t[t].cur
    ensures Block(s, t, m)
            == PutM(PutT(s, t, s.t[t].(suspended := true, pending := m, call := m)),
                    m, s.m[m].(waiters := [t], prio := s.t[t].cur))
  {
    assert MutexOk(s, m);
    BlockIsJoined(s, t, m);
    JoinsFirst(s, t, m, s.t[t].cur);
    assert [t] + s.m[m].waiters == [t];
  }

  /** Joining the empty list of a mutex whose owner is urgent enough. */
  lemma QueueStep(s: State, t: Thread, m: Mutex)
    requires CanBlock(s, t, m) && s.m[m].waiters == [] && s.t[t].error == Ok && s.t[t].cur < s.m[m].prio
    requires s.m[m].owner in s.t && s.t[s.m[m].owner].cur <= s.t[t].cur
    ensures Apply(s, TakeBy(t, m, true))
            == PutM(PutT(s, t, s.t[t].(suspended := true, pending := m, call := m)),
                    m, s.m[m].(waiters := [t], prio := s.t[t].cur))
  {
    assert PutT(s, t, s.t[t].(error := Ok)) == s;
    QueueSimple(s, t, m);
  }

  /** Handing the only mutex held to its only waiter. */
  lemma HandStep(s: State, t: Thread, m: Mutex, n: Thread)
    requires Inv(s, Loose) && Running(s, t) && m in s.m && s.m[m].owner == t && s.m[m].hold == 1
    requires s.m[m].waiters == [n] && n in s.t && s.t[t].taken == [m] && s.t[n].taken == [] && s.m[m].ceiling != NO_PRIORITY
    ensures Apply(s, ReleaseBy(t, m))
            == PutM(PutT(PutT(s, t, s.t[t].(taken := [], cur := s.t[t].init)), n,
                         s.t[n].(taken := [m], pending := null, suspended := false)),
                    m, s.m[m].(owner := n, hold := 1, waiters := [], prio := NO_PRIORITY))
  {
    ReleaseIs(s, t, m);
    HandedIs(s, t, m);
    assert Without([m], m) == [] && [m] + s.t[n].taken == [m];
    assert FoldTaken(s, [], s.t[t].init) == s.t[t].init;
  }
}
