/** The mutex protocol of ipc.c on snapshots of the kernel records: what every
    interrupts-disabled region does to the state, and the invariants it keeps. */
module MutexSpec {
  import opened Objects
  import opened WaitList

  const NO_PRIORITY := 0xff
  const HOLD_MAX := 255
  const PRIORITY_MAX := 32

  datatype Tcb = Tcb(init: int, cur: int, suspended: bool, error: Error,
                     pending: Mutex?, taken: seq<Mutex>, call: Mutex?)

  datatype Mcb = Mcb(owner: Thread?, hold: int, prio: int, ceiling: int, waiters: seq<Thread>)

  datatype State = State(t: map<Thread, Tcb>, m: map<Mutex, Mcb>)

  /** How much the invariant claims: that lists are sorted and owners urgent enough; or also that the
      priority of every mutex but the `stale` ones is that of its first waiter; or also that no priority is
      more urgent than something accounts for. */
  datatype Mode = Loose | Current(stale: set<Mutex>) | Exact(stale: set<Mutex>)

  function Staled(mode: Mode, m: Mutex): Mode {
    match mode
    case Loose => Loose
    case Current(stale) => Current(stale + {m})
    case Exact(stale) => Exact(stale + {m})
  }

  function Fresh(mode: Mode, m: Mutex): Mode {
    match mode
    case Loose => Loose
    case Current(stale) => Current(stale - {m})
    case Exact(stale) => Exact(stale - {m})
  }

  // ---- structure -------------------------------------------------------------------------

  ghost predicate ThreadOk(s: State, t: Thread)
    requires t in s.t
  {
    var r := s.t[t];
    && 0 <= r.cur <= NO_PRIORITY
    && 0 <= r.init < PRIORITY_MAX
    && Distinct(r.taken)
    && (forall m :: m in r.taken ==> m in s.m && s.m[m].owner == t)
    && (r.pending != null ==> r.pending in s.m)
    && (r.pending != null && r.suspended ==> t in s.m[r.pending].waiters)
  }

  ghost predicate MutexOk(s: State, m: Mutex)
    requires m in s.m
  {
    var r := s.m[m];
    && 0 <= r.prio <= NO_PRIORITY
    && 0 <= r.ceiling <= NO_PRIORITY
    && Distinct(r.waiters)
    && (forall t :: t in r.waiters ==> t in s.t && s.t[t].suspended && s.t[t].pending == m && t != r.owner)
    && (r.owner == null ==> r.hold == 0 && r.waiters == [])
    && (r.owner != null ==> r.owner in s.t && 1 <= r.hold <= HOLD_MAX && m in s.t[r.owner].taken)
  }

  ghost predicate Struct(s: State) {
    && (forall t :: t in s.t ==> ThreadOk(s, t))
    && (forall m :: m in s.m ==> MutexOk(s, m))
  }

  /** A thread inside a blocking take is queued, or was handed the mutex, or timed out and has
      not yet run the clean-up half. */
  ghost predicate CallOk(s: State, t: Thread)
    requires t in s.t
  {
    var r := s.t[t];
    if r.call == null then r.pending == null
    else
      && r.call in s.m
      && if r.suspended then r.pending == r.call && r.error == Ok
         else if r.error == Ok then r.pending == null && s.m[r.call].owner == t
         else r.pending == r.call && r.error != Failed
  }

  predicate Waiting(s: State, t: Thread)
    requires t in s.t
  {
    s.t[t].suspended && s.t[t].pending != null
  }

  // ---- priorities ------------------------------------------------------------------------

  predicate Known(s: State, w: seq<Thread>) {
    forall x :: x in w ==> x in s.t
  }

  function Curs(s: State, w: seq<Thread>): (ps: seq<int>)
    requires Known(s, w)
    ensures |ps| == |w| && forall i :: 0 <= i < |w| ==> ps[i] == s.t[w[i]].cur
  {
    seq(|w|, i requires 0 <= i < |w| => s.t[w[i]].cur)
  }

  predicate SortedWaiters(s: State, w: seq<Thread>) {
    Known(s, w) && Ascending(Curs(s, w))
  }

  function HeadPriority(s: State, w: seq<Thread>): int
    requires Known(s, w)
  {
    if w == [] then NO_PRIORITY else s.t[w[0]].cur
  }

  /** `mutex->priority` is the head waiter's priority; between the two halves of a time-out it may
      still be the more urgent priority of a thread that left. */
  ghost predicate PrioOk(s: State, m: Mutex, mode: Mode)
    requires m in s.m
  {
    && SortedWaiters(s, s.m[m].waiters)
    && s.m[m].prio <= HeadPriority(s, s.m[m].waiters)
    && (!mode.Loose? && m !in mode.stale ==> s.m[m].prio == HeadPriority(s, s.m[m].waiters))
  }

  function Min(a: int, b: int): int { if a < b then a else b }

  predicate KnownMutexes(s: State, ms: seq<Mutex>) {
    forall m :: m in ms ==> m in s.m
  }

  /** `_thread_get_mutex_priority`, from the mutexes still to visit and the value so far. */
  function FoldTaken(s: State, ms: seq<Mutex>, acc: int): int
    requires KnownMutexes(s, ms)
  {
    if ms == [] then acc
    else FoldTaken(s, ms[1..], Min(acc, Min(s.m[ms[0]].prio, s.m[ms[0]].ceiling)))
  }

  function Deserved(s: State, t: Thread): int
    requires t in s.t && KnownMutexes(s, s.t[t].taken)
  {
    FoldTaken(s, s.t[t].taken, s.t[t].init)
  }

  /** The same without the ceilings. */
  function FoldInherited(s: State, ms: seq<Mutex>, acc: int): int
    requires KnownMutexes(s, ms)
  {
    if ms == [] then acc else FoldInherited(s, ms[1..], Min(acc, s.m[ms[0]].prio))
  }

  function Inherited(s: State, t: Thread): int
    requires t in s.t && KnownMutexes(s, s.t[t].taken)
  {
    FoldInherited(s, s.t[t].taken, s.t[t].init)
  }

  /** No less urgent than its own priority and every mutex it holds. */
  ghost predicate Upper(s: State, t: Thread)
    requires t in s.t
  {
    && s.t[t].cur <= s.t[t].init
    && forall m :: m in s.t[t].taken && m in s.m ==> s.t[t].cur <= s.m[m].prio
  }

  /** No more urgent than something it holds, or its own priority, accounts for. */
  ghost predicate Lower(s: State, t: Thread)
    requires t in s.t
  {
    || s.t[t].init <= s.t[t].cur
    || exists m :: m in s.t[t].taken && m in s.m && Min(s.m[m].prio, s.m[m].ceiling) <= s.t[t].cur
  }

  ghost predicate Bracket(s: State, t: Thread, mode: Mode)
    requires t in s.t
  {
    Upper(s, t) && (mode.Exact? ==> Lower(s, t))
  }

  /** The invariant. */
  ghost predicate Inv(s: State, mode: Mode) {
    && Struct(s)
    && (forall t :: t in s.t ==> CallOk(s, t) && Bracket(s, t, mode))
    && (forall m :: m in s.m ==> PrioOk(s, m, mode))
  }

  // ---- what the folds mean ---------------------------------------------------------------

  lemma {:induction false} FoldTakenMeaning(s: State, ms: seq<Mutex>, acc: int)
    requires KnownMutexes(s, ms)
    ensures var r := FoldTaken(s, ms, acc);
            && r <= acc
            && (forall m :: m in ms ==> r <= Min(s.m[m].prio, s.m[m].ceiling))
            && (r == acc || exists m :: m in ms && r == Min(s.m[m].prio, s.m[m].ceiling))
  {
    if ms != [] {
      var acc' := Min(acc, Min(s.m[ms[0]].prio, s.m[ms[0]].ceiling));
      FoldTakenMeaning(s, ms[1..], acc');
      assert ms == [ms[0]] + ms[1..];
    }
  }

  lemma {:induction false} FoldInheritedMeaning(s: State, ms: seq<Mutex>, acc: int)
    requires KnownMutexes(s, ms)
    ensures var r := FoldInherited(s, ms, acc);
            && r <= acc
            && (forall m :: m in ms ==> r <= s.m[m].prio)
            && (r == acc || exists m :: m in ms && r == s.m[m].prio)
  {
    if ms != [] {
      FoldInheritedMeaning(s, ms[1..], Min(acc, s.m[ms[0]].prio));
      assert ms == [ms[0]] + ms[1..];
    }
  }

  /** The bracket P(t) <= current_priority <= Q(t) in terms of the two folds, both directions. */
  lemma BracketIsFolds(s: State, t: Thread)
    requires t in s.t && KnownMutexes(s, s.t[t].taken)
    ensures Bracket(s, t, Exact({})) <==> Deserved(s, t) <= s.t[t].cur <= Inherited(s, t)
    ensures Upper(s, t) <==> s.t[t].cur <= Inherited(s, t)
    ensures Deserved(s, t) <= Inherited(s, t)
  {
    FoldTakenMeaning(s, s.t[t].taken, s.t[t].init);
    FoldInheritedMeaning(s, s.t[t].taken, s.t[t].init);
  }
}
