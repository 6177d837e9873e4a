/** Runs of the mutex protocol: any interleaving of interrupts-disabled regions of any threads. */
module MutexRuns {
  import opened Objects
  import opened MutexSpec
  import opened MutexSettle
  import opened MutexOps
  import opened MutexInv
  import opened MutexRelease
  import opened MutexTimeout

  datatype Step =
    | TakeBy(t: Thread, m: Mutex, wait: bool)
    | ReturnBy(t: Thread)                      // a blocked take resumes with RT_EOK and returns
    | ReleaseBy(t: Thread, m: Mutex)
    | ExpireOf(t: Thread)                      // the timer of a waiting thread fires
    | CleanupBy(t: Thread)                     // a timed-out take resumes, cleans up and returns
    | RemoveOf(t: Thread)                      // rt_thread_detach: a thread inside a take is taken off all lists
    | DropOf(t: Thread)                        // rt_thread_detach: it drops the mutex
    | CeilingOf(m: Mutex, p: int)
    | DozeOf(t: Thread, asleep: bool)

  ghost predicate Enabled(s: State, e: Step) {
    match e
    case TakeBy(t, m, _) => Running(s, t) && m in s.m
    case ReturnBy(t) => t in s.t && !s.t[t].suspended && s.t[t].call != null && s.t[t].error == Ok
    case ReleaseBy(t, m) => Running(s, t) && m in s.m
    case ExpireOf(t) => t in s.t && Waiting(s, t)
    case CleanupBy(t) => Leaver(s, t) && s.t[t].error != Closing
    case RemoveOf(t) => t in s.t && s.t[t].pending != null && s.t[t].error != Closing
    case DropOf(t) => Leaver(s, t) && s.t[t].error == Closing
    case CeilingOf(m, p) => m in s.m && 0 <= p
    case DozeOf(t, _) => t in s.t && s.t[t].call == null
  }

  ghost function Apply(s: State, e: Step): (r: State)
    requires Inv(s, Loose) && Enabled(s, e)
    ensures Inv(r, Loose)
  {
    match e
    case TakeBy(t, m, wait) => TakeInv(s, t, m, wait, Loose); Take(s, t, m, wait).0
    case ReturnBy(t) => ReturnInv(s, t, Loose); Return(s, t)
    case ReleaseBy(t, m) => ReleaseInv(s, t, m, Loose); Release(s, t, m).0
    case ExpireOf(t) => ExpireInv(s, t, Loose); Expire(s, t)
    case CleanupBy(t) => CleanupLateInv(s, t, Loose); Cleanup(s, t)
    case RemoveOf(t) => RemoveInv(s, t, Loose); Remove(s, t)
    case DropOf(t) => DetachInv(s, t, Loose); Detach(s, t)
    case CeilingOf(m, p) => SetCeilingInv(s, m, p, Loose); SetCeiling(s, m, p).0
    case DozeOf(t, asleep) => DozeInv(s, t, asleep, Loose); Doze(s, t, asleep)
  }

  ghost predicate Legal(s: State, run: seq<Step>)
    requires Inv(s, Loose)
    decreases |run|
  {
    run == [] || (Enabled(s, run[0]) && Legal(Apply(s, run[0]), run[1..]))
  }

  ghost function Exec(s: State, run: seq<Step>): (r: State)
    requires Inv(s, Loose) && Legal(s, run)
    ensures Inv(r, Loose)
    decreases |run|
  {
    if run == [] then s else Exec(Apply(s, run[0]), run[1..])
  }

  // ---- runs of known length --------------------------------------------------------------

  ghost predicate Follows(s: State, e: Step, r: State) {
    Inv(s, Loose) && Enabled(s, e) && Apply(s, e) == r
  }

  ghost predicate Hop(run: seq<Step>, states: seq<State>, i: nat)
    requires i < |run| && i + 1 < |states|
  {
    Follows(states[i], run[i], states[i + 1])
  }

  /** The states a run goes through. */
  ghost predicate Trace(run: seq<Step>, states: seq<State>) {
    |states| == |run| + 1 && forall i :: 0 <= i < |run| ==> Hop(run, states, i)
  }

  lemma TraceTail(run: seq<Step>, states: seq<State>)
    requires Trace(run, states) && run != []
    ensures Trace(run[1..], states[1..]) && Follows(states[0], run[0], states[1])
  {
    assert Hop(run, states, 0);
    forall i | 0 <= i < |run| - 1 ensures Hop(run[1..], states[1..], i) {
      assert Hop(run, states, i + 1);
    }
  }

  lemma Prepended(s: State, e: Step, mid: State, run: seq<Step>)
    requires run != [] && run[0] == e && Follows(s, e, mid) && Inv(mid, Loose) && Legal(mid, run[1..])
    ensures Legal(s, run) && Exec(s, run) == Exec(mid, run[1..])
  {
  }

  /** A trace is a legal run. */
  lemma {:induction false} Traced(run: seq<Step>, states: seq<State>)
    requires Trace(run, states) && Inv(states[0], Loose)
    ensures Legal(states[0], run) && Exec(states[0], run) == states[|run|]
    decreases |run|
  {
    if run != [] {
      TraceTail(run, states);
      Traced(run[1..], states[1..]);
      Prepended(states[0], run[0], states[1], run);
    }
  }

  // ---- from the start --------------------------------------------------------------------

  /** Freshly initialised threads and mutexes. */
  ghost predicate Initial(s: State) {
    && (forall t :: t in s.t ==>
          0 <= s.t[t].init < PRIORITY_MAX && s.t[t] == Tcb(s.t[t].init, s.t[t].init, false, Ok, null, [], null))
    && (forall m :: m in s.m ==> s.m[m] == Mcb(null, 0, NO_PRIORITY, NO_PRIORITY, []))
  }

  lemma InitialInv(s: State, mode: Mode)
    requires Initial(s)
    ensures Inv(s, mode)
  {
    forall t | t in s.t ensures ThreadOk(s, t) && CallOk(s, t) && Bracket(s, t, mode) {}
    forall m | m in s.m ensures MutexOk(s, m) && PrioOk(s, m, mode) {}
  }

  // ---- no priority inversion, in every run -----------------------------------------------

  lemma OwnerUrgent(s: State, m: Mutex, x: Thread)
    requires Inv(s, Loose) && m in s.m && x in s.m[m].waiters
    ensures s.m[m].owner != null && s.m[m].owner in s.t && x in s.t && s.t[s.m[m].owner].cur <= s.t[x].cur
  {
    assert MutexOk(s, m) && PrioOk(s, m, Loose);
    var w, o := s.m[m].waiters, s.m[m].owner;
    assert Bracket(s, o, Loose);
    var i :| 0 <= i < |w| && w[i] == x;
    assert Curs(s, w)[0] <= Curs(s, w)[i];
  }

  /** In every reachable state, time-outs split or not: wait lists are sorted, and an owner is never
      less urgent than any thread waiting for its mutex, nor than its own initial priority. */
  lemma NoInversion(s: State, run: seq<Step>)
    requires Initial(s) && Inv(s, Loose) && Legal(s, run)
    ensures var r := Exec(s, run);
            && (forall m :: m in r.m ==> SortedWaiters(r, r.m[m].waiters))
            && (forall m, x :: m in r.m && x in r.m[m].waiters ==>
                  && r.m[m].owner != null && r.m[m].owner in r.t && x in r.t
                  && r.t[r.m[m].owner].cur <= r.t[x].cur)
            && (forall t :: t in r.t ==> r.t[t].cur <= r.t[t].init)
  {
    var r := Exec(s, run);
    forall m | m in r.m ensures SortedWaiters(r, r.m[m].waiters) { assert PrioOk(r, m, Loose); }
    forall t | t in r.t ensures r.t[t].cur <= r.t[t].init { assert Bracket(r, t, Loose); }
    forall m, x | m in r.m && x in r.m[m].waiters
      ensures r.m[m].owner != null && r.m[m].owner in r.t && x in r.t && r.t[r.m[m].owner].cur <= r.t[x].cur
    {
      OwnerUrgent(r, m, x);
    }
  }

  // ---- ownership -------------------------------------------------------------------------

  ghost function Held(s: State, t: Thread, m: Mutex): int {
    if m in s.m && s.m[m].owner == t then s.m[m].hold else 0
  }

  /** The mutex has been handed over but the take has not returned yet. */
  ghost function Granted(s: State, t: Thread, m: Mutex): int {
    if t in s.t && s.t[t].call == m && !s.t[t].suspended && s.t[t].error == Ok then 1 else 0
  }

  /** Takes of `m` by `t` that return RT_EOK in this step, less releases that do. */
  ghost function Net(s: State, e: Step, t: Thread, m: Mutex): int
    requires Inv(s, Loose) && Enabled(s, e)
  {
    match e
    case TakeBy(t', m', wait) => if t' == t && m' == m && Take(s, t, m, wait).1 == Eok then 1 else 0
    case ReturnBy(t') => if t' == t && s.t[t].call == m then 1 else 0
    case ReleaseBy(t', m') =>
      ReleaseIs(s, t', m');
      if t' == t && m' == m && Release(s, t, m).1 == Eok then -1 else 0
    case _ => 0
  }

  ghost function NetOf(s: State, run: seq<Step>, t: Thread, m: Mutex): int
    requires Inv(s, Loose) && Legal(s, run)
    decreases |run|
  {
    if run == [] then 0 else Net(s, run[0], t, m) + NetOf(Apply(s, run[0]), run[1..], t, m)
  }

  ghost predicate Balanced(s: State, r: State, net: int, t: Thread, m: Mutex) {
    Held(r, t, m) - Granted(r, t, m) == Held(s, t, m) - Granted(s, t, m) + net
  }

  lemma ShapeBalanced(s: State, r: State, t: Thread, m: Mutex)
    requires SameShape(s, r)
    ensures Balanced(s, r, 0, t, m)
  {
    if m in s.m { assert SameMutex(s.m[m], r.m[m]); }
    if t in s.t { assert SameThread(s.t[t], r.t[t]); }
  }

  /** Outside a granted take, leaving the call and changing the error cost nothing. */
  lemma FieldsBalanced(s: State, t': Thread, f: Tcb, t: Thread, m: Mutex)
    requires t' in s.t && (s.t[t'].call == null || s.t[t'].suspended || s.t[t'].error != Ok)
    requires f.call == null || f.suspended || f.error != Ok
    ensures Balanced(s, PutT(s, t', f), 0, t, m)
  {
  }

  lemma OwnBalanced(s: State, t': Thread, m': Mutex, wait: bool, t: Thread, m: Mutex)
    requires Inv(s, Loose) && Running(s, t') && m' in s.m && s.m[m'].owner == t'
    ensures var k := TakeFrom(s, t', m', wait);
            Balanced(s, k.0, if t' == t && m' == m && k.1 == Eok then 1 else 0, t, m)
  {
    OwnTake(s, t', m', wait);
  }

  lemma FreeBalanced(s: State, t': Thread, m': Mutex, wait: bool, t: Thread, m: Mutex)
    requires Inv(s, Loose) && Running(s, t') && m' in s.m && s.m[m'].owner == null
    ensures var k := TakeFrom(s, t', m', wait);
            Balanced(s, k.0, if t' == t && m' == m && k.1 == Eok then 1 else 0, t, m)
  {
    TakeFreeShape(s, t', m');
  }

  lemma BalancedOn(s: State, j: State, r: State, t: Thread, m: Mutex)
    requires Balanced(s, j, 0, t, m) && SameShape(j, r)
    ensures Balanced(s, r, 0, t, m)
  {
    ShapeBalanced(j, r, t, m);
  }

  lemma JoinedBalanced(s: State, t': Thread, m': Mutex, q: int, t: Thread, m: Mutex)
    requires t' in s.t && s.t[t'].call == null && m' in s.m && Known(s, s.m[m'].waiters)
    ensures Balanced(s, Joined(s, t', m', q), 0, t, m)
  {
  }

  lemma BlockBalanced(s: State, t': Thread, m': Mutex, t: Thread, m: Mutex)
    requires CanBlock(s, t', m') && s.t[t'].error == Ok
    ensures Balanced(s, Block(s, t', m'), 0, t, m)
  {
    BlockInv(s, t', m', Loose);
    var q := Min(s.t[t'].cur, s.m[m'].prio);
    JoinedBalanced(s, t', m', q, t, m);
    BalancedOn(s, Joined(s, t', m', q), Block(s, t', m'), t, m);
  }

  lemma TakeFromBalanced(s: State, t': Thread, m': Mutex, wait: bool, t: Thread, m: Mutex)
    requires Inv(s, Loose) && Running(s, t') && s.t[t'].error == Ok && m' in s.m
    ensures var k := TakeFrom(s, t', m', wait);
            Balanced(s, k.0, if t' == t && m' == m && k.1 == Eok then 1 else 0, t, m)
  {
    if s.m[m'].owner == t' { OwnBalanced(s, t', m', wait, t, m); }
    else if s.m[m'].owner == null { FreeBalanced(s, t', m', wait, t, m); }
    else if wait { BlockBalanced(s, t', m', t, m); }
    else { FieldsBalanced(s, t', s.t[t'].(error := TimedOut), t, m); }
  }

  lemma TakeBalanced(s: State, t': Thread, m': Mutex, wait: bool, t: Thread, m: Mutex)
    requires Inv(s, Loose) && Running(s, t') && m' in s.m
    ensures var k := Take(s, t', m', wait);
            Balanced(s, k.0, if t' == t && m' == m && k.1 == Eok then 1 else 0, t, m)
  {
    ErrorKeepsInv(s, t', Ok, Loose);
    var s0 := PutT(s, t', s.t[t'].(error := Ok));
    FieldsBalanced(s, t', s0.t[t'], t, m);
    TakeFromBalanced(s0, t', m', wait, t, m);
  }

  lemma HeirCall(s: State, m: Mutex, x: Thread)
    requires Inv(s, Loose) && m in s.m && x in s.m[m].waiters
    ensures x in s.t && s.t[x].suspended && s.t[x].call == m && s.t[x].error == Ok
  {
    assert MutexOk(s, m) && CallOk(s, x);
  }

  /** The heir's take is granted, the giver's hold is gone, and nobody else notices. */
  lemma HandedOn(s: State, r: State, t': Thread, f: Tcb, n: Thread, g: Tcb, m': Mutex, h: Mcb, t: Thread, m: Mutex)
    requires t' in s.t && n in s.t && n != t' && m' in s.m
    requires r.t == s.t[t' := f][n := g] && r.m == s.m[m' := h]
    requires s.m[m'].owner == t' && s.m[m'].hold == 1 && h.owner == n && h.hold == 1
    requires s.t[t'].call == null && f.call == null
    requires s.t[n].suspended && !g.suspended && g.call == m' && g.error == Ok
    ensures Balanced(s, r, if t' == t && m' == m then -1 else 0, t, m)
  {
  }

  lemma HandedBalanced(s: State, t': Thread, m': Mutex, t: Thread, m: Mutex)
    requires CanHand(s, t', m')
    ensures KnownMutexes(s, s.t[t'].taken) && Known(s, s.m[m'].waiters)
    ensures Balanced(s, Handed(s, t', m'), if t' == t && m' == m then -1 else 0, t, m)
  {
    HandedIs(s, t', m');
    WaitersApart(s, t', m');
    HeirCall(s, m', s.m[m'].waiters[0]);
    var r, n := Handed(s, t', m'), s.m[m'].waiters[0];
    HandedOn(s, r, t', r.t[t'], n, r.t[n], m', r.m[m'], t, m);
  }

  lemma NestedBalanced(s: State, t': Thread, m': Mutex, t: Thread, m: Mutex)
    requires t' in s.t && m' in s.m && s.m[m'].owner == t'
    ensures Balanced(s, PutM(s, m', s.m[m'].(hold := s.m[m'].hold - 1)), if t' == t && m' == m then -1 else 0, t, m)
  {
  }

  lemma FreedBalanced(s: State, t': Thread, m': Mutex, t: Thread, m: Mutex)
    requires t' in s.t && m' in s.m && s.m[m'].owner == t' && s.m[m'].hold == 1 && KnownMutexes(s, s.t[t'].taken)
    requires s.t[t'].call == null
    ensures Balanced(s, Freed(s, t', m'), if t' == t && m' == m then -1 else 0, t, m)
  {
  }

  lemma ReleaseBalanced(s: State, t': Thread, m': Mutex, t: Thread, m: Mutex)
    requires Inv(s, Loose) && Running(s, t') && m' in s.m
    ensures KnownMutexes(s, s.t[t'].taken) && Known(s, s.m[m'].waiters)
    ensures var k := Release(s, t', m');
            Balanced(s, k.0, if t' == t && m' == m && k.1 == Eok then -1 else 0, t, m)
  {
    ReleaseIs(s, t', m');
    if s.m[m'].owner != t' {
      FieldsBalanced(s, t', s.t[t'].(error := Failed), t, m);
    } else if s.m[m'].hold > 1 {
      NestedBalanced(s, t', m', t, m);
    } else if s.m[m'].waiters != [] {
      HandedBalanced(s, t', m', t, m);
    } else {
      FreedBalanced(s, t', m', t, m);
    }
  }

  lemma CleanupShape(s: State, t: Thread)
    requires Inv(s, Loose) && Leaver(s, t)
    ensures s.t[t].call in s.m && Sound(s) && SameShape(s, Abandon(s, s.t[t].call, t))
  {
    CleanupLateInv(s, t, Loose);
    assert CallOk(s, t);
    AbandonRepairs(s, s.t[t].call, t, Loose);
  }

  lemma CleanupBalanced(s: State, t': Thread, t: Thread, m: Mutex)
    requires Inv(s, Loose) && Leaver(s, t')
    ensures s.t[t'].call in s.m && Sound(s) && Balanced(s, Cleanup(s, t'), 0, t, m)
  {
    CleanupShape(s, t');
    var r := Abandon(s, s.t[t'].call, t');
    ShapeBalanced(s, r, t, m);
    assert SameThread(s.t[t'], r.t[t']);
    FieldsBalanced(r, t', r.t[t'].(pending := null, call := null), t, m);
  }

  lemma RemoveBalanced(s: State, t': Thread, t: Thread, m: Mutex)
    requires Inv(s, Loose) && t' in s.t && s.t[t'].pending != null
    ensures s.t[t'].pending in s.m && Balanced(s, Remove(s, t'), 0, t, m)
  {
    WaitingOrLeaver(s, t');
  }

  lemma DetachBalanced(s: State, t': Thread, t: Thread, m: Mutex)
    requires Inv(s, Loose) && Enabled(s, DropOf(t'))
    ensures Balanced(s, Apply(s, DropOf(t')), 0, t, m)
  {
    DetachIs(s, t');
    CleanupBalanced(s, t', t, m);
  }

  lemma CeilingOnly(s: State, r: State, m': Mutex, p: int, t: Thread, m: Mutex)
    requires m' in s.m && SameShape(PutM(s, m', s.m[m'].(ceiling := p)), r)
    ensures Balanced(s, r, 0, t, m)
  {
    ShapeBalanced(PutM(s, m', s.m[m'].(ceiling := p)), r, t, m);
  }

  lemma CeilingBalanced(s: State, m': Mutex, p: int, t: Thread, m: Mutex)
    requires Inv(s, Loose) && m' in s.m && 0 <= p
    ensures Sound(s) && Balanced(s, SetCeiling(s, m', p).0, 0, t, m)
  {
    SetCeilingInv(s, m', p, Loose);
    if p < PRIORITY_MAX {
      CeilingOnly(s, SetCeiling(s, m', p).0, m', p, t, m);
    }
  }

  lemma ExpireBalanced(s: State, t': Thread, t: Thread, m: Mutex)
    requires Inv(s, Loose) && t' in s.t && Waiting(s, t')
    ensures s.t[t'].pending in s.m && Balanced(s, Expire(s, t'), 0, t, m)
  {
    ExpireStruct(s, t');
  }

  lemma StepBalanced(s: State, e: Step, t: Thread, m: Mutex)
    requires Inv(s, Loose) && Enabled(s, e)
    ensures Balanced(s, Apply(s, e), Net(s, e, t, m), t, m)
  {
    match e
    case TakeBy(t', m', wait) => TakeBalanced(s, t', m', wait, t, m);
    case ReturnBy(t') =>
    case ReleaseBy(t', m') => ReleaseBalanced(s, t', m', t, m);
    case ExpireOf(t') => ExpireBalanced(s, t', t, m);
    case CleanupBy(t') => CleanupBalanced(s, t', t, m);
    case RemoveOf(t') => RemoveBalanced(s, t', t, m);
    case DropOf(t') => DetachBalanced(s, t', t, m);
    case CeilingOf(m', p) => CeilingBalanced(s, m', p, t, m);
    case DozeOf(t', asleep) =>
  }

  lemma {:induction false} RunBalanced(s: State, run: seq<Step>, t: Thread, m: Mutex)
    requires Inv(s, Loose) && Legal(s, run)
    ensures Balanced(s, Exec(s, run), NetOf(s, run, t, m), t, m)
    decreases |run|
  {
    if run != [] {
      StepBalanced(s, run[0], t, m);
      RunBalanced(Apply(s, run[0]), run[1..], t, m);
    }
  }

  /** In every reachable state a mutex's hold count is the number of takes its owner has completed
      and not yet released (one more while a hand-off has not returned), and is at most 255;
      a thread that does not own it has completed exactly as many takes as releases. */
  lemma HoldCountsTakes(s: State, run: seq<Step>, t: Thread, m: Mutex)
    requires Initial(s) && Inv(s, Loose) && Legal(s, run) && m in Exec(s, run).m
    ensures var r := Exec(s, run);
            && Held(r, t, m) == NetOf(s, run, t, m) + Granted(r, t, m)
            && 0 <= r.m[m].hold <= HOLD_MAX
            && (r.m[m].owner == null <==> r.m[m].hold == 0)
            && (r.m[m].owner == null ==> r.m[m].waiters == [])
            && (r.m[m].owner == t <==> t in r.t && m in r.t[t].taken)
  {
    RunBalanced(s, run, t, m);
    var r := Exec(s, run);
    assert MutexOk(r, m);
    if t in r.t { assert ThreadOk(r, t); }
  }

  /** A take that returns RT_EOK at once leaves the caller owning the mutex; for one that returns RT_EOK
      after a wait see MutexTimeout.ReturnInv. */
  lemma EokOwns(s: State, t: Thread, m: Mutex, wait: bool)
    requires Inv(s, Loose) && Running(s, t) && m in s.m
    ensures Take(s, t, m, wait).1 == Eok ==>
              m in Apply(s, TakeBy(t, m, wait)).m && Apply(s, TakeBy(t, m, wait)).m[m].owner == t
  {
    ErrorKeepsInv(s, t, Ok, Loose);
    var s0 := PutT(s, t, s.t[t].(error := Ok));
    if s0.m[m].owner == t { OwnTake(s0, t, m, wait); }
    else if s0.m[m].owner == null { TakeFreeShape(s0, t, m); }
  }
}
