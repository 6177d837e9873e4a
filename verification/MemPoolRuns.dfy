/** Any history of allocations and frees, by threads that may wait, on one memory pool. */
module MemPoolRuns {
  import opened WaitList
  import opened WaitSide
  import opened MemPool

  /** `out` are the slots handed out and not yet freed. */
  datatype Sys = Sys(total: nat, free: seq<nat>, out: set<nat>, side: Side)

  datatype Step =
    | AllocBy(t: Tid, wait: bool)
    | FreeOf(slot: nat)
    | ExpireOf(t: Tid)

  ghost predicate Inv(s: Sys) {
    && Distinct(s.free)
    && (forall i :: i in s.free ==> i < s.total && i !in s.out)
    && (forall i :: i in s.out ==> i < s.total)
    && (forall i: nat :: i < s.total && i !in s.free ==> i in s.out)
    && SideOk(s.side) && NoneLost(s.side, |s.free|)
  }

  /** A block is freed by a holder; a thread allocates as a newcomer or after it was resumed. */
  ghost predicate Enabled(s: Sys, e: Step) {
    match e
    case AllocBy(t, _) => t !in s.side.waiting
    case FreeOf(slot) => slot in s.out
    case ExpireOf(t) => t in s.side.waiting
  }

  function MpOf(s: Sys): Mp { Mp(s.free, s.side.waiting) }

  /** The pool as an operation leaves it, the slots then handed out, and those resumed that have not
      looked yet. */
  function With(s: Sys, m: Mp, out: set<nat>, woken: set<Tid>): Sys {
    Sys(s.total, m.free, out, Side(m.waiters, woken))
  }

  /** The block an allocation hands out, by its own answer. */
  function Handed(o: Outcome): set<nat> {
    if o.Got? then {o.slot} else {}
  }

  function Apply(s: Sys, e: Step): Sys {
    match e
    case AllocBy(t, wait) =>
      var (m, o) := Alloc(MpOf(s), t, wait);
      With(s, m, s.out + Handed(o), s.side.woken - {t})
    case FreeOf(slot) =>
      var (m, resumed) := Free(MpOf(s), slot);
      With(s, m, s.out - {slot}, s.side.woken + Those(resumed))
    case ExpireOf(t) => s.(side := Expired(s.side, t))
  }

  lemma GotInv(s: Sys, t: Tid, wait: bool)
    requires Inv(s) && Enabled(s, AllocBy(t, wait)) && s.free != []
    ensures Inv(Apply(s, AllocBy(t, wait)))
  {
    AllocAnswers(MpOf(s), t, wait);
    var (m, o) := Alloc(MpOf(s), t, wait);
    TakeLosesNone(s.side, |s.free|, t);
    assert o.slot == s.free[0] && m.free == s.free[1..];
    forall i | i in m.free ensures i in s.free && i != o.slot {}
    assert forall i :: i in s.free ==> i == o.slot || i in m.free;
  }

  lemma AllocInv(s: Sys, t: Tid, wait: bool)
    requires Inv(s) && Enabled(s, AllocBy(t, wait))
    ensures Inv(Apply(s, AllocBy(t, wait)))
  {
    AllocAnswers(MpOf(s), t, wait);
    if s.free != [] {
      GotInv(s, t, wait);
    } else if wait {
      FrontMembers(s.side.waiting, t);
      SleepLosesNone(s.side, [t] + s.side.waiting, t);
    } else {
      GiveUpLosesNone(s.side, t);
    }
  }

  lemma FreeInv(s: Sys, slot: nat)
    requires Inv(s) && Enabled(s, FreeOf(slot))
    ensures Inv(Apply(s, FreeOf(slot)))
  {
    FreeAnswers(MpOf(s), slot);
    var (m, resumed) := Free(MpOf(s), slot);
    SignalLosesNone(s.side, |s.free|, m.waiters, resumed);
    FrontMembers(s.free, slot);
  }

  lemma StepInv(s: Sys, e: Step)
    requires Inv(s) && Enabled(s, e)
    ensures Inv(Apply(s, e))
  {
    match e
    case AllocBy(t, wait) => AllocInv(s, t, wait);
    case FreeOf(slot) => FreeInv(s, slot);
    case ExpireOf(t) => ExpireLosesNone(s.side, |s.free|, t);
  }

  ghost predicate Legal(s: Sys, run: seq<Step>)
    decreases |run|
  {
    run == [] || (Enabled(s, run[0]) && Legal(Apply(s, run[0]), run[1..]))
  }

  function Exec(s: Sys, run: seq<Step>): Sys
    decreases |run|
  {
    if run == [] then s else Exec(Apply(s, run[0]), run[1..])
  }

  lemma {:induction false} RunInv(s: Sys, run: seq<Step>)
    requires Inv(s) && Legal(s, run)
    ensures Inv(Exec(s, run)) && Exec(s, run).total == s.total
    decreases |run|
  {
    if run != [] {
      StepInv(s, run[0]);
      RunInv(Apply(s, run[0]), run[1..]);
    }
  }

  /** The pool as `rt_mp_init` leaves it. */
  function Fresh(total: nat): Sys { Sys(total, UpTo(total), {}, Side([], {})) }

  lemma FreshInv(total: nat)
    ensures Inv(Fresh(total))
  {
    forall i: nat | i < total ensures i in UpTo(total) { assert UpTo(total)[i] == i; }
  }

  lemma {:induction false} BelowCount(n: nat, s: set<nat>)
    requires forall i: nat :: i < n <==> i in s
    ensures |s| == n
  {
    if n > 0 { BelowCount(n - 1, s - {n - 1}); } else { assert s == {}; }
  }

  lemma {:induction false} CountSlots(free: seq<nat>, out: set<nat>, total: nat)
    requires Distinct(free) && (forall i :: i in free ==> i !in out)
    requires forall i: nat :: i < total <==> i in free || i in out
    ensures |free| + |out| == total
    decreases |free|
  {
    if free == [] {
      BelowCount(total, out);
    } else {
      assert free == [free[0]] + free[1..];
      CountSlots(free[1..], out + {free[0]}, total);
    }
  }

  /** After any history: free and allocated slots partition the pool, the next allocation does not hand
      out a block somebody still holds, and no waiting thread has lost its wake-up. */
  lemma NeverHandedOutTwice(total: nat, run: seq<Step>, t: Tid, wait: bool)
    requires Legal(Fresh(total), run)
    ensures var r := Exec(Fresh(total), run);
            && (forall i: nat :: i < total <==> i in r.free || i in r.out)
            && (forall i :: i in r.free ==> i !in r.out) && Distinct(r.free)
            && |r.free| + |r.out| == total
            && (r.free != [] ==>
                  Alloc(MpOf(r), t, wait).1.Got? && Alloc(MpOf(r), t, wait).1.slot !in r.out
                  && Alloc(MpOf(r), t, wait).1.slot < total)
            && (r.side.waiting != [] ==> |r.free| <= |r.side.woken|)
  {
    FreshInv(total);
    RunInv(Fresh(total), run);
    var r := Exec(Fresh(total), run);
    CountSlots(r.free, r.out, total);
    assert r.free != [] ==> r.free[0] in r.free;
  }
}
