/** Counting semaphores with direct hand-off to the first waiter. */
module Semaphore {
  import opened WaitList
  import opened WaitSide

  const VALUE_MAX := 65535

  datatype Sem = Sem(value: nat, waiters: seq<Tid>)

  /** RT_EOK, -RT_ETIMEOUT, -RT_EFULL, or the caller went to sleep. */
  datatype Status = Eok | Etimeout | Efull | Suspended

  /** The critical section of `_rt_sem_take`. */
  function Take(s: Sem, flag: Flag, prio: Tid -> int, t: Tid, wait: bool): (Sem, Status) {
    if s.value > 0 then (s.(value := s.value - 1), Eok)
    else if !wait then (s, Etimeout)
    else (s.(waiters := Queued(flag, prio, s.waiters, t)), Suspended)
  }

  /** `rt_sem_release`: hand over to the first waiter, or count up to RT_SEM_VALUE_MAX. */
  function Release(s: Sem): (Sem, Status, Option<Tid>) {
    if s.waiters != [] then (s.(waiters := s.waiters[1..]), Eok, Some(s.waiters[0]))
    else if s.value < VALUE_MAX then (s.(value := s.value + 1), Eok, None)
    else (s, Efull, None)
  }

  /** A take answers RT_EOK if and only if there is a unit, and takes exactly one. Without one it answers
      -RT_ETIMEOUT and changes nothing, or queues the caller where the flag wants it. */
  lemma TakeAnswers(s: Sem, flag: Flag, prio: Tid -> int, t: Tid, wait: bool)
    ensures var (r, st) := Take(s, flag, prio, t, wait);
            && (st == Eok <==> s.value > 0) && (st == Etimeout <==> s.value == 0 && !wait)
            && (st == Eok ==> r.value + 1 == s.value && r.waiters == s.waiters)
            && (st == Etimeout ==> r == s)
            && (st != Eok && st != Etimeout ==>
                  st == Suspended && r.value == s.value && Joins(flag, prio, s.waiters, r.waiters, t))
  {
    QueuedJoins(flag, prio, s.waiters, t);
  }

  /** A release answers -RT_EFULL, with nothing changed, if and only if nobody waits and the count is at
      its 16-bit limit. Otherwise it resumes exactly the first sleeper, or counts one unit up. */
  lemma ReleaseAnswers(s: Sem)
    ensures var (r, st, resumed) := Release(s);
            && ResumesFirst(s.waiters, r.waiters, resumed)
            && (st == Efull <==> s.waiters == [] && s.value >= 65535)
            && (st != Efull ==> st == Eok)
            && r.value == if s.waiters == [] && s.value < 65535 then s.value + 1 else s.value
  {
  }

  class Counter {
    const flag: Flag
    var value: nat
    var waiters: seq<Tid>

    constructor (value: nat, flag: Flag)
      requires value <= VALUE_MAX
      ensures View() == Sem(value, []) && this.flag == flag
    {
      this.value, this.flag, waiters := value, flag, [];
    }

    ghost function View(): Sem
      reads this
    {
      Sem(value, waiters)
    }

    method TakeOne(prio: Tid -> int, t: Tid, wait: bool) returns (st: Status)
      modifies this
      ensures (View(), st) == Take(old(View()), flag, prio, t, wait)
      ensures st == Eok <==> old(value) > 0
      ensures st == Etimeout <==> old(value) == 0 && !wait
      ensures value == if st == Eok then old(value) - 1 else old(value)
      ensures st == Suspended ==> Joins(flag, prio, old(waiters), waiters, t)
      ensures st != Suspended ==> waiters == old(waiters)
    {
      QueuedJoins(flag, prio, waiters, t);
      if value > 0 {
        value := value - 1;
        st := Eok;
      } else if !wait {
        st := Etimeout;
      } else {
        waiters := Queued(flag, prio, waiters, t);
        st := Suspended;
      }
    }

    method ReleaseOne() returns (st: Status, resumed: Option<Tid>)
      modifies this
      ensures (View(), st, resumed) == Release(old(View()))
      ensures ResumesFirst(old(waiters), waiters, resumed)
      ensures st == if old(waiters) == [] && old(value) >= 65535 then Efull else Eok
      ensures value == if old(waiters) == [] && st == Eok then old(value) + 1 else old(value)
    {
      resumed := None;
      if waiters != [] {
        resumed := Some(waiters[0]);
        waiters := waiters[1..];
      } else if value < VALUE_MAX {
        value := value + 1;
      } else {
        return Efull, None;
      }
      st := Eok;
    }

    /** `rt_sem_control` with RT_IPC_CMD_RESET: all sleepers are resumed with an error, in order, and the
        new value is cut to 16 bits. */
    method Reset(v: nat) returns (resumed: seq<Tid>)
      modifies this
      ensures View() == Sem(v % 65536, []) && resumed == old(waiters)
    {
      resumed := ResumeAll(waiters);
      waiters := [];
      value := v % 0x1_0000;
    }
  }

  // ---- runs ------------------------------------------------------------------------------

  /** `granted` are the sleepers that were handed a unit and have not yet returned from their take. */
  datatype Sys = Sys(sem: Sem, flag: Flag, granted: set<Tid>)

  datatype Step =
    | TakeBy(t: Tid, wait: bool, prio: Tid -> int)
    | ReturnBy(t: Tid)
    | ReleaseOnce
    | ExpireOf(t: Tid)

  ghost predicate Inv(s: Sys) {
    && s.sem.value <= VALUE_MAX
    && (s.sem.value > 0 ==> s.sem.waiters == [])
    && SideOk(Side(s.sem.waiters, s.granted))
  }

  ghost predicate Enabled(s: Sys, e: Step) {
    match e
    case TakeBy(t, _, _) => t !in s.sem.waiters && t !in s.granted
    case ReturnBy(t) => t in s.granted
    case ReleaseOnce => true
    case ExpireOf(t) => t in s.sem.waiters
  }

  function Apply(s: Sys, e: Step): Sys {
    match e
    case TakeBy(t, wait, prio) => s.(sem := Take(s.sem, s.flag, prio, t, wait).0)
    case ReturnBy(t) => s.(granted := s.granted - {t})
    case ReleaseOnce =>
      var (sem, _, resumed) := Release(s.sem);
      Sys(sem, s.flag, s.granted + Those(resumed))
    case ExpireOf(t) => s.(sem := s.sem.(waiters := Without(s.sem.waiters, t)))
  }

  /** Takes that return RT_EOK in this step: at once, or after the thread was handed a unit. */
  function Takes(s: Sys, e: Step): nat {
    match e
    case TakeBy(t, wait, prio) => if Take(s.sem, s.flag, prio, t, wait).1 == Eok then 1 else 0
    case ReturnBy(_) => 1
    case _ => 0
  }

  /** Releases that return RT_EOK in this step. */
  function Releases(s: Sys, e: Step): nat {
    if e.ReleaseOnce? && Release(s.sem).1 == Eok then 1 else 0
  }

  lemma StepInv(s: Sys, e: Step)
    requires Inv(s) && Enabled(s, e)
    ensures Inv(Apply(s, e))
    ensures s.sem.value + |s.granted| + Releases(s, e)
            == Apply(s, e).sem.value + |Apply(s, e).granted| + Takes(s, e)
  {
    match e
    case TakeBy(t, wait, prio) =>
      TakeAnswers(s.sem, s.flag, prio, t, wait);
      var (r, st) := Take(s.sem, s.flag, prio, t, wait);
      if st == Suspended { JoinsMembers(s.flag, prio, s.sem.waiters, r.waiters, t); }
    case ReturnBy(t) => assert |s.granted - {t}| == |s.granted| - 1;
    case ReleaseOnce =>
      ReleaseAnswers(s.sem);
      var (r, _, resumed) := Release(s.sem);
      if s.sem.waiters != [] {
        SignalLosesNone(Side(s.sem.waiters, s.granted), |s.granted|, r.waiters, resumed);
        assert resumed == Some(s.sem.waiters[0]) && s.sem.waiters[0] in s.sem.waiters;
      }
    case ExpireOf(t) => WithoutDistinct(s.sem.waiters, t);
  }

  ghost predicate Legal(s: Sys, run: seq<Step>)
    decreases |run|
  {
    run == [] || (Enabled(s, run[0]) && Legal(Apply(s, run[0]), run[1..]))
  }

  function Exec(s: Sys, run: seq<Step>): Sys
    decreases |run|
  {
    if run == [] then s else Exec(Apply(s, run[0]), run[1..])
  }

  function AllTakes(s: Sys, run: seq<Step>): nat
    decreases |run|
  {
    if run == [] then 0 else Takes(s, run[0]) + AllTakes(Apply(s, run[0]), run[1..])
  }

  function AllReleases(s: Sys, run: seq<Step>): nat
    decreases |run|
  {
    if run == [] then 0 else Releases(s, run[0]) + AllReleases(Apply(s, run[0]), run[1..])
  }

  /** Over every run without a reset: the units there were, plus the successful releases, are the units
      there are, plus the completed takes, plus the hand-offs not yet returned. No unit waits while a
      thread sleeps, and the count stays within 16 bits. */
  lemma {:induction false} UnitsConserved(s: Sys, run: seq<Step>)
    requires Inv(s) && Legal(s, run)
    ensures var r := Exec(s, run);
            && s.sem.value + |s.granted| + AllReleases(s, run) == r.sem.value + |r.granted| + AllTakes(s, run)
            && (r.sem.waiters != [] ==> r.sem.value == 0)
            && r.sem.value <= VALUE_MAX
    decreases |run|
  {
    if run != [] {
      StepInv(s, run[0]);
      UnitsConserved(Apply(s, run[0]), run[1..]);
    }
  }
}
