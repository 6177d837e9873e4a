/** Any interleaving of senders, receivers, time-outs and resets on one mailbox. */
module MailboxRuns {
  import opened WaitList
  import opened WaitSide
  import opened Mailbox

  datatype Sys = Sys(items: seq<int>, cap: nat, flag: Flag, recv: Side, send: Side)

  function BoxOf(s: Sys): Box { Box(s.items, s.cap, s.recv.waiting, s.send.waiting) }

  ghost predicate Inv(s: Sys) {
    && |s.items| <= s.cap
    && SideOk(s.recv) && SideOk(s.send)
    && NoneLost(s.recv, |s.items|)
    && NoneLost(s.send, s.cap - |s.items|)
  }

  /** A thread enters a region as a newcomer or because it was resumed on that side; a resumed thread
      whose time has run out enters with `wait` false. */
  datatype Step =
    | SendBy(t: Tid, v: int, wait: bool, prio: Tid -> int)
    | UrgentBy(v: int)
    | RecvBy(t: Tid, wait: bool, prio: Tid -> int)
    | ExpireOf(t: Tid)
    | ResetAll

  ghost predicate Enabled(s: Sys, e: Step) {
    match e
    case SendBy(t, _, _, _) => t !in s.recv.waiting && t !in s.send.waiting && t !in s.recv.woken
    case UrgentBy(_) => true
    case RecvBy(t, _, _) => t !in s.recv.waiting && t !in s.send.waiting && t !in s.send.woken
    case ExpireOf(t) => t in s.recv.waiting || t in s.send.waiting
    case ResetAll => true
  }

  /** The mailbox as an operation leaves it, and those then resumed that have not looked yet. */
  function With(s: Sys, b: Box, recv: set<Tid>, send: set<Tid>): Sys {
    Sys(b.items, b.cap, s.flag, Side(b.receivers, recv), Side(b.senders, send))
  }

  /** Whom the operation resumed, by its own answer. */
  function Woken(o: Outcome): set<Tid> {
    if o.Ok? then Those(o.resumed) else {}
  }

  function Apply(s: Sys, e: Step): Sys {
    match e
    case SendBy(t, v, wait, prio) =>
      var (b, o) := SendRegion(BoxOf(s), s.flag, prio, t, v, wait);
      With(s, b, s.recv.woken + Woken(o), s.send.woken - {t})
    case UrgentBy(v) =>
      var (b, o) := UrgentRegion(BoxOf(s), v);
      With(s, b, s.recv.woken + Woken(o), s.send.woken)
    case RecvBy(t, wait, prio) =>
      var (b, o) := RecvRegion(BoxOf(s), s.flag, prio, t, wait);
      With(s, b, s.recv.woken - {t}, s.send.woken + Woken(o))
    case ExpireOf(t) => s.(recv := Expired(s.recv, t), send := Expired(s.send, t))
    case ResetAll => With(s, ResetRegion(BoxOf(s)), s.recv.woken, s.send.woken)
  }

  lemma SendInv(s: Sys, t: Tid, v: int, wait: bool, prio: Tid -> int)
    requires Inv(s) && Enabled(s, SendBy(t, v, wait, prio))
    ensures Inv(Apply(s, SendBy(t, v, wait, prio)))
  {
    SendAnswers(BoxOf(s), s.flag, prio, t, v, wait);
    var (b, o) := SendRegion(BoxOf(s), s.flag, prio, t, v, wait);
    if o.Ok? {
      TakeLosesNone(s.send, s.cap - |s.items|, t);
      SignalLosesNone(s.recv, |s.items|, b.receivers, o.resumed);
    } else if o.Suspended? {
      JoinsMembers(s.flag, prio, s.send.waiting, b.senders, t);
      SleepLosesNone(s.send, b.senders, t);
    } else {
      GiveUpLosesNone(s.send, t);
    }
  }

  lemma RecvInv(s: Sys, t: Tid, wait: bool, prio: Tid -> int)
    requires Inv(s) && Enabled(s, RecvBy(t, wait, prio))
    ensures Inv(Apply(s, RecvBy(t, wait, prio)))
  {
    RecvAnswers(BoxOf(s), s.flag, prio, t, wait);
    var (b, o) := RecvRegion(BoxOf(s), s.flag, prio, t, wait);
    if o.Ok? {
      TakeLosesNone(s.recv, |s.items|, t);
      SignalLosesNone(s.send, s.cap - |s.items|, b.senders, o.resumed);
    } else if o.Suspended? {
      JoinsMembers(s.flag, prio, s.recv.waiting, b.receivers, t);
      SleepLosesNone(s.recv, b.receivers, t);
    } else {
      GiveUpLosesNone(s.recv, t);
    }
  }

  lemma UrgentInv(s: Sys, v: int)
    requires Inv(s)
    ensures Inv(Apply(s, UrgentBy(v)))
  {
    UrgentAnswers(BoxOf(s), v);
    var (b, o) := UrgentRegion(BoxOf(s), v);
    if o.Ok? {
      SignalLosesNone(s.recv, |s.items|, b.receivers, o.resumed);
      assert NoneLost(s.send, s.cap - |s.items| - 1);
    }
  }

  lemma StepInv(s: Sys, e: Step)
    requires Inv(s) && Enabled(s, e)
    ensures Inv(Apply(s, e))
  {
    match e
    case SendBy(t, v, wait, prio) => SendInv(s, t, v, wait, prio);
    case UrgentBy(v) => UrgentInv(s, v);
    case RecvBy(t, wait, prio) => RecvInv(s, t, wait, prio);
    case ExpireOf(t) =>
      ExpireLosesNone(s.recv, |s.items|, t);
      ExpireLosesNone(s.send, s.cap - |s.items|, t);
    case ResetAll =>
      FlushLosesNone(s.recv, 0);
      FlushLosesNone(s.send, s.cap);
  }

  ghost predicate Legal(s: Sys, run: seq<Step>)
    decreases |run|
  {
    run == [] || (Enabled(s, run[0]) && Legal(Apply(s, run[0]), run[1..]))
  }

  function Exec(s: Sys, run: seq<Step>): Sys
    decreases |run|
  {
    if run == [] then s else Exec(Apply(s, run[0]), run[1..])
  }

  lemma {:induction false} RunInv(s: Sys, run: seq<Step>)
    requires Inv(s) && Legal(s, run)
    ensures Inv(Exec(s, run))
    decreases |run|
  {
    if run != [] {
      StepInv(s, run[0]);
      RunInv(Apply(s, run[0]), run[1..]);
    }
  }

  /** No wake-up is ever lost: in every reachable state with a sleeping receiver there are at least as
      many resumed receivers as messages, and with a sleeping sender as many resumed senders as free
      places. */
  lemma NoLostWakeup(cap: nat, flag: Flag, run: seq<Step>)
    requires Legal(Sys([], cap, flag, Side([], {}), Side([], {})), run)
    ensures var r := Exec(Sys([], cap, flag, Side([], {}), Side([], {})), run);
            && |r.items| <= r.cap
            && (r.recv.waiting != [] ==> |r.items| <= |r.recv.woken|)
            && (r.send.waiting != [] ==> r.cap - |r.items| <= |r.send.woken|)
  {
    RunInv(Sys([], cap, flag, Side([], {}), Side([], {})), run);
  }

  // ---- what is sent is what is received --------------------------------------------------

  /** The mail of a send that answers RT_EOK. */
  function Sent(s: Sys, e: Step): seq<int> {
    match e
    case SendBy(t, v, wait, prio) => if SendRegion(BoxOf(s), s.flag, prio, t, v, wait).1.Ok? then [v] else []
    case UrgentBy(v) => if UrgentRegion(BoxOf(s), v).1.Ok? then [v] else []
    case _ => []
  }

  /** The mail of a receive that answers RT_EOK (Ring.Receive). */
  function Received(s: Sys, e: Step): seq<int> {
    if e.RecvBy? && RecvRegion(BoxOf(s), s.flag, e.prio, e.t, e.wait).1.Ok? && s.items != [] then [s.items[0]] else []
  }

  function AllSent(s: Sys, run: seq<Step>): seq<int>
    decreases |run|
  {
    if run == [] then [] else Sent(s, run[0]) + AllSent(Apply(s, run[0]), run[1..])
  }

  function AllReceived(s: Sys, run: seq<Step>): seq<int>
    decreases |run|
  {
    if run == [] then [] else Received(s, run[0]) + AllReceived(Apply(s, run[0]), run[1..])
  }

  lemma StepInOrder(s: Sys, e: Step)
    requires !e.UrgentBy? && !e.ResetAll?
    ensures s.items + Sent(s, e) == Received(s, e) + Apply(s, e).items
  {
    if e.RecvBy? && s.items != [] { assert s.items == [s.items[0]] + s.items[1..]; }
  }

  lemma StepConserves(s: Sys, e: Step)
    requires !e.ResetAll?
    ensures multiset(s.items + Sent(s, e)) == multiset(Received(s, e) + Apply(s, e).items)
  {
    if !e.UrgentBy? { StepInOrder(s, e); }
  }

  /** Without urgent messages and resets a mailbox is a FIFO: what was in it, then what was sent, is
      what was received, then what is still in it, for all threads together and in order. */
  lemma {:induction false} FirstInFirstOut(s: Sys, run: seq<Step>)
    requires forall i :: 0 <= i < |run| ==> !run[i].UrgentBy? && !run[i].ResetAll?
    ensures s.items + AllSent(s, run) == AllReceived(s, run) + Exec(s, run).items
    decreases |run|
  {
    if run != [] {
      var e, s1 := run[0], Apply(s, run[0]);
      FirstInFirstOut(s1, run[1..]);
      StepInOrder(s, e);
      JoinInOrder(s.items, Sent(s, e), AllSent(s1, run[1..]), Received(s, e), AllReceived(s1, run[1..]), s1.items,
                  Exec(s, run).items);
    }
  }

  lemma JoinConserved(x: seq<int>, a: seq<int>, b: seq<int>, c: seq<int>, d: seq<int>, y: seq<int>, z: seq<int>)
    requires multiset(x + a) == multiset(c + y)
    requires multiset(y) + multiset(b) == multiset(d) + multiset(z)
    ensures multiset(x) + multiset(a + b) == multiset(c + d) + multiset(z)
  {
    assert multiset(x + a) == multiset(x) + multiset(a) && multiset(c + y) == multiset(c) + multiset(y);
    assert multiset(a + b) == multiset(a) + multiset(b) && multiset(c + d) == multiset(c) + multiset(d);
    calc {
      multiset(x) + (multiset(a) + multiset(b));
      (multiset(x) + multiset(a)) + multiset(b);
      (multiset(c) + multiset(y)) + multiset(b);
      multiset(c) + (multiset(y) + multiset(b));
      (multiset(c) + multiset(d)) + multiset(z);
    }
  }

  /** With urgent messages the order changes but nothing is lost, duplicated or invented. */
  lemma {:induction false} NothingLost(s: Sys, run: seq<Step>)
    requires forall i :: 0 <= i < |run| ==> !run[i].ResetAll?
    ensures multiset(s.items) + multiset(AllSent(s, run)) == multiset(AllReceived(s, run)) + multiset(Exec(s, run).items)
    decreases |run|
  {
    if run != [] {
      var e, s1 := run[0], Apply(s, run[0]);
      NothingLost(s1, run[1..]);
      StepConserves(s, e);
      JoinConserved(s.items, Sent(s, e), AllSent(s1, run[1..]), Received(s, e), AllReceived(s1, run[1..]), s1.items,
                    Exec(s, run).items);
    }
  }

  /** An urgent message is the next one received. */
  lemma UrgentIsNext(s: Sys, v: int, t: Tid, wait: bool, prio: Tid -> int)
    requires |s.items| < s.cap
    ensures Received(Apply(s, UrgentBy(v)), RecvBy(t, wait, prio)) == [v]
    ensures Apply(Apply(s, UrgentBy(v)), RecvBy(t, wait, prio)).items == s.items
  {
    assert ([v] + s.items)[1..] == s.items;
  }
}
