/** Event objects: 32 flags, and waiters for all or for any of some of them. A 32-bit mask is the set of
    the numbers of its bits: `x & y` is the intersection, `x | y` the union, `x & ~y` the difference. */
module Event {
  import opened WaitList

  type Bit = b: nat | b < 32
  type Bits = set<Bit>

  /** RT_EVENT_FLAG_AND, RT_EVENT_FLAG_OR and RT_EVENT_FLAG_CLEAR in the option byte. */
  datatype Option = Option(all: bool, any: bool, clear: bool)

  /** A suspended thread with its `event_set` and `event_info`. */
  datatype Want<T> = Want(thread: T, bits: Bits, option: Option)

  /** A resumed thread with the bits it received. */
  datatype Delivery<T> = Delivery(thread: T, got: Bits, option: Option)

  datatype Ev<T> = Ev(flags: Bits, waiters: seq<Want<T>>)

  predicate Legitimate(option: Option) { option.all || option.any }

  predicate Satisfied(flags: Bits, bits: Bits, option: Option) {
    if option.all then bits * flags == bits else option.any && bits * flags != {}
  }

  /** A thread waiting for all bits keeps its set; one waiting for any is given those that are set. */
  function GotBy<T>(w: Want<T>, flags: Bits): Bits {
    if w.option.all then w.bits else w.bits * flags
  }

  // ---- rt_event_send ---------------------------------------------------------------------

  /** The scan of the wait list: who stays, who is resumed with what, which bits are to be cleared. It
      stops at a waiter with neither AND nor OR. */
  datatype Scan<T> = Scan(kept: seq<Want<T>>, woken: seq<Delivery<T>>, clear: Bits, ok: bool)

  function ScanList<T>(ws: seq<Want<T>>, flags: Bits): Scan<T> {
    if ws == [] then Scan([], [], {}, true)
    else if !Legitimate(ws[0].option) then Scan(ws, [], {}, false)
    else
      var w, r := ws[0], ScanList(ws[1..], flags);
      if Satisfied(flags, w.bits, w.option) then
        var got := GotBy(w, flags);
        r.(woken := [Delivery(w.thread, got, w.option)] + r.woken,
           clear := (if w.option.clear then got else {}) + r.clear)
      else r.(kept := [w] + r.kept)
  }

  /** RT_EOK, -RT_ERROR, -RT_EINVAL, -RT_ETIMEOUT, or asleep. */
  datatype Status = Eok | Eerror | Einval | Etimeout | Suspended

  function Send<T>(e: Ev<T>, bits: Bits): (Ev<T>, Status) {
    if bits == {} then (e, Eerror)
    else
      var flags := e.flags + bits;
      var r := ScanList(e.waiters, flags);
      if r.ok then (Ev(flags - r.clear, r.kept), Eok) else (Ev(flags, r.kept), Einval)
  }

  function Woken<T>(e: Ev<T>, bits: Bits): seq<Delivery<T>> {
    if bits == {} then [] else ScanList(e.waiters, e.flags + bits).woken
  }

  // ---- rt_event_recv ---------------------------------------------------------------------

  /** The critical section of a receive by `t`; `ps` and `p` are the priorities of waiters and caller. */
  function Recv<T>(e: Ev<T>, t: T, bits: Bits, option: Option, wait: bool, flag: Flag, ps: seq<int>, p: int)
    : (Ev<T>, Status, Bits)
    requires |ps| == |e.waiters|
  {
    if bits == {} then (e, Eerror, {})
    else if Satisfied(e.flags, bits, option) then
      (if option.clear then e.(flags := e.flags - bits) else e, Eok, e.flags * bits)
    else if !wait then (e, Etimeout, {})
    else (e.(waiters := Enqueue(flag, e.waiters, ps, Want(t, bits, option), p)), Suspended, {})
  }

  /** `rt_event_control` with RT_IPC_CMD_RESET */
  function Reset<T>(e: Ev<T>): Ev<T> { Ev({}, []) }

  // ---- meaning ---------------------------------------------------------------------------

  /** Nobody sleeps on a condition that already holds, and every waiter has a legitimate option. */
  ghost predicate Stable<T>(e: Ev<T>) {
    forall w :: w in e.waiters ==> Legitimate(w.option) && !Satisfied(e.flags, w.bits, w.option)
  }

  /** Bit by bit: waiting for all is over if and only if every bit waited for is set; waiting for any, if
      and only if some bit waited for is set; and without either option it is never over. */
  lemma SatisfiedIs(flags: Bits, bits: Bits, option: Option)
    ensures option.all ==> (Satisfied(flags, bits, option) <==> forall b :: b in bits ==> b in flags)
    ensures !option.all && option.any ==> (Satisfied(flags, bits, option) <==> exists b :: b in bits && b in flags)
    ensures !Legitimate(option) ==> !Satisfied(flags, bits, option)
  {
    if option.all {
      if forall b :: b in bits ==> b in flags { assert bits * flags == bits; }
      if Satisfied(flags, bits, option) {
        forall b | b in bits ensures b in flags { assert b in bits * flags; }
      }
    } else {
      if b :| b in bits && b in flags { assert b in bits * flags; }
      if bits * flags != {} {
        var b :| b in bits * flags;
        assert b in bits && b in flags;
      }
    }
  }

  lemma MoreFlags(flags: Bits, more: Bits, bits: Bits, option: Option)
    requires Satisfied(flags, bits, option) && flags <= more
    ensures Satisfied(more, bits, option)
  {
    if option.all {
      assert forall b :: b in bits ==> b in bits * flags;
    } else {
      var b :| b in bits * flags;
      assert b in bits * more;
    }
  }

  /** Clearing flags never satisfies anybody. */
  lemma FewerFlags(flags: Bits, fewer: Bits, bits: Bits, option: Option)
    requires !Satisfied(flags, bits, option) && fewer <= flags
    ensures !Satisfied(fewer, bits, option)
  {
    if Satisfied(fewer, bits, option) { MoreFlags(fewer, flags, bits, option); }
  }

  /** The scan in terms of each waiter on its own: exactly the satisfied ones are resumed, once each, and
      the others stay; the -RT_EINVAL exit is not taken. */
  lemma {:induction false} ScanSplits<T>(ws: seq<Want<T>>, flags: Bits)
    requires forall w :: w in ws ==> Legitimate(w.option)
    ensures var r := ScanList(ws, flags);
            && r.ok && |r.kept| + |r.woken| == |ws|
            && (forall w :: w in r.kept ==> w in ws && !Satisfied(flags, w.bits, w.option))
            && (forall w :: w in ws && !Satisfied(flags, w.bits, w.option) ==> w in r.kept)
            && (forall w :: w in ws && Satisfied(flags, w.bits, w.option) ==>
                  Delivery(w.thread, GotBy(w, flags), w.option) in r.woken)
  {
    if ws != [] {
      assert ws == [ws[0]] + ws[1..];
      assert forall w :: w in ws[1..] ==> w in ws;
      ScanSplits(ws[1..], flags);
      assert ws[0] in ws;
    }
  }

  /** The waiters are served in list order: one more waiter at the end is the last to stay or to be
      resumed, and adds what it receives to the bits to clear if it asked for that. */
  lemma {:induction false} ScanInOrder<T>(ws: seq<Want<T>>, w: Want<T>, flags: Bits)
    requires Legitimate(w.option) && forall x :: x in ws ==> Legitimate(x.option)
    ensures var r, r' := ScanList(ws, flags), ScanList(ws + [w], flags);
            var d := Delivery(w.thread, GotBy(w, flags), w.option);
            if Satisfied(flags, w.bits, w.option) then
              && r'.kept == r.kept && r'.woken == r.woken + [d]
              && r'.clear == r.clear + if w.option.clear then d.got else {}
            else r'.kept == r.kept + [w] && r'.woken == r.woken && r'.clear == r.clear
  {
    if ws == [] {
      assert [w][1..] == [] && ws + [w] == [w];
    } else {
      assert (ws + [w])[0] == ws[0] && (ws + [w])[1..] == ws[1..] + [w];
      assert ws[0] in ws && forall x :: x in ws[1..] ==> x in ws;
      ScanInOrder(ws[1..], w, flags);
    }
  }

  /** Every resumed thread was one of the waiters, satisfied, and got what GotBy says. */
  lemma {:induction false} WokenFrom<T>(ws: seq<Want<T>>, flags: Bits, d: Delivery<T>) returns (w: Want<T>)
    requires d in ScanList(ws, flags).woken
    ensures w in ws && Satisfied(flags, w.bits, w.option) && d == Delivery(w.thread, GotBy(w, flags), w.option)
  {
    w := ws[0];
    var r, r1 := ScanList(ws, flags), ScanList(ws[1..], flags);
    var here := Satisfied(flags, w.bits, w.option);
    if !(here && d == Delivery(w.thread, GotBy(w, flags), w.option)) {
      assert r.woken == if here then [Delivery(w.thread, GotBy(w, flags), w.option)] + r1.woken else r1.woken;
      w := WokenFrom(ws[1..], flags, d);
    }
  }

  /** The bits waited for that are set, and no others: all of them (AND), or at least one (OR). */
  ghost predicate Fits(flags: Bits, bits: Bits, option: Option, got: Bits) {
    && (forall b: Bit :: b in got <==> b in bits && b in flags)
    && (option.all ==> forall b: Bit :: b in bits ==> b in flags)
    && (!option.all ==> exists b: Bit :: b in got)
  }

  /** What a send delivers fits what was waited for. */
  lemma DeliveredRight<T>(ws: seq<Want<T>>, flags: Bits, d: Delivery<T>) returns (w: Want<T>)
    requires d in ScanList(ws, flags).woken
    ensures w in ws && w.thread == d.thread && w.option == d.option && Fits(flags, w.bits, w.option, d.got)
  {
    w := WokenFrom(ws, flags, d);
    SatisfiedIs(flags, w.bits, w.option);
  }

  /** The bits cleared are those, and only those, received by some resumed thread with CLEAR. */
  lemma {:induction false} ClearedExactly<T>(ws: seq<Want<T>>, flags: Bits, b: Bit)
    ensures b in ScanList(ws, flags).clear <==>
              exists d :: d in ScanList(ws, flags).woken && d.option.clear && b in d.got
  {
    if ws != [] && Legitimate(ws[0].option) {
      ClearedExactly(ws[1..], flags, b);
      var w, r1 := ws[0], ScanList(ws[1..], flags);
      if Satisfied(flags, w.bits, w.option) {
        var d := Delivery(w.thread, GotBy(w, flags), w.option);
        assert ScanList(ws, flags).woken == [d] + r1.woken;
        assert forall x :: x in [d] + r1.woken <==> x == d || x in r1.woken;
      }
    }
  }

  lemma KeptStable<T>(ws: seq<Want<T>>, flags: Bits, fewer: Bits)
    requires fewer <= flags && forall w :: w in ws ==> Legitimate(w.option)
    ensures Stable(Ev(fewer, ScanList(ws, flags).kept))
  {
    ScanSplits(ws, flags);
    var kept := ScanList(ws, flags).kept;
    forall w | w in kept ensures Legitimate(w.option) && !Satisfied(fewer, w.bits, w.option) {
      FewerFlags(flags, fewer, w.bits, w.option);
    }
  }

  /** From a stable event a send succeeds, never taking the -RT_EINVAL exit, and leaves it stable. After
      it a flag is set if and only if it was set or sent and no resumed thread with CLEAR received it. */
  lemma SendMeaning<T>(e: Ev<T>, bits: Bits)
    requires Stable(e) && bits != {}
    ensures Send(e, bits).1 == Eok && Stable(Send(e, bits).0)
    ensures forall b: Bit :: b in Send(e, bits).0.flags <==>
              b in e.flags + bits && !(exists d :: d in Woken(e, bits) && d.option.clear && b in d.got)
  {
    var flags := e.flags + bits;
    ScanSplits(e.waiters, flags);
    KeptStable(e.waiters, flags, flags - ScanList(e.waiters, flags).clear);
    forall b: Bit
      ensures b in Send(e, bits).0.flags <==>
                b in e.flags + bits && !(exists d :: d in Woken(e, bits) && d.option.clear && b in d.got)
    {
      ClearedExactly(e.waiters, flags, b);
    }
  }

  /** A receive succeeds at once exactly when its condition holds; then it delivers what a send would and
      clears exactly what it delivers. */
  lemma RecvAtOnce<T>(e: Ev<T>, t: T, bits: Bits, option: Option, wait: bool, flag: Flag, ps: seq<int>, p: int)
    requires |ps| == |e.waiters| && bits != {} && Legitimate(option)
    ensures var (e', st, got) := Recv(e, t, bits, option, wait, flag, ps, p);
            && (st == Eok <==> Satisfied(e.flags, bits, option))
            && (st == Eok ==> && Fits(e.flags, bits, option, got)
                              && e' == Ev(if option.clear then e.flags - got else e.flags, e.waiters))
  {
    SatisfiedIs(e.flags, bits, option);
    if Satisfied(e.flags, bits, option) {
      assert e.flags - bits == e.flags - e.flags * bits;
    }
  }

  /** What a receive answers when its condition does not hold. With nothing asked for it is refused; if it
      may not wait it answers -RT_ETIMEOUT; both change nothing. Otherwise, and only then, the caller sleeps:
      the flags stay, and the wait list gains exactly its want, with these bits and this option. */
  lemma RecvSleeps<T>(e: Ev<T>, t: T, bits: Bits, option: Option, wait: bool, flag: Flag, ps: seq<int>, p: int)
    requires |ps| == |e.waiters| && Legitimate(option)
    ensures var (e', st, got) := Recv(e, t, bits, option, wait, flag, ps, p);
            && (st == Eerror <==> bits == {})
            && (st == Etimeout <==> bits != {} && !Satisfied(e.flags, bits, option) && !wait)
            && (st == Eerror || st == Etimeout ==> e' == e && got == {})
            && (st == Suspended <==> bits != {} && !Satisfied(e.flags, bits, option) && wait)
            && (st == Suspended ==> e'.flags == e.flags
                                    && exists i :: Enters(flag, e.waiters, ps, Want(t, bits, option), p, e'.waiters, i))
  {
    EnqueueEnters(flag, e.waiters, ps, Want(t, bits, option), p);
  }

  lemma QueuedWants<T>(flag: Flag, ws: seq<Want<T>>, ps: seq<int>, w: Want<T>, p: int)
    requires |ps| == |ws|
    ensures forall x :: x in Enqueue(flag, ws, ps, w, p) <==> x in ws || x == w
  {
    match flag
    case Fifo =>
    case Prio =>
      var i := Position(ps, p);
      var r := InsertAt(ws, i, w);
      assert r[i] == w;
      forall x | x in ws ensures x in r {
        var k :| 0 <= k < |ws| && ws[k] == x;
        assert r[if k < i then k else k + 1] == x;
      }
  }

  /** A receive keeps the event stable, also when the caller goes to sleep. */
  lemma RecvStable<T>(e: Ev<T>, t: T, bits: Bits, option: Option, wait: bool, flag: Flag, ps: seq<int>, p: int)
    requires Stable(e) && Legitimate(option) && |ps| == |e.waiters|
    ensures Stable(Recv(e, t, bits, option, wait, flag, ps, p).0)
  {
    var e' := Recv(e, t, bits, option, wait, flag, ps, p).0;
    if bits != {} && !Satisfied(e.flags, bits, option) && wait {
      QueuedWants(flag, e.waiters, ps, Want(t, bits, option), p);
    } else {
      forall w | w in e'.waiters ensures Legitimate(w.option) && !Satisfied(e'.flags, w.bits, w.option) {
        FewerFlags(e.flags, e'.flags, w.bits, w.option);
      }
    }
  }

  /** From the receive to the send. Whoever went to sleep is resumed by the next send that completes its
      condition, with the bits it waited for that are then set, and these are cleared if it asked for that;
      a send that does not complete it leaves it asleep with the same bits and option. */
  lemma SleeperServed<T>(e: Ev<T>, t: T, bits: Bits, option: Option, flag: Flag, ps: seq<int>, p: int, sent: Bits)
    requires Stable(e) && Legitimate(option) && |ps| == |e.waiters| && bits != {} && sent != {}
    requires !Satisfied(e.flags, bits, option)
    ensures var e' := Recv(e, t, bits, option, true, flag, ps, p).0;
            if Satisfied(e.flags + sent, bits, option) then
              exists d :: && d in Woken(e', sent) && d.thread == t && d.option == option
                          && Fits(e.flags + sent, bits, option, d.got)
                          && (option.clear ==> forall b :: b in d.got ==> b !in Send(e', sent).0.flags)
            else Want(t, bits, option) in Send(e', sent).0.waiters
  {
    var e', w := Recv(e, t, bits, option, true, flag, ps, p).0, Want(t, bits, option);
    RecvStable(e, t, bits, option, true, flag, ps, p);
    QueuedWants(flag, e.waiters, ps, w, p);
    ScanSplits(e'.waiters, e.flags + sent);
    SendMeaning(e', sent);
    if Satisfied(e.flags + sent, bits, option) {
      var d := Delivery(t, GotBy(w, e.flags + sent), option);
      assert d in Woken(e', sent);
      SatisfiedIs(e.flags + sent, bits, option);
    }
  }
}
