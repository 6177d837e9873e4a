/** The event functions as they run: the scan of `rt_event_send` edits the wait list under its feet. */
module EventObject {
  import opened WaitList
  import opened Event

  class EventThread {
    var eventSet: Bits
    var eventInfo: Option
    var suspended: bool
    var failed: bool          // error != RT_EOK

    constructor ()
      ensures !suspended && !failed
    {
      eventSet, eventInfo, suspended, failed := {}, Option(false, false, false), false, false;
    }
  }

  ghost function WantOf(t: EventThread): Want<EventThread>
    reads t
  {
    Want(t, t.eventSet, t.eventInfo)
  }

  ghost function Wants(ts: seq<EventThread>): (ws: seq<Want<EventThread>>)
    reads ts
    ensures |ws| == |ts| && forall i :: 0 <= i < |ts| ==> ws[i] == WantOf(ts[i])
  {
    seq(|ts|, i requires 0 <= i < |ts| reads ts => WantOf(ts[i]))
  }

  ghost predicate Received(d: Delivery<EventThread>)
    reads d.thread
  {
    d.thread.eventSet == d.got && !d.thread.suspended && !d.thread.failed
  }

  /** What has been done so far, and what the rest of the scan will add, make up the whole scan. */
  ghost predicate Progress(kept: seq<Want<EventThread>>, got: seq<Delivery<EventThread>>, need: Bits,
                           rest: Scan<EventThread>, all: Scan<EventThread>)
  {
    && all.kept == kept + rest.kept && all.woken == got + rest.woken
    && all.clear == need + rest.clear && all.ok == rest.ok
  }

  lemma ProgressStep(v: seq<Want<EventThread>>, k: nat, flags: Bits, kept: seq<Want<EventThread>>,
                     got: seq<Delivery<EventThread>>, need: Bits)
    requires k < |v| && Progress(kept, got, need, ScanList(v[k..], flags), ScanList(v, flags))
    requires Legitimate(v[k].option)
    ensures var w, rest, all := v[k], ScanList(v[k + 1..], flags), ScanList(v, flags);
            if Satisfied(flags, w.bits, w.option)
            then Progress(kept, got + [Delivery(w.thread, GotBy(w, flags), w.option)],
                          need + (if w.option.clear then GotBy(w, flags) else {}), rest, all)
            else Progress(kept + [w], got, need, rest, all)
  {
    assert v[k..][0] == v[k] && v[k..][1..] == v[k + 1..];
  }

  lemma EnqueuedWants(flag: Flag, ts: seq<EventThread>, ps: seq<int>, t: EventThread, p: int)
    requires |ps| == |ts|
    ensures Wants(Enqueue(flag, ts, ps, t, p)) == Enqueue(flag, Wants(ts), ps, WantOf(t), p)
    ensures t in Enqueue(flag, ts, ps, t, p)
  {
    match flag
    case Fifo =>
      assert (ts + [t])[|ts|] == t;
    case Prio =>
      var i := Position(ps, p);
      assert InsertAt(ts, i, t)[i] == t;
  }

  class EventFlags {
    const flag: Flag
    var flags: Bits
    var waiters: seq<EventThread>

    constructor (flag: Flag)
      ensures flags == {} && waiters == [] && this.flag == flag
    {
      this.flag, flags, waiters := flag, {}, [];
    }

    ghost function View(): Ev<EventThread>
      reads this, waiters
    {
      Ev(flags, Wants(waiters))
    }

    /** Look at one waiter; a satisfied one is resumed. */
    method Visit(t: EventThread) returns (ok: bool, resumed: bool, clear: Bits)
      modifies t
      ensures ok == Legitimate(old(t.eventInfo))
      ensures resumed == (ok && Satisfied(flags, old(t.eventSet), old(t.eventInfo)))
      ensures !resumed ==> unchanged(t)
      ensures resumed ==> Received(Delivery(t, GotBy(old(WantOf(t)), flags), old(t.eventInfo)))
      ensures clear == if resumed && old(t.eventInfo).clear then GotBy(old(WantOf(t)), flags) else {}
    {
      ok, resumed, clear := true, false, {};
      if t.eventInfo.all {
        resumed := t.eventSet * flags == t.eventSet;
      } else if t.eventInfo.any {
        if t.eventSet * flags != {} {
          t.eventSet := t.eventSet * flags;
          resumed := true;
        }
      } else {
        ok := false;
        return;
      }
      if resumed {
        if t.eventInfo.clear {
          clear := t.eventSet;
        }
        t.suspended := false;
        t.failed := false;
      }
    }

    /** The scan has passed `k` of the threads `w`, whose wants were `v`; the first `n` in the list stay. */
    ghost predicate Scanning(w: seq<EventThread>, v: seq<Want<EventThread>>, k: nat, n: nat,
                             kept: seq<Want<EventThread>>, got: seq<Delivery<EventThread>>, need: Bits)
      reads this, w
    {
      && |v| == |w| && k <= |w| && n <= |waiters| && |kept| == n
      && Distinct(w) && waiters == waiters[..n] + w[k..] && Distinct(waiters)
      && (forall i :: 0 <= i < n ==> waiters[i] in w[..k] && kept[i] == WantOf(waiters[i]))
      && (forall i :: k <= i < |w| ==> WantOf(w[i]) == v[i])
      && (forall d :: d in got ==> d.thread in w[..k] && d.thread !in waiters && Received(d))
      && Progress(kept, got, need, ScanList(v[k..], flags), ScanList(v, flags))
    }

    /** One turn of the loop. */
    method ScanOne(ghost w: seq<EventThread>, ghost v: seq<Want<EventThread>>, ghost k: nat, n: nat,
                   ghost kept: seq<Want<EventThread>>, ghost got: seq<Delivery<EventThread>>, need: Bits)
      returns (ok: bool, n': nat, ghost kept': seq<Want<EventThread>>, ghost got': seq<Delivery<EventThread>>, need': Bits)
      requires n < |waiters| && k < |w| && Scanning(w, v, k, n, kept, got, need)
      modifies this`waiters, w
      ensures ok == Legitimate(v[k].option)
      ensures !ok ==> Scanning(w, v, k, n', kept', got', need')
      ensures ok ==> Scanning(w, v, k + 1, n', kept', got', need')
    {
      n', kept', got', need' := n, kept, got, need;
      var t := waiters[n];
      assert t == w[k] && waiters[..n] + w[k..] == waiters[..n] + [w[k]] + w[k + 1..];
      if Legitimate(v[k].option) { ProgressStep(v, k, flags, kept, got, need); }
      var resumed, clear;
      ok, resumed, clear := Visit(t);
      if !ok {
        return;
      }
      if resumed {
        CutDistinct(waiters, n);
        need' := need + clear;
        waiters := waiters[..n] + waiters[n + 1..];
        got' := got + [Delivery(t, GotBy(v[k], flags), v[k].option)];
      } else {
        kept' := kept + [v[k]];
        n' := n + 1;
      }
    }

    /** The loop of `rt_event_send` over the wait list. */
    method ScanWaiters() returns (ok: bool, need: Bits, ghost got: seq<Delivery<EventThread>>)
      requires Distinct(waiters)
      modifies this`waiters, waiters
      ensures Distinct(waiters)
      ensures ScanList(old(Wants(waiters)), flags) == Scan(Wants(waiters), got, need, ok)
      ensures forall d :: d in got ==> Received(d)
    {
      ghost var v, w := Wants(waiters), waiters;
      need := {};
      got := [];
      ghost var kept: seq<Want<EventThread>> := [];
      var n: nat := 0;
      ghost var k: nat := 0;
      while n < |waiters|
        invariant Scanning(w, v, k, n, kept, got, need)
        decreases |w| - k
      {
        ok, n, kept, got, need := ScanOne(w, v, k, n, kept, got, need);
        if !ok {
          ScanStops(w, v, k, n, kept, got, need);
          return;
        }
        k := k + 1;
      }
      ScanEnds(w, v, k, n, kept, got, need);
      ok := true;
    }

    /** `rt_event_send` */
    method SendEvent(bits: Bits) returns (st: Status)
      requires Distinct(waiters)
      modifies this, waiters
      ensures Distinct(waiters)
      ensures (View(), st) == Send(old(View()), bits)
      ensures bits == {} ==> st == Eerror && flags == old(flags) && waiters == old(waiters)
      ensures forall d :: d in Woken(old(View()), bits) ==> Received(d)
    {
      if bits == {} {
        return Eerror;
      }
      flags := flags + bits;
      var ok, need, got := ScanWaiters();
      if !ok {
        return Einval;
      }
      ghost var ws := Wants(waiters);
      flags := flags - need;
      assert Wants(waiters) == ws;
      st := Eok;
    }

    lemma ScanRest(w: seq<EventThread>, v: seq<Want<EventThread>>, k: nat, n: nat,
                   kept: seq<Want<EventThread>>, got: seq<Delivery<EventThread>>, need: Bits)
      requires Scanning(w, v, k, n, kept, got, need)
      ensures Wants(waiters) == kept + v[k..]
    {
      assert forall i :: n <= i < |waiters| ==> waiters[i] == w[k..][i - n];
    }

    lemma ScanEnds(w: seq<EventThread>, v: seq<Want<EventThread>>, k: nat, n: nat,
                   kept: seq<Want<EventThread>>, got: seq<Delivery<EventThread>>, need: Bits)
      requires Scanning(w, v, k, n, kept, got, need) && n == |waiters|
      ensures ScanList(v, flags) == Scan(Wants(waiters), got, need, true)
      ensures Distinct(waiters) && forall d :: d in got ==> Received(d)
    {
      ScanRest(w, v, k, n, kept, got, need);
      assert k == |w| && v[k..] == [];
    }

    lemma ScanStops(w: seq<EventThread>, v: seq<Want<EventThread>>, k: nat, n: nat,
                    kept: seq<Want<EventThread>>, got: seq<Delivery<EventThread>>, need: Bits)
      requires Scanning(w, v, k, n, kept, got, need) && k < |w| && !Legitimate(v[k].option)
      ensures ScanList(v, flags) == Scan(Wants(waiters), got, need, false)
      ensures Distinct(waiters) && forall d :: d in got ==> Received(d)
    {
      ScanRest(w, v, k, n, kept, got, need);
      assert v[k..][0] == v[k];
    }

    /** The critical section of `_rt_event_recv`; `ps` and `p` are the priorities of waiters and caller. */
    method ReceiveEvent(t: EventThread, bits: Bits, option: Option, wait: bool, ps: seq<int>, p: int)
      returns (st: Status, received: Bits)
      requires t !in waiters && Legitimate(option) && |ps| == |waiters|
      modifies this, t
      ensures (View(), st, received) == Recv(old(View()), t, bits, option, wait, flag, ps, p)
      ensures st == Eok ==> !t.failed && t.eventSet == received
      ensures st == Suspended <==> bits != {} && !Satisfied(old(flags), bits, option) && wait
      ensures st == Suspended ==> t.suspended && t.failed && t in waiters && t.eventSet == bits && t.eventInfo == option
      ensures st == Suspended ==> exists i :: Enters(flag, old(waiters), ps, t, p, waiters, i)
      ensures st != Eok ==> flags == old(flags)
      ensures st != Suspended ==> waiters == old(waiters)
    {
      received := {};
      if bits == {} {
        return Eerror, received;
      }
      t.failed := true;
      ghost var v := View();
      assert v == old(View());
      var satisfied := if option.all then flags * bits == bits else flags * bits != {};
      assert flags * bits == bits * flags;
      if satisfied {
        t.failed := false;
        received := flags * bits;
        t.eventSet := flags * bits;
        t.eventInfo := option;
        if option.clear {
          flags := flags - bits;
        }
        st := Eok;
        assert Wants(waiters) == v.waiters;
      } else if !wait {
        st := Etimeout;
      } else {
        t.eventSet := bits;
        t.eventInfo := option;
        t.suspended := true;
        assert Wants(waiters) == v.waiters;
        ghost var ts := waiters;
        waiters := Enqueue(flag, waiters, ps, t, p);
        EnqueuedWants(flag, ts, ps, t, p);
        EnqueueEnters(flag, ts, ps, t, p);
        st := Suspended;
      }
    }

    /** `rt_event_control` with RT_IPC_CMD_RESET: every sleeper is resumed with an error, and no flag is set. */
    method ResetEvent()
      requires Distinct(waiters)
      modifies this, waiters
      ensures View() == Reset(old(View()))
      ensures forall t :: t in old(waiters) ==> !t.suspended && t.failed
    {
      ghost var w, k := waiters, 0;
      while waiters != []
        invariant k <= |w| && waiters == w[k..]
        invariant forall i :: 0 <= i < k ==> !w[i].suspended && w[i].failed
        decreases |waiters|
      {
        var thread := waiters[0];
        thread.failed := true;
        thread.suspended := false;
        waiters := waiters[1..];
        k := k + 1;
      }
      flags := {};
    }
  }
}
