/** Every step of a message queue keeps the block partition, the payloads and the wake-ups, and acts on
    the queue as on a sequence of byte strings. */
module MessageQueueInv {
  import opened WaitList
  import opened WaitSide
  import opened MessageQueue
  import opened MessageQueueRuns

  // ---- block partition -------------------------------------------------------------------

  lemma PopMembers(q: seq<Block>)
    requires Distinct(q) && q != []
    ensures Distinct(q[1..]) && forall b :: b in q[1..] <==> b in q && b != q[0]
  {
    assert q == [q[0]] + q[1..];
  }

  lemma PushMembers(q: seq<Block>, b: Block)
    requires Distinct(q) && b !in q
    ensures Distinct([b] + q) && forall x :: x in [b] + q <==> x in q || x == b
    ensures Distinct(q + [b]) && forall x :: x in q + [b] <==> x in q || x == b
  {
    InsertDistinct(q, 0, b);
    assert InsertAt(q, 0, b) == [b] + q;
    InsertDistinct(q, |q|, b);
    assert InsertAt(q, |q|, b) == q + [b];
  }

  /** A free or queued block passes into the hands of an idle thread. */
  lemma TakeBlocks(s: Sys, r: Sys, t: Tid, b: Block)
    requires BlocksOk(s) && t in s.ops && !s.ops[t].Busy()
    requires t in r.ops && r.length == s.length && r.bytes == s.bytes && r.ops == s.ops[t := r.ops[t]]
    requires r.ops[t].Busy() && r.ops[t].block == b
    requires || (s.spare != [] && b == s.spare[0] && r.spare == s.spare[1..] && r.queue == s.queue)
             || (s.queue != [] && b == s.queue[0] && r.queue == s.queue[1..] && r.spare == s.spare)
    ensures BlocksOk(r)
  {
    if r.queue == s.queue { PopMembers(s.spare); } else { PopMembers(s.queue); }
    forall x | x in r.bytes && x !in r.queue && x !in r.spare ensures Held(r, x) {
      if x == b { assert r.ops[t].block == x; }
      else {
        var u :| u in s.ops && s.ops[u].Busy() && s.ops[u].block == x;
        assert u in r.ops && r.ops[u].Busy() && r.ops[u].block == x;
      }
    }
  }

  /** A block in a thread's hands is linked into one of the lists. */
  lemma GiveBlocks(s: Sys, r: Sys, t: Tid)
    requires BlocksOk(s) && t in s.ops && s.ops[t].Busy()
    requires r.length == s.length && r.bytes == s.bytes && r.ops == s.ops[t := Idle]
    requires var b := s.ops[t].block;
             || (r.spare == [b] + s.spare && r.queue == s.queue)
             || ((r.queue == [b] + s.queue || r.queue == s.queue + [b]) && r.spare == s.spare)
    ensures BlocksOk(r)
  {
    var b := s.ops[t].block;
    if r.queue == s.queue { PushMembers(s.spare, b); } else { PushMembers(s.queue, b); }
    forall x | x in r.bytes && x !in r.queue && x !in r.spare ensures Held(r, x) {
      var u :| u in s.ops && s.ops[u].Busy() && s.ops[u].block == x;
      assert u in r.ops && r.ops[u].Busy() && r.ops[u].block == x;
    }
  }

  /** Nothing moves; the thread may change its payload progress or its place in the wait loop. */
  lemma KeepBlocks(s: Sys, r: Sys, t: Tid)
    requires BlocksOk(s) && t in s.ops && t in r.ops
    requires r.length.Keys == s.length.Keys && r.bytes.Keys == s.bytes.Keys
    requires r.queue == s.queue && r.spare == s.spare && r.ops == s.ops[t := r.ops[t]]
    requires s.ops[t].Busy() == r.ops[t].Busy() && (s.ops[t].Busy() ==> r.ops[t].block == s.ops[t].block)
    ensures BlocksOk(r)
  {
    forall x | x in r.bytes && x !in r.queue && x !in r.spare ensures Held(r, x) {
      var u :| u in s.ops && s.ops[u].Busy() && s.ops[u].block == x;
      assert u in r.ops && r.ops[u].Busy() && r.ops[u].block == x;
    }
  }

  lemma JoinDistinct(a: seq<Block>, b: seq<Block>)
    requires Distinct(a) && Distinct(b) && forall x :: x in a ==> x !in b
    ensures Distinct(a + b) && forall x :: x in a + b <==> x in a || x in b
  {
    forall i, j | 0 <= i < j < |a + b| ensures (a + b)[i] != (a + b)[j] {
      if i < |a| && j >= |a| { assert a[i] in a && b[j - |a|] in b; }
    }
  }

  lemma ResetBlocks(s: Sys, r: Sys)
    requires BlocksOk(s) && r.length == s.length && r.bytes == s.bytes && r.ops == s.ops
    requires r.queue == [] && r.spare == Reversed(s.queue) + s.spare
    ensures BlocksOk(r)
  {
    ReversedMembers(s.queue);
    JoinDistinct(Reversed(s.queue), s.spare);
    forall x | x in r.bytes && x !in r.queue && x !in r.spare ensures Held(r, x) {
      var u :| u in s.ops && s.ops[u].Busy() && s.ops[u].block == x;
      assert u in r.ops && r.ops[u].Busy() && r.ops[u].block == x;
    }
  }

  lemma SendBlocks(s: Sys, t: Tid, buf: seq<Byte>, wait: bool, prio: Tid -> int)
    requires Inv(s) && Enabled(s, SendEnter(t, buf, wait, prio))
    ensures BlocksOk(EnterSend(s, t, buf, wait, prio))
  {
    var r := EnterSend(s, t, buf, wait, prio);
    if |buf| <= s.msgSize {
      if s.spare != [] { TakeBlocks(s, r, t, s.spare[0]); } else { KeepBlocks(s, r, t); }
    }
  }

  lemma UrgentBlocks(s: Sys, t: Tid, buf: seq<Byte>)
    requires Inv(s) && Enabled(s, UrgentEnter(t, buf))
    ensures BlocksOk(EnterUrgent(s, t, buf))
  {
    if |buf| <= s.msgSize && s.spare != [] { TakeBlocks(s, EnterUrgent(s, t, buf), t, s.spare[0]); }
  }

  lemma RecvBlocks(s: Sys, t: Tid, size: nat, wait: bool, prio: Tid -> int)
    requires Inv(s) && Enabled(s, RecvEnter(t, size, wait, prio))
    ensures BlocksOk(EnterRecv(s, t, size, wait, prio))
  {
    var r := EnterRecv(s, t, size, wait, prio);
    if s.queue != [] { TakeBlocks(s, r, t, s.queue[0]); } else { KeepBlocks(s, r, t); }
  }

  lemma CopyBlocks(s: Sys, e: Step, t: Tid)
    requires Inv(s) && Enabled(s, e) && (e == SetLength(t) || e == CopyByteIn(t) || e == CopyByteOut(t))
    ensures BlocksOk(Apply(s, e))
  {
    assert OpOk(s, s.ops[t]);
    KeepBlocks(s, Apply(s, e), t);
  }

  lemma LinkBlocks(s: Sys, t: Tid)
    requires Inv(s) && Enabled(s, LinkBy(t))
    ensures BlocksOk(Link(s, t))
  {
    GiveBlocks(s, Link(s, t), t);
  }

  lemma FreeBlocks(s: Sys, t: Tid)
    requires Inv(s) && Enabled(s, FreeBy(t))
    ensures BlocksOk(Free(s, t))
  {
    GiveBlocks(s, Free(s, t), t);
  }

  lemma LeaveBlocks(s: Sys, e: Step, t: Tid)
    requires Inv(s) && Enabled(s, e) && (e == ExpireOf(t) || e == FailReturn(t))
    ensures BlocksOk(Apply(s, e))
  {
    KeepBlocks(s, Apply(s, e), t);
  }

  lemma StepBlocks(s: Sys, e: Step)
    requires Inv(s) && Enabled(s, e)
    ensures BlocksOk(Apply(s, e))
  {
    match e
    case SendEnter(t, buf, wait, prio) => SendBlocks(s, t, buf, wait, prio);
    case UrgentEnter(t, buf) => UrgentBlocks(s, t, buf);
    case SetLength(t) => CopyBlocks(s, e, t);
    case CopyByteIn(t) => CopyBlocks(s, e, t);
    case LinkBy(t) => LinkBlocks(s, t);
    case RecvEnter(t, size, wait, prio) => RecvBlocks(s, t, size, wait, prio);
    case CopyByteOut(t) => CopyBlocks(s, e, t);
    case FreeBy(t) => FreeBlocks(s, t);
    case ExpireOf(t) => LeaveBlocks(s, e, t);
    case FailReturn(t) => LeaveBlocks(s, e, t);
    case ResetAll => ResetBlocks(s, Apply(s, e));
  }

  // ---- payloads --------------------------------------------------------------------------

  /** Bytes and lengths change only in the block `t` has in its hands. */
  ghost predicate OnlyBlockOf(s: Sys, r: Sys, t: Tid)
    requires t in s.ops
  {
    && r.bytes.Keys == s.bytes.Keys && r.length.Keys == s.length.Keys
    && forall b :: b in s.bytes && b in s.length && !(s.ops[t].Busy() && b == s.ops[t].block)
         ==> r.bytes[b] == s.bytes[b] && r.length[b] == s.length[b]
  }

  /** Whatever one thread copies, the payloads of all others stay as they are. */
  lemma OthersKept(s: Sys, r: Sys, t: Tid)
    requires BlocksOk(s) && DataOk(s) && t in s.ops && t in r.ops
    requires OnlyBlockOf(s, r, t) && r.ops == s.ops[t := r.ops[t]] && r.msgSize == s.msgSize
    ensures forall u :: u in s.ops && u != t ==> OpOk(r, r.ops[u])
  {
    forall u | u in s.ops && u != t ensures OpOk(r, r.ops[u]) {
      assert OpOk(s, s.ops[u]);
    }
  }

  lemma SameData(s: Sys, r: Sys, t: Tid)
    requires BlocksOk(s) && DataOk(s) && t in s.ops && t in r.ops
    requires r.bytes == s.bytes && r.length == s.length && r.ops == s.ops[t := r.ops[t]] && r.msgSize == s.msgSize
    requires OpOk(s, r.ops[t])
    requires forall b :: b in r.queue ==> b in s.length && s.length[b] <= s.msgSize
    ensures DataOk(r)
  {
    forall u | u in r.ops ensures OpOk(r, r.ops[u]) { assert OpOk(s, r.ops[u]); }
  }

  lemma FillOwn(s: Sys, t: Tid)
    requires Inv(s) && Enabled(s, CopyByteIn(t))
    ensures var r := Apply(s, CopyByteIn(t)); t in r.ops && OpOk(r, r.ops[t])
  {
    assert OpOk(s, s.ops[t]);
    var o, r := s.ops[t], Apply(s, CopyByteIn(t));
    assert r.bytes[o.block][..o.done + 1] == s.bytes[o.block][..o.done] + [o.buf[o.done]];
    assert o.buf[..o.done + 1] == o.buf[..o.done] + [o.buf[o.done]];
  }

  lemma FillData(s: Sys, t: Tid)
    requires Inv(s) && Enabled(s, CopyByteIn(t))
    ensures DataOk(Apply(s, CopyByteIn(t)))
  {
    assert OpOk(s, s.ops[t]);
    var r := Apply(s, CopyByteIn(t));
    OthersKept(s, r, t);
    FillOwn(s, t);
    forall u | u in r.ops ensures OpOk(r, r.ops[u]) { if u != t { assert u in s.ops; } }
    assert forall b :: b in r.bytes ==> |r.bytes[b]| == r.msgSize;
  }

  lemma SizeData(s: Sys, t: Tid)
    requires Inv(s) && Enabled(s, SetLength(t))
    ensures DataOk(Apply(s, SetLength(t)))
  {
    assert OpOk(s, s.ops[t]);
    var r := Apply(s, SetLength(t));
    OthersKept(s, r, t);
    forall u | u in r.ops ensures OpOk(r, r.ops[u]) { if u != t { assert u in s.ops; } }
  }

  lemma DrainData(s: Sys, t: Tid)
    requires Inv(s) && Enabled(s, CopyByteOut(t))
    ensures DataOk(Apply(s, CopyByteOut(t)))
  {
    var o, r := s.ops[t], Apply(s, CopyByteOut(t));
    assert OpOk(s, o);
    var b := s.bytes[o.block][|o.out|];
    assert b == s.bytes[o.block][..|o.message|][|o.out|];
    assert o.message[..|o.out| + 1] == o.message[..|o.out|] + [o.message[|o.out|]];
    SameData(s, r, t);
  }

  lemma SendData(s: Sys, t: Tid, buf: seq<Byte>, wait: bool, prio: Tid -> int)
    requires Inv(s) && Enabled(s, SendEnter(t, buf, wait, prio))
    ensures DataOk(EnterSend(s, t, buf, wait, prio))
  {
    if |buf| <= s.msgSize {
      if s.spare != [] { assert s.spare[0] in s.spare; }
      SameData(s, EnterSend(s, t, buf, wait, prio), t);
    }
  }

  lemma UrgentData(s: Sys, t: Tid, buf: seq<Byte>)
    requires Inv(s) && Enabled(s, UrgentEnter(t, buf))
    ensures DataOk(EnterUrgent(s, t, buf))
  {
    if |buf| <= s.msgSize && s.spare != [] {
      assert s.spare[0] in s.spare;
      SameData(s, EnterUrgent(s, t, buf), t);
    }
  }

  lemma RecvData(s: Sys, t: Tid, size: nat, wait: bool, prio: Tid -> int)
    requires Inv(s) && Enabled(s, RecvEnter(t, size, wait, prio))
    ensures DataOk(EnterRecv(s, t, size, wait, prio))
  {
    if s.queue != [] { assert s.queue[0] in s.queue; }
    SameData(s, EnterRecv(s, t, size, wait, prio), t);
  }

  lemma LinkData(s: Sys, t: Tid)
    requires Inv(s) && Enabled(s, LinkBy(t))
    ensures DataOk(Link(s, t))
  {
    assert OpOk(s, s.ops[t]);
    SameData(s, Link(s, t), t);
  }

  lemma OpsKept(s: Sys, r: Sys)
    requires DataOk(s) && r.ops == s.ops && r.bytes == s.bytes && r.length == s.length && r.msgSize == s.msgSize
    requires r.queue == s.queue || r.queue == []
    ensures DataOk(r)
  {
    forall u | u in r.ops ensures OpOk(r, r.ops[u]) { assert OpOk(s, s.ops[u]); }
  }

  lemma StepData(s: Sys, e: Step)
    requires Inv(s) && Enabled(s, e)
    ensures DataOk(Apply(s, e))
  {
    match e
    case SendEnter(t, buf, wait, prio) => SendData(s, t, buf, wait, prio);
    case UrgentEnter(t, buf) => UrgentData(s, t, buf);
    case SetLength(t) => SizeData(s, t);
    case CopyByteIn(t) => FillData(s, t);
    case LinkBy(t) => LinkData(s, t);
    case RecvEnter(t, size, wait, prio) => RecvData(s, t, size, wait, prio);
    case CopyByteOut(t) => DrainData(s, t);
    case FreeBy(t) => SameData(s, Apply(s, e), t);
    case ExpireOf(t) => OpsKept(s, Apply(s, e));
    case FailReturn(t) => SameData(s, Apply(s, e), t);
    case ResetAll => OpsKept(s, Apply(s, e));
  }

  // ---- wake-ups --------------------------------------------------------------------------

  lemma RecvSideKept(s: Sys, r: Sys)
    requires RecvSideOk(s) && r.recv == s.recv && |r.queue| == |s.queue|
    requires forall u :: u in s.ops && s.ops[u].Receiving? ==> u in r.ops && r.ops[u].Receiving?
    ensures RecvSideOk(r)
  {
  }

  lemma SendSideKept(s: Sys, r: Sys)
    requires SendSideOk(s) && r.send == s.send && |r.spare| <= |s.spare|
    requires forall u :: u in s.ops && s.ops[u].Sending? ==> u in r.ops && r.ops[u].Sending?
    ensures SendSideOk(r)
  {
  }

  lemma SendSide(s: Sys, t: Tid, buf: seq<Byte>, wait: bool, prio: Tid -> int)
    requires SendSideOk(s) && Enabled(s, SendEnter(t, buf, wait, prio)) && |buf| <= s.msgSize
    ensures SendSideOk(EnterSend(s, t, buf, wait, prio))
  {
    TakeBlockAnswers(ListsOf(s), s.flag, prio, t, wait);
    var l := TakeBlock(ListsOf(s), s.flag, prio, t, wait).0;
    if s.spare != [] {
      TakeLosesNone(s.send, |s.spare|, t);
    } else if wait {
      JoinsMembers(s.flag, prio, s.send.waiting, l.senders, t);
      SleepLosesNone(s.send, l.senders, t);
    } else {
      GiveUpLosesNone(s.send, t);
    }
  }

  lemma RecvSide(s: Sys, t: Tid, size: nat, wait: bool, prio: Tid -> int)
    requires Inv(s) && Enabled(s, RecvEnter(t, size, wait, prio))
    ensures RecvSideOk(EnterRecv(s, t, size, wait, prio))
  {
    TakeMessageAnswers(ListsOf(s), s.flag, prio, t, wait);
    var l := TakeMessage(ListsOf(s), s.flag, prio, t, wait).0;
    if s.queue != [] {
      TakeLosesNone(s.recv, |s.queue|, t);
    } else if wait {
      JoinsMembers(s.flag, prio, s.recv.waiting, l.receivers, t);
      SleepLosesNone(s.recv, l.receivers, t);
    } else {
      GiveUpLosesNone(s.recv, t);
    }
  }

  lemma LinkSide(s: Sys, t: Tid)
    requires RecvSideOk(s) && t in s.ops && s.ops[t].Filling?
    ensures RecvSideOk(Link(s, t))
  {
    LinkAnswers(ListsOf(s), s.ops[t].block, s.ops[t].urgent);
    var (l, resumed) := LinkBlock(ListsOf(s), s.ops[t].block, s.ops[t].urgent);
    SignalLosesNone(s.recv, |s.queue|, l.receivers, resumed);
  }

  lemma FreeSide(s: Sys, t: Tid)
    requires SendSideOk(s) && t in s.ops && s.ops[t].Draining?
    ensures SendSideOk(Free(s, t))
  {
    FreeAnswers(ListsOf(s), s.ops[t].block);
    var (l, resumed) := FreeBlock(ListsOf(s), s.ops[t].block);
    SignalLosesNone(s.send, |s.spare|, l.senders, resumed);
  }

  /** The steps that leave the receiving side alone. */
  lemma QuietRecvSide(s: Sys, e: Step)
    requires Inv(s) && Enabled(s, e)
    requires !e.SendEnter? && !e.LinkBy? && !e.RecvEnter? && !e.ExpireOf? && !e.FailReturn? && !e.ResetAll?
    requires !e.SetLength? && !e.CopyByteIn?
    ensures RecvSideOk(Apply(s, e))
  {
    RecvSideKept(s, Apply(s, e));
  }

  lemma EnterSendRecvSide(s: Sys, t: Tid, buf: seq<Byte>, wait: bool, prio: Tid -> int)
    requires Inv(s) && Enabled(s, SendEnter(t, buf, wait, prio))
    ensures RecvSideOk(EnterSend(s, t, buf, wait, prio))
  {
    RecvSideKept(s, EnterSend(s, t, buf, wait, prio));
  }

  lemma LeftSides(s: Sys, t: Tid)
    requires RecvSideOk(s) && SendSideOk(s) && Enabled(s, FailReturn(t))
    ensures RecvSideOk(Put(s, t, Idle)) && SendSideOk(Put(s, t, Idle))
  {
  }

  lemma StepRecvSide(s: Sys, e: Step)
    requires Inv(s) && Enabled(s, e)
    ensures RecvSideOk(Apply(s, e))
  {
    match e
    case LinkBy(t) => LinkSide(s, t);
    case RecvEnter(t, size, wait, prio) => RecvSide(s, t, size, wait, prio);
    case ExpireOf(t) => ExpireLosesNone(s.recv, |s.queue|, t);
    case FailReturn(t) => LeftSides(s, t);
    case ResetAll => FlushLosesNone(s.recv, 0);
    case SetLength(t) => assert OpOk(s, s.ops[t]); RecvSideKept(s, Apply(s, e));
    case CopyByteIn(t) => assert OpOk(s, s.ops[t]); RecvSideKept(s, Apply(s, e));
    case SendEnter(t, buf, wait, prio) => EnterSendRecvSide(s, t, buf, wait, prio);
    case _ => QuietRecvSide(s, e);
  }

  /** The steps that leave the sending side alone. */
  lemma QuietSendSide(s: Sys, e: Step)
    requires Inv(s) && Enabled(s, e)
    requires !e.SendEnter? && !e.RecvEnter? && !e.FreeBy? && !e.ExpireOf? && !e.FailReturn? && !e.ResetAll?
    requires !e.SetLength? && !e.CopyByteIn?
    ensures SendSideOk(Apply(s, e))
  {
    SendSideKept(s, Apply(s, e));
  }

  lemma EnterRecvSendSide(s: Sys, t: Tid, size: nat, wait: bool, prio: Tid -> int)
    requires Inv(s) && Enabled(s, RecvEnter(t, size, wait, prio))
    ensures SendSideOk(EnterRecv(s, t, size, wait, prio))
  {
    SendSideKept(s, EnterRecv(s, t, size, wait, prio));
  }

  lemma StepSendSide(s: Sys, e: Step)
    requires Inv(s) && Enabled(s, e)
    ensures SendSideOk(Apply(s, e))
  {
    match e
    case SendEnter(t, buf, wait, prio) => if |buf| <= s.msgSize { SendSide(s, t, buf, wait, prio); }
    case FreeBy(t) => FreeSide(s, t);
    case ExpireOf(t) => ExpireLosesNone(s.send, |s.spare|, t);
    case FailReturn(t) => LeftSides(s, t);
    case ResetAll => FlushLosesNone(s.send, |Apply(s, e).spare|);
    case SetLength(t) => assert OpOk(s, s.ops[t]); SendSideKept(s, Apply(s, e));
    case CopyByteIn(t) => assert OpOk(s, s.ops[t]); SendSideKept(s, Apply(s, e));
    case RecvEnter(t, size, wait, prio) => EnterRecvSendSide(s, t, size, wait, prio);
    case _ => QuietSendSide(s, e);
  }

  lemma StepInv(s: Sys, e: Step)
    requires Inv(s) && Enabled(s, e)
    ensures Inv(Apply(s, e))
  {
    StepBlocks(s, e);
    StepData(s, e);
    StepRecvSide(s, e);
    StepSendSide(s, e);
  }
}
