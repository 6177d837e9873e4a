/** Any interleaving of senders, urgent senders, receivers, time-outs and resets on one message queue.
    The payload copies are not atomic: each byte is a step of its own. */
module MessageQueueRuns {
  import opened WaitList
  import opened WaitSide
  import opened MessageQueue

  type Block = nat

  /** Where a thread stands. `Sending` and `Receiving` are inside the wait loop: asleep, resumed, or
      resumed with an error. `message` records what was in the block when it was unlinked. */
  datatype Op =
    | Idle
    | Sending(buf: seq<Byte>)
    | Filling(block: Block, buf: seq<Byte>, urgent: bool, sized: bool, done: nat)
    | Receiving(size: nat)
    | Draining(block: Block, size: nat, message: seq<Byte>, out: seq<Byte>)
  {
    predicate Busy() { Filling? || Draining? }
  }

  datatype Sys = Sys(queue: seq<Block>, spare: seq<Block>, length: map<Block, nat>, bytes: map<Block, seq<Byte>>,
                     ops: map<Tid, Op>, recv: Side, send: Side, flag: Flag, msgSize: nat)

  function ListsOf(s: Sys): Lists<Block> { Lists(s.queue, s.spare, s.recv.waiting, s.send.waiting) }

  // ---- invariant -------------------------------------------------------------------------

  ghost predicate Held(s: Sys, b: Block) {
    exists t :: t in s.ops && s.ops[t].Busy() && s.ops[t].block == b
  }

  /** Every block of the pool is in exactly one place: queued, free, or in one thread's hands. */
  ghost predicate BlocksOk(s: Sys) {
    && s.length.Keys == s.bytes.Keys
    && Distinct(s.queue) && Distinct(s.spare)
    && (forall b :: b in s.queue ==> b in s.bytes && b !in s.spare)
    && (forall b :: b in s.spare ==> b in s.bytes)
    && (forall t :: t in s.ops && s.ops[t].Busy() ==>
          s.ops[t].block in s.bytes && s.ops[t].block !in s.queue && s.ops[t].block !in s.spare)
    && (forall t, u :: t in s.ops && u in s.ops && t != u && s.ops[t].Busy() && s.ops[u].Busy()
          ==> s.ops[t].block != s.ops[u].block)
    && (forall b :: b in s.bytes && b !in s.queue && b !in s.spare ==> Held(s, b))
  }

  ghost predicate OpOk(s: Sys, o: Op) {
    match o
    case Filling(b, buf, _, sized, done) =>
      && b in s.bytes && b in s.length && |buf| <= s.msgSize == |s.bytes[b]| && done <= |buf|
      && s.bytes[b][..done] == buf[..done] && (sized ==> s.length[b] == |buf|) && (done > 0 ==> sized)
    case Draining(b, size, message, out) =>
      && b in s.bytes && b in s.length && s.length[b] == |message| <= |s.bytes[b]|
      && s.bytes[b][..|message|] == message
      && |out| <= |message| && |out| <= size && out == message[..|out|]
    case Sending(buf) => |buf| <= s.msgSize
    case _ => true
  }

  ghost predicate DataOk(s: Sys) {
    && (forall b :: b in s.bytes ==> |s.bytes[b]| == s.msgSize)
    && (forall b :: b in s.queue ==> b in s.length && s.length[b] <= s.msgSize)
    && (forall t :: t in s.ops ==> OpOk(s, s.ops[t]))
  }

  ghost predicate RecvSideOk(s: Sys) {
    && SideOk(s.recv) && NoneLost(s.recv, |s.queue|)
    && (forall t :: t in s.recv.waiting ==> t in s.ops && s.ops[t].Receiving?)
    && (forall t :: t in s.recv.woken ==> t in s.ops && s.ops[t].Receiving?)
  }

  ghost predicate SendSideOk(s: Sys) {
    && SideOk(s.send) && NoneLost(s.send, |s.spare|)
    && (forall t :: t in s.send.waiting ==> t in s.ops && s.ops[t].Sending?)
    && (forall t :: t in s.send.woken ==> t in s.ops && s.ops[t].Sending?)
  }

  ghost predicate Inv(s: Sys) {
    BlocksOk(s) && DataOk(s) && RecvSideOk(s) && SendSideOk(s)
  }

  // ---- steps -----------------------------------------------------------------------------

  datatype Step =
    | SendEnter(t: Tid, buf: seq<Byte>, wait: bool, prio: Tid -> int)
    | UrgentEnter(t: Tid, buf: seq<Byte>)
    | SetLength(t: Tid)
    | CopyByteIn(t: Tid)
    | LinkBy(t: Tid)
    | RecvEnter(t: Tid, size: nat, wait: bool, prio: Tid -> int)
    | CopyByteOut(t: Tid)
    | FreeBy(t: Tid)
    | ExpireOf(t: Tid)
    | FailReturn(t: Tid)
    | ResetAll

  function Min(a: nat, b: nat): nat { if a < b then a else b }

  ghost predicate Enabled(s: Sys, e: Step) {
    match e
    case SendEnter(t, buf, _, _) =>
      t in s.ops && buf != [] && (s.ops[t].Idle? || (s.ops[t] == Sending(buf) && t in s.send.woken))
    case UrgentEnter(t, buf) => t in s.ops && buf != [] && s.ops[t].Idle?
    case SetLength(t) => t in s.ops && s.ops[t].Filling? && !s.ops[t].sized
    case CopyByteIn(t) => t in s.ops && s.ops[t].Filling? && s.ops[t].sized && s.ops[t].done < |s.ops[t].buf|
    case LinkBy(t) => t in s.ops && s.ops[t].Filling? && s.ops[t].sized && s.ops[t].done == |s.ops[t].buf|
    case RecvEnter(t, size, _, _) =>
      t in s.ops && size != 0 && (s.ops[t].Idle? || (s.ops[t] == Receiving(size) && t in s.recv.woken))
    case CopyByteOut(t) =>
      t in s.ops && s.ops[t].Draining? && s.ops[t].block in s.length
      && |s.ops[t].out| < Min(s.length[s.ops[t].block], s.ops[t].size)
    case FreeBy(t) =>
      t in s.ops && s.ops[t].Draining? && s.ops[t].block in s.length
      && |s.ops[t].out| == Min(s.length[s.ops[t].block], s.ops[t].size)
    case ExpireOf(t) => t in s.recv.waiting || t in s.send.waiting
    case FailReturn(t) =>
      && t in s.ops && (s.ops[t].Sending? || s.ops[t].Receiving?)
      && t !in s.recv.waiting && t !in s.recv.woken && t !in s.send.waiting && t !in s.send.woken
    case ResetAll => true
  }

  function Put(s: Sys, t: Tid, o: Op): Sys { s.(ops := s.ops[t := o]) }

  /** The queue as an operation leaves it, and those then resumed that have not looked yet. */
  function With(s: Sys, l: Lists<Block>, recv: set<Tid>, send: set<Tid>): Sys {
    s.(queue := l.queue, spare := l.spare, recv := Side(l.receivers, recv), send := Side(l.senders, send))
  }

  /** A message larger than the queue's messages is refused before the queue is looked at. */
  function EnterSend(s: Sys, t: Tid, buf: seq<Byte>, wait: bool, prio: Tid -> int): Sys {
    if |buf| > s.msgSize then s
    else
      var (l, o) := TakeBlock(ListsOf(s), s.flag, prio, t, wait);
      var r := With(s, l, s.recv.woken, s.send.woken - {t});
      match o
      case Got(b) => Put(r, t, Filling(b, buf, false, false, 0))
      case Suspended => Put(r, t, Sending(buf))
      case _ => Put(r, t, Idle)
  }

  /** An urgent send takes a block in the same way, but never waits. */
  function EnterUrgent(s: Sys, t: Tid, buf: seq<Byte>): Sys {
    if |buf| > s.msgSize then s
    else
      var (l, o) := TakeBlock(ListsOf(s), s.flag, x => 0, t, false);
      var r := With(s, l, s.recv.woken, s.send.woken);
      if o.Got? then Put(r, t, Filling(o.block, buf, true, false, 0)) else r
  }

  function EnterRecv(s: Sys, t: Tid, size: nat, wait: bool, prio: Tid -> int): Sys
    requires forall b :: b in s.queue ==> b in s.bytes && b in s.length && s.length[b] <= |s.bytes[b]|
  {
    var (l, o) := TakeMessage(ListsOf(s), s.flag, prio, t, wait);
    var r := With(s, l, s.recv.woken - {t}, s.send.woken);
    match o
    case Got(b) => Put(r, t, Draining(b, size, s.bytes[b][..s.length[b]], []))
    case Suspended => Put(r, t, Receiving(size))
    case _ => Put(r, t, Idle)
  }

  function FillByte(s: Sys, t: Tid): Sys
    requires t in s.ops && s.ops[t].Filling? && s.ops[t].done < |s.ops[t].buf|
    requires s.ops[t].block in s.bytes && |s.ops[t].buf| <= |s.bytes[s.ops[t].block]|
  {
    var o := s.ops[t];
    Put(s.(bytes := s.bytes[o.block := s.bytes[o.block][o.done := o.buf[o.done]]]), t, o.(done := o.done + 1))
  }

  function DrainByte(s: Sys, t: Tid): Sys
    requires t in s.ops && s.ops[t].Draining?
    requires s.ops[t].block in s.bytes && |s.ops[t].out| < |s.bytes[s.ops[t].block]|
  {
    var o := s.ops[t];
    Put(s, t, o.(out := o.out + [s.bytes[o.block][|o.out|]]))
  }

  /** Whom a link resumes is what LinkBlock answers. */
  function Link(s: Sys, t: Tid): Sys
    requires t in s.ops && s.ops[t].Filling?
  {
    var (l, resumed) := LinkBlock(ListsOf(s), s.ops[t].block, s.ops[t].urgent);
    Put(With(s, l, s.recv.woken + Those(resumed), s.send.woken), t, Idle)
  }

  function Free(s: Sys, t: Tid): Sys
    requires t in s.ops && s.ops[t].Draining?
  {
    var (l, resumed) := FreeBlock(ListsOf(s), s.ops[t].block);
    Put(With(s, l, s.recv.woken, s.send.woken + Those(resumed)), t, Idle)
  }

  function Apply(s: Sys, e: Step): Sys
    requires Inv(s) && Enabled(s, e)
  {
    match e
    case SendEnter(t, buf, wait, prio) => EnterSend(s, t, buf, wait, prio)
    case UrgentEnter(t, buf) => EnterUrgent(s, t, buf)
    case SetLength(t) =>
      assert OpOk(s, s.ops[t]);
      Put(s.(length := s.length[s.ops[t].block := |s.ops[t].buf|]), t, s.ops[t].(sized := true))
    case CopyByteIn(t) =>
      assert OpOk(s, s.ops[t]);
      FillByte(s, t)
    case LinkBy(t) => Link(s, t)
    case RecvEnter(t, size, wait, prio) => EnterRecv(s, t, size, wait, prio)
    case CopyByteOut(t) =>
      assert OpOk(s, s.ops[t]);
      DrainByte(s, t)
    case FreeBy(t) => Free(s, t)
    case ExpireOf(t) => s.(recv := Expired(s.recv, t), send := Expired(s.send, t))
    case FailReturn(t) => Put(s, t, Idle)
    case ResetAll =>
      With(s, ResetLists(ListsOf(s)), s.recv.woken, s.send.woken)
  }
}
