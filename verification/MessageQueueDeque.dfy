/** A message queue is a bounded deque of byte strings. */
module MessageQueueDeque {
  import opened WaitList
  import opened WaitSide
  import opened MessageQueue
  import opened MessageQueueRuns
  import opened MessageQueueInv

  type Bytes = seq<Byte>

  ghost predicate Readable(s: Sys, q: seq<Block>) {
    forall b :: b in q ==> b in s.bytes && b in s.length && s.length[b] <= |s.bytes[b]|
  }

  ghost function Read(s: Sys, q: seq<Block>): (c: seq<Bytes>)
    requires Readable(s, q)
    ensures |c| == |q| && forall i :: 0 <= i < |q| ==> c[i] == s.bytes[q[i]][..s.length[q[i]]]
  {
    seq(|q|, i requires 0 <= i < |q| => assert q[i] in q; s.bytes[q[i]][..s.length[q[i]]])
  }

  /** The queue as its users see it. */
  ghost function Contents(s: Sys): seq<Bytes>
    requires Inv(s)
  {
    Read(s, s.queue)
  }

  datatype Effect = Nothing | Append(m: Bytes) | Prepend(m: Bytes) | Pop(m: Bytes) | Clear

  ghost predicate Acts(c: seq<Bytes>, f: Effect, c': seq<Bytes>) {
    match f
    case Nothing => c' == c
    case Append(m) => c' == c + [m]
    case Prepend(m) => c' == [m] + c
    case Pop(m) => c == [m] + c'
    case Clear => c' == []
  }

  /** A send takes effect when its block is linked, a receive when its block is unlinked; the copies,
      allocations and time-outs in between have none. */
  ghost function EffectOf(s: Sys, e: Step): Effect
    requires Inv(s) && Enabled(s, e)
  {
    match e
    case LinkBy(t) => if s.ops[t].urgent then Prepend(s.ops[t].buf) else Append(s.ops[t].buf)
    case RecvEnter(t, size, wait, prio) =>
      if s.queue == [] then Nothing else Pop(Apply(s, e).ops[t].message)
    case ResetAll => Clear
    case _ => Nothing
  }

  lemma ReadKept(s: Sys, r: Sys, q: seq<Block>)
    requires Readable(s, q) && Readable(r, q)
    requires forall b :: b in q ==> r.bytes[b] == s.bytes[b] && r.length[b] == s.length[b]
    ensures Read(r, q) == Read(s, q)
  {
    forall i | 0 <= i < |q| ensures Read(r, q)[i] == Read(s, q)[i] { assert q[i] in q; }
  }

  lemma CopyKeeps(s: Sys, e: Step, t: Tid)
    requires Inv(s) && Enabled(s, e) && Inv(Apply(s, e)) && (e == SetLength(t) || e == CopyByteIn(t))
    ensures Contents(Apply(s, e)) == Contents(s)
  {
    assert OpOk(s, s.ops[t]);
    ReadKept(s, Apply(s, e), s.queue);
  }

  lemma ReadEnds(s: Sys, q: seq<Block>, b: Block)
    requires Readable(s, q) && b in s.bytes && b in s.length && s.length[b] <= |s.bytes[b]|
    ensures Readable(s, [b] + q) && Read(s, [b] + q) == [s.bytes[b][..s.length[b]]] + Read(s, q)
    ensures Readable(s, q + [b]) && Read(s, q + [b]) == Read(s, q) + [s.bytes[b][..s.length[b]]]
  {
  }

  lemma SameRead(s: Sys, r: Sys, q: seq<Block>)
    requires Readable(s, q) && r.bytes == s.bytes && r.length == s.length
    ensures Readable(r, q) && Read(r, q) == Read(s, q)
  {
  }

  /** A block is linked only when it holds its whole message. */
  lemma LinkedWhole(s: Sys, t: Tid)
    requires Inv(s) && Enabled(s, LinkBy(t))
    ensures var o := s.ops[t]; var b := o.block;
            && b in s.bytes && b in s.length && s.length[b] <= |s.bytes[b]|
            && s.bytes[b][..s.length[b]] == o.buf
            && Readable(s, s.queue)
  {
    assert OpOk(s, s.ops[t]);
  }

  lemma LinkActs(s: Sys, t: Tid)
    requires Inv(s) && Enabled(s, LinkBy(t)) && Inv(Link(s, t))
    ensures Acts(Contents(s), EffectOf(s, LinkBy(t)), Contents(Link(s, t)))
  {
    LinkedWhole(s, t);
    var o, r := s.ops[t], Link(s, t);
    ReadEnds(s, s.queue, o.block);
    SameRead(s, r, r.queue);
  }

  lemma EmptyRecv(s: Sys, t: Tid, size: nat, wait: bool, prio: Tid -> int)
    requires Inv(s) && s.queue == []
    ensures EnterRecv(s, t, size, wait, prio).queue == []
  {
  }

  lemma UnlinkFields(s: Sys, t: Tid, size: nat, wait: bool, prio: Tid -> int)
    requires Inv(s) && s.queue != []
    ensures var b, r := s.queue[0], EnterRecv(s, t, size, wait, prio);
            && b in s.bytes && b in s.length && s.length[b] <= |s.bytes[b]|
            && r.queue == s.queue[1..] && r.bytes == s.bytes && r.length == s.length
            && t in r.ops && r.ops[t] == Draining(b, size, s.bytes[b][..s.length[b]], [])
    ensures Readable(s, s.queue) && s.queue == [s.queue[0]] + s.queue[1..]
  {
    assert s.queue[0] in s.queue;
  }

  lemma FirstRead(s: Sys, b: Block, q: seq<Block>)
    requires Readable(s, [b] + q)
    ensures b in s.bytes && b in s.length && s.length[b] <= |s.bytes[b]| && Readable(s, q)
    ensures Read(s, [b] + q) == [s.bytes[b][..s.length[b]]] + Read(s, q)
  {
    assert ([b] + q)[0] in [b] + q;
    forall x | x in q ensures x in [b] + q {}
    ReadEnds(s, q, b);
  }

  lemma UnlinkActs(s: Sys, t: Tid, size: nat, wait: bool, prio: Tid -> int)
    requires Inv(s) && Enabled(s, RecvEnter(t, size, wait, prio)) && Inv(EnterRecv(s, t, size, wait, prio)) && s.queue != []
    ensures Acts(Contents(s), EffectOf(s, RecvEnter(t, size, wait, prio)), Contents(EnterRecv(s, t, size, wait, prio)))
  {
    UnlinkFields(s, t, size, wait, prio);
    FirstRead(s, s.queue[0], s.queue[1..]);
    SameRead(s, EnterRecv(s, t, size, wait, prio), s.queue[1..]);
  }

  lemma RecvActs(s: Sys, t: Tid, size: nat, wait: bool, prio: Tid -> int)
    requires Inv(s) && Enabled(s, RecvEnter(t, size, wait, prio)) && Inv(EnterRecv(s, t, size, wait, prio))
    ensures Acts(Contents(s), EffectOf(s, RecvEnter(t, size, wait, prio)), Contents(EnterRecv(s, t, size, wait, prio)))
  {
    if s.queue == [] { EmptyRecv(s, t, size, wait, prio); } else { UnlinkActs(s, t, size, wait, prio); }
  }

  ghost predicate SameMessages(s: Sys, r: Sys) {
    r.queue == s.queue && r.bytes == s.bytes && r.length == s.length
  }

  lemma SendQuiet(s: Sys, t: Tid, buf: seq<Byte>, wait: bool, prio: Tid -> int)
    ensures SameMessages(s, EnterSend(s, t, buf, wait, prio)) && SameMessages(s, EnterUrgent(s, t, buf))
  {
    TakeBlockAnswers(ListsOf(s), s.flag, prio, t, wait);
    TakeBlockAnswers(ListsOf(s), s.flag, x => 0, t, false);
  }

  lemma QuietFields(s: Sys, e: Step)
    requires Inv(s) && Enabled(s, e)
    requires !e.LinkBy? && !e.RecvEnter? && !e.SetLength? && !e.CopyByteIn? && !e.ResetAll?
    ensures SameMessages(s, Apply(s, e))
  {
    match e
    case SendEnter(t, buf, wait, prio) => SendQuiet(s, t, buf, wait, prio);
    case UrgentEnter(t, buf) => SendQuiet(s, t, buf, false, x => 0);
    case CopyByteOut(t) => assert OpOk(s, s.ops[t]);
    case _ =>
  }

  lemma QuietKeeps(s: Sys, e: Step)
    requires Inv(s) && Enabled(s, e) && Inv(Apply(s, e))
    requires !e.LinkBy? && !e.RecvEnter? && !e.SetLength? && !e.CopyByteIn? && !e.ResetAll?
    ensures Contents(Apply(s, e)) == Contents(s)
  {
    QuietFields(s, e);
    SameRead(s, Apply(s, e), s.queue);
  }

  /** Every step acts on the contents as its effect says. */
  lemma StepRefines(s: Sys, e: Step)
    requires Inv(s) && Enabled(s, e)
    ensures Inv(Apply(s, e)) && Acts(Contents(s), EffectOf(s, e), Contents(Apply(s, e)))
  {
    StepInv(s, e);
    if e.LinkBy? { LinkActs(s, e.t); }
    else if e.RecvEnter? { RecvActs(s, e.t, e.size, e.wait, e.prio); }
    else if e.SetLength? || e.CopyByteIn? { CopyKeeps(s, e, e.t); }
    else if !e.ResetAll? { QuietKeeps(s, e); }
  }

  /** What a finished receive hands to its caller: the first min(length, size) bytes of the message it
      unlinked, although others kept copying meanwhile. */
  lemma DeliveredWhole(s: Sys, t: Tid)
    requires Inv(s) && Enabled(s, FreeBy(t))
    ensures s.ops[t].out == s.ops[t].message[..Min(|s.ops[t].message|, s.ops[t].size)]
  {
    assert OpOk(s, s.ops[t]);
  }

  // ---- runs ------------------------------------------------------------------------------

  ghost predicate Legal(s: Sys, run: seq<Step>)
    requires Inv(s)
    decreases |run|
  {
    run == [] || (Enabled(s, run[0]) && (StepInv(s, run[0]); Legal(Apply(s, run[0]), run[1..])))
  }

  ghost function Exec(s: Sys, run: seq<Step>): (r: Sys)
    requires Inv(s) && Legal(s, run)
    ensures Inv(r)
    decreases |run|
  {
    if run == [] then s else
      StepInv(s, run[0]);
      Exec(Apply(s, run[0]), run[1..])
  }

  /** A queue just initialised over the blocks `spare`. */
  ghost predicate Initial(s: Sys) {
    && s.queue == [] && Distinct(s.spare)
    && s.bytes.Keys == s.length.Keys && (forall b :: b in s.bytes <==> b in s.spare)
    && (forall b :: b in s.bytes ==> |s.bytes[b]| == s.msgSize)
    && (forall t :: t in s.ops ==> s.ops[t] == Idle)
    && s.recv == Side([], {}) && s.send == Side([], {})
  }

  lemma InitialInv(s: Sys)
    requires Initial(s)
    ensures Inv(s)
  {
  }

  ghost function Hands(s: Sys): set<Block> {
    set t | t in s.ops && s.ops[t].Busy() :: s.ops[t].block
  }

  ghost function Members(q: seq<Block>): set<Block> {
    set b | b in q
  }

  lemma Partition(r: Sys)
    requires BlocksOk(r)
    ensures r.bytes.Keys == Members(r.queue) + Members(r.spare) + Hands(r)
    ensures Members(r.queue) !! Members(r.spare) !! Hands(r)
  {
    forall b | b in r.bytes ensures b in Members(r.queue) + Members(r.spare) + Hands(r) {
      if b !in r.queue && b !in r.spare {
        assert Held(r, b);
        var t :| t in r.ops && r.ops[t].Busy() && r.ops[t].block == b;
        assert b in Hands(r);
      }
    }
  }

  lemma SamePool(s: Sys, e: Step)
    requires Inv(s) && Enabled(s, e)
    ensures Apply(s, e).bytes.Keys == s.bytes.Keys
  {
    match e
    case CopyByteIn(t) => assert OpOk(s, s.ops[t]);
    case SetLength(t) => assert OpOk(s, s.ops[t]);
    case _ =>
  }

  lemma {:induction false} PoolKept(s: Sys, run: seq<Step>)
    requires Inv(s) && Legal(s, run)
    ensures Exec(s, run).bytes.Keys == s.bytes.Keys
    decreases |run|
  {
    if run != [] {
      StepInv(s, run[0]);
      SamePool(s, run[0]);
      PoolKept(Apply(s, run[0]), run[1..]);
    }
  }

  /** In every reachable state the blocks of the pool are partitioned into queue, free list and hands of
      threads, and no wake-up is lost on either side. */
  lemma ReachableOk(s: Sys, run: seq<Step>)
    requires Initial(s) && Inv(s) && Legal(s, run)
    ensures var r := Exec(s, run);
            && Members(s.spare) == Members(r.queue) + Members(r.spare) + Hands(r)
            && Members(r.queue) !! Members(r.spare) !! Hands(r)
            && Distinct(r.queue) && Distinct(r.spare)
            && (forall t, u :: t in r.ops && u in r.ops && t != u && r.ops[t].Busy() && r.ops[u].Busy()
                  ==> r.ops[t].block != r.ops[u].block)
            && (r.recv.waiting != [] ==> |r.queue| <= |r.recv.woken|)
            && (r.send.waiting != [] ==> |r.spare| <= |r.send.woken|)
  {
    PoolKept(s, run);
    Partition(Exec(s, run));
    assert Members(s.spare) == s.bytes.Keys;
  }

  lemma {:induction false} SpareCount(q: seq<Block>, pool: set<Block>)
    requires Distinct(q) && forall b :: b in q <==> b in pool
    ensures |pool| == |q|
    decreases |q|
  {
    if q != [] {
      PopMembers(q);
      SpareCount(q[1..], pool - {q[0]});
    } else {
      assert pool == {};
    }
  }

  /** The deque is bounded by the number of blocks it was initialised with. */
  lemma Bounded(s: Sys, run: seq<Step>)
    requires Initial(s) && Inv(s) && Legal(s, run)
    ensures |Contents(Exec(s, run))| <= |s.spare|
  {
    PoolKept(s, run);
    DistinctFits(Exec(s, run).queue, s.bytes.Keys);
    SpareCount(s.spare, s.bytes.Keys);
  }

  ghost function Sent(s: Sys, run: seq<Step>): seq<Bytes>
    requires Inv(s) && Legal(s, run)
    decreases |run|
  {
    if run == [] then [] else
      StepInv(s, run[0]);
      var f := EffectOf(s, run[0]);
      (if f.Append? then [f.m] else []) + Sent(Apply(s, run[0]), run[1..])
  }

  ghost function Received(s: Sys, run: seq<Step>): seq<Bytes>
    requires Inv(s) && Legal(s, run)
    decreases |run|
  {
    if run == [] then [] else
      StepInv(s, run[0]);
      var f := EffectOf(s, run[0]);
      (if f.Pop? then [f.m] else []) + Received(Apply(s, run[0]), run[1..])
  }

  lemma StepInOrder(s: Sys, e: Step)
    requires Inv(s) && Enabled(s, e) && Inv(Apply(s, e)) && !e.UrgentEnter? && !e.ResetAll?
    requires e.LinkBy? ==> !s.ops[e.t].urgent
    ensures var f := EffectOf(s, e);
            Contents(s) + (if f.Append? then [f.m] else []) == (if f.Pop? then [f.m] else []) + Contents(Apply(s, e))
  {
    StepRefines(s, e);
  }

  /** No urgent send is linked, and there is no reset. */
  ghost predicate Plain(s: Sys, run: seq<Step>)
    requires Inv(s) && Legal(s, run)
    decreases |run|
  {
    run == [] ||
    (&& !run[0].UrgentEnter? && !run[0].ResetAll? && (run[0].LinkBy? ==> !s.ops[run[0].t].urgent)
     && (StepInv(s, run[0]); Plain(Apply(s, run[0]), run[1..])))
  }

  /** First in, first out over whole runs: what was queued, then the messages linked, are the messages
      unlinked, then what is still queued. */
  lemma {:induction false} FirstInFirstOut(s: Sys, run: seq<Step>)
    requires Inv(s) && Legal(s, run) && Plain(s, run)
    ensures Contents(s) + Sent(s, run) == Received(s, run) + Contents(Exec(s, run))
    decreases |run|
  {
    if run != [] {
      var e := run[0];
      StepInv(s, e);
      var s1 := Apply(s, e);
      StepInOrder(s, e);
      FirstInFirstOut(s1, run[1..]);
      var f := EffectOf(s, e);
      JoinInOrder(Contents(s), if f.Append? then [f.m] else [], Sent(s1, run[1..]), if f.Pop? then [f.m] else [],
                  Received(s1, run[1..]), Contents(s1), Contents(Exec(s, run)));
    }
  }

  // ---- whole runs, urgent messages and resets included -----------------------------------

  /** The deque after an operation. */
  function After(c: seq<Bytes>, f: Effect): seq<Bytes> {
    match f
    case Nothing => c
    case Append(m) => c + [m]
    case Prepend(m) => [m] + c
    case Pop(_) => if c == [] then c else c[1..]
    case Clear => []
  }

  /** Only the front can be removed. */
  predicate Allowed(c: seq<Bytes>, f: Effect) {
    f.Pop? ==> c != [] && c[0] == f.m
  }

  function Replay(c: seq<Bytes>, fs: seq<Effect>): seq<Bytes>
    decreases |fs|
  {
    if fs == [] then c else Replay(After(c, fs[0]), fs[1..])
  }

  predicate AllAllowed(c: seq<Bytes>, fs: seq<Effect>)
    decreases |fs|
  {
    fs == [] || (Allowed(c, fs[0]) && AllAllowed(After(c, fs[0]), fs[1..]))
  }

  ghost function Effects(s: Sys, run: seq<Step>): (fs: seq<Effect>)
    requires Inv(s) && Legal(s, run)
    ensures |fs| == |run|
    decreases |run|
  {
    if run == [] then [] else
      StepInv(s, run[0]);
      [EffectOf(s, run[0])] + Effects(Apply(s, run[0]), run[1..])
  }

  lemma ActsIs(c: seq<Bytes>, f: Effect, c': seq<Bytes>)
    requires Acts(c, f, c')
    ensures Allowed(c, f) && c' == After(c, f)
  {
  }

  /** A queue is a deque: over any run its contents are what its sends, urgent sends, receives and resets,
      in the order in which they link and unlink, make of the contents before; and every receive gets the
      front. */
  lemma {:induction false} RunRefines(s: Sys, run: seq<Step>)
    requires Inv(s) && Legal(s, run)
    ensures AllAllowed(Contents(s), Effects(s, run))
    ensures Contents(Exec(s, run)) == Replay(Contents(s), Effects(s, run))
    decreases |run|
  {
    if run != [] {
      StepRefines(s, run[0]);
      var s1 := Apply(s, run[0]);
      ActsIs(Contents(s), EffectOf(s, run[0]), Contents(s1));
      RunRefines(s1, run[1..]);
      assert Effects(s, run)[1..] == Effects(s1, run[1..]);
    }
  }
}
