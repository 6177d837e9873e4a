/** Message queues: pool blocks on a free list, on the message list, or in the hands of a thread that
    copies a payload with interrupts enabled. */
module MessageQueue {
  import opened WaitList
  import opened WaitSide

  const ENTRY_MAX := 65535

  type Byte = b: int | 0 <= b < 256

  /** The two block lists and the two wait lists; `B` is the type of block references. */
  datatype Lists<B> = Lists(queue: seq<B>, spare: seq<B>, receivers: seq<Tid>, senders: seq<Tid>)

  datatype Outcome<B> = Got(block: B) | Full | Timeout | Suspended

  /** One pass of the send loop: take a free block (ipc.c:3250-3316, 3511-3526). */
  function TakeBlock<B>(l: Lists<B>, flag: Flag, prio: Tid -> int, t: Tid, wait: bool): (Lists<B>, Outcome<B>) {
    if l.spare == [] then
      if wait then (l.(senders := Queued(flag, prio, l.senders, t)), Suspended) else (l, Full)
    else (l.(spare := l.spare[1..]), Got(l.spare[0]))
  }

  /** The second critical section of a send, or of an urgent one. */
  function LinkBlock<B>(l: Lists<B>, b: B, urgent: bool): (Lists<B>, Option<Tid>) {
    (l.(queue := if urgent then [b] + l.queue else l.queue + [b], receivers := Rest(l.receivers)), First(l.receivers))
  }

  /** One pass of the receive loop: unlink the first message (ipc.c:3645-3727). */
  function TakeMessage<B>(l: Lists<B>, flag: Flag, prio: Tid -> int, t: Tid, wait: bool): (Lists<B>, Outcome<B>) {
    if l.queue == [] then
      if wait then (l.(receivers := Queued(flag, prio, l.receivers, t)), Suspended) else (l, Timeout)
    else (l.(queue := l.queue[1..]), Got(l.queue[0]))
  }

  /** The block of a received message becomes free. */
  function FreeBlock<B>(l: Lists<B>, b: B): (Lists<B>, Option<Tid>) {
    (l.(spare := [b] + l.spare, senders := Rest(l.senders)), First(l.senders))
  }

  function Reversed<B>(s: seq<B>): seq<B> {
    if s == [] then [] else Reversed(s[1..]) + [s[0]]
  }

  /** `rt_mq_control` with RT_IPC_CMD_RESET: the messages go to the free list one by one. */
  function ResetLists<B>(l: Lists<B>): Lists<B> {
    Lists([], Reversed(l.queue) + l.spare, [], [])
  }

  // ---- what the regions do, and answer ---------------------------------------------------

  /** A send that finds a free block gets the first one; one that finds none sleeps if it may, and else
      answers -RT_EFULL and changes nothing. */
  lemma TakeBlockAnswers<B>(l: Lists<B>, flag: Flag, prio: Tid -> int, t: Tid, wait: bool)
    ensures var (r, o) := TakeBlock(l, flag, prio, t, wait);
            if l.spare != [] then o.Got? && [o.block] + r.spare == l.spare && r == l.(spare := r.spare)
            else if wait then
              o == Suspended && r == l.(senders := r.senders) && Joins(flag, prio, l.senders, r.senders, t)
            else o == Full && r == l
  {
    QueuedJoins(flag, prio, l.senders, t);
  }

  /** A linked message comes last, an urgent one first; exactly the first sleeping receiver is resumed. */
  lemma LinkAnswers<B>(l: Lists<B>, b: B, urgent: bool)
    ensures var (r, resumed) := LinkBlock(l, b, urgent);
            && r.queue == (if urgent then [b] + l.queue else l.queue + [b])
            && r.spare == l.spare && r.senders == l.senders && ResumesFirst(l.receivers, r.receivers, resumed)
  {
  }

  /** A receive that finds a message gets the first one; one that finds none sleeps if it may, and else
      answers -RT_ETIMEOUT and changes nothing. */
  lemma TakeMessageAnswers<B>(l: Lists<B>, flag: Flag, prio: Tid -> int, t: Tid, wait: bool)
    ensures var (r, o) := TakeMessage(l, flag, prio, t, wait);
            if l.queue != [] then o.Got? && [o.block] + r.queue == l.queue && r == l.(queue := r.queue)
            else if wait then
              o == Suspended && r == l.(receivers := r.receivers) && Joins(flag, prio, l.receivers, r.receivers, t)
            else o == Timeout && r == l
  {
    QueuedJoins(flag, prio, l.receivers, t);
  }

  /** A freed block is the next one handed out; exactly the first sleeping sender is resumed. */
  lemma FreeAnswers<B>(l: Lists<B>, b: B)
    ensures var (r, resumed) := FreeBlock(l, b);
            && r.spare == [b] + l.spare && r.queue == l.queue && r.receivers == l.receivers
            && ResumesFirst(l.senders, r.senders, resumed)
  {
  }

  lemma {:induction false} ReversedEntry<B>(s: seq<B>, k: nat)
    requires k < |s|
    ensures |Reversed(s)| == |s| && Reversed(s)[k] == s[|s| - 1 - k]
  {
    if |s| > 1 { ReversedEntry(s[1..], if k < |s| - 1 then k else 0); }
  }

  /** After a reset nothing is queued and nobody sleeps; the last message is the first free block. */
  lemma ResetAnswers<B>(l: Lists<B>)
    ensures var r := ResetLists(l); var n := |l.queue|;
            && r.queue == [] && r.receivers == r.senders == [] && |r.spare| == n + |l.spare|
            && (forall k :: 0 <= k < n ==> r.spare[k] == l.queue[n - 1 - k])
            && (forall k :: 0 <= k < |l.spare| ==> r.spare[n + k] == l.spare[k])
  {
    if l.queue != [] { ReversedEntry(l.queue, 0); }
    forall k | 0 <= k < |l.queue| ensures Reversed(l.queue)[k] == l.queue[|l.queue| - 1 - k] {
      ReversedEntry(l.queue, k);
    }
  }

  lemma {:induction false} ReversedMembers<B>(s: seq<B>)
    requires Distinct(s)
    ensures Distinct(Reversed(s)) && |Reversed(s)| == |s| && forall b :: b in Reversed(s) <==> b in s
  {
    if s != [] {
      ReversedMembers(s[1..]);
      assert s == [s[0]] + s[1..] && s[0] !in s[1..];
      InsertDistinct(Reversed(s[1..]), |s| - 1, s[0]);
      assert InsertAt(Reversed(s[1..]), |s| - 1, s[0]) == Reversed(s);
    }
  }

  lemma {:induction false} ReversedSnoc<B>(s: seq<B>, x: B)
    ensures Reversed(s + [x]) == [x] + Reversed(s)
  {
    if s == [] {
      assert s + [x] == [x];
    } else {
      assert (s + [x])[1..] == s[1..] + [x];
      ReversedSnoc(s[1..], x);
    }
  }

  lemma ReversedFirst<B>(s: seq<B>, rest: seq<B>)
    requires s != []
    ensures Reversed(s) + rest == Reversed(s[1..]) + ([s[0]] + rest)
  {
  }

  lemma {:induction false} SetNoLarger(s: seq<Message>)
    ensures |set m | m in s| <= |s|
    decreases |s|
  {
    if s != [] {
      SetNoLarger(s[1..]);
      assert s == [s[0]] + s[1..];
      assert (set m | m in s) == {s[0]} + set m | m in s[1..];
    }
  }

  class Message {
    var next: Message?
    var length: nat
    var prio: int
    var data: seq<Byte>

    constructor (size: nat)
      ensures next == null && |data| == size
    {
      next, length, prio, data := null, 0, 0, seq(size, _ => 0);
    }
  }

  function At(s: seq<Message>, i: nat): Message? {
    if i < |s| then s[i] else null
  }

  /** A singly linked list: `p` points to the first block, each block to the one behind it. */
  ghost predicate Chain(p: Message?, s: seq<Message>)
    reads s
  {
    && p == At(s, 0)
    && forall i {:trigger s[i].next} :: 0 <= i < |s| ==> s[i].next == At(s, i + 1)
  }

  lemma ChainPush(p: Message?, s: seq<Message>, m: Message)
    requires Chain(p, s) && m.next == p
    ensures Chain(m, [m] + s)
  {
    var r := [m] + s;
    forall i | 0 <= i < |r| ensures r[i].next == At(r, i + 1) {
      if i > 0 { assert r[i] == s[i - 1]; }
    }
  }

  lemma ChainPop(p: Message?, s: seq<Message>)
    requires Chain(p, s) && s != []
    ensures Chain(s[0].next, s[1..])
  {
    var r := s[1..];
    forall i | 0 <= i < |r| ensures r[i].next == At(r, i + 1) {
      assert s[i + 1].next == At(s, i + 2);
    }
  }

  ghost predicate Within(s: seq<Message>, pool: set<Message>) {
    forall m :: m in s ==> m in pool
  }

  /** A block of the pool comes to the free list once. */
  lemma NextBlock(blocks: seq<Message>, i: nat)
    requires Distinct(blocks) && i < |blocks|
    ensures blocks[i] in blocks && blocks[i] !in Reversed(blocks[..i])
    ensures Reversed(blocks[..i + 1]) == [blocks[i]] + Reversed(blocks[..i])
  {
    ReversedMembers(blocks[..i]);
    ReversedSnoc(blocks[..i], blocks[i]);
    assert blocks[..i + 1] == blocks[..i] + [blocks[i]];
  }

  lemma InsertedOk(q: seq<Message>, spare: seq<Message>, pool: set<Message>, i: nat, msg: Message)
    requires i < |q| && Distinct(q) && Within(q, pool) && (forall m :: m in q ==> m !in spare)
    requires msg in pool && msg !in q && msg !in spare
    ensures var r := InsertAt(q, i, msg);
            Distinct(r) && Within(r, pool) && (forall m :: m in r ==> m !in spare) && r[|r| - 1] == q[|q| - 1]
  {
    InsertDistinct(q, i, msg);
  }

  /** Redirecting one link and setting another inserts a block into a chain. */
  lemma ChainInsert(p: Message?, q: seq<Message>, i: nat, msg: Message)
    requires i < |q| && p == (if i == 0 then msg else q[0]) && msg.next == q[i]
    requires i > 0 ==> q[i - 1].next == msg
    requires forall k :: 0 <= k < |q| && k + 1 != i ==> q[k].next == At(q, k + 1)
    ensures Chain(p, InsertAt(q, i, msg))
  {
    var r := InsertAt(q, i, msg);
    forall k | 0 <= k < |r| ensures r[k].next == At(r, k + 1) {
      if k > i { assert r[k] == q[k - 1]; }
    }
  }

  lemma ChainAppend(p: Message?, q: seq<Message>, msg: Message)
    requires msg.next == null && p == At(q + [msg], 0)
    requires q != [] ==> q[|q| - 1].next == msg
    requires forall k :: 0 <= k < |q| - 1 ==> q[k].next == At(q, k + 1)
    ensures Chain(p, q + [msg])
  {
    var r := q + [msg];
    forall k | 0 <= k < |r| ensures r[k].next == At(r, k + 1) {
      if k < |q| { assert r[k] == q[k]; }
    }
  }

  /** Message priorities as ranks: the smaller, the earlier. */
  ghost predicate Ranked(s: seq<Message>, ranks: seq<int>)
    reads s
  {
    |ranks| == |s| && forall i :: 0 <= i < |s| ==> ranks[i] == -s[i].prio
  }

  ghost function Ranks(s: seq<Message>): (r: seq<int>)
    reads s
    ensures Ranked(s, r)
  {
    seq(|s|, i requires 0 <= i < |s| reads s => -s[i].prio)
  }

  lemma RanksAre(s: seq<Message>, ranks: seq<int>)
    requires Ranked(s, ranks)
    ensures Ranks(s) == ranks
  {
  }

  lemma RanksInserted(q: seq<Message>, ranks: seq<int>, i: nat, msg: Message, rank: int)
    requires i <= |q| && Ranked(q, ranks) && rank == -msg.prio
    ensures Ranked(InsertAt(q, i, msg), InsertAt(ranks, i, rank))
  {
  }

  lemma FrontDistinct(m: Message, s: seq<Message>)
    requires Distinct(s) && m !in s
    ensures Distinct([m] + s) && forall x :: x in [m] + s <==> x in s || x == m
  {
    InsertDistinct(s, 0, m);
    assert InsertAt(s, 0, m) == [m] + s;
  }

  lemma BackDistinct(s: seq<Message>, m: Message)
    requires Distinct(s) && m !in s
    ensures Distinct(s + [m]) && forall x :: x in s + [m] <==> x in s || x == m
  {
    InsertDistinct(s, |s|, m);
    assert InsertAt(s, |s|, m) == s + [m];
  }

  class Queue {
    const msgSize: nat
    const flag: Flag
    ghost const pool: set<Message>
    var head: Message?
    var tail: Message?
    var free: Message?
    var entry: nat
    var receivers: seq<Tid>
    var senders: seq<Tid>
    ghost var queued: seq<Message>
    ghost var spare: seq<Message>

    ghost predicate Valid()
      reads this, pool
    {
      && |pool| <= ENTRY_MAX
      && Within(queued, pool) && Within(spare, pool)
      && Distinct(queued) && Distinct(spare) && (forall m :: m in queued ==> m !in spare)
      && Chain(head, queued) && Chain(free, spare)
      && tail == (if queued == [] then null else queued[|queued| - 1])
      && entry == |queued|
    }

    ghost function View(): Lists<Message>
      reads this
    {
      Lists(queued, spare, receivers, senders)
    }

    /** `rt_mq_init`: thread the free list through the blocks of the pool; `max_msgs` has 16 bits. */
    constructor (msgSize: nat, flag: Flag, blocks: array<Message>)
      requires blocks.Length <= ENTRY_MAX && Distinct(blocks[..])
      modifies set m | m in blocks[..] :: m
      ensures Valid() && pool == (set m | m in blocks[..])
      ensures View() == Lists([], Reversed(blocks[..]), [], []) && this.msgSize == msgSize && this.flag == flag
    {
      this.msgSize, this.flag := msgSize, flag;
      head, tail, free, entry := null, null, null, 0;
      receivers, senders := [], [];
      queued, spare := [], [];
      pool := set m | m in blocks[..];
      new;
      SetNoLarger(blocks[..]);
      var temp := 0;
      while temp < blocks.Length
        invariant 0 <= temp <= blocks.Length
        invariant head == null && tail == null && entry == 0 && queued == [] && receivers == senders == []
        invariant Valid() && spare == Reversed(blocks[..temp])
      {
        var block := blocks[temp];
        NextBlock(blocks[..], temp);
        PushFree(block);
        temp := temp + 1;
      }
      assert blocks[..temp] == blocks[..];
    }

    /** Unlink the first free block. */
    method PopFree() returns (msg: Message)
      requires Valid() && spare != []
      modifies this`free, this`spare
      ensures Valid() && msg == old(spare)[0] && spare == old(spare)[1..]
      ensures msg in pool && msg !in queued && msg !in spare
    {
      msg := free;
      assert msg == spare[0] && msg in spare;
      ChainPop(free, spare);
      free := msg.next;
      spare := spare[1..];
    }

    /** Put a block in front of the free list. */
    method PushFree(msg: Message)
      requires Valid() && msg in pool && msg !in queued && msg !in spare
      modifies this`free, this`spare, msg`next
      ensures Valid() && spare == [msg] + old(spare)
    {
      msg.next := free;
      ChainPush(free, spare, msg);
      free := msg;
      FrontDistinct(msg, spare);
      spare := [msg] + spare;
    }

    /** Link a block behind the last message. */
    method LinkTail(msg: Message)
      requires Valid() && msg in pool && msg !in queued && msg !in spare && msg.next == null
      modifies this`head, this`tail, this`queued, this`entry, pool`next
      ensures Valid() && queued == old(queued) + [msg]
    {
      ghost var q := queued;
      assert tail != null ==> tail in q;
      if tail != null {
        tail.next := msg;
      }
      assert Chain(free, spare);
      tail := msg;
      if head == null {
        head := msg;
      }
      ChainAppend(head, q, msg);
      BackDistinct(queued, msg);
      queued := queued + [msg];
      Count(msg);
    }

    /** Link a block in front of the first message. */
    method LinkHead(msg: Message)
      requires Valid() && msg in pool && msg !in queued && msg !in spare
      modifies this`head, this`tail, this`queued, this`entry, msg`next
      ensures Valid() && queued == [msg] + old(queued)
    {
      msg.next := head;
      ChainPush(head, queued, msg);
      head := msg;
      if tail == null {
        tail := msg;
      }
      FrontDistinct(msg, queued);
      queued := [msg] + queued;
      Count(msg);
    }

    /** `entry ++` with its overflow guard, which never fires: there are at most 65535 blocks. */
    method Count(ghost msg: Message)
      requires |pool| <= ENTRY_MAX && Within(queued, pool) && Distinct(queued) && |queued| == entry + 1
      modifies this`entry
      ensures entry == old(entry) + 1
    {
      DistinctFits(queued, pool);
      if entry < ENTRY_MAX {
        entry := entry + 1;
      }
    }

    /** Unlink the first message. */
    method PopHead() returns (msg: Message)
      requires Valid() && queued != []
      modifies this`head, this`tail, this`queued, this`entry
      ensures Valid() && msg == old(queued)[0] && queued == old(queued)[1..]
      ensures msg in pool && msg !in queued && msg !in spare
    {
      msg := head;
      assert msg == queued[0] && msg in queued;
      ChainPop(head, queued);
      head := msg.next;
      if tail == msg {
        tail := null;
      }
      queued := queued[1..];
      if entry > 0 {
        entry := entry - 1;
      }
    }

    // ---- the critical sections -----------------------------------------------------------

    method TakeFreeBlock(prio: Tid -> int, t: Tid, wait: bool) returns (o: Outcome<Message>)
      requires Valid()
      modifies this
      ensures Valid() && (View(), o) == TakeBlock(old(View()), flag, prio, t, wait)
    {
      if free == null {
        if !wait {
          return Full;
        }
        senders := Queued(flag, prio, senders, t);
        return Suspended;
      }
      var msg := PopFree();
      o := Got(msg);
    }

    method ResumeReceiver() returns (r: Option<Tid>)
      requires Valid()
      modifies this`receivers
      ensures Valid() && receivers == Rest(old(receivers)) && r == First(old(receivers))
    {
      r := None;
      if receivers != [] {
        r := Some(receivers[0]);
        receivers := receivers[1..];
      }
    }

    method FinishSend(msg: Message, urgent: bool) returns (resumed: Option<Tid>)
      requires Valid() && msg in pool && msg !in queued && msg !in spare && (!urgent ==> msg.next == null)
      modifies this, pool`next
      ensures Valid() && (View(), resumed) == LinkBlock(old(View()), msg, urgent)
      ensures ResumesFirst(old(receivers), receivers, resumed)
    {
      if urgent {
        LinkHead(msg);
      } else {
        LinkTail(msg);
      }
      resumed := ResumeReceiver();
    }

    method TakeFirstMessage(prio: Tid -> int, t: Tid, wait: bool) returns (o: Outcome<Message>)
      requires Valid()
      modifies this
      ensures Valid() && (View(), o) == TakeMessage(old(View()), flag, prio, t, wait)
    {
      if entry == 0 {
        if !wait {
          return Timeout;
        }
        receivers := Queued(flag, prio, receivers, t);
        return Suspended;
      }
      var msg := PopHead();
      o := Got(msg);
    }

    method FinishReceive(msg: Message) returns (resumed: Option<Tid>)
      requires Valid() && msg in pool && msg !in queued && msg !in spare
      modifies this, msg`next
      ensures Valid() && (View(), resumed) == FreeBlock(old(View()), msg)
      ensures ResumesFirst(old(senders), senders, resumed)
    {
      PushFree(msg);
      resumed := None;
      if senders != [] {
        resumed := Some(senders[0]);
        senders := senders[1..];
      }
    }

    method Reset() returns (resumed: seq<Tid>)
      requires Valid()
      modifies this, pool`next
      ensures Valid() && View() == ResetLists(old(View()))
      ensures queued == [] && receivers == senders == [] && resumed == old(receivers) + old(senders)
    {
      var first := ResumeAll(receivers);
      var second := ResumeAll(senders);
      resumed := first + second;
      receivers := [];
      senders := [];
      while head != null
        invariant Valid() && receivers == senders == []
        invariant Reversed(queued) + spare == Reversed(old(queued)) + old(spare)
        decreases |queued|
      {
        ReversedFirst(queued, spare);
        var msg := PopHead();
        PushFree(msg);
      }
    }

    // ---- the copies, made with interrupts enabled ----------------------------------------

    /** Fill a block taken from the free list (ipc.c:3327-3333); the queue does not notice. */
    method CopyIn(msg: Message, buffer: seq<Byte>)
      requires Valid() && msg in pool && msg !in queued && msg !in spare && |buffer| <= |msg.data|
      modifies msg`next, msg`length, msg`data
      ensures Valid() && View() == old(View())
      ensures msg.next == null && msg.length == |buffer|
      ensures msg.data == buffer + old(msg.data)[|buffer|..]
    {
      msg.next := null;
      msg.length := |buffer|;
      CopyBytes(msg, buffer);
    }

    /** rt_memcpy, one byte at a time. */
    static method CopyBytes(msg: Message, buffer: seq<Byte>)
      requires |buffer| <= |msg.data|
      modifies msg`data
      ensures msg.data == buffer + old(msg.data)[|buffer|..]
    {
      var i := 0;
      while i < |buffer|
        invariant 0 <= i <= |buffer|
        invariant msg.data == buffer[..i] + old(msg.data)[i..]
      {
        msg.data := msg.data[i := buffer[i]];
        i := i + 1;
      }
    }

    /** Copy out at most `size` bytes of an unlinked message (ipc.c:3732-3738). */
    method CopyOut(msg: Message, size: nat) returns (out: seq<Byte>)
      requires msg.length <= |msg.data|
      ensures out == msg.data[..if msg.length > size then size else msg.length]
    {
      var len := msg.length;
      if len > size {
        len := size;
      }
      out := [];
      while |out| < len
        invariant |out| <= len && out == msg.data[..|out|]
      {
        out := out + [msg.data[|out|]];
      }
    }

    // ---- RT_USING_MESSAGEQUEUE_PRIORITY --------------------------------------------------

    /** `Valid` for the message list `q`, before the block in hand is linked into it. */
    ghost predicate Pending(q: seq<Message>, msg: Message)
      reads this, pool
    {
      && |pool| <= ENTRY_MAX && Within(q, pool) && Within(spare, pool)
      && Distinct(q) && Distinct(spare) && (forall m :: m in q ==> m !in spare)
      && Chain(free, spare) && entry == |q| && queued == q
      && (q != [] ==> tail == q[|q| - 1])
      && msg in pool && msg !in q && msg !in spare && msg.next == null
    }

    /** A message put into an empty list is its head already. */
    ghost predicate Linkable(q: seq<Message>, msg: Message)
      reads this, pool
    {
      Pending(q, msg) && Chain(head, if q == [] then [msg] else q)
    }

    /** Record the priority; a message put into an empty list becomes its head at once. */
    method Stamp(msg: Message, prio: int, ghost ranks: seq<int>)
      requires Valid() && msg in pool && msg !in queued && msg !in spare && msg.next == null
      requires Ranked(queued, ranks)
      modifies this`head, msg`prio
      ensures Linkable(queued, msg) && msg.prio == prio && Ranked(queued, ranks)
    {
      msg.prio := prio;
      if head == null {
        head := msg;
      }
    }

    /** The loop over the nodes: where it stops, the node before, and whether the new message goes in
        front of it. */
    static method Scan(head: Message, msg: Message, ghost l: seq<Message>)
      returns (node: Message, prev: Message?, before: bool, ghost i: nat)
      requires Chain(head, l) && l != []
      ensures i < |l| && node == l[i] && prev == if i == 0 then null else l[i - 1]
      ensures forall k :: 0 <= k < i ==> l[k].prio >= msg.prio
      ensures if before then node.prio < msg.prio else i == |l| - 1 && node.prio >= msg.prio
    {
      node, prev, before, i := head, null, false, 0;
      while true
        invariant i < |l| && node == l[i] && prev == (if i == 0 then null else l[i - 1]) && !before
        invariant forall k :: 0 <= k < i ==> l[k].prio >= msg.prio
        decreases |l| - i
      {
        if node.prio < msg.prio {
          before := true;
          return;
        }
        if node.next == null {
          return;
        }
        prev := node;
        node := node.next;
        i := i + 1;
      }
    }

    /** The place found is the one the insertion in order asks for. */
    method FindPlace(msg: Message, ghost q: seq<Message>, ghost at: nat, ghost ranks: seq<int>)
      returns (node: Message, prev: Message?, before: bool, ghost i: nat)
      requires Linkable(q, msg) && Ranked(q, ranks) && StopsAt(ranks, -msg.prio, at)
      ensures Linkable(q, msg)
      ensures before ==> i < |q| && i == at && node == q[i]
                         && prev == if i == 0 then null else q[i - 1]
      ensures !before ==> |q| == at && node == if q == [] then msg else q[|q| - 1]
    {
      node, prev, before, i := Scan(head, msg, if q == [] then [msg] else q);
      PositionIs(ranks, -msg.prio, if before then i else |q|);
      PositionIs(ranks, -msg.prio, at);
    }

    method RelinkBefore(msg: Message, node: Message, prev: Message?, ghost q: seq<Message>, ghost i: nat)
      requires Pending(q, msg) && Chain(head, q) && i < |q| && node == q[i]
      requires prev == if i == 0 then null else q[i - 1]
      modifies this`head, pool`next
      ensures Chain(head, InsertAt(q, i, msg)) && Chain(free, spare)
    {
      assert prev != null ==> prev in q;
      if prev == null {
        head := msg;
      } else {
        prev.next := msg;
      }
      msg.next := node;
      ChainInsert(head, q, i, msg);
    }

    /** The list is linked; the message is counted. */
    method Adopt(ghost r: seq<Message>, ghost msg: Message)
      requires |pool| <= ENTRY_MAX && Within(r, pool) && Within(spare, pool)
      requires Distinct(r) && Distinct(spare) && (forall m :: m in r ==> m !in spare)
      requires Chain(head, r) && Chain(free, spare)
      requires r != [] && tail == r[|r| - 1] && |r| == entry + 1
      modifies this`queued, this`entry
      ensures Valid() && queued == r
    {
      queued := r;
      Count(msg);
    }

    method LinkBefore(msg: Message, node: Message, prev: Message?, ghost q: seq<Message>, ghost i: nat)
      requires Pending(q, msg) && Chain(head, q) && i < |q| && node == q[i]
      requires prev == if i == 0 then null else q[i - 1]
      modifies this`head, this`queued, this`entry, pool`next
      ensures Valid() && queued == InsertAt(q, i, msg)
    {
      InsertedOk(q, spare, pool, i, msg);
      ghost var r := InsertAt(q, i, msg);
      assert r != [] && tail == r[|r| - 1];
      RelinkBefore(msg, node, prev, q, i);
      Adopt(r, msg);
    }

    method LinkAfter(msg: Message, node: Message, ghost q: seq<Message>)
      requires Linkable(q, msg)
      requires node == if q == [] then msg else q[|q| - 1]
      modifies this`tail, this`queued, this`entry, pool`next
      ensures Valid() && queued == InsertAt(q, |q|, msg)
    {
      assert node != msg ==> node in q;
      if node != msg {
        node.next := msg;
      }
      assert Chain(free, spare);
      ChainAppend(head, q, msg);
      tail := msg;
      BackDistinct(q, msg);
      assert q + [msg] == InsertAt(q, |q|, msg);
      Adopt(q + [msg], msg);
    }

    method LinkAtPlace(msg: Message, ghost rank: int, ghost q: seq<Message>, ghost at: nat, ghost ranks: seq<int>)
      requires Linkable(q, msg) && rank == -msg.prio && Ranked(q, ranks) && StopsAt(ranks, rank, at)
      modifies this`head, this`tail, this`queued, this`entry, pool`next
      ensures Valid() && queued == InsertAt(q, at, msg) && Ranked(queued, InsertAt(ranks, at, rank))
    {
      var node, prev, before, i := FindPlace(msg, q, at, ranks);
      if before {
        LinkBefore(msg, node, prev, q, i);
      } else {
        LinkAfter(msg, node, q);
      }
      RanksInserted(q, ranks, at, msg, rank);
    }

    /** Both steps, with the place and the priorities before as parameters. */
    method StampAndLink(msg: Message, prio: int, ghost rank: int, ghost q: seq<Message>, ghost at: nat,
        ghost ranks: seq<int>)
      requires Valid() && msg in pool && msg !in queued && msg !in spare && msg.next == null
      requires q == queued && Ranked(q, ranks) && rank == -prio && StopsAt(ranks, rank, at)
      modifies this`head, this`tail, this`queued, this`entry, pool`next, msg`prio
      ensures Valid() && msg.prio == prio
      ensures queued == InsertAt(q, at, msg) && Ranked(queued, InsertAt(ranks, at, rank))
    {
      Stamp(msg, prio, ranks);
      LinkAtPlace(msg, rank, q, at, ranks);
    }

    /** Linking in a build with message priorities: in front of the first message of lower priority,
        behind every other. The priorities change by the insertion that WaitList.InsertSorted is about. */
    method LinkByPriority(msg: Message, prio: int)
      requires Valid() && msg in pool && msg !in queued && msg !in spare && msg.next == null
      modifies this`head, this`tail, this`queued, this`entry, pool`next, msg`prio
      ensures Valid() && msg.prio == prio
      ensures queued == InsertAt(old(queued), Position(old(Ranks(queued)), -prio), msg)
      ensures Ranks(queued) == InsertAt(old(Ranks(queued)), Position(old(Ranks(queued)), -prio), -prio)
    {
      ghost var ranks := Ranks(queued);
      ghost var at := Position(ranks, -prio);
      StampAndLink(msg, prio, -prio, queued, at, ranks);
      RanksAre(queued, InsertAt(ranks, at, -prio));
    }
  }
}
