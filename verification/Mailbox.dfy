/** Mailboxes: a ring of words with front insertion, and threads waiting on either side. */
module Mailbox {
  import opened WaitList
  import opened WaitSide

  const ENTRY_MAX := 65535

  /** What a mailbox means: at most `cap` words in order, and its two wait lists. */
  datatype Box = Box(items: seq<int>, cap: nat, receivers: seq<Tid>, senders: seq<Tid>)

  /** RT_EOK with the thread it resumed, -RT_EFULL, -RT_ETIMEOUT, or the caller went to sleep. */
  datatype Outcome = Ok(resumed: Option<Tid>) | Full | Timeout | Suspended

  /** One pass of `_rt_mb_send_wait` through its critical section. */
  function SendRegion(b: Box, flag: Flag, prio: Tid -> int, t: Tid, v: int, wait: bool): (Box, Outcome) {
    if |b.items| == b.cap then
      if wait then (b.(senders := Queued(flag, prio, b.senders, t)), Suspended) else (b, Full)
    else (b.(items := b.items + [v], receivers := Rest(b.receivers)), Ok(First(b.receivers)))
  }

  /** `rt_mb_urgent` */
  function UrgentRegion(b: Box, v: int): (Box, Outcome) {
    if |b.items| == b.cap then (b, Full)
    else (b.(items := [v] + b.items, receivers := Rest(b.receivers)), Ok(First(b.receivers)))
  }

  /** One pass of `_rt_mb_recv`. */
  function RecvRegion(b: Box, flag: Flag, prio: Tid -> int, t: Tid, wait: bool): (Box, Outcome) {
    if b.items == [] then
      if wait then (b.(receivers := Queued(flag, prio, b.receivers, t)), Suspended) else (b, Timeout)
    else (b.(items := b.items[1..], senders := Rest(b.senders)), Ok(First(b.senders)))
  }

  /** `rt_mb_control` with RT_IPC_CMD_RESET */
  function ResetRegion(b: Box): Box {
    Box([], b.cap, [], [])
  }

  // ---- what the regions do, and answer ---------------------------------------------------

  /** A send that finds room appends its mail, answers RT_EOK and resumes exactly the first sleeping
      receiver; one that finds none sleeps if it may, and else answers -RT_EFULL and changes nothing. */
  lemma SendAnswers(b: Box, flag: Flag, prio: Tid -> int, t: Tid, v: int, wait: bool)
    ensures var (r, o) := SendRegion(b, flag, prio, t, v, wait);
            if |b.items| != b.cap then
              && o.Ok? && r.items == b.items + [v] && r.cap == b.cap && r.senders == b.senders
              && ResumesFirst(b.receivers, r.receivers, o.resumed)
            else if wait then
              && o == Suspended && r == b.(senders := r.senders) && Joins(flag, prio, b.senders, r.senders, t)
            else o == Full && r == b
  {
    QueuedJoins(flag, prio, b.senders, t);
  }

  /** The same for urgent mail, which goes in front and never waits. */
  lemma UrgentAnswers(b: Box, v: int)
    ensures var (r, o) := UrgentRegion(b, v);
            if |b.items| != b.cap then
              && o.Ok? && r.items == [v] + b.items && r.cap == b.cap && r.senders == b.senders
              && ResumesFirst(b.receivers, r.receivers, o.resumed)
            else o == Full && r == b
  {
  }

  /** A receive that finds mail takes the oldest, answers RT_EOK and resumes exactly the first sleeping
      sender; one that finds none sleeps if it may, and else answers -RT_ETIMEOUT and changes nothing. */
  lemma RecvAnswers(b: Box, flag: Flag, prio: Tid -> int, t: Tid, wait: bool)
    ensures var (r, o) := RecvRegion(b, flag, prio, t, wait);
            if b.items != [] then
              && o.Ok? && [b.items[0]] + r.items == b.items && r.cap == b.cap && r.receivers == b.receivers
              && ResumesFirst(b.senders, r.senders, o.resumed)
            else if wait then
              && o == Suspended && r == b.(receivers := r.receivers) && Joins(flag, prio, b.receivers, r.receivers, t)
            else o == Timeout && r == b
  {
    QueuedJoins(flag, prio, b.receivers, t);
  }

  /** `i` positions after the start of the ring. */
  function Wrap(size: nat, i: nat): nat
  {
    if i < size then i else i - size
  }

  lemma WrapIsModulo(size: nat, i: nat)
    requires i < size + size
    ensures Wrap(size, i) == i % size
  {
    if i >= size { assert i / size == 1; }
  }

  class Ring {
    var pool: array<int>
    const size: nat
    const flag: Flag
    var entry: nat
    var inOffset: nat
    var outOffset: nat
    var receivers: seq<Tid>
    var senders: seq<Tid>

    ghost predicate Valid()
      reads this
    {
      && pool.Length == size <= 65535
      && entry <= size
      && (if size == 0 then inOffset == outOffset == 0
          else inOffset < size && outOffset < size && inOffset == Wrap(size, outOffset + entry))
    }

    ghost function Items(): (s: seq<int>)
      requires Valid()
      reads this, pool
      ensures |s| == entry && forall i :: 0 <= i < entry ==> s[i] == pool[Wrap(size, outOffset + i)]
    {
      seq(entry, i requires 0 <= i < entry && Valid() reads this, pool => pool[Wrap(size, outOffset + i)])
    }

    ghost function View(): Box
      requires Valid()
      reads this, pool
    {
      Box(Items(), size, receivers, senders)
    }

    /** `rt_mb_init` */
    constructor (size: nat, flag: Flag)
      requires size <= 65535
      ensures Valid() && fresh(pool) && View() == Box([], size, [], []) && this.flag == flag
    {
      this.size, this.flag := size, flag;
      pool := new int[size];
      entry, inOffset, outOffset := 0, 0, 0;
      receivers, senders := [], [];
    }

    /** The modular form of the offset invariant. */
    lemma OffsetsModular()
      requires Valid() && size > 0
      ensures (outOffset + entry) % size == inOffset
    {
      WrapIsModulo(size, outOffset + entry);
    }

    method ResumeReceiver() returns (resumed: Option<Tid>)
      modifies this`receivers
      ensures receivers == Rest(old(receivers)) && resumed == First(old(receivers))
    {
      resumed := None;
      if receivers != [] {
        resumed := Some(receivers[0]);
        receivers := receivers[1..];
      }
    }

    method ResumeSender() returns (resumed: Option<Tid>)
      modifies this`senders
      ensures senders == Rest(old(senders)) && resumed == First(old(senders))
    {
      resumed := None;
      if senders != [] {
        resumed := Some(senders[0]);
        senders := senders[1..];
      }
    }

    /** The overflow branch of the source is kept; the contract says it is never taken. */
    method Append(v: int) returns (stored: bool)
      requires Valid() && entry < size
      modifies this`inOffset, this`entry, pool
      ensures stored && Valid()
      ensures Items() == old(Items()) + [v]
    {
      pool[inOffset] := v;
      inOffset := inOffset + 1;
      if inOffset >= size {
        inOffset := 0;
      }
      if entry < ENTRY_MAX {
        entry := entry + 1;
      } else {
        return false;
      }
      stored := true;
    }

    method Send(prio: Tid -> int, t: Tid, v: int, wait: bool) returns (o: Outcome)
      requires Valid()
      modifies this, pool
      ensures Valid() && pool == old(pool)
      ensures (View(), o) == SendRegion(old(View()), flag, prio, t, v, wait)
      ensures o.Ok? ==> ResumesFirst(old(receivers), receivers, o.resumed)
    {
      if entry == size {
        if !wait {
          return Full;
        }
        senders := Queued(flag, prio, senders, t);
        assert Items() == old(Items());
        return Suspended;
      }
      var stored := Append(v);
      if !stored {
        return Full;
      }
      var r := ResumeReceiver();
      assert Items() == old(Items()) + [v];
      o := Ok(r);
    }

    /** Step the read offset back and store there. */
    method Prepend(v: int)
      requires Valid() && entry < size
      modifies this`outOffset, this`entry, pool
      ensures Valid() && Items() == [v] + old(Items())
    {
      if outOffset > 0 {
        outOffset := outOffset - 1;
      } else {
        outOffset := size - 1;
      }
      pool[outOffset] := v;
      entry := entry + 1;
    }

    method Urgent(v: int) returns (o: Outcome)
      requires Valid()
      modifies this, pool
      ensures Valid() && pool == old(pool)
      ensures (View(), o) == UrgentRegion(old(View()), v)
      ensures o.Ok? ==> ResumesFirst(old(receivers), receivers, o.resumed)
    {
      if entry == size {
        return Full;
      }
      Prepend(v);
      var r := ResumeReceiver();
      assert Items() == [v] + old(Items());
      o := Ok(r);
    }

    /** Read the oldest mail and advance past it. */
    method Detach() returns (value: int)
      requires Valid() && entry > 0
      modifies this`outOffset, this`entry
      ensures Valid() && old(Items()) == [value] + Items()
    {
      value := pool[outOffset];
      outOffset := outOffset + 1;
      if outOffset >= size {
        outOffset := 0;
      }
      if entry > 0 {
        entry := entry - 1;
      }
    }

    /** The oldest mail, and the first sender gets its place. */
    method Fetch() returns (value: int, resumed: Option<Tid>)
      requires Valid() && entry > 0
      modifies this`outOffset, this`entry, this`senders
      ensures Valid() && old(Items()) == [value] + Items()
      ensures senders == Rest(old(senders)) && resumed == First(old(senders))
    {
      value := Detach();
      ghost var items := Items();
      resumed := ResumeSender();
      assert Items() == items;
    }

    method Receive(prio: Tid -> int, t: Tid, wait: bool) returns (o: Outcome, value: int)
      requires Valid()
      modifies this
      ensures Valid() && pool == old(pool)
      ensures (View(), o) == RecvRegion(old(View()), flag, prio, t, wait)
      ensures o.Ok? ==> old(Items()) == [value] + Items() && ResumesFirst(old(senders), senders, o.resumed)
    {
      value := 0;
      if entry == 0 {
        if !wait {
          return Timeout, value;
        }
        receivers := Queued(flag, prio, receivers, t);
        assert Items() == old(Items());
        return Suspended, value;
      }
      var r;
      value, r := Fetch();
      o := Ok(r);
    }

    method Reset() returns (resumed: seq<Tid>)
      requires Valid()
      modifies this
      ensures Valid() && pool == old(pool) && View() == ResetRegion(old(View()))
      ensures receivers == senders == [] && entry == inOffset == outOffset == 0
      ensures resumed == old(receivers) + old(senders)
    {
      var first := ResumeAll(receivers);
      var second := ResumeAll(senders);
      resumed := first + second;
      receivers := [];
      senders := [];
      entry := 0;
      inOffset := 0;
      outOffset := 0;
    }
  }
}
