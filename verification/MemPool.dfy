/** Fixed-block memory pools (mempool.c): a free list threaded through the block headers. */
module MemPool {
  import opened WaitList
  import opened WaitSide

  const WORD := 4            // sizeof(rt_uint8_t *), and RT_ALIGN_SIZE

  function AlignUp(n: nat): nat { (n + WORD - 1) / WORD * WORD }

  function AlignDown(n: nat): nat { n / WORD * WORD }

  /** RT_ALIGN and RT_ALIGN_DOWN: the nearest multiples of the word on either side. */
  lemma AlignMeaning(n: nat)
    ensures AlignUp(n) % 4 == 0 && n <= AlignUp(n) < n + 4
    ensures AlignDown(n) % 4 == 0 && AlignDown(n) <= n < AlignDown(n) + 4
  {
    assert WORD == 4;
  }

  /** Free blocks by slot number, in list order, and the wait list. */
  datatype Mp = Mp(free: seq<nat>, waiters: seq<Tid>)

  datatype Outcome = Got(slot: nat) | Empty | Suspended

  /** One pass of `rt_mp_alloc`: the caller joins the front of the wait list. */
  function Alloc(m: Mp, t: Tid, wait: bool): (Mp, Outcome) {
    if m.free == [] then if wait then (m.(waiters := [t] + m.waiters), Suspended) else (m, Empty)
    else (m.(free := m.free[1..]), Got(m.free[0]))
  }

  /** `rt_mp_free` */
  function Free(m: Mp, slot: nat): (Mp, Option<Tid>) {
    (Mp([slot] + m.free, Rest(m.waiters)), First(m.waiters))
  }

  /** An allocation takes the first free block, with nobody resumed or moved. Without one the caller goes
      to the front of the sleepers if it may wait, and else gets RT_NULL with nothing changed. */
  lemma AllocAnswers(m: Mp, t: Tid, wait: bool)
    ensures var (r, o) := Alloc(m, t, wait);
            if m.free != [] then o.Got? && [o.slot] + r.free == m.free && r.waiters == m.waiters
            else if wait then o == Suspended && r.free == [] && r.waiters == [t] + m.waiters
            else o == Empty && r == m
  {
  }

  /** A free puts the block in front of the free blocks and resumes exactly the first sleeper. */
  lemma FreeAnswers(m: Mp, slot: nat)
    ensures var (r, resumed) := Free(m, slot);
            r.free == [slot] + m.free && ResumesFirst(m.waiters, r.waiters, resumed)
  {
  }

  function UpTo(n: nat): (s: seq<nat>)
    ensures |s| == n && forall i :: 0 <= i < n ==> s[i] == i
  {
    seq(n, i => i)
  }

  /** Where slot `i` starts: its header word, followed by the block proper. */
  function SlotAt(start: int, stride: nat, i: nat): int { start + i * stride }

  /** Slots lie one behind the other. */
  lemma SlotsApart(start: int, stride: nat, i: nat, j: nat)
    requires i < j
    ensures SlotAt(start, stride, i) + stride <= SlotAt(start, stride, j)
  {
    var d := j - i - 1;
    assert j * stride == (i + 1 + d) * stride == i * stride + stride + d * stride;
    assert d * stride >= 0;
  }

  lemma SlotFits(start: int, size: nat, stride: nat, i: nat)
    requires stride > 0 && i < size / stride
    ensures start <= SlotAt(start, stride, i) && SlotAt(start, stride, i) + stride <= start + size
  {
    SlotsApart(start, stride, i, i + 1);
    var q := size / stride;
    assert q * stride <= size;
    if i + 1 < q { SlotsApart(start, stride, i + 1, q); }
    assert i * stride >= 0;
  }

  /** The addresses of `total` slots. */
  ghost function Layout(start: int, stride: nat, total: nat): (a: seq<int>)
    ensures |a| == total && forall i :: 0 <= i < total ==> a[i] == SlotAt(start, stride, i)
  {
    seq(total, i requires 0 <= i < total => SlotAt(start, stride, i))
  }

  /** Distinct, and none of them RT_NULL. */
  ghost predicate Apart(a: seq<int>) {
    Distinct(a) && forall i :: 0 <= i < |a| ==> a[i] > 0
  }

  lemma LayoutApart(start: int, stride: nat, total: nat)
    requires start > 0 && stride > 0
    ensures Apart(Layout(start, stride, total))
  {
    var a := Layout(start, stride, total);
    forall i, j | 0 <= i < j < |a| ensures a[i] != a[j] { SlotsApart(start, stride, i, j); }
    forall i | 0 <= i < |a| ensures a[i] > 0 { assert i * stride >= 0; }
  }

  /** The link that leads to the k-th free block, or RT_NULL. */
  ghost function LinkTo(addr: seq<int>, free: seq<nat>, k: nat): int {
    if k < |free| && free[k] < |addr| then addr[free[k]] else 0
  }

  ghost predicate Linked(header: map<int, int>, addr: seq<int>, free: seq<nat>) {
    forall k :: 0 <= k < |free| && free[k] < |addr| ==>
      addr[free[k]] in header && header[addr[free[k]]] == LinkTo(addr, free, k + 1)
  }

  ghost predicate Owned(header: map<int, int>, addr: seq<int>, free: seq<nat>, self: int) {
    forall i :: 0 <= i < |addr| && i !in free ==> addr[i] in header && header[addr[i]] == self
  }

  /** The headers of the free blocks link them in order, from `head`; all other headers name the pool. */
  ghost predicate ListOk(header: map<int, int>, addr: seq<int>, free: seq<nat>, head: int, self: int) {
    && Apart(addr) && Distinct(free)
    && (forall i :: i in free ==> i < |addr|)
    && head == LinkTo(addr, free, 0)
    && Linked(header, addr, free) && Owned(header, addr, free, self)
  }

  lemma PopLinked(header: map<int, int>, addr: seq<int>, free: seq<nat>, head: int, self: int)
    requires ListOk(header, addr, free, head, self) && free != []
    ensures Linked(header[head := self], addr, free[1..])
  {
    var r, h := free[1..], header[head := self];
    forall k | 0 <= k < |r| && r[k] < |addr|
      ensures addr[r[k]] in h && h[addr[r[k]]] == LinkTo(addr, r, k + 1)
    {
      assert r[k] == free[k + 1] && r[k] in free && free[0] in free && addr[r[k]] != head;
      assert LinkTo(addr, r, k + 1) == LinkTo(addr, free, k + 2);
    }
  }

  lemma PopOwned(header: map<int, int>, addr: seq<int>, free: seq<nat>, self: int)
    requires Owned(header, addr, free, self) && free != [] && free[0] < |addr|
    ensures Owned(header[addr[free[0]] := self], addr, free[1..], self)
  {
    assert free == [free[0]] + free[1..];
  }

  lemma PopOk(header: map<int, int>, addr: seq<int>, free: seq<nat>, head: int, self: int)
    requires ListOk(header, addr, free, head, self) && free != []
    ensures free[0] < |addr| && head == addr[free[0]] && head in header
    ensures ListOk(header[head := self], addr, free[1..], header[head], self)
  {
    PopLinked(header, addr, free, head, self);
    assert free[0] in free;
    forall i | i in free[1..] ensures i < |addr| { assert i in free; }
    PopOwned(header, addr, free, self);
    assert LinkTo(addr, free, 1) == LinkTo(addr, free[1..], 0);
  }

  function NextOf(addr: seq<int>, i: nat): int {
    if i + 1 < |addr| then addr[i + 1] else 0
  }

  /** The chain through all slots in order. */
  lemma FullOk(header: map<int, int>, addr: seq<int>, self: int)
    requires Apart(addr) && addr != []
    requires forall i :: 0 <= i < |addr| ==> addr[i] in header
    requires forall i :: 0 <= i < |addr| ==> header[addr[i]] == NextOf(addr, i)
    ensures ListOk(header, addr, UpTo(|addr|), addr[0], self)
  {
    var free := UpTo(|addr|);
    forall i | 0 <= i < |addr| ensures i in free { assert free[i] == i; }
    forall k | 0 <= k < |free| && free[k] < |addr|
      ensures addr[free[k]] in header && header[addr[free[k]]] == LinkTo(addr, free, k + 1)
    {
      assert free[k] == k;
      assert k + 1 < |free| ==> free[k + 1] == k + 1;
      assert header[addr[k]] == NextOf(addr, k);
    }
  }

  /** The same after the last header got its end mark. */
  lemma EndMark(header: map<int, int>, addr: seq<int>, self: int)
    requires Apart(addr) && addr != []
    requires forall i :: 0 <= i < |addr| ==> addr[i] in header
    requires forall i :: 0 <= i < |addr| - 1 ==> header[addr[i]] == NextOf(addr, i)
    ensures ListOk(header[addr[|addr| - 1] := 0], addr, UpTo(|addr|), addr[0], self)
  {
    var h := header[addr[|addr| - 1] := 0];
    forall i | 0 <= i < |addr| ensures h[addr[i]] == NextOf(addr, i) {
      assert i < |addr| - 1 ==> addr[i] != addr[|addr| - 1];
    }
    FullOk(h, addr, self);
  }

  lemma PushLinked(header: map<int, int>, addr: seq<int>, free: seq<nat>, head: int, self: int, slot: nat)
    requires ListOk(header, addr, free, head, self) && slot < |addr| && slot !in free
    ensures Linked(header[addr[slot] := head], addr, [slot] + free)
  {
    var r, h := [slot] + free, header[addr[slot] := head];
    forall k | 0 <= k < |r| && r[k] < |addr|
      ensures addr[r[k]] in h && h[addr[r[k]]] == LinkTo(addr, r, k + 1)
    {
      if k > 0 {
        assert r[k] == free[k - 1] && r[k] in free && addr[r[k]] != addr[slot];
        assert LinkTo(addr, r, k + 1) == LinkTo(addr, free, k);
      }
    }
  }

  lemma PushOwned(header: map<int, int>, addr: seq<int>, free: seq<nat>, head: int, self: int, slot: nat)
    requires Owned(header, addr, free, self) && Apart(addr) && slot < |addr|
    ensures Owned(header[addr[slot] := head], addr, [slot] + free, self)
  {
    var h := header[addr[slot] := head];
    forall i | 0 <= i < |addr| && i !in [slot] + free ensures addr[i] in h && h[addr[i]] == self {
      assert i != slot && i !in free && addr[i] != addr[slot];
    }
  }

  lemma PushOk(header: map<int, int>, addr: seq<int>, free: seq<nat>, head: int, self: int, slot: nat)
    requires ListOk(header, addr, free, head, self) && slot < |addr| && slot !in free
    ensures ListOk(header[addr[slot] := head], addr, [slot] + free, addr[slot], self)
  {
    PushLinked(header, addr, free, head, self, slot);
    PushOwned(header, addr, free, head, self, slot);
    InsertDistinct(free, 0, slot);
    assert InsertAt(free, 0, slot) == [slot] + free;
  }

  lemma AtLeastOne(size: nat, stride: nat)
    requires size >= stride > 0
    ensures size / stride >= 1
  {
  }

  class Pool {
    const self: int           // address of the control block
    const start: int
    const size: nat
    const blockSize: nat
    const total: nat
    var freeCount: nat
    var blockList: int        // 0 is RT_NULL
    var header: map<int, int> // the header words of the slots, by address
    var waiters: seq<Tid>
    ghost const addr: seq<int>
    ghost var free: seq<nat>

    /** The slots of the pool, laid out from `start`. */
    ghost predicate Laid() {
      && start > 0 && total > 0 && total == size / (blockSize + WORD)
      && addr == Layout(start, blockSize + WORD, total)
    }

    ghost predicate Valid()
      reads this
    {
      |addr| == total > 0 && freeCount == |free| && ListOk(header, addr, free, blockList, self)
    }

    ghost function View(): Mp
      reads this
    {
      Mp(free, waiters)
    }

    /** Every slot lies inside the pool's memory, and no two overlap; so writing to a block leaves all
        headers and all other blocks alone. */
    lemma SlotsDisjoint(i: nat, j: nat)
      requires Laid() && i < total && j < total && i != j
      ensures start <= addr[i] && addr[i] + blockSize + WORD <= start + size
      ensures addr[i] + blockSize + WORD <= addr[j] || addr[j] + blockSize + WORD <= addr[i]
    {
      var stride := blockSize + WORD;
      SlotFits(start, size, stride, i);
      if i < j { SlotsApart(start, stride, i, j); } else { SlotsApart(start, stride, j, i); }
    }

    /** `rt_mp_init`. The memory must hold at least one block: the loop's last link is written
        unconditionally. */
    constructor (self: int, start: int, size: nat, blockSize: nat)
      requires start > 0 && AlignDown(size) >= AlignUp(blockSize) + WORD
      ensures Laid() && Valid() && this.self == self && this.start == start
      ensures this.size == AlignDown(size) && this.blockSize == AlignUp(blockSize)
      ensures View() == Mp(UpTo(total), [])
    {
      var stride := AlignUp(blockSize) + WORD;
      this.self, this.start, this.size, this.blockSize := self, start, AlignDown(size), AlignUp(blockSize);
      total := AlignDown(size) / stride;
      freeCount := AlignDown(size) / stride;
      waiters, header, blockList := [], map[], start;
      addr := Layout(start, stride, AlignDown(size) / stride);
      free := UpTo(AlignDown(size) / stride);
      AtLeastOne(AlignDown(size), stride);
      LayoutApart(start, stride, AlignDown(size) / stride);
      new;
      assert addr[0] == start;
      ThreadFreeList();
    }

    function HeaderAt(i: nat): int { start + i * (blockSize + WORD) }

    lemma LaidAt(i: nat)
      requires Laid() && i < total
      ensures HeaderAt(i) == addr[i] && (i + 1 < total ==> HeaderAt(i + 1) == addr[i + 1])
    {
    }

    /** One turn of the loop: the header of slot `i` points to the next slot. */
    method LinkSlot(i: nat)
      requires Laid() && i < total
      modifies this`header
      ensures addr[i] in header && header == old(header)[addr[i] := header[addr[i]]]
      ensures i + 1 < total ==> header[addr[i]] == addr[i + 1]
    {
      LaidAt(i);
      header := header[HeaderAt(i) := HeaderAt(i + 1)];
    }

    /** The end mark. */
    method EndList()
      requires Laid()
      modifies this`header
      ensures header == old(header)[addr[total - 1] := 0]
    {
      LaidAt(total - 1);
      header := header[HeaderAt(total - 1) := 0];
    }

    /** The first `n` slots are linked, each to the next. */
    ghost predicate LinkedTo(n: int)
      requires |addr| == total
      reads this
    {
      && (forall i :: 0 <= i < n <= total ==> addr[i] in header)
      && (forall i :: 0 <= i < n <= total && i < total - 1 ==> header[addr[i]] == NextOf(addr, i))
    }

    method LinkTurn(i: nat)
      requires Laid() && Apart(addr) && i < total && LinkedTo(i)
      modifies this`header
      ensures LinkedTo(i + 1)
    {
      LinkSlot(i);
      assert forall j :: 0 <= j < i ==> addr[j] != addr[i];
    }

    /** The loop of `rt_mp_init` over the slots, and the end mark. */
    method ThreadFreeList()
      requires Laid() && Apart(addr) && free == UpTo(total) && freeCount == total && blockList == addr[0]
      modifies this`header
      ensures Valid()
    {
      var offset := 0;
      while offset < total
        invariant 0 <= offset <= total && LinkedTo(offset)
      {
        LinkTurn(offset);
        offset := offset + 1;
      }
      EndMark(header, addr, self);
      EndList();
    }

    /** Take the first free block; its header then names the pool. */
    method TakeBlock() returns (block: int)
      requires Valid() && freeCount != 0
      modifies this`freeCount, this`blockList, this`header, this`free
      ensures Valid() && free == old(free)[1..] && old(free)[0] < total
      ensures block == addr[old(free)[0]] + WORD && block - WORD in header && header[block - WORD] == self
    {
      PopOk(header, addr, free, blockList, self);
      freeCount := freeCount - 1;
      var ptr := blockList;
      blockList := header[ptr];
      header := header[ptr := self];
      free := free[1..];
      block := ptr + WORD;
    }

    /** Put the block in front of the free list. The header tells which pool it belongs to. */
    method PutBlock(block: int, ghost slot: nat) returns (owner: int)
      requires Valid() && slot < total && slot !in free && block == addr[slot] + WORD
      modifies this`freeCount, this`blockList, this`header, this`free
      ensures Valid() && free == [slot] + old(free) && owner == self
    {
      PushOk(header, addr, free, blockList, self, slot);
      var ptr := block - WORD;
      owner := header[ptr];
      freeCount := freeCount + 1;
      header := header[ptr := blockList];
      blockList := ptr;
      free := [slot] + free;
    }

    /** One pass of `rt_mp_alloc` through its critical section; a block address, or 0 for RT_NULL. */
    method AllocBlock(t: Tid, wait: bool) returns (block: int, asleep: bool, ghost o: Outcome)
      requires Valid()
      modifies this
      ensures Valid() && (View(), o) == Alloc(old(View()), t, wait)
      ensures asleep == o.Suspended?
      ensures asleep <==> old(free) == [] && wait
      ensures waiters == if asleep then [t] + old(waiters) else old(waiters)
      ensures if o.Got? then o.slot < total && block == addr[o.slot] + WORD
                             && addr[o.slot] in header && header[addr[o.slot]] == self
              else block == 0
    {
      block, asleep := 0, false;
      if freeCount == 0 {
        if !wait {
          o := Empty;
          return;
        }
        waiters := [t] + waiters;
        asleep, o := true, Suspended;
        return;
      }
      o := Got(free[0]);
      block := TakeBlock();
    }

    method FreeBlock(block: int, ghost slot: nat) returns (resumed: Option<Tid>)
      requires Valid() && slot < total && slot !in free && block == addr[slot] + WORD
      modifies this
      ensures Valid() && (View(), resumed) == Free(old(View()), slot)
      ensures free == [slot] + old(free) && ResumesFirst(old(waiters), waiters, resumed)
    {
      var owner := PutBlock(block, slot);
      resumed := None;
      if waiters != [] {
        resumed := Some(waiters[0]);
        waiters := waiters[1..];
      }
    }
  }
}
