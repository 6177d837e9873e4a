/** The intrusive circular lists of rtservice.h, pointer by pointer, and the suspend insertion of
    `_ipc_list_suspend` on top of them. */
module Lists {
  import opened WaitList

  /** A list node; in a wait list it is embedded in a thread with this `current_priority`. */
  class Node {
    var next: Node?
    var prev: Node?
    const priority: int

    constructor (priority: int)
      ensures this.priority == priority
    {
      this.priority := priority;
    }
  }

  function Succ(c: seq<Node>, i: nat): Node?
    requires c != []
  {
    if i + 1 < |c| then c[i + 1] else c[0]
  }

  function Pred(c: seq<Node>, i: nat): Node?
    requires c != []
  {
    if 0 < i <= |c| then c[i - 1] else c[|c| - 1]
  }

  ghost predicate NextLinks(c: seq<Node>)
    requires c != []
    reads c
  {
    forall i {:trigger c[i].next} :: 0 <= i < |c| ==> c[i].next == Succ(c, i)
  }

  ghost predicate PrevLinks(c: seq<Node>)
    requires c != []
    reads c
  {
    forall i {:trigger c[i].prev} :: 0 <= i < |c| ==> c[i].prev == Pred(c, i)
  }

  /** `c` is a circular doubly linked list: the head `c[0]`, then the entries in order. */
  ghost predicate Ring(c: seq<Node>)
    reads c
  {
    c != [] && Distinct(c) && NextLinks(c) && PrevLinks(c)
  }

  /** `rt_list_init` */
  method Init(l: Node)
    modifies l
    ensures Ring([l])
  {
    l.next := l;
    l.prev := l;
  }

  lemma SplicedNext(c: seq<Node>, i: nat, n: Node)
    requires c != [] && 0 < i <= |c| && n.next == Succ(c, i - 1)
    requires forall k :: 0 <= k < |c| ==> c[k].next == if k + 1 == i then n else Succ(c, k)
    ensures NextLinks(InsertAt(c, i, n))
  {
    var r := InsertAt(c, i, n);
    forall k | 0 <= k < |r| ensures r[k].next == Succ(r, k) {
      if k > i { assert r[k] == c[k - 1]; }
    }
  }

  lemma SplicedPrev(c: seq<Node>, i: nat, n: Node)
    requires c != [] && 0 < i <= |c| && n.prev == c[i - 1]
    requires forall k :: 0 <= k < |c| ==> c[k].prev == if k == i || (k == 0 && i == |c|) then n else Pred(c, k)
    ensures PrevLinks(InsertAt(c, i, n))
  {
    var r := InsertAt(c, i, n);
    forall k | 0 <= k < |r| ensures r[k].prev == Pred(r, k) {
      if k > i { assert r[k] == c[k - 1]; }
    }
  }

  /** A node written between two neighbours: links seen from the sequence with it inserted at `i`. */
  lemma Spliced(c: seq<Node>, i: nat, n: Node)
    requires Distinct(c) && c != [] && n !in c && 0 < i <= |c|
    requires forall k :: 0 <= k < |c| ==> c[k].next == if k + 1 == i then n else Succ(c, k)
    requires forall k :: 0 <= k < |c| ==> c[k].prev == if k == i || (k == 0 && i == |c|) then n else Pred(c, k)
    requires n.next == Succ(c, i - 1) && n.prev == c[i - 1]
    ensures Ring(InsertAt(c, i, n))
  {
    InsertDistinct(c, i, n);
    SplicedNext(c, i, n);
    SplicedPrev(c, i, n);
  }

  /** `rt_list_insert_after` */
  method InsertAfter(l: Node, n: Node, ghost c: seq<Node>, ghost i: nat)
    requires Ring(c) && i < |c| && c[i] == l && n !in c
    modifies l, l.next, n
    ensures Ring(InsertAt(c, i + 1, n))
  {
    assert l.next == Succ(c, i) && Succ(c, i) in c;
    l.next.prev := n;
    n.next := l.next;
    l.next := n;
    n.prev := l;
    Spliced(c, i + 1, n);
  }

  /** `rt_list_insert_before`; before the head is at the end of the list. */
  method InsertBefore(l: Node, n: Node, ghost c: seq<Node>, ghost i: nat)
    requires Ring(c) && i < |c| && c[i] == l && n !in c
    modifies l, l.prev, n
    ensures Ring(InsertAt(c, if i == 0 then |c| else i, n))
  {
    ghost var j := if i == 0 then |c| else i;
    assert l.prev == Pred(c, i) == c[j - 1] && Succ(c, j - 1) == l;
    assert forall k :: 0 <= k < |c| ==> c[k] != n && (c[k] == c[j - 1] ==> k == j - 1) && (c[k] == l ==> k == i);
    l.prev.next := n;
    n.prev := l.prev;
    l.prev := n;
    n.next := l;
    Spliced(c, j, n);
  }

  lemma UnsplicedNext(c: seq<Node>, i: nat)
    requires 0 < i < |c|
    requires forall k :: 0 <= k < |c| && k != i ==> c[k].next == if k + 1 == i then Succ(c, i) else Succ(c, k)
    ensures NextLinks(c[..i] + c[i + 1..])
  {
    var r := c[..i] + c[i + 1..];
    forall k | 0 <= k < |r| ensures r[k].next == Succ(r, k) {
      assert r[k] == c[if k < i then k else k + 1];
    }
  }

  lemma UnsplicedPrev(c: seq<Node>, i: nat)
    requires 0 < i < |c|
    requires forall k :: 0 <= k < |c| && k != i ==>
               c[k].prev == if k == i + 1 || (k == 0 && i + 1 == |c|) then c[i - 1] else Pred(c, k)
    ensures PrevLinks(c[..i] + c[i + 1..])
  {
    var r := c[..i] + c[i + 1..];
    forall k | 0 <= k < |r| ensures r[k].prev == Pred(r, k) {
      assert r[k] == c[if k < i then k else k + 1];
    }
  }

  /** `rt_list_remove` of an entry: the rest is a list again, and so is the node alone. */
  method Remove(n: Node, ghost c: seq<Node>, ghost i: nat)
    requires Ring(c) && 0 < i < |c| && c[i] == n
    modifies n, n.next, n.prev
    ensures Ring(c[..i] + c[i + 1..]) && Ring([n])
  {
    assert n.next == Succ(c, i) && Succ(c, i) in c && n.prev == Pred(c, i) && Pred(c, i) in c;
    n.next.prev := n.prev;
    n.prev.next := n.next;
    n.next := n;
    n.prev := n;
    UnsplicedNext(c, i);
    UnsplicedPrev(c, i);
    CutDistinct(c, i);
  }

  /** `rt_list_remove` of a node that is in no list changes nothing. */
  method RemoveAlone(n: Node)
    requires Ring([n])
    modifies n
    ensures Ring([n]) && n.next == old(n.next) && n.prev == old(n.prev)
  {
    assert n.next == Succ([n], 0) && n.prev == Pred([n], 0);
    n.next.prev := n.prev;
    n.prev.next := n.next;
    n.next := n;
    n.prev := n;
  }

  /** `rt_list_isempty` */
  method IsEmpty(l: Node, ghost c: seq<Node>) returns (empty: bool)
    requires Ring(c) && c[0] == l
    ensures empty <==> c == [l]
  {
    empty := l.next == l;
    assert l.next == Succ(c, 0);
  }

  /** `rt_list_len` */
  method Len(l: Node, ghost c: seq<Node>) returns (len: nat)
    requires Ring(c) && c[0] == l
    ensures len == |c| - 1
  {
    len := 0;
    var p := l;
    while p.next != l
      invariant len < |c| && p == c[len]
      decreases |c| - len
    {
      assert p.next == Succ(c, len);
      p := p.next;
      len := len + 1;
    }
    assert p.next == Succ(c, len);
  }

  // ---- _ipc_list_suspend and _ipc_list_resume on the lists themselves -----------------------

  function PrioritiesOf(s: seq<Node>): (r: seq<int>)
    ensures |r| == |s| && forall i :: 0 <= i < |s| ==> r[i] == s[i].priority
  {
    seq(|s|, i requires 0 <= i < |s| => s[i].priority)
  }

  /** The scan under RT_IPC_FLAG_PRIO: the entry to insert before, or the head. */
  method FindPlace(list: Node, thread: Node, ghost c: seq<Node>) returns (n: Node, ghost i: nat)
    requires Ring(c) && c[0] == list
    ensures Ring(c) && i == Position(PrioritiesOf(c[1..]), thread.priority)
    ensures n == Succ(c, i) == Succ(c, Position(PrioritiesOf(c[1..]), thread.priority))
  {
    ghost var ps := PrioritiesOf(c[1..]);
    assert list.next == Succ(c, 0);
    n, i := list.next, 0;
    while n != list
      invariant Ring(c) && i < |c| && n == Succ(c, i)
      invariant forall k :: 0 <= k < i ==> ps[k] <= thread.priority
      decreases |c| - i
    {
      assert c[1..][i] == n && ps[i] == n.priority;
      if thread.priority < n.priority {
        break;
      }
      assert n.next == Succ(c, i + 1);
      n := n.next;
      i := i + 1;
    }
    assert i < |ps| ==> c[1..][i] == n && ps[i] == n.priority;
    PositionIs(ps, thread.priority, i);
  }

  method SuspendLast(list: Node, thread: Node, ghost c: seq<Node>)
    requires Ring(c) && c[0] == list && thread !in c
    modifies c, thread
    ensures Ring(InsertAt(c, |c|, thread))
  {
    assert list in c && Pred(c, 0) in c && list.prev == Pred(c, 0);
    InsertBefore(list, thread, c, 0);
  }

  method SuspendByPriority(list: Node, thread: Node, ghost c: seq<Node>)
    requires Ring(c) && c[0] == list && thread !in c
    modifies c, thread
    ensures Ring(InsertAt(c, Position(PrioritiesOf(c[1..]), thread.priority) + 1, thread))
  {
    var n, i := FindPlace(list, thread, c);
    ghost var at := if i + 1 < |c| then i + 1 else 0;
    assert c[at] == n && n in c && Pred(c, at) in c && n.prev == Pred(c, at);
    InsertBefore(n, thread, c, at);
  }

  lemma SameInsertion(list: Node, thread: Node, flag: Flag, c: seq<Node>)
    requires c != [] && c[0] == list
    ensures [list] + Enqueue(flag, c[1..], PrioritiesOf(c[1..]), thread, thread.priority)
            == InsertAt(c, match flag case Fifo => |c| case Prio => Position(PrioritiesOf(c[1..]), thread.priority) + 1, thread)
  {
  }

  /** Insertion into the wait list, pointer by pointer, is the insertion of module WaitList. */
  method SuspendOn(list: Node, thread: Node, flag: Flag, ghost c: seq<Node>)
    requires Ring(c) && c[0] == list && thread !in c
    modifies c, thread
    ensures Ring([list] + Enqueue(flag, c[1..], PrioritiesOf(c[1..]), thread, thread.priority))
  {
    SameInsertion(list, thread, flag, c);
    match flag
    case Fifo =>
      SuspendLast(list, thread, c);
    case Prio =>
      SuspendByPriority(list, thread, c);
  }

  /** The first entry leaves the list when its thread is resumed. */
  method ResumeFirst(list: Node, ghost c: seq<Node>, ghost other: seq<Node>) returns (thread: Node)
    requires Ring(c) && c[0] == list && |c| > 1
    requires Ring(other) && forall x :: x in other ==> x !in c
    modifies c
    ensures Ring(other)
    ensures thread == c[1] && Ring([list] + c[2..]) && Ring([thread])
  {
    assert list.next == Succ(c, 0);
    thread := list.next;
    assert thread.next == Succ(c, 1) && Succ(c, 1) in c && thread.prev == Pred(c, 1) && Pred(c, 1) in c && thread in c;
    Remove(thread, c, 1);
    assert c[..1] + c[2..] == [list] + c[2..];
  }

  // ---- singly linked lists ------------------------------------------------------------------

  class SNode {
    var next: SNode?

    constructor ()
      ensures next == null
    {
      next := null;
    }
  }

  function SAt(s: seq<SNode>, i: nat): SNode? {
    if i < |s| then s[i] else null
  }

  /** `s[0]` is the list head; each node points to the one behind it, the last to nothing. */
  ghost predicate SChain(s: seq<SNode>)
    reads s
  {
    s != [] && Distinct(s) && forall i :: 0 <= i < |s| ==> s[i].next == SAt(s, i + 1)
  }

  /** `rt_slist_append` */
  method SAppend(l: SNode, n: SNode, ghost s: seq<SNode>)
    requires SChain(s) && s[0] == l && n !in s
    modifies s, n
    ensures SChain(s + [n])
  {
    var node := l;
    ghost var i := 0;
    while node.next != null
      invariant SChain(s) && i < |s| && node == s[i]
      decreases |s| - i
    {
      node := node.next;
      i := i + 1;
    }
    assert i + 1 == |s|;
    node.next := n;
    n.next := null;
    InsertDistinct(s, |s|, n);
    assert InsertAt(s, |s|, n) == s + [n];
    forall k | 0 <= k < |s + [n]| ensures (s + [n])[k].next == SAt(s + [n], k + 1) {
      if k < |s| { assert (s + [n])[k] == s[k]; }
    }
  }

  /** `rt_slist_insert` */
  method SInsert(l: SNode, n: SNode, ghost s: seq<SNode>)
    requires SChain(s) && s[0] == l && n !in s
    modifies l, n
    ensures SChain(InsertAt(s, 1, n))
  {
    n.next := l.next;
    l.next := n;
    ghost var r := InsertAt(s, 1, n);
    InsertDistinct(s, 1, n);
    forall k | 0 <= k < |r| ensures r[k].next == SAt(r, k + 1) {
      if k > 1 { assert r[k] == s[k - 1]; }
    }
  }

  lemma SFound(s: seq<SNode>, n: SNode, i: nat)
    requires i < |s| && s[i] == n && n !in s[..i]
    ensures Without(s, n) == s[..i] + s[i + 1..]
  {
    IndexUnique(s, n, i);
  }

  lemma SUnlinked(s: seq<SNode>, i: nat)
    requires 0 < i < |s| && Distinct(s)
    requires forall k :: 0 <= k < |s| && k != i ==> s[k].next == SAt(s, if k + 1 == i then i + 1 else k + 1)
    ensures SChain(s[..i] + s[i + 1..])
  {
    var r := s[..i] + s[i + 1..];
    assert forall k :: 0 <= k < |r| ==> r[k] == s[if k < i then k else k + 1];
    forall k | 0 <= k < |r| ensures r[k].next == SAt(r, k + 1) {
      assert r[k] == s[if k < i then k else k + 1];
    }
  }

  /** `rt_slist_remove`; a node that is not in the list leaves it as it is. */
  method SRemove(l: SNode, n: SNode, ghost s: seq<SNode>)
    requires SChain(s) && s[0] == l && n != l
    modifies s
    ensures SChain(Without(s, n))
  {
    var node := l;
    ghost var i := 0;
    while node.next != null && node.next != n
      invariant SChain(s) && i < |s| && node == s[i] && n !in s[..i + 1]
      decreases |s| - i
    {
      node := node.next;
      i := i + 1;
    }
    assert node.next == SAt(s, i + 1);
    WithoutDistinct(s, n);
    if node.next != null {
      SFound(s, n, i + 1);
      assert s[i + 1].next == SAt(s, i + 2);
      node.next := node.next.next;
      SUnlinked(s, i + 1);
    } else {
      assert s[..i + 1] == s;
    }
  }

  /** `rt_slist_len` */
  method SLen(l: SNode, ghost s: seq<SNode>) returns (len: nat)
    requires SChain(s) && s[0] == l
    ensures len == |s| - 1
  {
    len := 0;
    assert l.next == SAt(s, 1);
    var list := l.next;
    while list != null
      invariant len < |s| && list == SAt(s, len + 1)
      decreases |s| - len
    {
      assert list.next == SAt(s, len + 2);
      list := list.next;
      len := len + 1;
    }
  }
}
