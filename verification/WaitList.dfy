/** Wait lists as sequences: where a suspended thread is inserted and what a removal leaves.
    The pointer-level form of the same operations is in module Lists. */
module WaitList {
  /** RT_IPC_FLAG_FIFO / RT_IPC_FLAG_PRIO. */
  datatype Flag = Fifo | Prio

  ghost predicate Distinct<T>(w: seq<T>) {
    forall i, j :: 0 <= i < j < |w| ==> w[i] != w[j]
  }

  predicate Ascending(ps: seq<int>) {
    forall i, j :: 0 <= i < j < |ps| ==> ps[i] <= ps[j]
  }

  /** The place the scan of `_ipc_list_suspend` stops at: the first entry less urgent than `p`. */
  function Position(ps: seq<int>, p: int): (i: nat)
    ensures i <= |ps|
    ensures forall k :: 0 <= k < i ==> ps[k] <= p
    ensures i < |ps| ==> p < ps[i]
  {
    if ps == [] || p < ps[0] then 0 else 1 + Position(ps[1..], p)
  }

  /** The scan stops at `i`. */
  ghost predicate StopsAt(ps: seq<int>, p: int, i: nat) {
    i <= |ps| && (forall k :: 0 <= k < i ==> ps[k] <= p) && (i < |ps| ==> p < ps[i])
  }

  lemma PositionIs(ps: seq<int>, p: int, i: nat)
    requires StopsAt(ps, p, i)
    ensures i == Position(ps, p)
  {
  }

  function InsertAt<T>(w: seq<T>, i: nat, x: T): (r: seq<T>)
    requires i <= |w|
    ensures |r| == |w| + 1 && r[i] == x
  {
    w[..i] + [x] + w[i..]
  }

  /** `_ipc_list_suspend`: `ps` are the priorities of the threads in `w`, `p` that of `x`. */
  function Enqueue<T>(flag: Flag, w: seq<T>, ps: seq<int>, x: T, p: int): seq<T>
    requires |ps| == |w|
  {
    match flag
    case Fifo => w + [x]
    case Prio => InsertAt(w, Position(ps, p), x)
  }

  function IndexOf<T(==)>(w: seq<T>, x: T): (i: nat)
    requires x in w
    ensures i < |w| && w[i] == x && x !in w[..i]
  {
    if w[0] == x then 0 else 1 + IndexOf(w[1..], x)
  }

  /** `rt_list_remove` of the node of `x`; a node that is in no list is only re-linked to itself. */
  function Without<T(==)>(w: seq<T>, x: T): seq<T> {
    if x in w then var i := IndexOf(w, x); w[..i] + w[i + 1..] else w
  }

  lemma CutDistinct<T>(w: seq<T>, i: nat)
    requires Distinct(w) && i < |w|
    ensures Distinct(w[..i] + w[i + 1..])
    ensures forall y :: y in w[..i] + w[i + 1..] <==> y in w && y != w[i]
  {
    var r := w[..i] + w[i + 1..];
    assert forall k :: 0 <= k < |r| ==> r[k] == if k < i then w[k] else w[k + 1];
    forall y | y in w && y != w[i] ensures y in r {
      var k :| 0 <= k < |w| && w[k] == y;
      assert r[if k < i then k else k - 1] == y;
    }
  }

  lemma WithoutDistinct<T>(w: seq<T>, x: T)
    requires Distinct(w)
    ensures Distinct(Without(w, x))
    ensures forall y :: y in Without(w, x) <==> y in w && y != x
    ensures x in w ==> |Without(w, x)| == |w| - 1
  {
    if x in w {
      CutDistinct(w, IndexOf(w, x));
    }
  }

  lemma InsertDistinct<T>(w: seq<T>, i: nat, x: T)
    requires i <= |w| && Distinct(w) && x !in w
    ensures Distinct(InsertAt(w, i, x))
    ensures forall y :: y in InsertAt(w, i, x) <==> y in w || y == x
  {
    var r := InsertAt(w, i, x);
    assert forall k :: 0 <= k < |r| ==> r[k] == if k < i then w[k] else if k == i then x else w[k - 1];
    forall y | y in w ensures y in r {
      var k :| 0 <= k < |w| && w[k] == y;
      assert r[if k < i then k else k + 1] == y;
    }
  }

  lemma InsertAscending(ps: seq<int>, i: nat, p: int)
    requires Ascending(ps) && StopsAt(ps, p, i)
    ensures Ascending(InsertAt(ps, i, p))
  {
    var r := InsertAt(ps, i, p);
    assert forall k :: 0 <= k < |r| ==> r[k] == if k < i then ps[k] else if k == i then p else ps[k - 1];
  }

  /** Priority insertion keeps the list sorted and puts the new thread behind every thread of
      equal priority and in front of every less urgent one. */
  lemma InsertSorted(ps: seq<int>, p: int)
    requires Ascending(ps)
    ensures var i := Position(ps, p);
            && Ascending(InsertAt(ps, i, p))
            && (forall k :: 0 <= k < |ps| ==> (k < i <==> ps[k] <= p))
  {
    var i := Position(ps, p);
    InsertAscending(ps, i, p);
    forall k | i <= k < |ps| ensures p < ps[k] { assert ps[i] <= ps[k]; }
  }

  lemma CutAscending(ps: seq<int>, i: nat)
    requires i < |ps| && Ascending(ps)
    ensures Ascending(ps[..i] + ps[i + 1..])
  {
    var r := ps[..i] + ps[i + 1..];
    assert forall k :: 0 <= k < |r| ==> r[k] == if k < i then ps[k] else ps[k + 1];
  }

  /** `x` enters the list at `i`, the others keep their order: at the end under FIFO; under priority behind
      every entry no less urgent that the scan meets first, in front of the first less urgent one. */
  ghost predicate Enters<T>(flag: Flag, w: seq<T>, ps: seq<int>, x: T, p: int, r: seq<T>, i: nat)
    requires |ps| == |w|
  {
    && i <= |w| && r == w[..i] + [x] + w[i..]
    && match flag
       case Fifo => i == |w|
       case Prio => (forall k :: 0 <= k < i ==> ps[k] <= p) && (i < |w| ==> p < ps[i])
  }

  lemma EnqueueEnters<T>(flag: Flag, w: seq<T>, ps: seq<int>, x: T, p: int)
    requires |ps| == |w|
    ensures exists i :: Enters(flag, w, ps, x, p, Enqueue(flag, w, ps, x, p), i)
  {
    var i := match flag case Fifo => |w| case Prio => Position(ps, p);
    assert Enters(flag, w, ps, x, p, Enqueue(flag, w, ps, x, p), i);
  }

  /** Removal takes out one entry, and the others keep their order. */
  lemma WithoutInOrder<T>(w: seq<T>, x: T)
    ensures x !in w ==> Without(w, x) == w
    ensures x in w ==> exists i :: 0 <= i < |w| && w[i] == x && Without(w, x) == w[..i] + w[i + 1..]
  {
    if x in w { assert w[IndexOf(w, x)] == x; }
  }

  /** Distinct elements of a pool are at most as many as the pool has. */
  lemma {:induction false} DistinctFits<T>(s: seq<T>, pool: set<T>)
    requires Distinct(s) && forall x :: x in s ==> x in pool
    ensures |s| <= |pool|
    decreases |s|
  {
    if s != [] {
      assert s[0] in s && s[0] !in s[1..];
      forall x | x in s[1..] ensures x in pool - {s[0]} { assert x in s; }
      DistinctFits(s[1..], pool - {s[0]});
    }
  }

  /** In-order transfers compose: what was there and came in is what went out and is still there. */
  lemma JoinInOrder<T>(x: seq<T>, a: seq<T>, b: seq<T>, c: seq<T>, d: seq<T>, y: seq<T>, z: seq<T>)
    requires x + a == c + y && y + b == d + z
    ensures x + (a + b) == (c + d) + z
  {
    assert x + (a + b) == (x + a) + b;
    assert (c + y) + b == c + (y + b);
    assert c + (d + z) == (c + d) + z;
  }

  lemma {:induction false} IndexUnique<T>(w: seq<T>, x: T, i: nat)
    requires i < |w| && w[i] == x && x !in w[..i]
    ensures IndexOf(w, x) == i
  {
    if i > 0 {
      assert w[0] in w[..i];
      forall y | y in w[1..][..i - 1] ensures y in w[..i] {
        var k :| 0 <= k < i - 1 && w[1..][..i - 1][k] == y;
        assert w[..i][k + 1] == y;
      }
      IndexUnique(w[1..], x, i - 1);
    }
  }
}
