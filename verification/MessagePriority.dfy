/** Runs of a message queue built with RT_USING_MESSAGEQUEUE_PRIORITY, without urgent sends: the order of
    the message list. A message is its priority and its place in the order of linking. */
module MessagePriority {
  import opened WaitList

  datatype Item = Item(prio: int, stamp: nat)

  datatype Step = Link(prio: int) | Unlink | Reset

  datatype State = State(list: seq<Item>, next: nat)

  function Ranks(l: seq<Item>): (r: seq<int>)
    ensures |r| == |l| && forall i :: 0 <= i < |l| ==> r[i] == -l[i].prio
  {
    seq(|l|, i requires 0 <= i < |l| => -l[i].prio)
  }

  function Apply(s: State, e: Step): State {
    match e
    case Link(prio) => State(InsertAt(s.list, Position(Ranks(s.list), -prio), Item(prio, s.next)), s.next + 1)
    case Unlink => if s.list == [] then s else State(s.list[1..], s.next)
    case Reset => State([], s.next)
  }

  function Exec(s: State, run: seq<Step>): State
    decreases |run|
  {
    if run == [] then s else Exec(Apply(s, run[0]), run[1..])
  }

  /** More urgent first; among equals, linked first. */
  predicate Before(a: Item, b: Item) {
    a.prio > b.prio || (a.prio == b.prio && a.stamp < b.stamp)
  }

  ghost predicate Ordered(s: State) {
    && (forall i, j :: 0 <= i < j < |s.list| ==> Before(s.list[i], s.list[j]))
    && (forall i :: 0 <= i < |s.list| ==> s.list[i].stamp < s.next)
  }

  /** Where the scan stops: behind the messages at least as urgent, in front of the others. */
  lemma StopsRight(s: State, prio: int)
    requires Ordered(s)
    ensures var i := Position(Ranks(s.list), -prio);
            forall k :: 0 <= k < |s.list| ==> (k < i <==> s.list[k].prio >= prio)
  {
    var ps := Ranks(s.list);
    forall a, b | 0 <= a < b < |ps| ensures ps[a] <= ps[b] { assert Before(s.list[a], s.list[b]); }
    InsertSorted(ps, -prio);
    forall k | 0 <= k < |s.list| ensures k < Position(ps, -prio) <==> s.list[k].prio >= prio {
      assert ps[k] == -s.list[k].prio;
    }
  }

  lemma PlacedBefore(l: seq<Item>, i: nat, x: Item, a: nat, b: nat)
    requires i <= |l| && a < b <= |l|
    requires forall j, k :: 0 <= j < k < |l| ==> Before(l[j], l[k])
    requires forall k :: 0 <= k < |l| ==> if k < i then Before(l[k], x) else Before(x, l[k])
    ensures Before(InsertAt(l, i, x)[a], InsertAt(l, i, x)[b])
  {
    if b == i { assert Before(l[a], x); }
    else if a == i { assert Before(x, l[b - 1]); }
    else { assert Before(l[if a < i then a else a - 1], l[if b < i then b else b - 1]); }
  }

  lemma LinkOrdered(s: State, prio: int)
    requires Ordered(s)
    ensures Ordered(Apply(s, Link(prio)))
  {
    var i, x, l, r := Position(Ranks(s.list), -prio), Item(prio, s.next), s.list, Apply(s, Link(prio)).list;
    StopsRight(s, prio);
    forall a, b | 0 <= a < b < |r| ensures Before(r[a], r[b]) { PlacedBefore(l, i, x, a, b); }
    forall k | 0 <= k < |r| ensures r[k].stamp < s.next + 1 { assert r[k] in l || r[k] == x; }
  }

  lemma {:induction false} RunOrdered(s: State, run: seq<Step>)
    requires Ordered(s)
    ensures Ordered(Exec(s, run))
    decreases |run|
  {
    if run != [] {
      if run[0].Link? { LinkOrdered(s, run[0].prio); }
      RunOrdered(Apply(s, run[0]), run[1..]);
    }
  }

  /** After any run the message unlinked next is the most urgent one in the list, and among the most
      urgent the one linked first. */
  lemma NextIsMostUrgent(run: seq<Step>)
    ensures var l := Exec(State([], 0), run).list;
            forall i :: 0 < i < |l| ==> Before(l[0], l[i])
  {
    RunOrdered(State([], 0), run);
  }
}
