/** One side of a blocking object: the threads suspended on it, and those that were resumed with
    RT_EOK and have not yet looked again. The receive loops of mailboxes and message queues, their
    send loops, and the allocation loop of memory pools all follow this pattern. */
module WaitSide {
  import opened WaitList

  type Tid = nat

  datatype Option<+T> = None | Some(value: T)

  datatype Side = Side(waiting: seq<Tid>, woken: set<Tid>)

  ghost predicate SideOk(s: Side) {
    Distinct(s.waiting) && forall t :: t in s.waiting ==> t !in s.woken
  }

  /** No wake-up is lost: while somebody sleeps, every available item is spoken for by a resumed
      thread that has yet to look. */
  ghost predicate NoneLost(s: Side, available: nat) {
    s.waiting != [] ==> available <= |s.woken|
  }

  function PrioritiesOf(prio: Tid -> int, w: seq<Tid>): (ps: seq<int>)
    ensures |ps| == |w|
  {
    seq(|w|, i requires 0 <= i < |w| => prio(w[i]))
  }

  /** `_ipc_list_suspend` with the current priorities `prio`. */
  function Queued(flag: Flag, prio: Tid -> int, w: seq<Tid>, t: Tid): seq<Tid> {
    Enqueue(flag, w, PrioritiesOf(prio, w), t, prio(t))
  }

  /** `_ipc_list_resume`: the list without its first thread. */
  function Rest(w: seq<Tid>): seq<Tid> {
    if w == [] then [] else w[1..]
  }

  function First(w: seq<Tid>): Option<Tid> {
    if w == [] then None else Some(w[0])
  }

  /** Exactly the first sleeper is resumed, if there is one, and the others keep their order. */
  ghost predicate ResumesFirst(w: seq<Tid>, w': seq<Tid>, resumed: Option<Tid>) {
    if w == [] then w' == [] && resumed == None
    else resumed == Some(w[0]) && w' == w[1..]
  }

  /** The caller goes to sleep where the flag wants it, and the others keep their order. */
  ghost predicate Joins(flag: Flag, prio: Tid -> int, w: seq<Tid>, w': seq<Tid>, t: Tid) {
    exists i :: Enters(flag, w, PrioritiesOf(prio, w), t, prio(t), w', i)
  }

  lemma QueuedJoins(flag: Flag, prio: Tid -> int, w: seq<Tid>, t: Tid)
    ensures Joins(flag, prio, w, Queued(flag, prio, w, t), t)
  {
    EnqueueEnters(flag, w, PrioritiesOf(prio, w), t, prio(t));
  }

  function Those(resumed: Option<Tid>): set<Tid> {
    match resumed
    case None => {}
    case Some(t) => {t}
  }

  /** An operation left `w` of the sleepers and resumed somebody, or nobody. */
  function Resumed(s: Side, w: seq<Tid>, resumed: Option<Tid>): Side {
    Side(w, s.woken + Those(resumed))
  }

  /** The thread looked, and the operation left `w` of the sleepers: it is asleep again, or leaves the
      loop with an item or without. */
  function Looked(s: Side, w: seq<Tid>, t: Tid): Side {
    Side(w, s.woken - {t})
  }

  /** A timer fired. */
  function Expired(s: Side, t: Tid): Side {
    s.(waiting := Without(s.waiting, t))
  }

  /** `_ipc_list_resume_all`: everyone is resumed with an error and will not look again. */
  function Flushed(s: Side): Side {
    s.(waiting := [])
  }

  /** `_ipc_list_resume_all`: as long as there is a first sleeper, resume it. */
  method ResumeAll(list: seq<Tid>) returns (resumed: seq<Tid>)
    ensures resumed == list
  {
    var rest := list;
    resumed := [];
    while rest != []
      invariant resumed + rest == list
      decreases |rest|
    {
      resumed := resumed + [rest[0]];
      rest := rest[1..];
    }
  }

  lemma JoinsMembers(flag: Flag, prio: Tid -> int, w: seq<Tid>, w': seq<Tid>, t: Tid)
    requires Joins(flag, prio, w, w', t) && Distinct(w) && t !in w
    ensures Distinct(w') && forall x :: x in w' <==> x in w || x == t
  {
    var i :| Enters(flag, w, PrioritiesOf(prio, w), t, prio(t), w', i);
    InsertDistinct(w, i, t);
    assert InsertAt(w, i, t) == w';
  }

  lemma FrontMembers(w: seq<Tid>, t: Tid)
    requires Distinct(w) && t !in w
    ensures Distinct([t] + w) && forall x :: x in [t] + w <==> x in w || x == t
  {
    InsertDistinct(w, 0, t);
    assert InsertAt(w, 0, t) == [t] + w;
  }

  /** Sleeping is only for those who found nothing. */
  lemma SleepLosesNone(s: Side, w: seq<Tid>, t: Tid)
    requires SideOk(s) && t !in s.waiting
    requires Distinct(w) && forall x :: x in w <==> x in s.waiting || x == t
    ensures SideOk(Looked(s, w, t)) && NoneLost(Looked(s, w, t), 0)
  {
  }

  /** One more item and one more resumed thread. */
  lemma SignalLosesNone(s: Side, n: nat, w: seq<Tid>, resumed: Option<Tid>)
    requires SideOk(s) && NoneLost(s, n) && ResumesFirst(s.waiting, w, resumed)
    ensures SideOk(Resumed(s, w, resumed)) && NoneLost(Resumed(s, w, resumed), n + 1)
    ensures forall x :: x in w ==> x in s.waiting
    ensures forall x :: x in Those(resumed) ==> x in s.waiting
  {
    if s.waiting != [] {
      assert s.waiting[0] in s.waiting;
      assert |s.woken + {s.waiting[0]}| == |s.woken| + 1;
      assert forall x :: x in s.waiting[1..] ==> x in s.waiting;
    }
  }

  /** A thread that takes an item, resumed or just arriving and stealing it. */
  lemma TakeLosesNone(s: Side, n: nat, t: Tid)
    requires SideOk(s) && NoneLost(s, n) && n > 0
    ensures SideOk(Looked(s, s.waiting, t)) && NoneLost(Looked(s, s.waiting, t), n - 1)
  {
    if t in s.woken { assert |s.woken - {t}| == |s.woken| - 1; } else { assert s.woken - {t} == s.woken; }
  }

  /** A thread that gives up because there is nothing. */
  lemma GiveUpLosesNone(s: Side, t: Tid)
    requires SideOk(s)
    ensures SideOk(Looked(s, s.waiting, t)) && NoneLost(Looked(s, s.waiting, t), 0)
  {
  }

  lemma ExpireLosesNone(s: Side, n: nat, t: Tid)
    requires SideOk(s) && NoneLost(s, n)
    ensures SideOk(Expired(s, t)) && NoneLost(Expired(s, t), n)
    ensures forall x :: x in Expired(s, t).waiting <==> x in s.waiting && x != t
  {
    WithoutDistinct(s.waiting, t);
  }

  lemma FlushLosesNone(s: Side, n: nat)
    requires SideOk(s)
    ensures SideOk(Flushed(s)) && NoneLost(Flushed(s), n)
  {
  }
}
