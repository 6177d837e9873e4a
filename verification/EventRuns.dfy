/** Any interleaving of senders, receivers, time-outs and resets on one event object. */
module EventRuns {
  import opened WaitList
  import opened Event

  type Tid = nat

  datatype Step =
    | SendBy(bits: Bits)
    | RecvBy(t: Tid, bits: Bits, option: Option, wait: bool, flag: Flag, ps: seq<int>, p: int)
    | ExpireOf(t: Tid)
    | ResetAll

  predicate IsWaiting(e: Ev<Tid>, t: Tid) {
    exists i :: 0 <= i < |e.waiters| && e.waiters[i].thread == t
  }

  /** The option must select AND or OR; the caller is not already waiting. */
  ghost predicate Enabled(e: Ev<Tid>, x: Step) {
    match x
    case RecvBy(t, _, option, _, _, ps, _) => Legitimate(option) && |ps| == |e.waiters| && !IsWaiting(e, t)
    case _ => true
  }

  /** The list without the thread whose timer fired. */
  function Remove(ws: seq<Want<Tid>>, t: Tid): seq<Want<Tid>> {
    if ws == [] then [] else if ws[0].thread == t then ws[1..] else [ws[0]] + Remove(ws[1..], t)
  }

  function Apply(e: Ev<Tid>, x: Step): Ev<Tid>
    requires Enabled(e, x)
  {
    match x
    case SendBy(bits) => Send(e, bits).0
    case RecvBy(t, bits, option, wait, flag, ps, p) => Recv(e, t, bits, option, wait, flag, ps, p).0
    case ExpireOf(t) => e.(waiters := Remove(e.waiters, t))
    case ResetAll => Reset(e)
  }

  /** `i` is the place of the first want of the thread, or the end of the list. */
  ghost predicate FirstWant(ws: seq<Want<Tid>>, t: Tid, i: nat) {
    && i <= |ws| && (forall k :: 0 <= k < i ==> ws[k].thread != t)
    && (i < |ws| ==> ws[i].thread == t)
  }

  /** Exactly that want goes, and the others keep their order. */
  lemma {:induction false} RemoveIs(ws: seq<Want<Tid>>, t: Tid, i: nat)
    requires FirstWant(ws, t, i)
    ensures Remove(ws, t) == if i < |ws| then ws[..i] + ws[i + 1..] else ws
  {
    if 0 < i {
      RemoveIs(ws[1..], t, i - 1);
      if i < |ws| { assert ws[..i] == [ws[0]] + ws[1..][..i - 1] && ws[i + 1..] == ws[1..][i..]; }
    }
  }

  lemma {:induction false} RemoveMembers(ws: seq<Want<Tid>>, t: Tid)
    ensures forall w :: w in Remove(ws, t) ==> w in ws
  {
    if ws != [] {
      RemoveMembers(ws[1..], t);
      assert forall w :: w in ws[1..] ==> w in ws;
    }
  }

  lemma StepStable(e: Ev<Tid>, x: Step)
    requires Stable(e) && Enabled(e, x)
    ensures Stable(Apply(e, x))
  {
    match x
    case SendBy(bits) => if bits != {} { SendMeaning(e, bits); }
    case RecvBy(t, bits, option, wait, flag, ps, p) => RecvStable(e, t, bits, option, wait, flag, ps, p);
    case ExpireOf(t) => RemoveMembers(e.waiters, t);
    case ResetAll =>
  }

  ghost predicate Legal(e: Ev<Tid>, run: seq<Step>)
    decreases |run|
  {
    run == [] || (Enabled(e, run[0]) && Legal(Apply(e, run[0]), run[1..]))
  }

  function Exec(e: Ev<Tid>, run: seq<Step>): Ev<Tid>
    requires Legal(e, run)
    decreases |run|
  {
    if run == [] then e else Exec(Apply(e, run[0]), run[1..])
  }

  lemma {:induction false} RunStable(e: Ev<Tid>, run: seq<Step>)
    requires Stable(e) && Legal(e, run)
    ensures Stable(Exec(e, run))
    decreases |run|
  {
    if run != [] {
      StepStable(e, run[0]);
      RunStable(Apply(e, run[0]), run[1..]);
    }
  }

  /** In every reachable state no suspended thread's condition holds, so a further send of any bits
      succeeds; the -RT_EINVAL exit is unreachable. */
  lemma NobodySleepsSatisfied(run: seq<Step>, bits: Bits)
    requires Legal(Ev({}, []), run)
    ensures var e := Exec(Ev({}, []), run);
            && (forall w :: w in e.waiters ==> !Satisfied(e.flags, w.bits, w.option))
            && Send(e, bits).1 == if bits == {} then Eerror else Eok
  {
    RunStable(Ev({}, []), run);
    var e := Exec(Ev({}, []), run);
    if bits != {} { SendMeaning(e, bits); }
  }
}
