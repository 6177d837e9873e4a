/** Receive-length accounting over a circular DMA buffer (drv_usart_v2.c:392-422). */
module Dma {
  import opened Arithmetic

  datatype Flag = Idle | HalfTransfer | TransferComplete

  /** What the DMA counter reads after `n` bytes into a circular buffer of `size`. */
  function Counter(size: nat, n: nat): (c: nat)
    requires size > 0
    ensures 1 <= c <= size
  {
    size - n % size
  }

  function RecvLen(flag: Flag, size: nat, remaining: nat, counter: nat): nat
    requires remaining <= size && counter <= size
  {
    match flag
    case Idle => if counter <= remaining then remaining - counter else size + remaining - counter
    case HalfTransfer => if counter < remaining then remaining - counter else 0
    case TransferComplete => if counter >= remaining then size + remaining - counter else 0
  }

  class Uart {
    const size: nat              // rx_bufsz
    var remaining: nat           // dma_rx.remaining_cnt

    constructor (size: nat)
      ensures this.size == size && remaining == size
    {
      this.size := size;
      remaining := size;
    }

    /** `dma_recv_isr`; what it hands to the serial layer is returned, 0 for no call. */
    method Isr(flag: Flag, counter: nat) returns (recvLen: nat)
      requires remaining <= size && counter <= size
      modifies this
      ensures recvLen == RecvLen(flag, size, old(remaining), counter)
      ensures remaining == if recvLen > 0 then counter else old(remaining)
    {
      recvLen := 0;
      match flag {
        case Idle =>
          if counter <= remaining {
            recvLen := remaining - counter;
          } else {
            recvLen := size + remaining - counter;
          }
        case HalfTransfer =>
          if counter < remaining {
            recvLen := remaining - counter;
          }
        case TransferComplete =>
          if counter >= remaining {
            recvLen := size + remaining - counter;
          }
      }
      if recvLen > 0 {
        remaining := counter;
      }
    }
  }

  // ---- one call, however much has arrived ------------------------------------------------

  /** Two totals written as laps and positions. */
  lemma Apart(size: nat, a: nat, x: nat, b: nat, y: nat)
    requires x < size && y < size && size * a + x <= size * b + y
    ensures a <= b && (x > y ==> a < b)
  {
    Spread(size, b, 1);
    if b < a {
      MulLe(b + 1, a, size);
    }
  }

  lemma SameLap(size: nat, a: nat, x: nat, b: nat, y: nat)
    requires a <= b && x <= y < size
    ensures size * b + y - (size * a + x) >= 0 && (size * b + y - (size * a + x)) % size == y - x
  {
    MulLe(a, b, size);
    Difference(size, a, b);
    DivMod(size * b + y - (size * a + x), size, b - a, y - x);
  }

  lemma NextLap(size: nat, a: nat, x: nat, b: nat, y: nat)
    requires a < b && y < x < size
    ensures size * b + y - (size * a + x) >= 0 && (size * b + y - (size * a + x)) % size == size + y - x
  {
    MulLe(a + 1, b, size);
    Spread(size, a, 1);
    Difference(size, a + 1, b);
    DivMod(size * b + y - (size * a + x), size, b - (a + 1), size + y - x);
  }

  /** The bytes between two totals, modulo the buffer, from the two positions in it. */
  lemma Between(size: nat, r: nat, m: nat)
    requires size > 0 && r <= m
    ensures (m - r) % size == if r % size <= m % size then m % size - r % size else size + m % size - r % size
  {
    Remainder(r, size);
    Remainder(m, size);
    Apart(size, r / size, r % size, m / size, m % size);
    if r % size <= m % size {
      SameLap(size, r / size, r % size, m / size, m % size);
    } else {
      NextLap(size, r / size, r % size, m / size, m % size);
    }
  }

  /** What each interrupt reports of `m - r` bytes, when the last report was at `r`: the idle line, all of
      them up to whole laps of the buffer; the half-way mark, the same or nothing; the end of the buffer,
      the same with a whole lap for none, or nothing. */
  lemma ReportOf(flag: Flag, size: nat, r: nat, m: nat)
    requires size > 0 && r <= m
    ensures var len := RecvLen(flag, size, Counter(size, r), Counter(size, m));
            && (flag == Idle ==> len == (m - r) % size)
            && (flag == HalfTransfer ==> len == if r % size < m % size then (m - r) % size else 0)
            && (flag == TransferComplete ==>
                  len == if r % size < m % size then 0 else if r % size == m % size then size else (m - r) % size)
  {
    Between(size, r, m);
  }

  lemma AtMost(a: nat, b: nat)
    requires b > 0
    ensures a % b <= a && (a > 0 && a % b == 0 ==> b <= a)
  {
    if a < b {
      DivMod(a, b, 0, a);
    }
  }

  lemma OnwardFrom(size: nat, r: nat, lap: nat, x: nat, len: nat)
    requires size > 0 && r == size * lap + x && x < size && x + len < size + size
    ensures (r + len) % size == if x + len < size then x + len else x + len - size
  {
    if x + len < size {
      DivMod(r + len, size, lap, x + len);
    } else {
      Spread(size, lap, 1);
      DivMod(r + len, size, lap + 1, x + len - size);
    }
  }

  lemma Onward(size: nat, r: nat, len: nat)
    requires size > 0 && r % size + len < size + size
    ensures (r + len) % size == if r % size + len < size then r % size + len else r % size + len - size
  {
    Remainder(r, size);
    OnwardFrom(size, r, r / size, r % size, len);
  }

  /** The position is kept whenever something is reported. */
  lemma PositionKept(flag: Flag, size: nat, r: nat, m: nat)
    requires size > 0 && r <= m
    ensures var len := RecvLen(flag, size, Counter(size, r), Counter(size, m));
            (if len > 0 then Counter(size, m) else Counter(size, r)) == Counter(size, r + len)
  {
    var len := RecvLen(flag, size, Counter(size, r), Counter(size, m));
    Onward(size, r, len);
  }

  /** A call reports no byte that has not arrived if and only if it is not the end-of-buffer interrupt
      with nothing unreported: that one reports a whole buffer. */
  lemma NoPhantomIff(flag: Flag, size: nat, r: nat, m: nat)
    requires size > 0 && r <= m
    ensures r + RecvLen(flag, size, Counter(size, r), Counter(size, m)) <= m <==> !(flag == TransferComplete && r == m)
  {
    ReportOf(flag, size, r, m);
    AtMost(m - r, size);
    Between(size, r, m);
  }

  /** The idle interrupt reports everything if and only if less than a whole buffer was unreported. */
  lemma IdleExactIff(size: nat, r: nat, m: nat)
    requires size > 0 && r <= m
    ensures r + RecvLen(Idle, size, Counter(size, r), Counter(size, m)) == m <==> m - r < size
  {
    ReportOf(Idle, size, r, m);
    Remainder(m - r, size);
    if m - r < size {
      DivMod(m - r, size, 0, m - r);
    }
  }

  // ---- runs ------------------------------------------------------------------------------

  /** `moved` bytes have arrived and `reported` is the sum of all lengths handed on; `complete` is a
      pending end-of-buffer interrupt. */
  datatype State = State(size: nat, moved: nat, reported: nat, remaining: nat, complete: bool)

  datatype Event = Byte | Call(flag: Flag)

  function Start(size: nat): State {
    State(size, 0, 0, size, false)
  }

  /** Less than a buffer stays unreported, the end-of-buffer interrupt is called when it is pending, and
      the idle one only when that is not. */
  predicate Enabled(s: State, e: Event) {
    match e
    case Byte => s.moved + 1 < s.reported + s.size
    case Call(Idle) => !s.complete
    case Call(HalfTransfer) => true
    case Call(TransferComplete) => s.complete
  }

  function Length(s: State, flag: Flag): nat
    requires s.size > 0 && s.remaining <= s.size
  {
    RecvLen(flag, s.size, s.remaining, Counter(s.size, s.moved))
  }

  function Apply(s: State, e: Event): State
    requires s.size > 0 && s.remaining <= s.size
  {
    match e
    case Byte => s.(moved := s.moved + 1, complete := s.complete || (s.moved + 1) % s.size == 0)
    case Call(flag) =>
      var len := Length(s, flag);
      s.(reported := s.reported + len,
         remaining := if len > 0 then Counter(s.size, s.moved) else s.remaining,
         complete := s.complete && flag != TransferComplete)
  }

  ghost predicate Inv(s: State) {
    && s.size > 0
    && s.reported <= s.moved < s.reported + s.size
    && s.remaining == Counter(s.size, s.reported)
    && (s.complete ==> s.reported / s.size < s.moved / s.size)
  }

  /** Less than a lap apart, the later total is behind in the buffer exactly when it is on the next lap. */
  lemma Laps(size: nat, r: nat, m: nat)
    requires size > 0 && r <= m < r + size
    ensures r / size == m / size || r / size + 1 == m / size
    ensures r / size < m / size <==> m % size < r % size
  {
    Remainder(r, size);
    Remainder(m, size);
    var a := r / size;
    var b := m / size;
    Spread(size, a, 1);
    Spread(size, a + 1, 1);
    if b < a {
      MulLe(b + 1, a, size);
      Spread(size, b, 1);
    }
    if b > a + 1 {
      MulLe(a + 2, b, size);
    }
  }

  /** Every call the protocol allows reports exactly what is unreported, except that the half-way one may
      report nothing. */
  lemma CallExact(s: State, flag: Flag)
    requires Inv(s) && Enabled(s, Call(flag))
    ensures Length(s, flag) == s.moved - s.reported || (flag == HalfTransfer && Length(s, flag) == 0)
    ensures flag == HalfTransfer && s.complete ==> Length(s, flag) == 0
  {
    ReportOf(flag, s.size, s.reported, s.moved);
    Laps(s.size, s.reported, s.moved);
    DivMod(s.moved - s.reported, s.size, 0, s.moved - s.reported);
  }

  lemma ByteInv(s: State)
    requires Inv(s) && Enabled(s, Byte)
    ensures Inv(Apply(s, Byte))
  {
    Remainder(s.moved, s.size);
    Remainder(s.moved + 1, s.size);
    Laps(s.size, s.moved, s.moved + 1);
    Laps(s.size, s.reported, s.moved);
    Laps(s.size, s.reported, s.moved + 1);
  }

  lemma CallInv(s: State, flag: Flag)
    requires Inv(s) && Enabled(s, Call(flag))
    ensures Inv(Apply(s, Call(flag)))
  {
    CallExact(s, flag);
    PositionKept(flag, s.size, s.reported, s.moved);
  }

  function Exec(s: State, events: seq<Event>): State
    requires s.size > 0 && s.remaining <= s.size
    decreases |events|
  {
    if events == [] then s else Exec(Apply(s, events[0]), events[1..])
  }

  ghost predicate Legal(s: State, events: seq<Event>)
    requires s.size > 0 && s.remaining <= s.size
    decreases |events|
  {
    events != [] ==> Enabled(s, events[0]) && Legal(Apply(s, events[0]), events[1..])
  }

  lemma StepInv(s: State, e: Event)
    requires Inv(s) && Enabled(s, e)
    ensures Inv(Apply(s, e))
  {
    match e
    case Byte => ByteInv(s);
    case Call(flag) => CallInv(s, flag);
  }

  lemma {:induction false} RunInv(s: State, events: seq<Event>)
    requires Inv(s) && Legal(s, events)
    ensures Inv(Exec(s, events))
    decreases |events|
  {
    if events != [] {
      StepInv(s, events[0]);
      RunInv(Apply(s, events[0]), events[1..]);
    }
  }

  lemma StartInv(size: nat)
    requires size > 0
    ensures Inv(Start(size))
  {
    DivMod(0, size, 0, 0);
  }

  /** After any legal run, the lengths handed on add up to no more than has arrived, and one more idle or
      end-of-buffer call makes them add up to exactly that. */
  lemma SumExact(size: nat, events: seq<Event>, flag: Flag)
    requires size > 0 && Legal(Start(size), events)
    ensures var s := Exec(Start(size), events);
            && s.reported <= s.moved && s.remaining <= s.size && s.size > 0
            && (flag != HalfTransfer && Enabled(s, Call(flag)) ==> Apply(s, Call(flag)).reported == s.moved)
  {
    StartInv(size);
    RunInv(Start(size), events);
    var s := Exec(Start(size), events);
    if flag != HalfTransfer && Enabled(s, Call(flag)) {
      CallExact(s, flag);
    }
  }

  /** A state reached by two bytes, an idle call and three bytes more: the buffer of four has wrapped. */
  const WRAPPED := State(4, 5, 2, 2, true)

  /** A legal step between two given states. */
  predicate Goes(s: State, e: Event, r: State) {
    s.size > 0 && s.remaining <= s.size && Enabled(s, e) && Apply(s, e) == r
  }

  lemma Chained(s: State, e: Event, r: State, events: seq<Event>)
    requires Goes(s, e, r) && r.size > 0 && r.remaining <= r.size && Legal(r, events)
    ensures Legal(s, [e] + events) && Exec(s, [e] + events) == Exec(r, events)
  {
    assert ([e] + events)[0] == e && ([e] + events)[1..] == events;
  }

  lemma WrappedSteps()
    ensures Goes(Start(4), Byte, State(4, 1, 0, 4, false))
    ensures Goes(State(4, 1, 0, 4, false), Byte, State(4, 2, 0, 4, false))
    ensures Goes(State(4, 2, 0, 4, false), Call(Idle), State(4, 2, 2, 2, false))
    ensures Goes(State(4, 2, 2, 2, false), Byte, State(4, 3, 2, 2, false))
    ensures Goes(State(4, 3, 2, 2, false), Byte, State(4, 4, 2, 2, true))
    ensures Goes(State(4, 4, 2, 2, true), Byte, WRAPPED)
  {
  }

  lemma WrappedStart()
    requires Legal(State(4, 2, 2, 2, false), [Byte, Byte, Byte])
    requires Exec(State(4, 2, 2, 2, false), [Byte, Byte, Byte]) == WRAPPED
    ensures Legal(Start(4), [Byte, Byte, Call(Idle), Byte, Byte, Byte])
    ensures Exec(Start(4), [Byte, Byte, Call(Idle), Byte, Byte, Byte]) == WRAPPED
  {
    WrappedSteps();
    Chained(State(4, 2, 0, 4, false), Call(Idle), State(4, 2, 2, 2, false), [Byte, Byte, Byte]);
    Chained(State(4, 1, 0, 4, false), Byte, State(4, 2, 0, 4, false), [Call(Idle), Byte, Byte, Byte]);
    Chained(Start(4), Byte, State(4, 1, 0, 4, false), [Byte, Call(Idle), Byte, Byte, Byte]);
  }

  /** The run up to there is legal. */
  lemma WrappedReached()
    ensures Legal(Start(4), [Byte, Byte, Call(Idle), Byte, Byte, Byte])
    ensures Exec(Start(4), [Byte, Byte, Call(Idle), Byte, Byte, Byte]) == WRAPPED
  {
    WrappedSteps();
    Chained(State(4, 4, 2, 2, true), Byte, WRAPPED, []);
    Chained(State(4, 3, 2, 2, false), Byte, State(4, 4, 2, 2, true), [Byte]);
    Chained(State(4, 2, 2, 2, false), Byte, State(4, 3, 2, 2, false), [Byte, Byte]);
    WrappedStart();
  }

  /** Served first, the idle call makes the end-of-buffer call report four bytes that never came; the
      other way round everything is reported once. */
  lemma IdleFirst()
    ensures WRAPPED.moved == 5
    ensures Apply(WRAPPED, Call(Idle)).reported == 5
    ensures Apply(Apply(WRAPPED, Call(Idle)), Call(TransferComplete)).reported == 9
    ensures Apply(Apply(WRAPPED, Call(TransferComplete)), Call(Idle)).reported == 5
  {
    assert Apply(WRAPPED, Call(Idle)) == State(4, 5, 5, 3, true);
    assert Apply(WRAPPED, Call(TransferComplete)) == State(4, 5, 5, 3, false);
  }
}
