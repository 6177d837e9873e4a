/** The arithmetic of drv_pwm.c: nanoseconds to timer registers and back. Times are 32-bit numbers of
    nanoseconds; `clk` is the timer clock in MHz, after the division at drv_pwm.c:311. */
module Pwm {
  import opened Arithmetic

  const WORD32 := 0x1_0000_0000
  const MAX_PERIOD := 65535
  const MIN_PERIOD := 3
  const MIN_PULSE := 2
  const MAX_CLK := 4294            // a 32-bit frequency in Hz, divided by a million
  const REAL_CLK := 999            // the timer clocks of this board stop at 84 MHz

  datatype Config = Config(period: nat, pulse: nat)

  /** The prescaler register has 16 bits; the other two are compared with 16 bits below. */
  datatype Regs = Regs(psc: nat, arr: nat, ccr: nat)

  datatype Division = Div1 | Div2 | Div4

  ghost predicate Request(c: Config, clk: nat) {
    c.period < WORD32 && c.pulse < WORD32 && 1 <= clk <= MAX_CLK
  }

  /** The period in clock ticks, cut to 32 bits; `a` is nanoseconds times MHz. */
  function Ticks(a: nat): nat {
    a / 1000 % WORD32
  }

  function Scale(ticks: nat): nat {
    ticks / MAX_PERIOD + 1
  }

  function Length(ticks: nat): nat {
    if Quotient(ticks, Scale(ticks)) < MIN_PERIOD then MIN_PERIOD else Quotient(ticks, Scale(ticks))
  }

  function High(b: nat, scale: nat, length: nat): (h: nat)
    requires scale > 0 && length >= MIN_PERIOD
    ensures MIN_PULSE <= h <= length
  {
    var pulse := Quotient(b, scale) / 1000 % WORD32;
    if pulse < MIN_PULSE then MIN_PULSE else if pulse > length then length else pulse
  }

  /** The scaled period fits the 16-bit auto-reload register with room to spare. */
  lemma LengthFits(ticks: nat)
    ensures Scale(ticks) >= 1 && Quotient(ticks, Scale(ticks)) < MAX_PERIOD && 3 <= Length(ticks) < MAX_PERIOD
  {
    var s, q := Scale(ticks), Quotient(ticks, Scale(ticks));
    QuotientFloor(ticks, s);
    if q >= MAX_PERIOD {
      MulLe(MAX_PERIOD, q, s);
    }
  }

  function RegsFor(a: nat, b: nat): Regs {
    LengthFits(Ticks(a));
    Regs((Scale(Ticks(a)) - 1) % 0x1_0000, Length(Ticks(a)) - 1, High(b, Scale(Ticks(a)), Length(Ticks(a))) - 1)
  }

  function Programmed(c: Config, clk: nat): Regs {
    RegsFor(c.period * clk, c.pulse * clk)
  }

  function Divided(hz: nat, d: Division): nat {
    match d
    case Div1 => hz
    case Div2 => hz / 2
    case Div4 => hz / 4
  }

  /** `(count + 1) * (psc + 1) * 1000` in 32 bits, over the clock. */
  function Read(count: nat, psc: nat, clk: nat): nat
    requires clk > 0
  {
    Quotient(Times(count + 1, psc + 1) * 1000 % WORD32, clk)
  }

  class Timer {
    var regs: Regs

    /** `drv_pwm_set`; `hz` is the doubled peripheral clock. */
    method Set(c: Config, hz: nat)
      requires c.period < WORD32 && c.pulse < WORD32 && hz < WORD32
      modifies this
      ensures regs == Programmed(c, hz / 1000000)
    {
      var clk := hz / 1000000;
      var period := c.period * clk / 1000 % WORD32;
      var psc := period / MAX_PERIOD + 1;
      LengthFits(period);
      QuotientIs(period, psc);
      QuotientIs(c.pulse * clk, psc);
      period := period / psc;
      regs := regs.(psc := (psc - 1) % 0x1_0000);
      if period < MIN_PERIOD {
        period := MIN_PERIOD;
      }
      regs := regs.(arr := period - 1);
      var pulse := c.pulse * clk / psc / 1000 % WORD32;
      if pulse < MIN_PULSE {
        pulse := MIN_PULSE;
      } else if pulse > period {
        pulse := period;
      }
      regs := regs.(ccr := pulse - 1);
    }

    /** `drv_pwm_get`. A clock that rounds down to 0 MHz divides by zero in the source. */
    method Get(hz: nat, d: Division) returns (c: Config)
      requires hz < WORD32 && Divided(hz, d) >= 1000000
      ensures c == Config(Read(regs.arr, regs.psc, Divided(hz, d) / 1000000),
                          Read(regs.ccr, regs.psc, Divided(hz, d) / 1000000))
    {
      var clk := hz;
      if d == Div2 {
        clk := clk / 2;
      } else if d == Div4 {
        clk := clk / 4;
      }
      clk := clk / 1000000;
      var period := Nanoseconds(regs.arr, regs.psc, clk);
      var pulse := Nanoseconds(regs.ccr, regs.psc, clk);
      c := Config(period, pulse);
    }

    static method Nanoseconds(count: nat, psc: nat, clk: nat) returns (ns: nat)
      requires clk > 0
      ensures ns == Read(count, psc, clk)
    {
      var product := (count + 1) * (psc + 1) * 1000 % WORD32;
      TimesIs(count + 1, psc + 1);
      QuotientIs(product, clk);
      ns := product / clk;
    }
  }

  // ---- what is programmed ----------------------------------------------------------------

  lemma LengthIs(ticks: nat)
    ensures Length(ticks) == if ticks < MIN_PERIOD then MIN_PERIOD else Quotient(ticks, Scale(ticks))
  {
    var s, q := Scale(ticks), Quotient(ticks, Scale(ticks));
    QuotientFloor(ticks, s);
    if MIN_PERIOD <= ticks && q < MIN_PERIOD {
      MulLe(q, 2, s);
    }
  }

  /** What the registers can hold: at least three ticks a period, a pulse no longer than the period, and
      an auto-reload value of 16 bits. */
  lemma RegistersFit(c: Config, clk: nat)
    ensures var r := Programmed(c, clk);
            2 <= r.arr < 0xffff && 1 <= r.ccr <= r.arr
  {
    LengthFits(Ticks(c.period * clk));
  }

  /** The prescaler register keeps the value computed for it if and only if the period is below
      65536 * 65535 ticks. */
  lemma PrescalerKeptIff(a: nat, b: nat)
    ensures RegsFor(a, b).psc == Scale(Ticks(a)) - 1 <==> Ticks(a) < 0x1_0000 * MAX_PERIOD
  {
  }

  lemma RealSpan(ns: nat, clk: nat)
    requires ns < WORD32 && clk <= REAL_CLK
    ensures ns * clk <= (WORD32 - 1) * REAL_CLK
  {
    MulLe(clk, REAL_CLK, ns);
  }

  lemma RealTicks(a: nat)
    requires a <= (WORD32 - 1) * REAL_CLK
    ensures Ticks(a) == a / 1000 < 0x1_0000 * MAX_PERIOD
  {
  }

  /** With any clock below a gigahertz neither the period in ticks nor the prescaler is ever cut. */
  lemma NothingCut(c: Config, clk: nat)
    requires Request(c, clk) && clk <= REAL_CLK
    ensures Ticks(c.period * clk) == c.period * clk / 1000
    ensures Programmed(c, clk).psc == Scale(Ticks(c.period * clk)) - 1
  {
    RealSpan(c.period, clk);
    RealTicks(c.period * clk);
    PrescalerKeptIff(c.period * clk, c.pulse * clk);
  }

  // ---- multiplied out again --------------------------------------------------------------

  /** The scaled period times its scale. */
  function Fold(ticks: nat): nat {
    Times(Length(ticks), Scale(ticks))
  }

  /** The same with the prescaler the register kept. */
  function Back(ticks: nat): nat {
    Times(Length(ticks), (Scale(ticks) - 1) % 0x1_0000 + 1)
  }

  lemma FoldBounds(ticks: nat)
    requires MIN_PERIOD <= ticks
    ensures Fold(ticks) <= ticks < Fold(ticks) + Scale(ticks)
  {
    LengthIs(ticks);
    TimesIs(Length(ticks), Scale(ticks));
    QuotientFloor(ticks, Scale(ticks));
  }

  lemma BackIs(ticks: nat)
    requires ticks < WORD32
    ensures Back(ticks) <= Fold(ticks)
    ensures if Scale(ticks) <= 0x1_0000 then Back(ticks) == Fold(ticks) else Back(ticks) < 200_000
  {
    var psc := (Scale(ticks) - 1) % 0x1_0000 + 1;
    TimesIs(Length(ticks), Scale(ticks));
    TimesIs(Length(ticks), psc);
    if Scale(ticks) <= 0x1_0000 {
      assert psc == Scale(ticks);
    } else {
      LengthFits(ticks);
      MulLe(psc, 2, Length(ticks));
      MulLe(psc, Scale(ticks), Length(ticks));
    }
  }

  /** Nothing is lost to 32 bits: neither the period in ticks, nor the product read back. */
  predicate Fits(a: nat) {
    a / 1000 < WORD32 && Fold(Ticks(a)) * 1000 < WORD32
  }

  /** The product read back, of the period that was programmed. */
  function Product(a: nat): nat {
    Back(Ticks(a)) * 1000 % WORD32
  }

  lemma ScaleOfFitting(a: nat)
    requires Fits(a) && MIN_PERIOD <= Ticks(a)
    ensures Scale(Ticks(a)) <= 0x1_0000
  {
    FoldBounds(Ticks(a));
  }

  lemma FittingProduct(a: nat)
    requires Fits(a) && MIN_PERIOD <= Ticks(a)
    ensures Product(a) == Fold(Ticks(a)) * 1000
  {
    ScaleOfFitting(a);
    BackIs(Ticks(a));
  }

  lemma LostCore(a: nat, whole: nat, ticks: nat, fold: nat, back: nat, scale: nat)
    requires 1000 * whole <= a && (if whole < WORD32 then ticks == whole else ticks + WORD32 <= whole)
    requires fold <= ticks < fold + scale && MAX_PERIOD * (scale - 1) <= ticks
    requires back <= fold && if scale <= 0x1_0000 then back == fold else back < 200_000
    requires whole >= WORD32 || fold * 1000 >= WORD32
    ensures back * 1000 % WORD32 + WORD32 <= a
  {
  }

  /** When something is lost, what is left falls short of the request by more than 32 bits hold. */
  lemma LostProduct(a: nat)
    requires MIN_PERIOD <= Ticks(a) && !Fits(a)
    ensures Product(a) + WORD32 <= a
  {
    FoldBounds(Ticks(a));
    BackIs(Ticks(a));
    LostCore(a, a / 1000, Ticks(a), Fold(Ticks(a)), Back(Ticks(a)), Scale(Ticks(a)));
  }

  /** With any clock below a gigahertz only the product counts. */
  lemma FitsIff(ns: nat, clk: nat)
    requires ns < WORD32 && clk <= REAL_CLK
    ensures Fits(ns * clk) <==> Fold(Ticks(ns * clk)) * 1000 < WORD32
  {
    RealSpan(ns, clk);
    RealTicks(ns * clk);
  }

  lemma Thousandth(a: nat, scale: nat)
    requires scale > 0
    ensures scale * 1000 > 0 && Quotient(a / 1000, scale) == Quotient(a, scale * 1000)
  {
    QuotientIs(a, 1000);
    QuotientTwice(a, 1000, scale);
  }

  lemma FittingLength(a: nat)
    requires Fits(a) && MIN_PERIOD <= Ticks(a)
    ensures Scale(Ticks(a)) * 1000 > 0 && Length(Ticks(a)) == Quotient(a, Scale(Ticks(a)) * 1000)
  {
    LengthIs(Ticks(a));
    Thousandth(a, Scale(Ticks(a)));
  }

  lemma FittingSpan(a: nat)
    requires Fits(a) && MIN_PERIOD <= Ticks(a)
    ensures Product(a) <= a < Product(a) + Scale(Ticks(a)) * 1000
    ensures Product(a) >= 3 * (Scale(Ticks(a)) * 1000)
  {
    FittingProduct(a);
    FoldBounds(Ticks(a));
    LengthFits(Ticks(a));
    TimesIs(Length(Ticks(a)), Scale(Ticks(a)));
    MulLe(3, Length(Ticks(a)), Scale(Ticks(a)));
  }

  // ---- reading back ----------------------------------------------------------------------

  /** `got` is at most `ns`, and short of it by less than `scale * 1000 / clk + 1`. */
  ghost predicate Close(ns: nat, got: nat, scale: nat, clk: nat) {
    got <= ns && (ns - got) * clk < scale * 1000 + clk
  }

  lemma Gap(ns: nat, got: nat, clk: nat)
    requires got <= ns
    ensures (ns - got) * clk == ns * clk - clk * got
  {
  }

  lemma CloseCore(ns: nat, clk: nat, scale: nat, wide: nat, got: nat)
    requires wide <= ns * clk < wide + scale * 1000 && clk * got <= wide < clk * got + clk
    ensures Close(ns, got, scale, clk)
  {
    Below(clk, got, ns);
    Gap(ns, got, clk);
  }

  /** A product just below the request reads back close. */
  lemma ReadClose(ns: nat, clk: nat, scale: nat, product: nat)
    requires clk > 0 && product <= ns * clk < product + scale * 1000
    ensures Close(ns, Quotient(product, clk), scale, clk)
  {
    QuotientFloor(product, clk);
    CloseCore(ns, clk, scale, product, Quotient(product, clk));
  }

  lemma TooFar(ns: nat, clk: nat, scale: nat, product: nat)
    requires 1 <= clk <= MAX_CLK && scale <= 65538 && product + WORD32 <= ns * clk
    ensures !Close(ns, Quotient(product, clk), scale, clk)
  {
    QuotientFloor(product, clk);
    if Quotient(product, clk) <= ns {
      Gap(ns, Quotient(product, clk), clk);
    }
  }

  lemma TooLong(ns: nat, clk: nat, slow: nat, d: nat, product: nat, a: nat)
    requires slow > 0 && 2 * slow <= clk <= 2 * d && 3 * d <= product && a == ns * clk && a < product + d
    ensures Quotient(product, slow) > ns
  {
    Spread(slow, ns, 1);
    MulLe(2 * slow, clk, ns);
    Regroup(ns, 2, slow);
    assert 2 * (slow * ns) <= a;
    AtLeast(product, slow, ns + 1);
  }

  /** What is read back of the period, at any clock. */
  lemma PeriodRead(a: nat, b: nat, slow: nat)
    requires slow > 0
    ensures Read(RegsFor(a, b).arr, RegsFor(a, b).psc, slow) == Quotient(Product(a), slow)
  {
  }

  lemma ScaleBound(a: nat)
    ensures Scale(Ticks(a)) <= 65538
  {
  }

  lemma PeriodCloseIff(ns: nat, clk: nat, a: nat)
    requires 1 <= clk <= MAX_CLK && a == ns * clk && MIN_PERIOD <= Ticks(a)
    ensures Close(ns, Quotient(Product(a), clk), Scale(Ticks(a)), clk) <==> Fits(a)
  {
    if Fits(a) {
      FittingSpan(a);
      ReadClose(ns, clk, Scale(Ticks(a)), Product(a));
    } else {
      LostProduct(a);
      ScaleBound(a);
      TooFar(ns, clk, Scale(Ticks(a)), Product(a));
    }
  }

  /** Of a period of three ticks or more, the value read back is at most the value asked for, and short
      of it by less than `scale * 1000 / clk + 1` ns, if and only if nothing is lost to 32 bits. */
  lemma PeriodRoundTripIff(c: Config, clk: nat)
    requires Request(c, clk) && MIN_PERIOD <= Ticks(c.period * clk)
    ensures var r := Programmed(c, clk);
            Close(c.period, Read(r.arr, r.psc, clk), Scale(Ticks(c.period * clk)), clk) <==> Fits(c.period * clk)
  {
    PeriodRead(c.period * clk, c.pulse * clk, clk);
    PeriodCloseIff(c.period, clk, c.period * clk);
  }

  /** One second at 84 MHz is programmed correctly and read back as 28509825 ns. */
  lemma OneSecond()
    ensures var r := Programmed(Config(1_000_000_000, 0), 84);
            r.arr == 65521 && r.psc == 1281 && Read(r.arr, r.psc, 84) == 28_509_825
    ensures !Fits(84_000_000_000)
  {
    assert Ticks(84_000_000_000) == 84_000_000;
    QuotientUnique(84_000_000, 1282, 65522);
    assert Length(84_000_000) == 65522;
    TimesIs(65522, 1282);
    QuotientUnique(2_394_825_376, 84, 28_509_825);
  }

  lemma ShortProduct(a: nat)
    requires a / 1000 < MIN_PERIOD
    ensures Scale(Ticks(a)) == 1 && Product(a) == 3000
  {
    LengthIs(Ticks(a));
    TimesIs(3, 1);
  }

  lemma ShortRead(a: nat, b: nat, clk: nat)
    requires clk > 0 && a / 1000 < MIN_PERIOD
    ensures RegsFor(a, b).psc == 0 && Read(RegsFor(a, b).arr, RegsFor(a, b).psc, clk) == Quotient(3000, clk)
  {
    ShortProduct(a);
    PeriodRead(a, b, clk);
    PrescalerKeptIff(a, b);
  }

  lemma ShortIsLong(ns: nat, clk: nat, a: nat)
    requires clk > 0 && a == ns * clk && a / 1000 < MIN_PERIOD
    ensures ns <= Quotient(3000, clk)
  {
    QuotientFloor(3000, clk);
    Below(clk, ns, Quotient(3000, clk));
  }

  /** A period of fewer than three ticks is lengthened to three. */
  lemma ShortPeriod(c: Config, clk: nat)
    requires Request(c, clk) && c.period * clk / 1000 < MIN_PERIOD
    ensures var r := Programmed(c, clk);
            r.psc == 0 && Read(r.arr, r.psc, clk) == Quotient(3000, clk) >= c.period
  {
    ShortRead(c.period * clk, c.pulse * clk, clk);
    ShortIsLong(c.period, clk, c.period * clk);
  }

  // ---- the pulse -------------------------------------------------------------------------

  lemma HighIs(b: nat, scale: nat, length: nat, n: nat)
    requires scale > 0 && length >= MIN_PERIOD && Quotient(Quotient(b, scale), 1000) == n && MIN_PULSE <= n <= length < WORD32
    ensures High(b, scale, length) == n
  {
    QuotientIs(Quotient(b, scale), 1000);
  }

  /** A pulse no longer than the period, and of two scaled ticks or more, is never cut. */
  lemma PulseHigh(a: nat, b: nat)
    requires MIN_PERIOD <= Ticks(a) && Fits(a) && b <= a && MIN_PULSE * (Scale(Ticks(a)) * 1000) <= b
    ensures Length(Ticks(a)) >= MIN_PERIOD
    ensures High(b, Scale(Ticks(a)), Length(Ticks(a))) == Quotient(b, Scale(Ticks(a)) * 1000) <= Length(Ticks(a))
  {
    var scale := Scale(Ticks(a));
    LengthFits(Ticks(a));
    FittingLength(a);
    QuotientTwice(b, scale, 1000);
    QuotientOrder(b, a, scale * 1000);
    AtLeast(b, scale * 1000, MIN_PULSE);
    HighIs(b, scale, Length(Ticks(a)), Quotient(b, scale * 1000));
  }

  lemma PulseProduct(a: nat, b: nat, n: nat)
    requires Fits(a) && MIN_PERIOD <= Ticks(a) && RegsFor(a, b).ccr + 1 == n && 0 < n <= Length(Ticks(a))
    ensures Times(RegsFor(a, b).ccr + 1, RegsFor(a, b).psc + 1) * 1000 % WORD32 == n * Scale(Ticks(a)) * 1000
  {
    ScaleOfFitting(a);
    TimesIs(n, Scale(Ticks(a)));
    TimesIs(Length(Ticks(a)), Scale(Ticks(a)));
    MulLe(n, Length(Ticks(a)), Scale(Ticks(a)));
    assert RegsFor(a, b).psc + 1 == Scale(Ticks(a));
  }

  lemma PulseSpan(b: nat, scale: nat, n: nat)
    requires scale > 0 && n == Quotient(b, scale * 1000)
    ensures n * scale * 1000 <= b < n * scale * 1000 + scale * 1000
  {
    QuotientFloor(b, scale * 1000);
    Regroup(n, scale, 1000);
  }

  lemma PulseBack(ns: nat, clk: nat, a: nat)
    requires clk > 0 && MIN_PERIOD <= Ticks(a) && Fits(a)
    requires ns * clk <= a && MIN_PULSE * (Scale(Ticks(a)) * 1000) <= ns * clk
    ensures Close(ns, Read(RegsFor(a, ns * clk).ccr, RegsFor(a, ns * clk).psc, clk), Scale(Ticks(a)), clk)
  {
    var b, scale := ns * clk, Scale(Ticks(a));
    PulseHigh(a, b);
    var n := Quotient(b, scale * 1000);
    PulseProduct(a, b, n);
    PulseSpan(b, scale, n);
    ReadClose(ns, clk, scale, n * scale * 1000);
  }

  /** A pulse no longer than a period that fits, and of two scaled ticks or more, is never cut to the
      period and reads back as close as the period does. */
  lemma PulseRoundTrip(c: Config, clk: nat)
    requires Request(c, clk) && MIN_PERIOD <= Ticks(c.period * clk) && Fits(c.period * clk)
    requires c.pulse <= c.period && MIN_PULSE * (Scale(Ticks(c.period * clk)) * 1000) <= c.pulse * clk
    ensures var r := Programmed(c, clk);
            Close(c.pulse, Read(r.ccr, r.psc, clk), Scale(Ticks(c.period * clk)), clk)
  {
    MulLe(c.pulse, c.period, clk);
    PulseBack(c.pulse, clk, c.period * clk);
  }

  /** A pulse that would be shorter than two ticks is lengthened to two. */
  lemma ShortPulse(a: nat, b: nat)
    requires b < 2 * (Scale(Ticks(a)) * 1000)
    ensures RegsFor(a, b).ccr == 1
  {
    var s := Scale(Ticks(a));
    QuotientTwice(b, s, 1000);
    QuotientFloor(b, s * 1000);
    QuotientIs(Quotient(b, s), 1000);
    if Quotient(b, s * 1000) >= 2 { MulLe(2, Quotient(b, s * 1000), s * 1000); }
  }

  lemma TicksOrder(a: nat, b: nat, s: nat)
    requires s > 0 && a <= b
    ensures Quotient(a / 1000, s) <= Quotient(b, s) / 1000 <= b / 1000
  {
    QuotientIs(a, 1000);
    QuotientTwice(a, 1000, s);
    QuotientTwice(b, s, 1000);
    QuotientIs(Quotient(b, s), 1000);
    QuotientOrder(a, b, s * 1000);
    QuotientFloor(b, s);
    MulLe(1, s, Quotient(b, s));
  }

  lemma LongHigh(a: nat, b: nat)
    requires a <= b <= (WORD32 - 1) * REAL_CLK && MIN_PERIOD <= Ticks(a)
    ensures RegsFor(a, b).ccr == RegsFor(a, b).arr
  {
    RealTicks(a);
    RealTicks(b);
    LengthIs(Ticks(a));
    TicksOrder(a, b, Scale(Ticks(a)));
  }

  /** A pulse no shorter than the period is cut to the whole period. */
  lemma LongPulse(c: Config, clk: nat)
    requires Request(c, clk) && clk <= REAL_CLK && MIN_PERIOD <= Ticks(c.period * clk) && c.period <= c.pulse
    ensures Programmed(c, clk).ccr == Programmed(c, clk).arr
  {
    MulLe(c.period, c.pulse, clk);
    RealSpan(c.pulse, clk);
    LongHigh(c.period * clk, c.pulse * clk);
  }

  // ---- the clock division ----------------------------------------------------------------

  function Factor(d: Division): nat {
    match d
    case Div1 => 1
    case Div2 => 2
    case Div4 => 4
  }

  /** The divided clock is the clock over 1, 2 or 4, rounded down. */
  lemma DividedIs(hz: nat, d: Division)
    ensures Factor(d) * Divided(hz, d) <= hz < Factor(d) * (Divided(hz, d) + 1)
  {
  }

  lemma Slower(hz: nat, d: Division)
    ensures Factor(d) * (Divided(hz, d) / 1000000) <= hz / 1000000
  {
  }

  lemma Shorter(value: nat, clk: nat, slow: nat, factor: nat)
    requires slow > 0 && clk > 0 && factor * slow <= clk
    ensures Quotient(value, slow) >= factor * Quotient(value, clk)
  {
    var q := Quotient(value, clk);
    QuotientFloor(value, clk);
    MulLe(factor * slow, clk, q);
    Regroup(q, factor, slow);
    AtLeast(value, slow, factor * q);
  }

  /** Reading takes the clock division into account: the same registers read at least twice, or four
      times, as long. */
  lemma DivisionReadsLong(count: nat, psc: nat, hz: nat, d: Division)
    requires Divided(hz, d) >= 1000000
    ensures Read(count, psc, Divided(hz, d) / 1000000) >= Factor(d) * Read(count, psc, hz / 1000000)
  {
    Slower(hz, d);
    Shorter(Times(count + 1, psc + 1) * 1000 % WORD32, hz / 1000000, Divided(hz, d) / 1000000, Factor(d));
  }

  lemma FarCore(ns: nat, clk: nat, slow: nat, a: nat, scale: nat, product: nat)
    requires a == ns * clk && 0 < 2 * slow <= clk <= REAL_CLK && scale >= 1
    requires a < product + scale * 1000 && product >= 3 * (scale * 1000)
    ensures Quotient(product, slow) > ns
  {
    TooLong(ns, clk, slow, scale * 1000, product, a);
  }

  lemma DividedFar(ns: nat, clk: nat, slow: nat, a: nat)
    requires a == ns * clk && MIN_PERIOD <= Ticks(a) && Fits(a) && 0 < 2 * slow <= clk <= REAL_CLK
    ensures Quotient(Product(a), slow) > ns
  {
    FittingSpan(a);
    LengthFits(Ticks(a));
    FarCore(ns, clk, slow, a, Scale(Ticks(a)), Product(a));
  }

  lemma DividedIff(ns: nat, clk: nat, slow: nat, a: nat, d: Division)
    requires a == ns * clk && MIN_PERIOD <= Ticks(a) && Fits(a) && 0 < slow && clk <= REAL_CLK
    requires if d == Div1 then slow == clk else 2 * slow <= clk
    ensures Close(ns, Quotient(Product(a), slow), Scale(Ticks(a)), clk) <==> d == Div1
  {
    if d == Div1 {
      PeriodCloseIff(ns, clk, a);
    } else {
      DividedFar(ns, clk, slow, a);
    }
  }

  lemma DividedReadIff(ns: nat, clk: nat, slow: nat, a: nat, b: nat, d: Division)
    requires a == ns * clk && MIN_PERIOD <= Ticks(a) && Fits(a) && 0 < slow && clk <= REAL_CLK
    requires if d == Div1 then slow == clk else 2 * slow <= clk
    ensures Close(ns, Read(RegsFor(a, b).arr, RegsFor(a, b).psc, slow), Scale(Ticks(a)), clk) <==> d == Div1
  {
    PeriodRead(a, b, slow);
    DividedIff(ns, clk, slow, a, d);
  }

  lemma Divides(hz: nat, d: Division, clk: nat, slow: nat)
    requires clk == hz / 1000000 && slow == Divided(hz, d) / 1000000
    ensures if d == Div1 then slow == clk else 2 * slow <= clk
  {
  }

  /** Setting does not take the division into account: with a clock below a gigahertz, a period that fits
      reads back close to what was asked for if and only if the clock is not divided. */
  lemma DivisionCloseIff(c: Config, hz: nat, d: Division, clk: nat, slow: nat)
    requires clk == hz / 1000000 <= REAL_CLK && slow == Divided(hz, d) / 1000000 > 0 && Request(c, clk)
    requires MIN_PERIOD <= Ticks(c.period * clk) && Fits(c.period * clk)
    ensures var r := Programmed(c, clk);
            Close(c.period, Read(r.arr, r.psc, slow), Scale(Ticks(c.period * clk)), clk) <==> d == Div1
  {
    Divides(hz, d, clk, slow);
    Natural(c.period, clk);
    Natural(c.pulse, clk);
    DividedReadIff(c.period, clk, slow, c.period * clk, c.pulse * clk, d);
  }
}
