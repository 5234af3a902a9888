/**
 * The monotonic system timebase built on the Cortex-M3 SysTick down-counter.
 *
 * SysTick is programmed to reload SYSTICK_IRQ_HZ (50) times a second. Each
 * rollover interrupt adds one interrupt period, `hzTicks(SYSTICK_IRQ_HZ)` ticks,
 * to the coarse counter `tickBase`. `now()` adds to `tickBase` the time elapsed
 * since the last reload, obtained from the live counter reading by a 32x64-bit
 * fixed-point multiply followed by a right shift of 32, and clamps the result
 * against the last value it returned.
 *
 * The platform constants `Sys::CPU_HZ` and `hzTicks(SYSTICK_IRQ_HZ)` are the two
 * fields of `Config`; the live SysTick reading is the argument of `Now`. The
 * unsigned 32- and 64-bit arithmetic of the driver is written out with U32 and
 * U64; under `Config.Valid()` none of it wraps. Tick values are unbounded.
 */
module Stm32SysTime {

  /** SYSTICK_IRQ_HZ: the rollover interrupt rate. */
  const SYSTICK_IRQ_HZ: nat := 50

  /** 2^32: the modulus of uint32_t and the fixed-point one of the scale factor. */
  const TWO_32: nat := 0x1_0000_0000

  /** 2^64: the modulus of uint64_t. */
  const TWO_64: nat := 0x1_0000_0000_0000_0000

  /** Unsigned 32-bit wrap-around. */
  function U32(x: int): (w: nat)
  {
    x % TWO_32
  }

  /** Unsigned 64-bit wrap-around. */
  function U64(x: int): (w: nat)
  {
    x % TWO_64
  }

  /**
   * The build-time platform constants: `cpuHz` is `Sys::CPU_HZ`, `irqTicks` is
   * `hzTicks(SYSTICK_IRQ_HZ)`, the number of ticks in one interrupt period.
   */
  datatype Config = Config(cpuHz: nat, irqTicks: nat)
  {
    /** SYSTICK_HZ = Sys::CPU_HZ / 8, an unsigned. */
    function SystickHz(): (hz: nat)
    {
      U32(cpuHz / 8)
    }

    /** SYSTICK_RELOAD = SYSTICK_HZ / SYSTICK_IRQ_HZ - 1, a uint32_t. */
    function Reload(): (reload: nat)
    {
      U32(SystickHz() / SYSTICK_IRQ_HZ - 1)
    }

    /**
     * The configurations the timebase is meant for: the CPU clock fits an
     * unsigned, the reload is positive (so the scale factor's division is
     * defined), and one period is positive and below 2^32 ticks (so
     * `irqTicks * 2^32` fits a uint64_t).
     */
    predicate Valid()
    {
      cpuHz < TWO_32 && SystickHz() / SYSTICK_IRQ_HZ >= 2 && 0 < irqTicks < TWO_32
    }

    /**
     * The scale factor: one period in ticks, times 2^32, divided by
     * SYSTICK_RELOAD in 64-bit arithmetic. It is the number of ticks per
     * SysTick count as a fixed-point number with 32 fractional bits.
     */
    function Scale(): (scale: nat)
      requires Valid()
    {
      U64(irqTicks * TWO_32) / Reload()
    }

    /**
     * The ticks elapsed since the last reload, for a live SysTick reading:
     * `(fractional * scale) >> 32` with `fractional = SYSTICK_RELOAD - reading`.
     */
    function ScaledTerm(reading: nat): (ticks: nat)
      requires Valid() && reading <= Reload()
    {
      U64(U32(Reload() - reading) * Scale()) / TWO_32
    }

    /** The raw candidate `now()` computes before the rollover correction. */
    function Candidate(tickBase: nat, reading: nat): (t: nat)
      requires Valid() && reading <= Reload()
    {
      tickBase + ScaledTerm(reading)
    }
  }

  /** With a valid configuration SYSTICK_RELOAD is computed without wrap-around and is positive. */
  lemma ReloadOfValid(cfg: Config)
    requires cfg.Valid()
    ensures cfg.SystickHz() == cfg.cpuHz / 8
    ensures cfg.Reload() == cfg.SystickHz() / SYSTICK_IRQ_HZ - 1 >= 1
  {
  }

  lemma MulMonotone(a: int, b: int, c: nat)
    requires a <= b
    ensures a * c <= b * c
  {
    assert b * c == a * c + (b - a) * c;
  }

  /** A right shift by 32 is monotone. */
  lemma ShiftMonotone(a: nat, b: nat)
    requires a <= b
    ensures a / TWO_32 <= b / TWO_32
  {
  }

  /**
   * The scale factor is `floor(irqTicks * 2^32 / RELOAD)`, computed without
   * wrap-around: RELOAD counts of it fall short of one period (times 2^32) by
   * less than RELOAD.
   */
  lemma ScaleBracket(cfg: Config)
    requires cfg.Valid()
    ensures cfg.Scale() == cfg.irqTicks * TWO_32 / cfg.Reload()
    ensures cfg.Reload() * cfg.Scale() <= cfg.irqTicks * TWO_32 < cfg.Reload() * cfg.Scale() + cfg.Reload()
  {
    ReloadOfValid(cfg);
    MulMonotone(cfg.irqTicks, TWO_32, TWO_32);
    assert U64(cfg.irqTicks * TWO_32) == cfg.irqTicks * TWO_32;
  }

  /**
   * For a reading in [0, RELOAD], the fixed-point product neither wraps nor
   * exceeds one period (times 2^32); the term is the product shifted right by 32.
   */
  lemma ScaledTermExact(cfg: Config, reading: nat)
    requires cfg.Valid() && reading <= cfg.Reload()
    ensures (cfg.Reload() - reading) * cfg.Scale() <= cfg.irqTicks * TWO_32
    ensures cfg.ScaledTerm(reading) == (cfg.Reload() - reading) * cfg.Scale() / TWO_32
  {
    ScaleBracket(cfg);
    var f := cfg.Reload() - reading;
    var product := f * cfg.Scale();
    MulMonotone(f, cfg.Reload(), cfg.Scale());
    assert product <= cfg.irqTicks * TWO_32;
    NoWrap(f, product);
  }

  /** Values in range are not changed by the unsigned wrap-arounds. */
  lemma NoWrap(x: nat, y: nat)
    requires x < TWO_32 && y < TWO_64
    ensures U32(x) == x && U64(y) == y
  {
  }

  /** A reading equal to RELOAD (the counter has just reloaded) contributes nothing. */
  lemma ScaledTermAtReload(cfg: Config)
    requires cfg.Valid()
    ensures cfg.ScaledTerm(cfg.Reload()) == 0
  {
    ScaledTermExact(cfg, cfg.Reload());
  }

  /** A reading of 0 (a whole period has elapsed) contributes one period, less at most one tick of rounding. */
  lemma {:induction false} ScaledTermAtZero(cfg: Config)
    requires cfg.Valid()
    ensures cfg.irqTicks - 1 <= cfg.ScaledTerm(0) <= cfg.irqTicks
  {
    ScaledTermExact(cfg, 0);
    ScaleBracket(cfg);
    ReloadOfValid(cfg);
    var product := cfg.Reload() * cfg.Scale();
    ShiftMonotone(product, cfg.irqTicks * TWO_32);
    assert cfg.Reload() < TWO_32;
    assert (cfg.irqTicks - 1) * TWO_32 <= product;
    ShiftMonotone((cfg.irqTicks - 1) * TWO_32, product);
  }

  /** The later the counter reads (the larger the reading), the smaller the term. */
  lemma {:induction false} ScaledTermMonotone(cfg: Config, r1: nat, r2: nat)
    requires cfg.Valid() && r1 <= r2 <= cfg.Reload()
    ensures cfg.ScaledTerm(r2) <= cfg.ScaledTerm(r1)
  {
    ScaledTermExact(cfg, r1);
    ScaledTermExact(cfg, r2);
    MulMonotone(cfg.Reload() - r2, cfg.Reload() - r1, cfg.Scale());
    ShiftMonotone((cfg.Reload() - r2) * cfg.Scale(), (cfg.Reload() - r1) * cfg.Scale());
  }

  /** Every reading contributes between nothing and one period. */
  lemma ScaledTermBounds(cfg: Config, reading: nat)
    requires cfg.Valid() && reading <= cfg.Reload()
    ensures cfg.ScaledTerm(reading) <= cfg.irqTicks
  {
    ScaledTermMonotone(cfg, 0, reading);
    ScaledTermAtZero(cfg);
  }

  /** A common positive factor can be cancelled from a non-strict product inequality. */
  lemma MulCancel(x: int, y: int, c: nat)
    requires 0 < c && x * c <= y * c
    ensures x <= y
  {
    if y < x {
      MulMonotone(y + 1, x, c);
    }
  }

  /** A common factor can be cancelled from a strict product inequality. */
  lemma MulLtCancel(x: int, y: int, c: nat)
    requires x * c < y * c
    ensures x < y
  {
    if y <= x {
      MulMonotone(y, x, c);
    }
  }

  /** Integer division brackets its dividend: `(x / n) * n <= x < (x / n) * n + n`. */
  lemma DivBracket(x: int, n: nat)
    requires 0 < n
    ensures (x / n) * n <= x < (x / n) * n + n
  {
    assert x == (x / n) * n + x % n;
  }

  /** Any `a` with `a * n <= x` is at most `x / n`. */
  lemma DivLower(a: int, x: int, n: nat)
    requires 0 < n && a * n <= x
    ensures a <= x / n
  {
    DivBracket(x, n);
    assert (x / n + 1) * n == (x / n) * n + n;
    MulLtCancel(a, x / n + 1, n);
  }

  /**
   * Rounding the scale factor down never makes the fixed-point term exceed the
   * exact quotient: with `R * S <= P * K`, `f * S / K <= f * P / R`.
   */
  lemma {:induction false} FixedPointBelowExact(f: nat, r: nat, s: nat, p: nat, k: nat)
    requires 0 < r && 0 < k && r * s <= p * k
    ensures f * s / k <= f * p / r
  {
    var a := f * s / k;
    DivBracket(f * s, k);
    MulMonotone(a * k, f * s, r);
    MulMonotone(r * s, p * k, f);
    assert (a * r) * k == (a * k) * r;
    assert (f * s) * r == (r * s) * f;
    assert (p * k) * f == (f * p) * k;
    MulCancel(a * r, f * p, k);
    DivLower(a, f * p, r);
  }

  /** `f * P * K <= (f * S + K) * R` whenever `P * K < R * S + R` and `f <= K`. */
  lemma {:induction false} ScaledProductBound(f: nat, r: nat, s: nat, p: nat, k: nat)
    requires f <= k && p * k < r * s + r
    ensures (f * p) * k <= (f * s + k) * r
  {
    MulMonotone(p * k, r * s + r, f);
    assert (f * p) * k == (p * k) * f;
    assert (r * s + r) * f == (f * s) * r + f * r;
    MulMonotone(f, k, r);
    assert (f * s + k) * r == (f * s) * r + k * r;
  }

  /**
   * The fixed-point term falls short of the exact quotient by at most one:
   * with `P * K < R * S + R` and `f <= K`, `f * P / R <= f * S / K + 1`.
   */
  lemma {:induction false} FixedPointNearExact(f: nat, r: nat, s: nat, p: nat, k: nat)
    requires 0 < r && 0 < k && f <= k && p * k < r * s + r
    ensures f * p / r <= f * s / k + 1
  {
    var b := f * p / r;
    DivMulBound(f * p, r, k);
    ScaledProductBound(f, r, s, p, k);
    MulCancel(b * k, f * s + k, r);
    DivPlusOne(b, f * s, k);
  }

  /** Scaling the quotient `x / r` by `k` and multiplying back by `r` stays within `x * k`. */
  lemma DivMulBound(x: int, r: nat, k: nat)
    requires 0 < r
    ensures ((x / r) * k) * r <= x * k
  {
    DivBracket(x, r);
    MulMonotone((x / r) * r, x, k);
    assert ((x / r) * k) * r == ((x / r) * r) * k;
  }

  /** Any `b` with `b * n <= x + n` is at most `x / n + 1`. */
  lemma DivPlusOne(b: int, x: int, n: nat)
    requires 0 < n && b * n <= x + n
    ensures b <= x / n + 1
  {
    DivBracket(x, n);
    assert (x / n + 2) * n == (x / n) * n + n + n;
    MulLtCancel(b, x / n + 2, n);
  }

  /**
   * The purpose of the 32x64 fixed-point multiply: for every reading, the term is
   * the exact conversion `fractional * hzTicks(SYSTICK_IRQ_HZ) / SYSTICK_RELOAD`
   * of the elapsed SysTick counts into ticks, or one tick less.
   */
  lemma ScaledTermAccurate(cfg: Config, reading: nat)
    requires cfg.Valid() && reading <= cfg.Reload()
    ensures cfg.ScaledTerm(reading) <= (cfg.Reload() - reading) * cfg.irqTicks / cfg.Reload()
    ensures (cfg.Reload() - reading) * cfg.irqTicks / cfg.Reload() <= cfg.ScaledTerm(reading) + 1
  {
    ScaledTermExact(cfg, reading);
    ScaleBracket(cfg);
    ReloadOfValid(cfg);
    var f := cfg.Reload() - reading;
    FixedPointBelowExact(f, cfg.Reload(), cfg.Scale(), cfg.irqTicks, TWO_32);
    FixedPointNearExact(f, cfg.Reload(), cfg.Scale(), cfg.irqTicks, TWO_32);
  }

  /**
   * The value `now()` returns and stores in lastTick: the raw candidate,
   * plus one period when the candidate is below the last value returned.
   */
  function NowValue(cfg: Config, tickBase: nat, lastTick: nat, reading: nat): (t: nat)
    requires cfg.Valid() && reading <= cfg.Reload()
  {
    var t := cfg.Candidate(tickBase, reading);
    if t < lastTick then t + cfg.irqTicks else t
  }

  /** The rollover correction adds exactly one period, and does so exactly when the candidate went backwards. */
  lemma NowCompensation(cfg: Config, tickBase: nat, lastTick: nat, reading: nat)
    requires cfg.Valid() && reading <= cfg.Reload()
    ensures var c := cfg.Candidate(tickBase, reading);
      && (NowValue(cfg, tickBase, lastTick, reading) == c + cfg.irqTicks <==> c < lastTick)
      && (NowValue(cfg, tickBase, lastTick, reading) == c <==> lastTick <= c)
  {
  }

  /** `now()` never reports less than the coarse counter, nor more than one period past the candidate. */
  lemma NowBetween(cfg: Config, tickBase: nat, lastTick: nat, reading: nat)
    requires cfg.Valid() && reading <= cfg.Reload()
    ensures tickBase <= cfg.Candidate(tickBase, reading) <= NowValue(cfg, tickBase, lastTick, reading)
    ensures NowValue(cfg, tickBase, lastTick, reading) <= cfg.Candidate(tickBase, reading) + cfg.irqTicks
  {
  }

  /**
   * The rollover-race assumption: the candidate is at most one period behind
   * the last value returned (the rollover interrupt is at most one period late).
   */
  predicate WithinOnePeriod(cfg: Config, tickBase: nat, lastTick: nat, reading: nat)
    requires cfg.Valid() && reading <= cfg.Reload()
  {
    lastTick <= cfg.Candidate(tickBase, reading) + cfg.irqTicks
  }

  /** Under the rollover-race assumption, `now()` does not go below the last value it returned. */
  lemma NowMonotone(cfg: Config, tickBase: nat, lastTick: nat, reading: nat)
    requires cfg.Valid() && reading <= cfg.Reload()
    requires WithinOnePeriod(cfg, tickBase, lastTick, reading)
    ensures lastTick <= NowValue(cfg, tickBase, lastTick, reading)
  {
  }

  /** Right after init (tickBase = lastTick = 0), `now()` returns at most one period. */
  lemma FirstNowWithinOnePeriod(cfg: Config, reading: nat)
    requires cfg.Valid() && reading <= cfg.Reload()
    ensures NowValue(cfg, 0, 0, reading) <= cfg.irqTicks
  {
    ScaledTermBounds(cfg, reading);
  }

  /** The timebase's two counters as a value. */
  datatype Timebase = Timebase(tickBase: nat, lastTick: nat)

  /** What can happen to the timebase: a rollover interrupt, or a `now()` call seeing a SysTick reading. */
  datatype Event = SysTickIrq | NowCall(reading: nat)

  predicate Readable(cfg: Config, e: Event)
  {
    e.NowCall? ==> e.reading <= cfg.Reload()
  }

  /** The effect of one event on the counters, as ISR_SysTick and SysTime::now have it. */
  function Step(cfg: Config, s: Timebase, e: Event): (s': Timebase)
    requires cfg.Valid() && Readable(cfg, e)
  {
    match e
    case SysTickIrq => s.(tickBase := s.tickBase + cfg.irqTicks)
    case NowCall(r) => s.(lastTick := NowValue(cfg, s.tickBase, s.lastTick, r))
  }

  /** Every `now()` call in the run sees a valid reading and satisfies the rollover-race assumption. */
  predicate Admissible(cfg: Config, s: Timebase, events: seq<Event>)
    requires cfg.Valid()
    decreases |events|
  {
    if events == [] then true
    else
      var e := events[0];
      Readable(cfg, e)
      && (e.NowCall? ==> WithinOnePeriod(cfg, s.tickBase, s.lastTick, e.reading))
      && Admissible(cfg, Step(cfg, s, e), events[1..])
  }

  /** The values the `now()` calls of a run return, in order. */
  function Returns(cfg: Config, s: Timebase, events: seq<Event>): (out: seq<nat>)
    requires cfg.Valid() && Admissible(cfg, s, events)
    decreases |events|
  {
    if events == [] then []
    else
      var s' := Step(cfg, s, events[0]);
      (if events[0].NowCall? then [s'.lastTick] else []) + Returns(cfg, s', events[1..])
  }

  /** `out` never decreases and never goes below `lo`. */
  predicate NonDecreasingFrom(lo: nat, out: seq<nat>)
  {
    && (forall i :: 0 <= i < |out| ==> lo <= out[i])
    && (forall i, j :: 0 <= i < j < |out| ==> out[i] <= out[j])
  }

  /**
   * Over any interleaving of rollover interrupts and `now()` calls that keeps
   * the rollover-race assumption, the values returned never decrease and never
   * fall below the lastTick the run started from.
   */
  lemma {:induction false} NowNeverDecreases(cfg: Config, s: Timebase, events: seq<Event>)
    requires cfg.Valid() && Admissible(cfg, s, events)
    ensures NonDecreasingFrom(s.lastTick, Returns(cfg, s, events))
    decreases |events|
  {
    if events != [] {
      var e := events[0];
      var s' := Step(cfg, s, e);
      if e.NowCall? {
        NowMonotone(cfg, s.tickBase, s.lastTick, e.reading);
      }
      assert s.lastTick <= s'.lastTick;
      NowNeverDecreases(cfg, s', events[1..]);
      var rest := Returns(cfg, s', events[1..]);
      var head: seq<nat> := if e.NowCall? then [s'.lastTick] else [];
      var out := Returns(cfg, s, events);
      assert out == head + rest;
      forall i | 0 <= i < |out|
        ensures s'.lastTick <= out[i]
      {
        if i >= |head| {
          assert out[i] == rest[i - |head|];
        }
      }
      forall i, j | 0 <= i < j < |out|
        ensures out[i] <= out[j]
      {
        if j >= |head| {
          assert out[j] == rest[j - |head|];
        }
        if i >= |head| {
          assert out[i] == rest[i - |head|];
        }
      }
    }
  }

  /** A function pointer as passed to init; Null is the C null pointer. */
  datatype CallbackPtr = Null | Fn(addr: nat)

  /** The heartbeat the rollover interrupt calls: none before init, emptyHeartbeat, or the caller's function. */
  datatype Heartbeat = NotInstalled | EmptyHeartbeat | UserHeartbeat(addr: nat)

  /** One invocation of the heartbeat, with the tickBase it runs after. */
  datatype HeartbeatCall = HeartbeatCall(callback: Heartbeat, tickBase: nat)

  /**
   * The file-static state of systime.cpp with the SysTick reload register, for
   * one build configuration. The callback's own effects are not modelled: the
   * ghost log `heartbeatCalls` records each invocation.
   */
  class SysTime {
    const cfg: Config
    var tickBase: nat
    var lastTick: nat
    var heartbeatCb: Heartbeat
    /** NVIC.SysTick_RELOAD. */
    var systickReload: nat
    ghost var heartbeatCalls: seq<HeartbeatCall>

    /**
     * The statics before init: zero-initialised, no callback installed. The
     * SysTick reload register is not written before init, so its value is arbitrary.
     */
    constructor (cfg: Config)
      requires cfg.Valid()
      ensures this.cfg == cfg && Valid()
      ensures tickBase == 0 && lastTick == 0 && heartbeatCb == NotInstalled
      ensures heartbeatCalls == []
    {
      this.cfg := cfg;
      tickBase, lastTick, heartbeatCb := 0, 0, NotInstalled;
      heartbeatCalls := [];
    }

    ghost predicate Valid()
    {
      cfg.Valid()
    }

    function State(): (s: Timebase)
      reads this
    {
      Timebase(tickBase, lastTick)
    }

    /** Zeroes both counters, installs the heartbeat (emptyHeartbeat for NULL) and programs the reload. */
    method Init(hbcb: CallbackPtr)
      requires Valid()
      modifies this
      ensures State() == Timebase(0, 0)
      ensures heartbeatCb == if hbcb == Null then EmptyHeartbeat else UserHeartbeat(hbcb.addr)
      ensures systickReload == cfg.Reload() && systickReload == cfg.SystickHz() / SYSTICK_IRQ_HZ - 1
      ensures heartbeatCalls == old(heartbeatCalls)
    {
      tickBase := 0;
      lastTick := 0;
      heartbeatCb := if hbcb == Null then EmptyHeartbeat else UserHeartbeat(hbcb.addr);
      ReloadOfValid(cfg);
      systickReload := cfg.Reload();
    }

    /** ISR_SysTick: advances tickBase by one period, then calls the heartbeat once. */
    method SysTickIsr()
      requires Valid() && heartbeatCb != NotInstalled
      modifies this`tickBase, this`heartbeatCalls
      ensures tickBase == old(tickBase) + cfg.irqTicks
      ensures heartbeatCalls == old(heartbeatCalls) + [HeartbeatCall(heartbeatCb, tickBase)]
      ensures State() == Step(cfg, old(State()), SysTickIrq)
    {
      tickBase := tickBase + cfg.irqTicks;
      heartbeatCalls := heartbeatCalls + [HeartbeatCall(heartbeatCb, tickBase)];
    }

    /** SysTime::now for a live SysTick reading `reading`. */
    method Now(reading: nat) returns (t: nat)
      requires Valid() && reading <= cfg.Reload()
      modifies this`lastTick
      ensures t == NowValue(cfg, tickBase, old(lastTick), reading) && lastTick == t
      ensures State() == Step(cfg, old(State()), NowCall(reading))
      ensures tickBase <= t
      ensures WithinOnePeriod(cfg, tickBase, old(lastTick), reading) ==> old(lastTick) <= t
    {
      var fractional := U32(cfg.Reload() - reading);
      t := tickBase;
      t := t + U64(fractional * cfg.Scale()) / TWO_32;
      if t < lastTick {
        t := t + cfg.irqTicks;
      }
      lastTick := t;
    }
  }

  /** The first `now()` after init reports a value within one period of zero. */
  method FirstNowAfterInit(st: SysTime, hbcb: CallbackPtr, reading: nat) returns (t: nat)
    requires st.Valid() && reading <= st.cfg.Reload()
    modifies st
    ensures t <= st.cfg.irqTicks
  {
    st.Init(hbcb);
    t := st.Now(reading);
    FirstNowWithinOnePeriod(st.cfg, reading);
  }
}
