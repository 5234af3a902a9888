# STM32 timer layer: HwTimer register logic and the SysTime timebase

This project models, in Dafny, two pieces of the STM32 firmware's timer layer
and proves properties of them.

- **`HwTimer`** (`src/stm32/hwtimer.h`) wraps one general-purpose timer's
  memory-mapped register block. Each inline member is a read, a store, or a
  read-modify-write of one or two 16-bit registers: the status flags `SR`, the interrupt enables
  `DIER`, the channel enables `CCER`, the trigger-output control `CR2`, the
  event generator `EGR`, the auto-reload `ARR`, the prescaler `PSC`, the
  counter `CNT` and the four per-channel compare/capture registers.
  In `hwtimer.dfy`, `TimRegs` is the register block: a class with one `bv16`
  field per register and an array of four compare/capture registers.
  `HwTimer` is a class holding a reference to it. Each mutator is a method
  with a `modifies` frame. Its postcondition gives the whole new register
  state as an update of the old one. It also states the property the driver
  relies on: which bit is now set or clear, which channels are unaffected,
  and what `status()` reports. A ghost log of register stores records the
  order of the writes, which shows that each pending flag is cleared before
  its interrupt is enabled. `bits.dfy` characterises the single-bit
  operations bit by bit.
- **`SysTime`** (`src/stm32/systime.cpp`) is the monotonic timebase built on
  the SysTick down-counter. The rollover interrupt adds one period,
  `hzTicks(SYSTICK_IRQ_HZ)`, to `tickBase`. `now()` adds to it the time since
  the last reload, which it computes from the live counter reading with a
  32x64-bit fixed-point multiply followed by a right shift of 32. If the
  result is below the value last returned, it adds one more period.
  In `systime.dfy`, the fixed-point arithmetic is a set of functions on a
  `Config`, which holds `Sys::CPU_HZ` and `hzTicks(SYSTICK_IRQ_HZ)`. Lemmas
  bound the scaled term, prove it monotone, and prove it is the exact
  conversion of elapsed SysTick counts into ticks or one tick less. `SysTime`
  is a class. Its `Init` resets the counters to the state `Timebase(0, 0)`,
  and its `SysTickIsr` and `Now` methods are tied to a pure `Step` function.
  An inductive lemma proves that the values `now()` returns never decrease
  over any interleaving of interrupts and calls that keeps the rollover-race
  assumption.

## Model

| member | source | states |
|---|---|---|
| `Bits.SetBit` | src/stm32/hwtimer.h:79 | `r \|= 1 << i` sets bit `i` and keeps every other bit |
| `Bits.ClearBit` | src/stm32/hwtimer.h:78 | `r &= ~(1 << i)` clears bit `i` and keeps every other bit |
| `Bits.ToggleBit` | src/stm32/hwtimer.h:102 | `r ^= 1 << i` flips bit `i` and keeps every other bit |
| `Bits.And` | src/stm32/hwtimer.h:64 | a bit of `x & y` is set exactly when it is set in both operands |
| `Bits.ClearAfterSet` | src/stm32/hwtimer.h:77-84 | setting and then clearing a bit gives the original value with that bit clear |
| `Bits.ToggleTwice` | src/stm32/hwtimer.h:101-103 | XOR-ing the same bit twice restores the register |
| `Stm32HwTimer.HwTimer.constructor` | src/stm32/hwtimer.h:57-58 | the driver is bound to the given register block, whose bank of four compare/capture registers makes the driver `Valid()` |
| `Stm32HwTimer.HwTimer.Status` | src/stm32/hwtimer.h:63-65 | a bit is reported exactly when it is both pending in SR and enabled in DIER, so no masked event is ever reported |
| `Stm32HwTimer.HwTimer.ClearStatus` | src/stm32/hwtimer.h:66-68 | one store of zero to SR, nothing else changes, and `Status()` is 0 afterwards |
| `Stm32HwTimer.HwTimer.ConfigureTriggerOutput` | src/stm32/hwtimer.h:73-75 | CR2 is overwritten with the chosen mode (UpdateTrigger by default): every CR2 bit outside the MMS field is cleared, and the MMS field matches the chosen mode and no other; no other register changes |
| `Stm32HwTimer.HwTimer.EnableChannel` | src/stm32/hwtimer.h:77-88 | clears only SR bit `ch`, then sets only CCER bit `(ch-1)*4`, in that order; `ChannelIsEnabled(ch)` holds and other channels keep their enable state |
| `Stm32HwTimer.HwTimer.DisableChannel` | src/stm32/hwtimer.h:82-88 | clears only CCER bit `(ch-1)*4`; SR and DIER are unchanged; `ChannelIsEnabled(ch)` is false and other channels keep their state |
| `Stm32HwTimer.HwTimer.EnableComplementaryOutput` | src/stm32/hwtimer.h:90-97 | as written: sets CCER bit `(ch-1 * 4) + 2` (that is, `ch - 2`) and nothing else; channel 1's shift is -1 (undefined) and the comment at hwtimer.h:90-94 excludes channel 4, so the requires admits channels 2 and 3 |
| `Stm32HwTimer.HwTimer.DisableComplementaryOutput` | src/stm32/hwtimer.h:98-100 | as written: clears CCER bit `ch - 2` and nothing else |
| `Stm32HwTimer.HwTimer.InvertComplementaryOutput` | src/stm32/hwtimer.h:101-103 | as written: flips CCER bit `(ch-1 * 4) + 3` (that is, `ch - 1`) and nothing else |
| `Stm32HwTimer.HwTimer.EnableComplementaryOutputIntended` | src/stm32/hwtimer.h:90-97 | sets channel `ch`'s own CCxNE bit `4(ch-1)+2`, and no channel's enable state changes |
| `Stm32HwTimer.HwTimer.DisableComplementaryOutputIntended` | src/stm32/hwtimer.h:98-100 | clears CCxNE of channel `ch`, and no channel's enable state changes |
| `Stm32HwTimer.HwTimer.InvertComplementaryOutputIntended` | src/stm32/hwtimer.h:101-103 | flips CCxNP `4(ch-1)+3` of channel `ch`, and no channel's enable state changes |
| `Stm32HwTimer.HwTimer.EnableCompareCaptureIsr` | src/stm32/hwtimer.h:105-108 | clears SR bit `ch` before setting DIER bit `ch`; bit `ch` of `Status()` is 0 right afterwards |
| `Stm32HwTimer.HwTimer.DisableCompareCaptureIsr` | src/stm32/hwtimer.h:109-111 | clears only DIER bit `ch`, so `Status()` stops reporting that channel |
| `Stm32HwTimer.HwTimer.EnableUpdateIsr` | src/stm32/hwtimer.h:112-121 | clears SR bit 0 before setting DIER bit 0; `UpdateIsrIsEnabled()` holds and the update flag is not reported |
| `Stm32HwTimer.HwTimer.DisableUpdateIsr` | src/stm32/hwtimer.h:116-121 | clears only DIER bit 0; `UpdateIsrIsEnabled()` is false |
| `Stm32HwTimer.HwTimer.SetCount` | src/stm32/hwtimer.h:127-133 | stores CNT only; `Count()` then returns the stored value |
| `Stm32HwTimer.HwTimer.SetPeriod` | src/stm32/hwtimer.h:135-142 | stores ARR and then PSC; `Period()` returns the period and PSC holds the prescaler |
| `Stm32HwTimer.HwTimer.SetDuty` | src/stm32/hwtimer.h:123-146 | stores channel `ch`'s compare register only; `LastCapture(ch)` returns the duty and every other channel's register is unchanged |
| `Stm32HwTimer.HwTimer.GenerateEvent` | src/stm32/hwtimer.h:148-150 | one store of the mask to EGR; no other register changes |
| `Stm32HwTimer.ComplementaryIndexAsWritten` | src/stm32/hwtimer.h:96-102 | by C precedence, `(ch-1 * 4) + 2` is `ch - 2` and `(ch-1 * 4) + 3` is `ch - 1` |
| `Stm32HwTimer.ComplementaryAsWrittenHitsChannelOne` | src/stm32/hwtimer.h:95-100 | the as-written index is negative for channel 1, and for channel 2 it is CC1E, so enable/disable switch channel 1 on or off |
| `Stm32HwTimer.InvertAsWrittenFlipsChannelOne` | src/stm32/hwtimer.h:101-103 | as written, inverting channel 1 flips CC1E, channel 1's enable bit |
| `Stm32HwTimer.ComplementaryAsWrittenChannelFour` | src/stm32/hwtimer.h:90-97 | on channel 4, which the comment excludes, the as-written shift is defined (2) and addresses CC1NE, channel 1's complementary enable |
| `Stm32HwTimer.ComplementaryAsWrittenMissesOwnBits` | src/stm32/hwtimer.h:90-103 | for no documented channel does the as-written index reach that channel's CCxNE or CCxNP |
| `Stm32HwTimer.ComplementaryBitsIsolated` | src/stm32/hwtimer.h:90-103 | at the per-channel stride, CCxNE and CCxNP lie in channel `ch`'s own group of four bits, differ from every channel-enable bit and from other channels' bits |
| `Stm32HwTimer.MmsEncodingInField` | src/stm32/hwtimer.h:51-55 | each MasterModeSelect value lies within CR2's MMS field, and distinct values differ there; `ConfigureTriggerOutput` relies on this |
| `Stm32HwTimer.EnableThenDisableChannel` | src/stm32/hwtimer.h:77-88 | enable followed by disable leaves CCER as it was with the channel's enable bit clear, SR's flag cleared, and DIER unchanged |
| `Stm32HwTimer.InvertComplementaryOutputTwice` | src/stm32/hwtimer.h:101-103 | inverting twice restores every register |
| `Stm32HwTimer.ComplementaryOutputEnablesChannelOne` | src/stm32/hwtimer.h:95-97 | as written, enabling channel 2's complementary output switches channel 1 on |
| `Stm32SysTime.ReloadOfValid` | src/stm32/systime.cpp:7-9 | SYSTICK_RELOAD is `CPU_HZ/8/50 - 1`, computed without wrap-around, and is at least 1 |
| `Stm32SysTime.ScaleBracket` | src/stm32/systime.cpp:76 | the scale factor is `floor(P * 2^32 / RELOAD)` with no 64-bit wrap, so RELOAD counts of it fall short of `P * 2^32` by less than RELOAD |
| `Stm32SysTime.ScaledTermExact` | src/stm32/systime.cpp:63-76 | for a reading in `[0, RELOAD]`, the fractional count and the product do not wrap, and the product is at most `P * 2^32` |
| `Stm32SysTime.ScaledTermAtReload` | src/stm32/systime.cpp:63-76 | a reading equal to RELOAD contributes 0 ticks |
| `Stm32SysTime.ScaledTermAtZero` | src/stm32/systime.cpp:63-76 | a reading of 0 contributes between `P - 1` and `P` ticks |
| `Stm32SysTime.ScaledTermMonotone` | src/stm32/systime.cpp:63-76 | the scaled term does not increase as the reading increases |
| `Stm32SysTime.ScaledTermBounds` | src/stm32/systime.cpp:63-76 | every reading contributes at most one period |
| `Stm32SysTime.ScaledTermAccurate` | src/stm32/systime.cpp:63-76 | for every reading, the fixed-point term equals the exact conversion `fractional * hzTicks(SYSTICK_IRQ_HZ) / SYSTICK_RELOAD` (rounded down), or is one tick less |
| `Stm32SysTime.NowCompensation` | src/stm32/systime.cpp:83-85 | the result is the candidate plus `P` exactly when the candidate is below lastTick, and the candidate itself exactly otherwise |
| `Stm32SysTime.NowBetween` | src/stm32/systime.cpp:64-85 | the result is at least tickBase and the candidate, and at most the candidate plus one period |
| `Stm32SysTime.NowMonotone` | src/stm32/systime.cpp:83-88 | if the candidate is at most one period behind lastTick, the result is at least lastTick |
| `Stm32SysTime.FirstNowWithinOnePeriod` | src/stm32/systime.cpp:76-88 | with tickBase = lastTick = 0, `now()` returns at most one period |
| `Stm32SysTime.NowNeverDecreases` | src/stm32/systime.cpp:51-88 | over any interleaving of rollover interrupts and `now()` calls that keeps the rollover-race assumption, the returned values never decrease and never drop below the starting lastTick |
| `Stm32SysTime.SysTime.constructor` | src/stm32/systime.cpp:21-24 | before init the statics are zero and no heartbeat is installed |
| `Stm32SysTime.SysTime.Init` | src/stm32/systime.cpp:26-49 | the counters are `Timebase(0, 0)`, the state the trace lemmas start from; installs emptyHeartbeat for NULL and the given callback otherwise; the reload register gets `SYSTICK_HZ/SYSTICK_IRQ_HZ - 1` |
| `Stm32SysTime.SysTime.SysTickIsr` | src/stm32/systime.cpp:51-56 | tickBase grows by exactly one period; lastTick is unchanged; the heartbeat is called exactly once, after the advance |
| `Stm32SysTime.SysTime.Now` | src/stm32/systime.cpp:58-89 | returns `NowValue` of the counters and the reading; stores it in lastTick; leaves tickBase unchanged; the result is at least tickBase and, under the rollover-race assumption, at least the old lastTick |
| `Stm32SysTime.FirstNowAfterInit` | src/stm32/systime.cpp:38-39 | the first `now()` after `init` returns a value in `[0, P]` |

`P` is `hzTicks(SYSTICK_IRQ_HZ)`, `Config.irqTicks` in the model. `RELOAD` is
`SYSTICK_RELOAD`, `Config.Reload()`. The getters `channelIsEnabled`,
`updateIsrIsEnabled`, `lastCapture`, `count` and `period` are modelled as the
functions `ChannelIsEnabled`, `UpdateIsrIsEnabled`, `LastCapture`, `Count` and
`Period` of `HwTimer`. Their properties are stated in the contracts of the
mutators listed above.

Enabling and then disabling a channel leaves it disabled whatever its
earlier state, because `disableChannel` clears the enable bit
unconditionally (hwtimer.h:83). `EnableThenDisableChannel` states this.

## Findings

| source | as written | input that shows it | evidently intended | confidence | as-written member | corrected member |
|---|---|---|---|---|---|---|
| src/stm32/hwtimer.h:95-100 | CCER bit index `(ch-1 * 4) + 2`, which is `ch - 2` | `ch = 2`: enable sets CC1E (bit 0) and turns channel 1 on; disable turns it off. `ch = 1`: shift by -1, undefined | `((ch-1) * 4) + 2`, the channel's CCxNE bit | high (not executed) | `Stm32HwTimer.ComplementaryAsWrittenHitsChannelOne` | `Stm32HwTimer.HwTimer.EnableComplementaryOutputIntended` |
| src/stm32/hwtimer.h:101-103 | CCER bit index `(ch-1 * 4) + 3`, which is `ch - 1` | `ch = 1`: flips CC1E, so channel 1 toggles on or off | `((ch-1) * 4) + 3`, the channel's CCxNP bit | high (not executed) | `Stm32HwTimer.InvertAsWrittenFlipsChannelOne` | `Stm32HwTimer.HwTimer.InvertComplementaryOutputIntended` |

The as-written methods `EnableComplementaryOutput`,
`DisableComplementaryOutput` and `InvertComplementaryOutput` keep the
driver's index. Their preconditions admit only the channels the driver
documents (not channel 4) for which the shift is defined. The `...Intended`
methods use the per-channel stride. `DisableComplementaryOutputIntended` is
the corrected counterpart of `DisableComplementaryOutput` (first row, disable
half).

## Left out

- `HwTimer::init`, `deinit`, `configureChannelAsOutput`, `configureChannelAsInput` and `setDutyDma`: only declared in hwtimer.h (lines 60-61, 70-71, 152). Their bodies, and the DMA plumbing, are in hwtimer.cpp, which is not part of this model. The enumerations `Polarity`, `TimerMode`, `DmaMode`, `OutputMode` and `InputCaptureEdge` are used only by these operations.
- The `Event` enumeration (hwtimer.h:42-49) has no separate model. `GenerateEvent` accepts any 16-bit mask, as the driver's `uint16_t` parameter does.
- Volatile, memory-mapped access and the real `TIM_t` layout from hw.h, which is not part of this model. Registers are plain 16-bit fields. The ghost write log stands in for the ordering of volatile stores; reads are not logged.
- What the hardware does after the stores to `EGR` (forced events) and `CR2` (trigger output). Only the register write is modelled.
- Interrupt preemption: `SysTickIsr` is an ordinary method interleaved between whole `Now` calls. Preemption inside `now()` is not modelled: an interrupt between the SysTick read and the `tickBase` read (systime.cpp:63-64), or during a non-atomic read of the 64-bit `tickBase`. Whether monotonicity survives it is not established here.
- The heartbeat callback's own behaviour: each call is only logged, with the tickBase it runs after.
- The NVIC SysTick control and current-value stores in `init` (systime.cpp:42, 44, 48) and the hardware counting. The live counter value is the `reading` argument of `Now`, with `reading <= SYSTICK_RELOAD`.
- `Sys::CPU_HZ`, `hzTicks` and the `Ticks` type are defined in headers that are not part of this model. The first two are the fields of `Config`. Tick values are unbounded naturals, so a 64-bit wrap of `tickBase` (after centuries of nanosecond ticks) is not modelled.
- `Config.Valid()` restricts configurations to `CPU_HZ < 2^32`, `CPU_HZ/8/50 >= 2` and `0 < hzTicks(50) < 2^32`. Outside these, `SYSTICK_RELOAD` is 0 or wraps, or the scale product overflows.
- Channel numbers outside 1..4 are preconditions, not runtime errors. So is calling the rollover interrupt before `init`, which would call a null heartbeat.
- `Stm32SysTime.NowMonotone`, `Stm32SysTime.SysTime.Now` and `Stm32SysTime.NowNeverDecreases` prove monotonicity only under the explicit rollover-race assumption: the raw candidate is at most one period behind lastTick. The model does not derive this from interrupt latency.
