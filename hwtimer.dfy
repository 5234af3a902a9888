/**
 * The inline register logic of the STM32 general-purpose timer driver `HwTimer`.
 *
 * `TimRegs` is the timer's memory-mapped register block (`TIM_t`); every field
 * the driver touches is a 16-bit register. `HwTimer` holds a reference to one
 * block and each of its operations is a read-modify-write of one or two of those
 * registers. The ghost `writes` log of the block records, in program order,
 * which register every store went to: that is how the model states that a
 * pending status flag is cleared before its interrupt is enabled.
 */
module Stm32HwTimer {
  import opened Bits

  /** Number of capture/compare channels of the timer; channels are numbered from 1. */
  const NUM_CHANNELS: int := 4

  predicate IsChannel(ch: int)
  {
    1 <= ch <= NUM_CHANNELS
  }

  /**
   * Bit of channel `ch` in SR (CCxIF), DIER (CCxIE) and EGR (CCxG): these flags
   * start at bit 1, so the 1-based channel number is the bit index itself.
   */
  function ChannelFlagBit(ch: int): (i: bv4)
    requires IsChannel(ch)
    ensures i != UPDATE_BIT
  {
    ch as bv4
  }

  /** Bit 0 of SR (UIF), DIER (UIE) and EGR (UG): the update (rollover) event. */
  const UPDATE_BIT: bv4 := 0

  /** CCER bit CCxE, the output/capture enable of channel `ch`: four CCER bits per channel. */
  function ChannelEnableBit(ch: int): (i: bv4)
    requires IsChannel(ch)
  {
    ((ch - 1) * 4) as bv4
  }

  /**
   * The CCER bit index that enable/disableComplementaryOutput compute, written
   * exactly as in the driver: `(ch-1 * 4) + 2`. Multiplication binds tighter than
   * subtraction, so this is `ch - 2`.
   */
  function ComplementaryEnableIndexAsWritten(ch: int): (i: int)
  {
    (ch - 1 * 4) + 2
  }

  /** The CCER bit index invertComplementaryOutput computes as written: `(ch-1 * 4) + 3`, i.e. `ch - 1`. */
  function ComplementaryInvertIndexAsWritten(ch: int): (i: int)
  {
    (ch - 1 * 4) + 3
  }

  /** Channels the complementary-output helpers are documented for: channel 4's CCER layout is irregular. */
  predicate IsComplementaryChannel(ch: int)
  {
    IsChannel(ch) && ch != 4
  }

  /** CCER bit CCxNE, the complementary-output enable of channel `ch`, at the per-channel stride. */
  function ComplementaryEnableBit(ch: int): (i: bv4)
    requires IsComplementaryChannel(ch)
  {
    ((ch - 1) * 4 + 2) as bv4
  }

  /** CCER bit CCxNP, the complementary-output polarity of channel `ch`, at the per-channel stride. */
  function ComplementaryPolarityBit(ch: int): (i: bv4)
    requires IsComplementaryChannel(ch)
  {
    ((ch - 1) * 4 + 3) as bv4
  }

  /** The MasterModeSelect enumeration: what the timer exports on its trigger output (CR2.MMS). */
  datatype MasterModeSelect = ResetTrigger | EnableTrigger | UpdateTrigger
  {
    /** The enumerator's value, `n << 4`, which is what is stored in CR2. */
    function Encoding(): (v: bv16)
    {
      match this
      case ResetTrigger => 0 << 4
      case EnableTrigger => 1 << 4
      case UpdateTrigger => 2 << 4
    }
  }

  /** The MMS field, bits 4 to 6 of CR2. */
  function MmsField(cr2: bv16): (f: bv16)
  {
    (cr2 >> 4) & 7
  }

  /** Distinct channels have distinct CCER enable bits. */
  lemma ChannelEnableBitsDistinct(c: int, ch: int)
    requires IsChannel(c) && IsChannel(ch) && c != ch
    ensures ChannelEnableBit(c) != ChannelEnableBit(ch)
  {
  }

  /** The as-written helpers address CCER bit `ch - 2` (enable, disable) and `ch - 1` (invert). */
  lemma ComplementaryIndexAsWritten(ch: int)
    ensures ComplementaryEnableIndexAsWritten(ch) == ch - 2
    ensures ComplementaryInvertIndexAsWritten(ch) == ch - 1
  {
  }

  /**
   * Counterexample to the as-written index: on channel 1 the enable/disable
   * shift is negative; on channel 2 enable and disable hit CC1E, the enable bit
   * of channel 1.
   */
  lemma ComplementaryAsWrittenHitsChannelOne(ccer: bv16)
    ensures ComplementaryEnableIndexAsWritten(1) < 0
    ensures ComplementaryEnableIndexAsWritten(2) as bv4 == ChannelEnableBit(1)
    ensures TestBit(SetBit(ccer, ComplementaryEnableIndexAsWritten(2) as bv4), ChannelEnableBit(1))
    ensures !TestBit(ClearBit(ccer, ComplementaryEnableIndexAsWritten(2) as bv4), ChannelEnableBit(1))
  {
  }

  /** Counterexample to the as-written invert index: on channel 1 it flips CC1E, the enable bit of channel 1. */
  lemma InvertAsWrittenFlipsChannelOne(ccer: bv16)
    ensures ComplementaryInvertIndexAsWritten(1) as bv4 == ChannelEnableBit(1)
    ensures TestBit(ToggleBit(ccer, ComplementaryInvertIndexAsWritten(1) as bv4), ChannelEnableBit(1))
        <==> !TestBit(ccer, ChannelEnableBit(1))
  {
  }

  /**
   * On channel 4, which the driver's comment excludes, the as-written
   * enable/disable shift is defined: it is 2 and addresses CC1NE, the
   * complementary-output enable of channel 1.
   */
  lemma ComplementaryAsWrittenChannelFour()
    ensures 0 <= ComplementaryEnableIndexAsWritten(4) < 16
    ensures ComplementaryEnableIndexAsWritten(4) as bv4 == ComplementaryEnableBit(1)
  {
  }

  /** No documented channel gets its own CCxNE or CCxNP bit from the as-written index. */
  lemma ComplementaryAsWrittenMissesOwnBits(ch: int)
    requires IsComplementaryChannel(ch)
    ensures 2 <= ch ==> ComplementaryEnableIndexAsWritten(ch) as bv4 != ComplementaryEnableBit(ch)
    ensures ComplementaryInvertIndexAsWritten(ch) as bv4 != ComplementaryPolarityBit(ch)
  {
  }

  /**
   * At the per-channel stride, a channel's complementary enable and polarity
   * bits lie in its own group of four CCER bits, differ from each other, and
   * never coincide with any channel's enable bit or another channel's bits.
   */
  lemma ComplementaryBitsIsolated(ch: int, c: int)
    requires IsComplementaryChannel(ch) && IsChannel(c)
    ensures ComplementaryEnableBit(ch) != ChannelEnableBit(c)
    ensures ComplementaryPolarityBit(ch) != ChannelEnableBit(c)
    ensures ComplementaryEnableBit(ch) != ComplementaryPolarityBit(ch)
    ensures ComplementaryEnableBit(ch) / 4 == ChannelEnableBit(ch) / 4 == ComplementaryPolarityBit(ch) / 4
    ensures IsComplementaryChannel(c) && c != ch ==>
              ComplementaryEnableBit(ch) != ComplementaryEnableBit(c)
              && ComplementaryPolarityBit(ch) != ComplementaryPolarityBit(c)
  {
  }

  /** Each MasterModeSelect value lies in the MMS field of CR2, and distinct values differ there. */
  lemma MmsEncodingInField(m: MasterModeSelect, n: MasterModeSelect)
    ensures m.Encoding() & !0x70 == 0
    ensures m != n ==> MmsField(m.Encoding()) != MmsField(n.Encoding())
  {
  }

  /** Which register a store went to; CCR(n) is the compare/capture register at index n. */
  datatype RegWrite = WriteSR | WriteDIER | WriteCCER | WriteCR2 | WriteEGR
                    | WriteARR | WritePSC | WriteCNT | WriteCCR(index: int)

  /** A value snapshot of the block's scalar registers. */
  datatype Registers = Registers(SR: bv16, DIER: bv16, CCER: bv16, CR2: bv16, EGR: bv16,
                                 ARR: bv16, PSC: bv16, CNT: bv16)

  /** One timer's register block (the fields of `TIM_t` the driver uses). */
  class TimRegs {
    var SR: bv16     // status: pending event flags
    var DIER: bv16   // DMA/interrupt enable
    var CCER: bv16   // capture/compare enable
    var CR2: bv16    // control register 2 (master mode select)
    var EGR: bv16    // event generation
    var ARR: bv16    // auto-reload
    var PSC: bv16    // prescaler
    var CNT: bv16    // counter
    /** compareCapRegs[n].CCR, the compare/capture register of channel n + 1. */
    const compareCapRegs: array<bv16>
    /** Every store to a register, in program order. */
    ghost var writes: seq<RegWrite>

    /** A block in its reset state: every register reads zero. */
    constructor ()
      ensures SR == DIER == CCER == CR2 == EGR == ARR == PSC == CNT == 0
      ensures fresh(compareCapRegs) && compareCapRegs.Length == NUM_CHANNELS
      ensures forall n :: 0 <= n < NUM_CHANNELS ==> compareCapRegs[n] == 0
      ensures writes == []
    {
      SR, DIER, CCER, CR2, EGR, ARR, PSC, CNT := 0, 0, 0, 0, 0, 0, 0, 0;
      compareCapRegs := new bv16[NUM_CHANNELS](_ => 0);
      writes := [];
    }
  }

  class HwTimer {
    const tim: TimRegs

    /** Binds the driver to the register block `hw`, which has one compare/capture register per channel. */
    constructor (hw: TimRegs)
      requires hw.compareCapRegs.Length == NUM_CHANNELS
      ensures tim == hw && Valid()
    {
      tim := hw;
    }

    /** The block has one compare/capture register per channel. */
    ghost predicate Valid()
    {
      tim.compareCapRegs.Length == NUM_CHANNELS
    }

    ghost function Regs(): (r: Registers)
      reads tim
    {
      Registers(tim.SR, tim.DIER, tim.CCER, tim.CR2, tim.EGR, tim.ARR, tim.PSC, tim.CNT)
    }

    /** Pending events whose interrupt is enabled: a bit is reported iff it is both pending and enabled. */
    function Status(): (s: bv16)
      reads tim
      ensures forall j: bv4 :: TestBit(s, j) <==> TestBit(tim.SR, j) && TestBit(tim.DIER, j)
    {
      And(tim.SR, tim.DIER)
    }

    /** Clears every pending flag with a single store of zero. */
    method ClearStatus()
      modifies tim
      ensures Regs() == old(Regs()).(SR := 0)
      ensures tim.writes == old(tim.writes) + [WriteSR]
      ensures Status() == 0
    {
      tim.SR := 0;
      tim.writes := tim.writes + [WriteSR];
    }

    /**
     * Overwrites CR2 with the master mode: every bit outside the MMS field is
     * cleared, and the MMS field identifies `mms` among all the modes.
     */
    method ConfigureTriggerOutput(mms: MasterModeSelect := UpdateTrigger)
      modifies tim
      ensures Regs() == old(Regs()).(CR2 := mms.Encoding())
      ensures tim.writes == old(tim.writes) + [WriteCR2]
      ensures tim.CR2 & !0x70 == 0
      ensures forall m: MasterModeSelect :: MmsField(tim.CR2) == MmsField(m.Encoding()) <==> m == mms
    {
      tim.CR2 := mms.Encoding();
      tim.writes := tim.writes + [WriteCR2];
      forall m: MasterModeSelect
        ensures MmsField(tim.CR2) == MmsField(m.Encoding()) <==> m == mms
      {
        MmsEncodingInField(mms, m);
      }
    }

    /** Clears channel `ch`'s stale compare/capture flag, then sets its CCER enable bit. */
    method EnableChannel(ch: int)
      requires IsChannel(ch)
      modifies tim
      ensures Regs() == old(Regs()).(SR := ClearBit(old(tim.SR), ChannelFlagBit(ch)),
                                     CCER := SetBit(old(tim.CCER), ChannelEnableBit(ch)))
      ensures tim.writes == old(tim.writes) + [WriteSR, WriteCCER]
      ensures ChannelIsEnabled(ch) && !TestBit(tim.SR, ChannelFlagBit(ch))
      ensures forall c :: IsChannel(c) && c != ch ==> ChannelIsEnabled(c) == old(ChannelIsEnabled(c))
    {
      tim.SR := ClearBit(tim.SR, ChannelFlagBit(ch));
      tim.writes := tim.writes + [WriteSR];
      tim.CCER := SetBit(tim.CCER, ChannelEnableBit(ch));
      tim.writes := tim.writes + [WriteCCER];
      forall c | IsChannel(c) && c != ch
        ensures ChannelIsEnabled(c) == old(ChannelIsEnabled(c))
      {
        ChannelEnableBitsDistinct(c, ch);
      }
    }

    /** Clears channel `ch`'s CCER enable bit; SR and DIER are not touched. */
    method DisableChannel(ch: int)
      requires IsChannel(ch)
      modifies tim
      ensures Regs() == old(Regs()).(CCER := ClearBit(old(tim.CCER), ChannelEnableBit(ch)))
      ensures tim.writes == old(tim.writes) + [WriteCCER]
      ensures !ChannelIsEnabled(ch)
      ensures forall c :: IsChannel(c) && c != ch ==> ChannelIsEnabled(c) == old(ChannelIsEnabled(c))
    {
      tim.CCER := ClearBit(tim.CCER, ChannelEnableBit(ch));
      tim.writes := tim.writes + [WriteCCER];
      forall c | IsChannel(c) && c != ch
        ensures ChannelIsEnabled(c) == old(ChannelIsEnabled(c))
      {
        ChannelEnableBitsDistinct(c, ch);
      }
    }

    predicate ChannelIsEnabled(ch: int)
      requires IsChannel(ch)
      reads tim
    {
      TestBit(tim.CCER, ChannelEnableBit(ch))
    }

    /** Sets CCER bit `(ch-1 * 4) + 2` as the driver computes it; the shift is undefined for channel 1. */
    method EnableComplementaryOutput(ch: int)
      requires IsComplementaryChannel(ch) && 0 <= ComplementaryEnableIndexAsWritten(ch)
      modifies tim
      ensures Regs() == old(Regs()).(CCER := SetBit(old(tim.CCER), ComplementaryEnableIndexAsWritten(ch) as bv4))
      ensures tim.writes == old(tim.writes) + [WriteCCER]
    {
      tim.CCER := SetBit(tim.CCER, ComplementaryEnableIndexAsWritten(ch) as bv4);
      tim.writes := tim.writes + [WriteCCER];
    }

    /** Clears CCER bit `(ch-1 * 4) + 2` as the driver computes it. */
    method DisableComplementaryOutput(ch: int)
      requires IsComplementaryChannel(ch) && 0 <= ComplementaryEnableIndexAsWritten(ch)
      modifies tim
      ensures Regs() == old(Regs()).(CCER := ClearBit(old(tim.CCER), ComplementaryEnableIndexAsWritten(ch) as bv4))
      ensures tim.writes == old(tim.writes) + [WriteCCER]
    {
      tim.CCER := ClearBit(tim.CCER, ComplementaryEnableIndexAsWritten(ch) as bv4);
      tim.writes := tim.writes + [WriteCCER];
    }

    /** Flips CCER bit `(ch-1 * 4) + 3` as the driver computes it. */
    method InvertComplementaryOutput(ch: int)
      requires IsComplementaryChannel(ch)
      modifies tim
      ensures Regs() == old(Regs()).(CCER := ToggleBit(old(tim.CCER), ComplementaryInvertIndexAsWritten(ch) as bv4))
      ensures tim.writes == old(tim.writes) + [WriteCCER]
    {
      tim.CCER := ToggleBit(tim.CCER, ComplementaryInvertIndexAsWritten(ch) as bv4);
      tim.writes := tim.writes + [WriteCCER];
    }

    /** Sets channel `ch`'s CCxNE bit: its complementary output is on and no channel enable bit moves. */
    method EnableComplementaryOutputIntended(ch: int)
      requires IsComplementaryChannel(ch)
      modifies tim
      ensures Regs() == old(Regs()).(CCER := SetBit(old(tim.CCER), ComplementaryEnableBit(ch)))
      ensures tim.writes == old(tim.writes) + [WriteCCER]
      ensures TestBit(tim.CCER, ComplementaryEnableBit(ch))
      ensures forall c :: IsChannel(c) ==> ChannelIsEnabled(c) == old(ChannelIsEnabled(c))
    {
      tim.CCER := SetBit(tim.CCER, ComplementaryEnableBit(ch));
      tim.writes := tim.writes + [WriteCCER];
    }

    /** Clears channel `ch`'s CCxNE bit: its complementary output is off and no channel enable bit moves. */
    method DisableComplementaryOutputIntended(ch: int)
      requires IsComplementaryChannel(ch)
      modifies tim
      ensures Regs() == old(Regs()).(CCER := ClearBit(old(tim.CCER), ComplementaryEnableBit(ch)))
      ensures tim.writes == old(tim.writes) + [WriteCCER]
      ensures !TestBit(tim.CCER, ComplementaryEnableBit(ch))
      ensures forall c :: IsChannel(c) ==> ChannelIsEnabled(c) == old(ChannelIsEnabled(c))
    {
      tim.CCER := ClearBit(tim.CCER, ComplementaryEnableBit(ch));
      tim.writes := tim.writes + [WriteCCER];
    }

    /** Flips channel `ch`'s CCxNP bit: its complementary polarity inverts and no channel enable bit moves. */
    method InvertComplementaryOutputIntended(ch: int)
      requires IsComplementaryChannel(ch)
      modifies tim
      ensures Regs() == old(Regs()).(CCER := ToggleBit(old(tim.CCER), ComplementaryPolarityBit(ch)))
      ensures tim.writes == old(tim.writes) + [WriteCCER]
      ensures TestBit(tim.CCER, ComplementaryPolarityBit(ch)) != TestBit(old(tim.CCER), ComplementaryPolarityBit(ch))
      ensures forall c :: IsChannel(c) ==> ChannelIsEnabled(c) == old(ChannelIsEnabled(c))
    {
      tim.CCER := ToggleBit(tim.CCER, ComplementaryPolarityBit(ch));
      tim.writes := tim.writes + [WriteCCER];
    }

    /** Clears channel `ch`'s pending flag, then enables its interrupt: the flag cannot be reported at once. */
    method EnableCompareCaptureIsr(ch: int)
      requires IsChannel(ch)
      modifies tim
      ensures Regs() == old(Regs()).(SR := ClearBit(old(tim.SR), ChannelFlagBit(ch)),
                                     DIER := SetBit(old(tim.DIER), ChannelFlagBit(ch)))
      ensures tim.writes == old(tim.writes) + [WriteSR, WriteDIER]
      ensures TestBit(tim.DIER, ChannelFlagBit(ch)) && !TestBit(Status(), ChannelFlagBit(ch))
    {
      tim.SR := ClearBit(tim.SR, ChannelFlagBit(ch));
      tim.writes := tim.writes + [WriteSR];
      tim.DIER := SetBit(tim.DIER, ChannelFlagBit(ch));
      tim.writes := tim.writes + [WriteDIER];
    }

    /** Masks channel `ch`'s interrupt: its flag is no longer reported by Status. */
    method DisableCompareCaptureIsr(ch: int)
      requires IsChannel(ch)
      modifies tim
      ensures Regs() == old(Regs()).(DIER := ClearBit(old(tim.DIER), ChannelFlagBit(ch)))
      ensures tim.writes == old(tim.writes) + [WriteDIER]
      ensures !TestBit(Status(), ChannelFlagBit(ch))
    {
      tim.DIER := ClearBit(tim.DIER, ChannelFlagBit(ch));
      tim.writes := tim.writes + [WriteDIER];
    }

    /** Clears the pending update flag, then enables the update interrupt. */
    method EnableUpdateIsr()
      modifies tim
      ensures Regs() == old(Regs()).(SR := ClearBit(old(tim.SR), UPDATE_BIT),
                                     DIER := SetBit(old(tim.DIER), UPDATE_BIT))
      ensures tim.writes == old(tim.writes) + [WriteSR, WriteDIER]
      ensures UpdateIsrIsEnabled() && !TestBit(Status(), UPDATE_BIT)
    {
      tim.SR := ClearBit(tim.SR, UPDATE_BIT);
      tim.writes := tim.writes + [WriteSR];
      tim.DIER := SetBit(tim.DIER, UPDATE_BIT);
      tim.writes := tim.writes + [WriteDIER];
    }

    /** Masks the update interrupt and touches no other bit. */
    method DisableUpdateIsr()
      modifies tim
      ensures Regs() == old(Regs()).(DIER := ClearBit(old(tim.DIER), UPDATE_BIT))
      ensures tim.writes == old(tim.writes) + [WriteDIER]
      ensures !UpdateIsrIsEnabled()
    {
      tim.DIER := ClearBit(tim.DIER, UPDATE_BIT);
      tim.writes := tim.writes + [WriteDIER];
    }

    predicate UpdateIsrIsEnabled()
      reads tim
    {
      tim.DIER & 1 != 0
    }

    function LastCapture(ch: int): (ccr: bv16)
      requires Valid() && IsChannel(ch)
      reads tim, tim.compareCapRegs
    {
      tim.compareCapRegs[ch - 1]
    }

    function Count(): (c: bv16)
      reads tim
    {
      tim.CNT
    }

    method SetCount(c: bv16)
      modifies tim
      ensures Regs() == old(Regs()).(CNT := c)
      ensures tim.writes == old(tim.writes) + [WriteCNT]
      ensures Count() == c
    {
      tim.CNT := c;
      tim.writes := tim.writes + [WriteCNT];
    }

    function Period(): (arr: bv16)
      reads tim
    {
      tim.ARR
    }

    /** Stores the auto-reload value, then the prescaler. */
    method SetPeriod(period: bv16, prescaler: bv16)
      modifies tim
      ensures Regs() == old(Regs()).(ARR := period, PSC := prescaler)
      ensures tim.writes == old(tim.writes) + [WriteARR, WritePSC]
      ensures Period() == period && tim.PSC == prescaler
    {
      tim.ARR := period;
      tim.writes := tim.writes + [WriteARR];
      tim.PSC := prescaler;
      tim.writes := tim.writes + [WritePSC];
    }

    /** Stores `duty` in channel `ch`'s compare register; the other channels' registers keep their values. */
    method SetDuty(ch: int, duty: bv16)
      requires Valid() && IsChannel(ch)
      modifies tim, tim.compareCapRegs
      ensures Regs() == old(Regs())
      ensures tim.writes == old(tim.writes) + [WriteCCR(ch - 1)]
      ensures tim.compareCapRegs[..] == old(tim.compareCapRegs[..])[ch - 1 := duty]
      ensures LastCapture(ch) == duty
      ensures forall c :: IsChannel(c) && c != ch ==> LastCapture(c) == old(LastCapture(c))
    {
      tim.compareCapRegs[ch - 1] := duty;
      tim.writes := tim.writes + [WriteCCR(ch - 1)];
    }

    /** Stores `mask` in EGR, requesting the events whose bits it sets. */
    method GenerateEvent(mask: bv16)
      modifies tim
      ensures Regs() == old(Regs()).(EGR := mask)
      ensures tim.writes == old(tim.writes) + [WriteEGR]
    {
      tim.EGR := mask;
      tim.writes := tim.writes + [WriteEGR];
    }
  }
  /** Enabling and then disabling a channel leaves CCER as it was with that channel's enable bit clear. */
  /** A driver over a fresh register block in its reset state: the constructor's requirement can be met. */
  method NewResetTimer() returns (t: HwTimer)
    ensures fresh(t) && fresh(t.tim) && t.Valid()
    ensures t.Regs() == Registers(0, 0, 0, 0, 0, 0, 0, 0) && t.tim.writes == []
    ensures forall ch :: IsChannel(ch) ==> t.LastCapture(ch) == 0
  {
    var regs := new TimRegs();
    t := new HwTimer(regs);
  }

  method EnableThenDisableChannel(t: HwTimer, ch: int)
    requires IsChannel(ch)
    modifies t.tim
    ensures t.tim.CCER == ClearBit(old(t.tim.CCER), ChannelEnableBit(ch))
    ensures t.tim.SR == ClearBit(old(t.tim.SR), ChannelFlagBit(ch)) && t.tim.DIER == old(t.tim.DIER)
    ensures !t.ChannelIsEnabled(ch)
  {
    t.EnableChannel(ch);
    t.DisableChannel(ch);
    ClearAfterSet(old(t.tim.CCER), ChannelEnableBit(ch));
  }

  /** Inverting a complementary output twice restores CCER. */
  method InvertComplementaryOutputTwice(t: HwTimer, ch: int)
    requires IsComplementaryChannel(ch)
    modifies t.tim
    ensures t.Regs() == old(t.Regs())
  {
    t.InvertComplementaryOutput(ch);
    t.InvertComplementaryOutput(ch);
    ToggleTwice(old(t.tim.CCER), ComplementaryInvertIndexAsWritten(ch) as bv4);
  }

  /** As written, enabling channel 2's complementary output switches channel 1 on. */
  method ComplementaryOutputEnablesChannelOne(t: HwTimer)
    modifies t.tim
    ensures t.ChannelIsEnabled(1)
  {
    t.EnableComplementaryOutput(2);
    ComplementaryAsWrittenHitsChannelOne(old(t.tim.CCER));
  }
}
