/**
 * The engine of sw/src/generator.c as the C program runs it: a
 * `Waveform_Generator_t` record updated in place, the six memory-mapped
 * registers at `address` as an array, and the static `debug_samples` buffer
 * the DMA engine fills. Every method performs the C function's steps in
 * order and is proved to leave the state that GeneratorSpec and
 * GeneratorConfig give for that call.
 */
module GeneratorInstance {
  import opened Bits
  import opened GeneratorDefs
  import opened Generator
  import opened GeneratorSpec
  import opened GeneratorConfig

  /** A signed 16-bit value from its two's-complement bit pattern. */
  function Signed16(h: nat): int
    requires h < 0x1_0000
  {
    if h >= 0x8000 then h - 0x1_0000 else h
  }

  /** Element `k` of the sample buffer read through an `s16 *` on a
      little-endian core: the low half of word `k / 2` for even `k`, its high
      half for odd `k`. */
  function HalfWord(buffer: seq<u32>, k: nat): int
    requires k < 2 * |buffer|
  {
    var w := buffer[k / 2];
    Signed16(if k % 2 == 0 then w % 0x1_0000 else w / 0x1_0000)
  }

  /** The even 16-bit elements are the I samples and the odd ones the Q
      samples of the same words. */
  lemma HalfWordSamples(buffer: seq<u32>, i: nat)
    requires i < |buffer|
    ensures HalfWord(buffer, 2 * i) == InPhase(buffer[i])
    ensures HalfWord(buffer, 2 * i + 1) == Quadrature(buffer[i])
  {
    assert (2 * i) / 2 == i && (2 * i) % 2 == 0;
    assert (2 * i + 1) / 2 == i && (2 * i + 1) % 2 == 1;
  }

  class WaveformGenerator {
    var enabled: bool
    var debugEnabled: bool
    var mode: GeneratorMode
    var modulationEn: bool
    var modulationMode: u8
    var contFreqKhz: u32
    var periodUs: u32
    var pulseLengthUs: u32
    var lowFreqKhz: u32
    var highFreqKhz: u32
    var deltaPinc: u32
    var barkerSubpulseLengthUs: u32
    var barkerSeqNum: u8
    var validDebugSamples: u32

    /** The registers REG_0 … REG_5 at the instance's hardware address, read
        and written only through `_readReg` and `_writeReg`. */
    var regs: RegisterBank
    /** `debug_samples`, the DMA destination. */
    const samples: array<u32>

    predicate Valid()
    {
      samples.Length == MAX_DEBUG_SAMPLES
    }

    /** The record and registers as an `Engine` value. */
    function State(): Engine
      requires Valid()
      reads this
    {
      Engine(enabled, debugEnabled, mode, modulationEn, modulationMode, contFreqKhz, periodUs,
             pulseLengthUs, lowFreqKhz, highFreqKhz, deltaPinc, barkerSubpulseLengthUs,
             barkerSeqNum, validDebugSamples, regs)
    }

    /** `generator_init` on the hardware registers `hwRegs`: the record is
        zeroed and the registers are not touched. The static sample buffer
        starts zeroed. */
    constructor (hwRegs: RegisterBank)
      ensures Valid() && State() == AfterInit(hwRegs)
      ensures forall i :: 0 <= i < samples.Length ==> samples[i] == 0
      ensures fresh(samples)
    {
      enabled, debugEnabled, mode, modulationEn, modulationMode := false, false, Continuous, false, 0;
      contFreqKhz, periodUs, pulseLengthUs, lowFreqKhz, highFreqKhz := 0, 0, 0, 0, 0;
      deltaPinc, barkerSubpulseLengthUs, barkerSeqNum, validDebugSamples := 0, 0, 0, 0;
      regs := hwRegs;
      samples := new u32[MAX_DEBUG_SAMPLES] (_ => 0);
    }

    /** `_writeReg`. */
    method WriteReg(offset: nat, data: u32)
      requires Valid() && IsRegisterOffset(offset)
      modifies this
      ensures regs == old(regs)[offset / 4 := data]
      ensures State() == WithReg(old(State()), offset, data)
    {
      regs := regs[offset / 4 := data];
    }

    /** `_writeBit`: read the register, set or clear the bit, write it back. */
    method WriteBit(offset: nat, bit: nat, value: nat)
      requires Valid() && IsRegisterOffset(offset) && bit < 32
      modifies this
      ensures State() == WithBit(old(State()), offset, bit, value)
    {
      var reg := regs[offset / 4];
      reg := BitWritten(reg, bit, value);
      WriteReg(offset, reg);
    }

    /** `_readBit`: 1 iff the bit is set. */
    function ReadBit(offset: nat, bit: nat): (b: nat)
      requires Valid() && IsRegisterOffset(offset) && bit < 32
      reads this
      ensures b == Bit(Reg(State(), offset), bit)
    {
      BitRead(regs[offset / 4], bit)
    }

    /** `generator_enable_debug`; `dmaReady` is whether the DMA engine's
        configuration was found and initialised. On success the sample buffer
        is zeroed. */
    method EnableDebug(dmaReady: bool) returns (ret: int)
      requires Valid()
      modifies this, samples
      ensures State() == AfterEnableDebug(old(State()), dmaReady).next
      ensures ret == AfterEnableDebug(old(State()), dmaReady).ret
      ensures forall i :: 0 <= i < samples.Length ==> samples[i] == if dmaReady then 0 else old(samples[i])
    {
      if !dmaReady {
        return -1;
      }
      forall i | 0 <= i < samples.Length {
        samples[i] := 0;
      }
      debugEnabled := true;
      ret := 0;
    }

    /** `generator_start`. */
    method Start() returns (ret: int)
      requires Valid()
      modifies this
      ensures State() == AfterStart(old(State())) && ret == 0
    {
      enabled := true;
      WriteBit(REG_0_OFFSET, ENABLE_BIT, 1);
      ret := 0;
    }

    /** `generator_stop`. */
    method Stop() returns (ret: int)
      requires Valid()
      modifies this
      ensures State() == AfterStop(old(State())) && ret == 0
    {
      enabled := false;
      WriteBit(REG_0_OFFSET, ENABLE_BIT, 0);
      ret := 0;
    }

    /** `generator_trigger_debug` with the DMA engine's behaviour `dma`: when
        the core is enabled the debug bit is set, the DMA deposits its words
        at the start of the buffer if it accepted the transfer, and the sample
        count is taken from the byte count it reports. */
    method TriggerDebug(dma: DmaTransfer) returns (ret: int)
      requires Valid() && |dma.words| <= MAX_DEBUG_SAMPLES
      modifies this, samples
      ensures State() == AfterTriggerDebug(old(State()), dma).next
      ensures ret == AfterTriggerDebug(old(State()), dma).ret
      ensures samples[..] == CapturedSamples(old(samples[..]), old(State()), dma)
    {
      if !enabled {
        return -1;
      }
      ret := 0;
      WriteBit(REG_0_OFFSET, DEBUG_BIT, 1);
      if dma.started {
        forall i | 0 <= i < |dma.words| {
          samples[i] := dma.words[i];
        }
      } else {
        ret := -1;
      }
      validDebugSamples := dma.buffLen / 4;
      if validDebugSamples == 0 {
        ret := -1;
      }
      assert samples[..] == CapturedSamples(old(samples[..]), old(State()), dma);
    }

    /** `_set_continuous`. */
    method SetContinuous() returns (ret: int)
      requires Valid()
      modifies this
      ensures State() == AfterSetContinuous(old(State())) && ret == 0
    {
      mode := Continuous;
      WriteBit(REG_1_OFFSET, MODE_BIT, CONTINUOUS_MODE);
      ret := 0;
    }

    /** `_set_pulsed`. */
    method SetPulsed(period: u32, pulseLength: u32) returns (ret: int)
      requires Valid()
      modifies this
      ensures State() == AfterSetPulsed(old(State()), period, pulseLength).next
      ensures ret == AfterSetPulsed(old(State()), period, pulseLength).ret
      ensures ret == if PulseTimingValid(period, pulseLength) then 0 else -1
    {
      ghost var e0 := State();
      if period <= MAX_PERIOD_US && period >= MIN_PERIOD_US &&
         pulseLength >= MIN_PULSE_LENGTH_US && pulseLength < period
      {
        mode := Pulsed;
        assert State() == e0.(mode := Pulsed);
        WriteBit(REG_1_OFFSET, MODE_BIT, PULSED_MODE);
        ghost var m := State();
        assert m == WithBit(e0.(mode := Pulsed), REG_1_OFFSET, MODE_BIT, PULSED_MODE);
        periodUs := period;
        pulseLengthUs := pulseLength;
        ghost var t := m.(periodUs := period, pulseLengthUs := pulseLength);
        assert State() == t;
        var pulseData := PulseRegister(pulseLengthUs, periodUs);
        WriteReg(REG_2_OFFSET, pulseData);
        assert State() == WithReg(t, REG_2_OFFSET, PulseRegister(pulseLength, period));
        ret := 0;
      } else {
        ret := -1;
        assert AfterSetPulsed(e0, period, pulseLength) == Applied(e0, -1);
      }
    }

    /** `_disable_modulation`. */
    method DisableModulation() returns (ret: int)
      requires Valid()
      modifies this
      ensures State() == AfterDisableModulation(old(State())) && ret == 0
    {
      modulationEn := false;
      WriteBit(REG_1_OFFSET, MODULATION_EN_BIT, 0);
      ret := 0;
    }

    /** `_enable_modulation`. */
    method EnableModulation() returns (ret: int)
      requires Valid()
      modifies this
      ensures State() == AfterEnableModulation(old(State())) && ret == 0
    {
      modulationEn := true;
      WriteBit(REG_1_OFFSET, MODULATION_EN_BIT, 1);
      ret := 0;
    }

    /** `_set_constant_freq`. */
    method SetConstantFreq(freqKhz: u32) returns (ret: int)
      requires Valid()
      modifies this
      ensures State() == AfterSetConstantFreq(old(State()), freqKhz).next
      ensures ret == AfterSetConstantFreq(old(State()), freqKhz).ret
    {
      if freqKhz <= MAX_FREQ_KHZ {
        contFreqKhz := freqKhz;
        var pincVal := Pinc(contFreqKhz);
        WriteReg(REG_3_OFFSET, pincVal);
        ret := 0;
      } else {
        ret := -1;
      }
    }

    /** `_set_frequency_modulation`: the type and the two frequencies are
        stored before the check. */
    method SetFrequencyModulation(lowFreq: u32, highFreq: u32, lengthUs: u32) returns (ret: int)
      requires Valid() && !FreqModDividesByZero(lowFreq, highFreq, lengthUs)
      modifies this
      ensures State() == AfterSetFrequencyModulation(old(State()), lowFreq, highFreq, lengthUs).next
      ensures ret == AfterSetFrequencyModulation(old(State()), lowFreq, highFreq, lengthUs).ret
    {
      ghost var e0 := State();
      modulationMode := FREQ_MOD;
      lowFreqKhz := lowFreq;
      highFreqKhz := highFreq;
      ghost var m := e0.(modulationMode := FREQ_MOD, lowFreqKhz := lowFreq, highFreqKhz := highFreq);
      assert State() == m;
      if lengthUs <= MAX_PERIOD_US && lowFreq <= MAX_FREQ_KHZ &&
         highFreq <= MAX_FREQ_KHZ && lowFreq <= highFreq
      {
        periodUs := lengthUs;
        var pincLowVal := Mul32(lowFreqKhz, PINC_PER_KHZ);
        var pincHighVal := Pinc(highFreqKhz);
        Mul32NoWrap(periodUs, FCLK_MHZ);
        deltaPinc := DeltaPinc(pincLowVal, pincHighVal, periodUs);
        ghost var p := m.(periodUs := lengthUs, deltaPinc := deltaPinc);
        assert State() == p;
        WriteBit(REG_1_OFFSET, MODULATION_TYPE_BIT, modulationMode);
        ghost var r1 := State();
        assert r1 == WithBit(p, REG_1_OFFSET, MODULATION_TYPE_BIT, FREQ_MOD);
        WriteReg(REG_3_OFFSET, pincLowVal);
        ghost var r3 := State();
        assert r3 == WithReg(r1, REG_3_OFFSET, pincLowVal);
        WriteReg(REG_4_OFFSET, pincHighVal);
        ghost var r4 := State();
        assert r4 == WithReg(r3, REG_4_OFFSET, pincHighVal);
        WriteReg(REG_5_OFFSET, deltaPinc);
        assert State() == WithReg(r4, REG_5_OFFSET, p.deltaPinc);
        ret := 0;
      } else {
        ret := -1;
      }
    }

    /** `_set_phase_modulation`: the engine is stopped first. */
    method SetPhaseModulation(freqKhz: u32, barkerSeq: u8, subpulseLengthUs: u32) returns (ret: int)
      requires Valid()
      modifies this
      ensures State() == AfterSetPhaseModulation(old(State()), freqKhz, barkerSeq, subpulseLengthUs).next
      ensures ret == AfterSetPhaseModulation(old(State()), freqKhz, barkerSeq, subpulseLengthUs).ret
    {
      ghost var e0 := State();
      var status := Stop();
      ghost var stopped := State();
      var code := BarkerCode(barkerSeq);
      if code.Some? && freqKhz <= MAX_FREQ_KHZ && subpulseLengthUs >= MIN_BARKER_SUBPULSE_LENGTH_US &&
         Mul32(subpulseLengthUs, barkerSeq) <= MAX_PULSE_LENGTH_US
      {
        modulationMode := PHASE_MOD;
        barkerSubpulseLengthUs := subpulseLengthUs;
        contFreqKhz := freqKhz;
        barkerSeqNum := barkerSeq;
        ghost var m := stopped.(modulationMode := PHASE_MOD, barkerSubpulseLengthUs := subpulseLengthUs,
                                contFreqKhz := freqKhz, barkerSeqNum := barkerSeq);
        assert State() == m;
        var subpulseRegVal := SubpulseRegister(subpulseLengthUs);
        var pincVal := Pinc(contFreqKhz);
        var barkerRegVal := BarkerRegister(barkerSeq, code.value);
        WriteBit(REG_1_OFFSET, MODULATION_TYPE_BIT, PHASE_MOD);
        ghost var r1 := State();
        assert r1 == WithBit(m, REG_1_OFFSET, MODULATION_TYPE_BIT, PHASE_MOD);
        WriteReg(REG_4_OFFSET, subpulseRegVal);
        ghost var r4 := State();
        assert r4 == WithReg(r1, REG_4_OFFSET, SubpulseRegister(subpulseLengthUs));
        WriteReg(REG_5_OFFSET, barkerRegVal);
        ghost var r5 := State();
        assert r5 == WithReg(r4, REG_5_OFFSET, BarkerRegister(barkerSeq, code.value));
        WriteReg(REG_3_OFFSET, pincVal);
        assert State() == WithReg(r5, REG_3_OFFSET, Pinc(freqKhz));
        ret := 0;
        assert AfterSetPhaseModulation(e0, freqKhz, barkerSeq, subpulseLengthUs) == Applied(State(), 0);
      } else {
        ret := -1;
        assert AfterSetPhaseModulation(e0, freqKhz, barkerSeq, subpulseLengthUs) == Applied(stopped, -1);
      }
    }

    /** `set_continuous_mode_constant_freq`. */
    method SetContinuousModeConstantFreq(freqKhz: u32) returns (ret: int)
      requires Valid()
      modifies this
      ensures State() == AfterSetContinuousModeConstantFreq(old(State()), freqKhz).next
      ensures ret == AfterSetContinuousModeConstantFreq(old(State()), freqKhz).ret
    {
      var status := Stop();
      status := SetContinuous();
      status := DisableModulation();
      ret := SetConstantFreq(freqKhz);
    }

    /** `set_continuous_mode_freq_mod`. */
    method SetContinuousModeFreqMod(lowFreq: u32, highFreq: u32, lengthUs: u32) returns (ret: int)
      requires Valid() && !FreqModDividesByZero(lowFreq, highFreq, lengthUs)
      modifies this
      ensures State() == AfterSetContinuousModeFreqMod(old(State()), lowFreq, highFreq, lengthUs).next
      ensures ret == AfterSetContinuousModeFreqMod(old(State()), lowFreq, highFreq, lengthUs).ret
    {
      var status := Stop();
      status := SetContinuous();
      status := EnableModulation();
      ret := SetFrequencyModulation(lowFreq, highFreq, lengthUs);
    }

    /** `set_continuous_mode_phase_mod`. */
    method SetContinuousModePhaseMod(freqKhz: u32, barkerSeq: u8, barkerSeqLengthUs: u32) returns (ret: int)
      requires Valid() && !PhaseModDividesByZero(barkerSeq)
      modifies this
      ensures State() == AfterSetContinuousModePhaseMod(old(State()), freqKhz, barkerSeq, barkerSeqLengthUs).next
      ensures ret == AfterSetContinuousModePhaseMod(old(State()), freqKhz, barkerSeq, barkerSeqLengthUs).ret
    {
      var status := Stop();
      status := SetContinuous();
      status := EnableModulation();
      ret := SetPhaseModulation(freqKhz, barkerSeq, Subpulse(barkerSeqLengthUs, barkerSeq));
    }

    /** `set_pulsed_mode_constant_freq`. */
    method SetPulsedModeConstantFreq(period: u32, pulseLength: u32, freqKhz: u32) returns (ret: int)
      requires Valid()
      modifies this
      ensures State() == AfterSetPulsedModeConstantFreq(old(State()), period, pulseLength, freqKhz).next
      ensures ret == AfterSetPulsedModeConstantFreq(old(State()), period, pulseLength, freqKhz).ret
    {
      var status := Stop();
      status := DisableModulation();
      ret := SetPulsed(period, pulseLength);
      if ret < 0 {
        return;
      }
      ret := SetConstantFreq(freqKhz);
    }

    /** `set_pulsed_mode_freq_mod`: the sweep runs over the stored pulse
        length. */
    method SetPulsedModeFreqMod(period: u32, pulseLength: u32, lowFreq: u32, highFreq: u32) returns (ret: int)
      requires Valid()
      modifies this
      ensures State() == AfterSetPulsedModeFreqMod(old(State()), period, pulseLength, lowFreq, highFreq).next
      ensures ret == AfterSetPulsedModeFreqMod(old(State()), period, pulseLength, lowFreq, highFreq).ret
    {
      var status := Stop();
      status := EnableModulation();
      ret := SetPulsed(period, pulseLength);
      if ret < 0 {
        return;
      }
      ret := SetFrequencyModulation(lowFreq, highFreq, pulseLengthUs);
    }

    /** `set_pulsed_mode_phase_mod`. */
    method SetPulsedModePhaseMod(period: u32, pulseLength: u32, freqKhz: u32, barkerSeq: u8) returns (ret: int)
      requires Valid() && (PulseTimingValid(period, pulseLength) ==> !PhaseModDividesByZero(barkerSeq))
      modifies this
      ensures State() == AfterSetPulsedModePhaseMod(old(State()), period, pulseLength, freqKhz, barkerSeq).next
      ensures ret == AfterSetPulsedModePhaseMod(old(State()), period, pulseLength, freqKhz, barkerSeq).ret
    {
      var status := Stop();
      status := EnableModulation();
      ret := SetPulsed(period, pulseLength);
      if ret < 0 {
        return;
      }
      ret := SetPhaseModulation(freqKhz, barkerSeq, Subpulse(pulseLength, barkerSeq));
    }

    /** `generator_get_i_samples`: element `2 i` of the buffer viewed as
        16-bit values, for each `i` below `numSamples`. */
    method GetISamples(iSamples: array<int>, numSamples: u32)
      requires Valid() && numSamples <= samples.Length && numSamples <= iSamples.Length
      modifies iSamples
      ensures forall i :: 0 <= i < numSamples ==> iSamples[i] == InPhase(samples[i])
      ensures forall i :: numSamples <= i < iSamples.Length ==> iSamples[i] == old(iSamples[i])
    {
      for i := 0 to numSamples
        invariant forall k :: 0 <= k < i ==> iSamples[k] == InPhase(samples[k])
        invariant forall k :: i <= k < iSamples.Length ==> iSamples[k] == old(iSamples[k])
      {
        HalfWordSamples(samples[..], i);
        iSamples[i] := HalfWord(samples[..], 2 * i);
      }
    }

    /** `generator_get_q_samples`: element `2 i + 1` of the buffer viewed as
        16-bit values, for each `i` below `numSamples`. */
    method GetQSamples(qSamples: array<int>, numSamples: u32)
      requires Valid() && numSamples <= samples.Length && numSamples <= qSamples.Length
      modifies qSamples
      ensures forall i :: 0 <= i < numSamples ==> qSamples[i] == Quadrature(samples[i])
      ensures forall i :: numSamples <= i < qSamples.Length ==> qSamples[i] == old(qSamples[i])
    {
      for i := 0 to numSamples
        invariant forall k :: 0 <= k < i ==> qSamples[k] == Quadrature(samples[k])
        invariant forall k :: i <= k < qSamples.Length ==> qSamples[k] == old(qSamples[k])
      {
        HalfWordSamples(samples[..], i);
        qSamples[i] := HalfWord(samples[..], 2 * i + 1);
      }
    }
  }
}
