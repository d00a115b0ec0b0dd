/**
 * What each operation of sw/src/generator.c does to the engine: one function
 * per operation, from the record and register bank before the call to the
 * record and register bank after it, with the C return value. The functions
 * only compute; the lemma beside each one states its acceptance rule with the
 * limits written out, the register words written on success and what is left
 * untouched otherwise.
 */
module GeneratorSpec {
  import opened Bits
  import opened Optional
  import opened GeneratorDefs
  import opened Generator

  /** An engine call's outcome: the new state and the C return value. */
  datatype Applied = Applied(next: Engine, ret: int)

  /** Every register other than those at `offsets` is the same in `e` and `e2`. */
  predicate RegsKept(e: Engine, e2: Engine, offsets: set<nat>)
  {
    forall i :: 0 <= i < 6 && 4 * i !in offsets ==> e2.regs[i] == e.regs[i]
  }

  /** All bits of the register at `offset` other than `changed` are unchanged. */
  predicate RegBitsKept(e: Engine, e2: Engine, offset: nat, changed: set<nat>)
    requires IsRegisterOffset(offset)
  {
    BitsKept(Reg(e, offset), Reg(e2, offset), changed)
  }

  /** The documented pulse timing rule: a period of 10 to 250 µs and a pulse
      of at least 5 µs that is shorter than the period. */
  predicate PulseTimingValid(periodUs: nat, pulseLengthUs: nat)
  {
    10 <= periodUs <= 250 && 5 <= pulseLengthUs < periodUs
  }

  /** The supported Barker code lengths. */
  predicate IsBarkerLength(n: nat)
  {
    n in {2, 3, 4, 5, 7, 11, 13}
  }

  /** `_writeBit` on the register at `offset`. */
  function WithBit(e: Engine, offset: nat, bit: nat, value: nat): Engine
    requires IsRegisterOffset(offset) && bit < 32
  {
    e.(regs := e.regs[offset / 4 := BitWritten(Reg(e, offset), bit, value)])
  }

  /** `_writeBit` changes only the one bit of the one register: it reads back
      as 1 iff `value` is non-zero. */
  lemma WithBitEffect(e: Engine, offset: nat, bit: nat, value: nat)
    requires IsRegisterOffset(offset) && bit < 32
    ensures var r := WithBit(e, offset, bit, value);
      r == e.(regs := r.regs) &&
      Bit(Reg(r, offset), bit) == (if value != 0 then 1 else 0) &&
      RegBitsKept(e, r, offset, {bit}) && RegsKept(e, r, {offset})
  {
    BitWrittenEffect(Reg(e, offset), bit, value);
  }

  /** `_writeReg` on the register at `offset`. */
  function WithReg(e: Engine, offset: nat, data: u32): Engine
    requires IsRegisterOffset(offset)
  {
    e.(regs := e.regs[offset / 4 := data])
  }

  // ---------------------------------------------------------------------
  // Life cycle
  // ---------------------------------------------------------------------

  /** `generator_init`: the record is zeroed, so the engine is disabled, debug
      is off, no modulation is selected and the mode field reads CONTINUOUS
      (the enum's zero), whatever the hardware registers hold. */
  function AfterInit(regs: RegisterBank): (e: Engine)
    ensures !e.enabled && !e.debugEnabled && !e.modulationEn && e.mode == Continuous
    ensures e.validDebugSamples == 0 && e.contFreqKhz == 0 && e.periodUs == 0
    ensures e.regs == regs
  {
    Engine(false, false, Continuous, false, 0, 0, 0, 0, 0, 0, 0, 0, 0, 0, regs)
  }

  /** `generator_enable_debug`: -1 when the DMA engine cannot be set up, and
      otherwise 0 with debug enabled. No register is written. */
  function AfterEnableDebug(e: Engine, dmaReady: bool): Applied
  {
    if dmaReady then Applied(e.(debugEnabled := true), 0) else Applied(e, -1)
  }

  /** Enabling debug succeeds iff the DMA engine initialises, writes no
      register, and changes no field but `debugEnabled`, which afterwards
      holds iff it held before or the call succeeded. A later
      `generator_trigger_debug` does not look at that flag. */
  lemma EnableDebugEffect(e: Engine, dmaReady: bool, dma: DmaTransfer)
    ensures var a := AfterEnableDebug(e, dmaReady);
      a.ret == (if dmaReady then 0 else -1) &&
      a.next == e.(debugEnabled := a.next.debugEnabled) &&
      a.next.debugEnabled == (dmaReady || e.debugEnabled) &&
      RegsKept(e, a.next, {}) &&
      AfterTriggerDebug(a.next, dma).ret == AfterTriggerDebug(e, dma).ret &&
      AfterTriggerDebug(a.next, dma).next.regs == AfterTriggerDebug(e, dma).next.regs
  {
  }

  /** `generator_start`. */
  function AfterStart(e: Engine): Engine
  {
    WithBit(e.(enabled := true), REG_0_OFFSET, ENABLE_BIT, 1)
  }

  /** `generator_start` sets `enabled` and REG_0's enable bit together and
      changes nothing else. */
  lemma StartEffect(e: Engine)
    ensures var r := AfterStart(e);
      r.enabled && Bit(Reg(r, REG_0_OFFSET), ENABLE_BIT) == 1 &&
      r == e.(enabled := true, regs := r.regs) &&
      RegBitsKept(e, r, REG_0_OFFSET, {ENABLE_BIT}) && RegsKept(e, r, {REG_0_OFFSET})
  {
    WithBitEffect(e.(enabled := true), REG_0_OFFSET, ENABLE_BIT, 1);
  }

  /** `generator_stop`. */
  function AfterStop(e: Engine): Engine
  {
    WithBit(e.(enabled := false), REG_0_OFFSET, ENABLE_BIT, 0)
  }

  /** `generator_stop` clears `enabled` and REG_0's enable bit together and
      changes nothing else. */
  lemma StopEffect(e: Engine)
    ensures var r := AfterStop(e);
      !r.enabled && Bit(Reg(r, REG_0_OFFSET), ENABLE_BIT) == 0 &&
      r == e.(enabled := false, regs := r.regs) &&
      RegBitsKept(e, r, REG_0_OFFSET, {ENABLE_BIT}) && RegsKept(e, r, {REG_0_OFFSET})
  {
    WithBitEffect(e.(enabled := false), REG_0_OFFSET, ENABLE_BIT, 0);
  }

  /** Starting or stopping twice is the same as doing it once. */
  lemma StartStopIdempotent(e: Engine)
    ensures AfterStart(AfterStart(e)) == AfterStart(e)
    ensures AfterStop(AfterStop(e)) == AfterStop(e)
  {
    BitWrittenIdempotent(Reg(e, REG_0_OFFSET), ENABLE_BIT, 1);
    BitWrittenIdempotent(Reg(e, REG_0_OFFSET), ENABLE_BIT, 0);
  }

  /** Stopping undoes starting: the record and the registers are those of a
      stop from the original state. */
  lemma StopAfterStart(e: Engine)
    ensures AfterStop(AfterStart(e)) == AfterStop(e)
  {
    var r0 := Reg(e, REG_0_OFFSET);
    BitWrittenEffect(r0, ENABLE_BIT, 1);
    BitWrittenEffect(BitWritten(r0, ENABLE_BIT, 1), ENABLE_BIT, 0);
    BitWrittenEffect(r0, ENABLE_BIT, 0);
    Pow2Table();
    BitsDetermine(BitWritten(BitWritten(r0, ENABLE_BIT, 1), ENABLE_BIT, 0), BitWritten(r0, ENABLE_BIT, 0), 32);
  }

  // ---------------------------------------------------------------------
  // Debug capture
  // ---------------------------------------------------------------------

  /** What the DMA engine does during a capture: whether it accepted the
      transfer, the words it deposited at the start of the sample buffer, and
      the byte count its BUFFLEN register reports afterwards. */
  datatype DmaTransfer = DmaTransfer(started: bool, words: seq<u32>, buffLen: u32)

  /** `generator_trigger_debug`. */
  function AfterTriggerDebug(e: Engine, dma: DmaTransfer): Applied
  {
    if e.enabled then
      var next := WithBit(e, REG_0_OFFSET, DEBUG_BIT, 1).(validDebugSamples := dma.buffLen / 4);
      var ret := if !dma.started || next.validDebugSamples == 0 then -1 else 0;
      Applied(next, ret)
    else
      Applied(e, -1)
  }

  /** A disabled engine refuses with -1 and nothing changes. Otherwise REG_0's
      debug bit is set, the sample count becomes the byte count over 4, and
      the call succeeds iff the transfer was accepted and at least one whole
      sample arrived. */
  lemma TriggerDebugEffect(e: Engine, dma: DmaTransfer)
    ensures var a := AfterTriggerDebug(e, dma);
      (!e.enabled ==> a == Applied(e, -1)) &&
      a.ret == (if e.enabled && dma.started && dma.buffLen >= 4 then 0 else -1) &&
      (e.enabled ==>
         a.next == e.(validDebugSamples := dma.buffLen / 4, regs := a.next.regs) &&
         Bit(Reg(a.next, REG_0_OFFSET), DEBUG_BIT) == 1 &&
         RegBitsKept(e, a.next, REG_0_OFFSET, {DEBUG_BIT}) && RegsKept(e, a.next, {REG_0_OFFSET}))
  {
    WithBitEffect(e, REG_0_OFFSET, DEBUG_BIT, 1);
  }

  /** The sample buffer after a capture: the DMA's words over its prefix when
      the engine was enabled and the transfer accepted, and unchanged
      otherwise. */
  function CapturedSamples(buffer: seq<u32>, e: Engine, dma: DmaTransfer): (b: seq<u32>)
    requires |dma.words| <= |buffer|
    ensures |b| == |buffer|
    ensures e.enabled && dma.started ==> b[..|dma.words|] == dma.words
    ensures forall i :: 0 <= i < |b| && !(e.enabled && dma.started && i < |dma.words|) ==> b[i] == buffer[i]
  {
    if e.enabled && dma.started then dma.words + buffer[|dma.words|..] else buffer
  }

  /** The I sample (cosine) of a buffer word: its low 16 bits as a signed
      16-bit value, read through an `s16` pointer on a little-endian core. */
  function InPhase(w: u32): int
  {
    var low := w % 0x1_0000;
    if low >= 0x8000 then low - 0x1_0000 else low
  }

  /** The Q sample (sine) of a buffer word: its high 16 bits, signed. */
  function Quadrature(w: u32): int
  {
    var high := w / 0x1_0000;
    if high >= 0x8000 then high - 0x1_0000 else high
  }

  /** The buffer word the DDS output stores for a sample pair: sine in the
      high half and cosine in the low half, each in two's complement. */
  function SampleWord(i: int, q: int): u32
    requires -0x8000 <= i < 0x8000 && -0x8000 <= q < 0x8000
  {
    (q % 0x1_0000) * 0x1_0000 + i % 0x1_0000
  }

  /** Deinterleaving inverts the packing: the I and Q reads of a word give back
      the two samples it was made from, and every word is such a pair. */
  lemma SampleRoundTrip(i: int, q: int, w: u32)
    requires -0x8000 <= i < 0x8000 && -0x8000 <= q < 0x8000
    ensures InPhase(SampleWord(i, q)) == i && Quadrature(SampleWord(i, q)) == q
    ensures -0x8000 <= InPhase(w) < 0x8000 && -0x8000 <= Quadrature(w) < 0x8000
    ensures SampleWord(InPhase(w), Quadrature(w)) == w
  {
    SplitAt16(q % 0x1_0000, i % 0x1_0000);
    SplitAt16(w / 0x1_0000, w % 0x1_0000);
  }

  // ---------------------------------------------------------------------
  // Timing and modulation
  // ---------------------------------------------------------------------

  /** `_set_continuous`. */
  function AfterSetContinuous(e: Engine): Engine
  {
    WithBit(e.(mode := Continuous), REG_1_OFFSET, MODE_BIT, CONTINUOUS_MODE)
  }

  /** `_set_continuous` changes the mode field and REG_1's mode bit (1 for
      continuous in hardware) and nothing else. */
  lemma SetContinuousEffect(e: Engine)
    ensures var r := AfterSetContinuous(e);
      r == e.(mode := Continuous, regs := r.regs) &&
      Bit(Reg(r, REG_1_OFFSET), MODE_BIT) == CONTINUOUS_MODE &&
      RegBitsKept(e, r, REG_1_OFFSET, {MODE_BIT}) && RegsKept(e, r, {REG_1_OFFSET})
  {
    WithBitEffect(e.(mode := Continuous), REG_1_OFFSET, MODE_BIT, CONTINUOUS_MODE);
  }

  /** `_set_pulsed`. */
  function AfterSetPulsed(e: Engine, periodUs: u32, pulseLengthUs: u32): Applied
  {
    if periodUs <= MAX_PERIOD_US && periodUs >= MIN_PERIOD_US &&
       pulseLengthUs >= MIN_PULSE_LENGTH_US && pulseLengthUs < periodUs
    then
      var m := WithBit(e.(mode := Pulsed), REG_1_OFFSET, MODE_BIT, PULSED_MODE);
      var t := m.(periodUs := periodUs, pulseLengthUs := pulseLengthUs);
      Applied(WithReg(t, REG_2_OFFSET, PulseRegister(pulseLengthUs, periodUs)), 0)
    else
      Applied(e, -1)
  }

  /** `_set_pulsed` is accepted iff the timing rule holds. On success the mode
      becomes pulsed (REG_1's mode bit 0) and REG_2 holds the pulse length in
      ticks in its high half and the period in ticks in its low half; on
      failure nothing changes. */
  lemma SetPulsedEffect(e: Engine, periodUs: u32, pulseLengthUs: u32)
    ensures var a := AfterSetPulsed(e, periodUs, pulseLengthUs);
      a.ret == (if PulseTimingValid(periodUs, pulseLengthUs) then 0 else -1) &&
      (a.ret != 0 ==> a.next == e) &&
      (a.ret == 0 ==>
         a.next == e.(mode := Pulsed, periodUs := periodUs, pulseLengthUs := pulseLengthUs, regs := a.next.regs) &&
         Bit(Reg(a.next, REG_1_OFFSET), MODE_BIT) == PULSED_MODE &&
         RegBitsKept(e, a.next, REG_1_OFFSET, {MODE_BIT}) &&
         Reg(a.next, REG_2_OFFSET) / 0x1_0000 == pulseLengthUs * 125 &&
         Reg(a.next, REG_2_OFFSET) % 0x1_0000 == periodUs * 125 &&
         RegsKept(e, a.next, {REG_1_OFFSET, REG_2_OFFSET}))
  {
    if PulseTimingValid(periodUs, pulseLengthUs) {
      WithBitEffect(e.(mode := Pulsed), REG_1_OFFSET, MODE_BIT, PULSED_MODE);
      PulseRegisterFields(pulseLengthUs, periodUs);
    }
  }

  /** `_disable_modulation`. */
  function AfterDisableModulation(e: Engine): Engine
  {
    WithBit(e.(modulationEn := false), REG_1_OFFSET, MODULATION_EN_BIT, 0)
  }

  /** `_disable_modulation` clears the flag and REG_1's modulation-enable bit
      and changes nothing else. */
  lemma DisableModulationEffect(e: Engine)
    ensures var r := AfterDisableModulation(e);
      r == e.(modulationEn := false, regs := r.regs) &&
      Bit(Reg(r, REG_1_OFFSET), MODULATION_EN_BIT) == 0 &&
      RegBitsKept(e, r, REG_1_OFFSET, {MODULATION_EN_BIT}) && RegsKept(e, r, {REG_1_OFFSET})
  {
    WithBitEffect(e.(modulationEn := false), REG_1_OFFSET, MODULATION_EN_BIT, 0);
  }

  /** `_enable_modulation`. */
  function AfterEnableModulation(e: Engine): Engine
  {
    WithBit(e.(modulationEn := true), REG_1_OFFSET, MODULATION_EN_BIT, 1)
  }

  /** `_enable_modulation` sets the flag and REG_1's modulation-enable bit and
      changes nothing else. */
  lemma EnableModulationEffect(e: Engine)
    ensures var r := AfterEnableModulation(e);
      r == e.(modulationEn := true, regs := r.regs) &&
      Bit(Reg(r, REG_1_OFFSET), MODULATION_EN_BIT) == 1 &&
      RegBitsKept(e, r, REG_1_OFFSET, {MODULATION_EN_BIT}) && RegsKept(e, r, {REG_1_OFFSET})
  {
    WithBitEffect(e.(modulationEn := true), REG_1_OFFSET, MODULATION_EN_BIT, 1);
  }

  /** `_set_constant_freq`. */
  function AfterSetConstantFreq(e: Engine, freqKhz: u32): Applied
  {
    if freqKhz <= MAX_FREQ_KHZ then
      Applied(WithReg(e.(contFreqKhz := freqKhz), REG_3_OFFSET, Pinc(freqKhz)), 0)
    else
      Applied(e, -1)
  }

  /** `_set_constant_freq` is accepted iff the frequency is at most 20 MHz;
      then REG_3 holds the frequency times 8589, and on failure nothing
      changes. */
  lemma SetConstantFreqEffect(e: Engine, freqKhz: u32)
    ensures var a := AfterSetConstantFreq(e, freqKhz);
      a.ret == (if freqKhz <= 20000 then 0 else -1) &&
      (a.ret != 0 ==> a.next == e) &&
      (a.ret == 0 ==>
         a.next == e.(contFreqKhz := freqKhz, regs := a.next.regs) &&
         Reg(a.next, REG_3_OFFSET) == freqKhz * 8589 &&
         RegsKept(e, a.next, {REG_3_OFFSET}))
  {
    if freqKhz <= MAX_FREQ_KHZ {
      PincValue(freqKhz);
      assert AfterSetConstantFreq(e, freqKhz) ==
        Applied(WithReg(e.(contFreqKhz := freqKhz), REG_3_OFFSET, freqKhz * 8589), 0);
    } else {
      assert AfterSetConstantFreq(e, freqKhz) == Applied(e, -1);
    }
  }

  /** The division by zero of generator.c:311: an otherwise accepted sweep of
      length 0 divides by `0 * FCLK_MHZ`. */
  predicate FreqModDividesByZero(lowFreqKhz: nat, highFreqKhz: nat, lengthUs: nat)
  {
    lengthUs == 0 && lowFreqKhz <= highFreqKhz <= MAX_FREQ_KHZ
  }

  /** `_set_frequency_modulation`. */
  function AfterSetFrequencyModulation(e: Engine, lowFreqKhz: u32, highFreqKhz: u32, lengthUs: u32): Applied
    requires !FreqModDividesByZero(lowFreqKhz, highFreqKhz, lengthUs)
  {
    var m := e.(modulationMode := FREQ_MOD, lowFreqKhz := lowFreqKhz, highFreqKhz := highFreqKhz);
    if lengthUs <= MAX_PERIOD_US && lowFreqKhz <= MAX_FREQ_KHZ &&
       highFreqKhz <= MAX_FREQ_KHZ && lowFreqKhz <= highFreqKhz
    then
      var pincLow := Mul32(lowFreqKhz, PINC_PER_KHZ);
      var pincHigh := Pinc(highFreqKhz);
      Mul32NoWrap(lengthUs, FCLK_MHZ);
      var p := m.(periodUs := lengthUs, deltaPinc := DeltaPinc(pincLow, pincHigh, lengthUs));
      var r1 := WithBit(p, REG_1_OFFSET, MODULATION_TYPE_BIT, FREQ_MOD);
      var r3 := WithReg(r1, REG_3_OFFSET, pincLow);
      var r4 := WithReg(r3, REG_4_OFFSET, pincHigh);
      Applied(WithReg(r4, REG_5_OFFSET, p.deltaPinc), 0)
    else
      Applied(m, -1)
  }

  /** `_set_frequency_modulation`. The modulation type and the two frequencies
      are stored before the check, so they change even on failure. Accepted
      iff the sweep is at most 250 µs and 0 <= low <= high <= 20 MHz; then
      REG_3 and REG_4 hold the two phase increments, REG_5 and `delta_pinc`
      the per-tick increment of the sweep, REG_1's type bit is 1 and the period
      field becomes the sweep length. */
  lemma SetFrequencyModulationEffect(e: Engine, lowFreqKhz: u32, highFreqKhz: u32, lengthUs: u32)
    requires !FreqModDividesByZero(lowFreqKhz, highFreqKhz, lengthUs)
    ensures var a := AfterSetFrequencyModulation(e, lowFreqKhz, highFreqKhz, lengthUs);
      a.ret == (if lengthUs <= 250 && lowFreqKhz <= highFreqKhz <= 20000 then 0 else -1) &&
      (a.ret != 0 ==>
         a.next == e.(modulationMode := FREQ_MOD, lowFreqKhz := lowFreqKhz, highFreqKhz := highFreqKhz)) &&
      (a.ret == 0 ==>
         a.next == e.(modulationMode := FREQ_MOD, lowFreqKhz := lowFreqKhz, highFreqKhz := highFreqKhz,
                      periodUs := lengthUs, deltaPinc := a.next.deltaPinc, regs := a.next.regs) &&
         Reg(a.next, REG_3_OFFSET) == lowFreqKhz * 8589 &&
         Reg(a.next, REG_4_OFFSET) == highFreqKhz * 8589 &&
         Reg(a.next, REG_5_OFFSET) == a.next.deltaPinc ==
           (highFreqKhz * 8589 - lowFreqKhz * 8589) / (lengthUs * 125) &&
         Bit(Reg(a.next, REG_1_OFFSET), MODULATION_TYPE_BIT) == FREQ_MOD &&
         RegBitsKept(e, a.next, REG_1_OFFSET, {MODULATION_TYPE_BIT}) &&
         RegsKept(e, a.next, {REG_1_OFFSET, REG_3_OFFSET, REG_4_OFFSET, REG_5_OFFSET}))
  {
    if lengthUs <= MAX_PERIOD_US && lowFreqKhz <= MAX_FREQ_KHZ &&
       highFreqKhz <= MAX_FREQ_KHZ && lowFreqKhz <= highFreqKhz
    {
      var m := e.(modulationMode := FREQ_MOD, lowFreqKhz := lowFreqKhz, highFreqKhz := highFreqKhz);
      PincValue(lowFreqKhz);
      PincValue(highFreqKhz);
      DeltaPincValue(lowFreqKhz, highFreqKhz, lengthUs);
      var p := m.(periodUs := lengthUs,
                  deltaPinc := DeltaPinc(Mul32(lowFreqKhz, PINC_PER_KHZ), Pinc(highFreqKhz), lengthUs));
      WithBitEffect(p, REG_1_OFFSET, MODULATION_TYPE_BIT, FREQ_MOD);
    }
  }

  /** `_set_phase_modulation`. */
  function AfterSetPhaseModulation(e: Engine, freqKhz: u32, n: u8, subpulseLengthUs: u32): Applied
  {
    var s := AfterStop(e);
    var code := BarkerCode(n);
    if code.Some? && freqKhz <= MAX_FREQ_KHZ && subpulseLengthUs >= MIN_BARKER_SUBPULSE_LENGTH_US &&
       Mul32(subpulseLengthUs, n) <= MAX_PULSE_LENGTH_US
    then
      var m := s.(modulationMode := PHASE_MOD, barkerSubpulseLengthUs := subpulseLengthUs,
                  contFreqKhz := freqKhz, barkerSeqNum := n);
      var r1 := WithBit(m, REG_1_OFFSET, MODULATION_TYPE_BIT, PHASE_MOD);
      var r4 := WithReg(r1, REG_4_OFFSET, SubpulseRegister(subpulseLengthUs));
      var r5 := WithReg(r4, REG_5_OFFSET, BarkerRegister(n, code.value));
      Applied(WithReg(r5, REG_3_OFFSET, Pinc(freqKhz)), 0)
    else
      Applied(s, -1)
  }

  /** The condition `_set_phase_modulation` accepts: a length with a Barker
      pattern, a frequency of at most 20 MHz, a subpulse of at least 1 µs, and
      subpulse times length, in 32-bit arithmetic, of at most 200 µs. */
  predicate PhaseModulationAccepted(freqKhz: u32, n: u8, subpulseLengthUs: u32)
  {
    IsBarkerLength(n) && freqKhz <= 20000 && subpulseLengthUs >= 1 && Mul32(subpulseLengthUs, n) <= 200
  }

  /** `_set_phase_modulation` stops the engine first in every case, and
      returns 0 exactly when its acceptance condition holds; on failure only
      the stop has happened. */
  lemma SetPhaseModulationResult(e: Engine, freqKhz: u32, n: u8, subpulseLengthUs: u32)
    ensures var a := AfterSetPhaseModulation(e, freqKhz, n, subpulseLengthUs);
      a.ret == (if PhaseModulationAccepted(freqKhz, n, subpulseLengthUs) then 0 else -1) &&
      !a.next.enabled && Bit(Reg(a.next, REG_0_OFFSET), ENABLE_BIT) == 0 &&
      RegBitsKept(e, a.next, REG_0_OFFSET, {ENABLE_BIT}) &&
      (a.ret != 0 ==> a.next == AfterStop(e))
  {
    StopEffect(e);
    BarkerCodeWidth(n);
    var a := AfterSetPhaseModulation(e, freqKhz, n, subpulseLengthUs);
    if PhaseModulationAccepted(freqKhz, n, subpulseLengthUs) {
      PhaseModulationSteps(e, freqKhz, n, subpulseLengthUs);
      assert a.ret == 0 && a.next.regs[0] == AfterStop(e).regs[0];
    } else {
      assert a == Applied(AfterStop(e), -1);
    }
  }

  /** The accepted call as a chain of register writes on the stopped engine. */
  lemma PhaseModulationSteps(e: Engine, freqKhz: u32, n: u8, subpulseLengthUs: u32)
    requires PhaseModulationAccepted(freqKhz, n, subpulseLengthUs)
    ensures BarkerCode(n).Some? && BarkerCode(n).value < 0x1000_0000
    ensures var m := AfterStop(e).(modulationMode := PHASE_MOD, barkerSubpulseLengthUs := subpulseLengthUs,
                                   contFreqKhz := freqKhz, barkerSeqNum := n);
      var r1 := WithBit(m, REG_1_OFFSET, MODULATION_TYPE_BIT, PHASE_MOD);
      AfterSetPhaseModulation(e, freqKhz, n, subpulseLengthUs) ==
        Applied(r1.(regs := r1.regs[4 := SubpulseRegister(subpulseLengthUs)]
                                   [5 := BarkerRegister(n, BarkerCode(n).value)]
                                   [3 := Pinc(freqKhz)]), 0)
  {
    BarkerCodeWidth(n);
  }

  /** On success the core is stopped, REG_1's type bit is 0 and only the
      phase-modulation fields and REG_0, REG_1, REG_3, REG_4 and REG_5 change. */
  lemma SetPhaseModulationFrame(e: Engine, freqKhz: u32, n: u8, subpulseLengthUs: u32)
    requires PhaseModulationAccepted(freqKhz, n, subpulseLengthUs)
    ensures var a := AfterSetPhaseModulation(e, freqKhz, n, subpulseLengthUs);
      a.next == e.(enabled := false, modulationMode := PHASE_MOD, barkerSubpulseLengthUs := subpulseLengthUs,
                   contFreqKhz := freqKhz, barkerSeqNum := n, regs := a.next.regs) &&
      Bit(Reg(a.next, REG_1_OFFSET), MODULATION_TYPE_BIT) == PHASE_MOD &&
      RegBitsKept(e, a.next, REG_1_OFFSET, {MODULATION_TYPE_BIT}) &&
      RegsKept(e, a.next, {REG_0_OFFSET, REG_1_OFFSET, REG_3_OFFSET, REG_4_OFFSET, REG_5_OFFSET})
  {
    var s := AfterStop(e);
    StopEffect(e);
    var m := s.(modulationMode := PHASE_MOD, barkerSubpulseLengthUs := subpulseLengthUs,
                contFreqKhz := freqKhz, barkerSeqNum := n);
    WithBitEffect(m, REG_1_OFFSET, MODULATION_TYPE_BIT, PHASE_MOD);
    PhaseModulationSteps(e, freqKhz, n, subpulseLengthUs);
  }

  /** On success REG_5 holds the length in its top nibble and the pattern
      below, REG_3 the carrier's phase increment and REG_4 the subpulse in
      ticks minus one when the product did not wrap. */
  lemma SetPhaseModulationRegs(e: Engine, freqKhz: u32, n: u8, subpulseLengthUs: u32)
    requires PhaseModulationAccepted(freqKhz, n, subpulseLengthUs)
    ensures var a := AfterSetPhaseModulation(e, freqKhz, n, subpulseLengthUs);
      Reg(a.next, REG_5_OFFSET) / 0x1000_0000 == n &&
      Reg(a.next, REG_5_OFFSET) % 0x1000_0000 == BarkerCode(n).value &&
      Reg(a.next, REG_3_OFFSET) == freqKhz * 8589 &&
      (subpulseLengthUs * n < WORD ==> Reg(a.next, REG_4_OFFSET) == subpulseLengthUs * 125 - 1)
  {
    PhaseModulationSteps(e, freqKhz, n, subpulseLengthUs);
    PincValue(freqKhz);
    BarkerRegisterFields(n, BarkerCode(n).value);
    SubpulseBound(subpulseLengthUs, n);
  }

  /** On success REG_5 holds the length in its top nibble and the pattern
      below, REG_4 the subpulse in ticks minus one (when the product did not
      wrap), REG_3 the carrier's phase increment and REG_1's type bit is 0;
      no other field or register changes. */
  lemma SetPhaseModulationWrites(e: Engine, freqKhz: u32, n: u8, subpulseLengthUs: u32)
    requires PhaseModulationAccepted(freqKhz, n, subpulseLengthUs)
    ensures var a := AfterSetPhaseModulation(e, freqKhz, n, subpulseLengthUs);
      a.next == e.(enabled := false, modulationMode := PHASE_MOD, barkerSubpulseLengthUs := subpulseLengthUs,
                   contFreqKhz := freqKhz, barkerSeqNum := n, regs := a.next.regs) &&
      Reg(a.next, REG_5_OFFSET) / 0x1000_0000 == n &&
      Reg(a.next, REG_5_OFFSET) % 0x1000_0000 == BarkerCode(n).value &&
      Reg(a.next, REG_3_OFFSET) == freqKhz * 8589 &&
      Bit(Reg(a.next, REG_1_OFFSET), MODULATION_TYPE_BIT) == PHASE_MOD &&
      RegBitsKept(e, a.next, REG_1_OFFSET, {MODULATION_TYPE_BIT}) &&
      RegsKept(e, a.next, {REG_0_OFFSET, REG_1_OFFSET, REG_3_OFFSET, REG_4_OFFSET, REG_5_OFFSET}) &&
      (subpulseLengthUs * n < WORD ==> Reg(a.next, REG_4_OFFSET) == subpulseLengthUs * 125 - 1)
  {
    SetPhaseModulationFrame(e, freqKhz, n, subpulseLengthUs);
    SetPhaseModulationRegs(e, freqKhz, n, subpulseLengthUs);
  }

  /** A subpulse whose product with the code length stays below 2^32 and at
      most 200 µs is itself at most 200 µs, so its tick count is exact. */
  lemma SubpulseBound(subpulseLengthUs: u32, n: u8)
    requires 1 <= subpulseLengthUs && 1 <= n
    requires Mul32(subpulseLengthUs, n) <= MAX_PULSE_LENGTH_US
    ensures subpulseLengthUs * n < WORD ==> SubpulseRegister(subpulseLengthUs) == subpulseLengthUs * 125 - 1
  {
    if subpulseLengthUs * n < WORD {
      Mul32NoWrap(subpulseLengthUs, n);
      MulAtLeast(subpulseLengthUs, n);
      SubpulseRegisterValue(subpulseLengthUs);
    }
  }
}
