/**
 * The six configuration entry points of sw/src/generator.c
 * (`set_continuous_mode_constant_freq` … `set_pulsed_mode_phase_mod`), each a
 * fixed sequence of the engine operations of GeneratorSpec. The lemmas state
 * what the sequence amounts to: the acceptance rule with every limit written
 * out, the timing and modulation selected, the register words on success,
 * and that the core is left disabled in every case.
 */
module GeneratorConfig {
  import opened Bits
  import opened GeneratorDefs
  import opened Generator
  import opened GeneratorSpec

  /** Every entry point stops the engine first, so whether it succeeds or
      fails the core is left disabled with REG_0's enable bit clear and REG_0's
      other bits as they were. */
  predicate LeftDisabled(e: Engine, r: Engine)
  {
    !r.enabled && Bit(Reg(r, REG_0_OFFSET), ENABLE_BIT) == 0 &&
    RegBitsKept(e, r, REG_0_OFFSET, {ENABLE_BIT})
  }

  // ---------------------------------------------------------------------
  // Continuous timing
  // ---------------------------------------------------------------------

  /** `set_continuous_mode_constant_freq`. */
  function AfterSetContinuousModeConstantFreq(e: Engine, freqKhz: u32): Applied
  {
    AfterSetConstantFreq(AfterDisableModulation(AfterSetContinuous(AfterStop(e))), freqKhz)
  }

  /** Continuous timing without modulation is selected before the frequency
      is checked; the call succeeds iff the frequency is at most 20 MHz, and
      only then do the frequency field and REG_3 change. */
  lemma SetContinuousModeConstantFreqEffect(e: Engine, freqKhz: u32)
    ensures var a := AfterSetContinuousModeConstantFreq(e, freqKhz);
      a.ret == (if freqKhz <= 20000 then 0 else -1) &&
      LeftDisabled(e, a.next) &&
      a.next == e.(enabled := false, mode := Continuous, modulationEn := false,
                   contFreqKhz := a.next.contFreqKhz, regs := a.next.regs) &&
      Bit(Reg(a.next, REG_1_OFFSET), MODE_BIT) == CONTINUOUS_MODE &&
      Bit(Reg(a.next, REG_1_OFFSET), MODULATION_EN_BIT) == 0 &&
      RegBitsKept(e, a.next, REG_1_OFFSET, {MODE_BIT, MODULATION_EN_BIT}) &&
      a.next.contFreqKhz == (if a.ret == 0 then freqKhz else e.contFreqKhz) &&
      Reg(a.next, REG_3_OFFSET) == (if a.ret == 0 then freqKhz * 8589 else Reg(e, REG_3_OFFSET)) &&
      RegsKept(e, a.next, {REG_0_OFFSET, REG_1_OFFSET, REG_3_OFFSET})
  {
    var s := AfterStop(e);
    StopEffect(e);
    var c := AfterSetContinuous(s);
    SetContinuousEffect(s);
    var d := AfterDisableModulation(c);
    DisableModulationEffect(c);
    SetConstantFreqEffect(d, freqKhz);
  }

  /** `set_continuous_mode_freq_mod`. */
  function AfterSetContinuousModeFreqMod(e: Engine, lowFreqKhz: u32, highFreqKhz: u32, lengthUs: u32): Applied
    requires !FreqModDividesByZero(lowFreqKhz, highFreqKhz, lengthUs)
  {
    AfterSetFrequencyModulation(AfterEnableModulation(AfterSetContinuous(AfterStop(e))),
                                lowFreqKhz, highFreqKhz, lengthUs)
  }

  /** Continuous timing with modulation enabled is selected first; then the
      sweep's own rule decides the result, and the sweep registers are
      written only on success. */
  lemma SetContinuousModeFreqModEffect(e: Engine, lowFreqKhz: u32, highFreqKhz: u32, lengthUs: u32)
    requires !FreqModDividesByZero(lowFreqKhz, highFreqKhz, lengthUs)
    ensures var a := AfterSetContinuousModeFreqMod(e, lowFreqKhz, highFreqKhz, lengthUs);
      a.ret == (if lengthUs <= 250 && lowFreqKhz <= highFreqKhz <= 20000 then 0 else -1) &&
      LeftDisabled(e, a.next) &&
      a.next.mode == Continuous && Bit(Reg(a.next, REG_1_OFFSET), MODE_BIT) == CONTINUOUS_MODE &&
      a.next.modulationEn && Bit(Reg(a.next, REG_1_OFFSET), MODULATION_EN_BIT) == 1 &&
      a.next.modulationMode == FREQ_MOD &&
      a.next.lowFreqKhz == lowFreqKhz && a.next.highFreqKhz == highFreqKhz &&
      (a.ret != 0 ==>
         a.next == e.(enabled := false, mode := Continuous, modulationEn := true, modulationMode := FREQ_MOD,
                      lowFreqKhz := lowFreqKhz, highFreqKhz := highFreqKhz, regs := a.next.regs) &&
         RegBitsKept(e, a.next, REG_1_OFFSET, {MODE_BIT, MODULATION_EN_BIT}) &&
         RegsKept(e, a.next, {REG_0_OFFSET, REG_1_OFFSET})) &&
      (a.ret == 0 ==>
         a.next == e.(enabled := false, mode := Continuous, modulationEn := true, modulationMode := FREQ_MOD,
                      lowFreqKhz := lowFreqKhz, highFreqKhz := highFreqKhz, periodUs := lengthUs,
                      deltaPinc := a.next.deltaPinc, regs := a.next.regs) &&
         RegBitsKept(e, a.next, REG_1_OFFSET, {MODE_BIT, MODULATION_EN_BIT, MODULATION_TYPE_BIT}) &&
         Reg(a.next, REG_3_OFFSET) == lowFreqKhz * 8589 &&
         Reg(a.next, REG_4_OFFSET) == highFreqKhz * 8589 &&
         Reg(a.next, REG_5_OFFSET) == a.next.deltaPinc ==
           (highFreqKhz * 8589 - lowFreqKhz * 8589) / (lengthUs * 125) &&
         Bit(Reg(a.next, REG_1_OFFSET), MODULATION_TYPE_BIT) == FREQ_MOD &&
         RegsKept(e, a.next, {REG_0_OFFSET, REG_1_OFFSET, REG_3_OFFSET, REG_4_OFFSET, REG_5_OFFSET}))
  {
    var s := AfterStop(e);
    StopEffect(e);
    var c := AfterSetContinuous(s);
    SetContinuousEffect(s);
    var m := AfterEnableModulation(c);
    EnableModulationEffect(c);
    SetFrequencyModulationEffect(m, lowFreqKhz, highFreqKhz, lengthUs);
    ContinuousModulationPrelude(e);
    var a := AfterSetFrequencyModulation(m, lowFreqKhz, highFreqKhz, lengthUs);
    if a.ret == 0 {
      RegBitsKeptChain(e, m, a.next, REG_1_OFFSET, {MODE_BIT, MODULATION_EN_BIT}, {MODULATION_TYPE_BIT});
    }
  }

  /** The division by zero of generator.c:407 and generator.c:453: a Barker
      length of 0 divides the total or the pulse length by zero. */
  predicate PhaseModDividesByZero(n: u8)
  {
    n == 0
  }

  /** The truncated quotient times the divisor does not exceed the dividend,
      so it does not wrap. */
  lemma ProductOfQuotient(total: u32, n: nat)
    requires n >= 1
    ensures total / n <= total
    ensures (total / n) * n <= total
    ensures Mul32(total / n, n) == (total / n) * n
  {
    DivBounds(total, n);
    Mul32NoWrap(total / n, n);
  }

  /** The subpulse length both phase entry points pass on: the `uint32_t`
      quotient of a length by the code length. */
  function Subpulse(lengthUs: u32, n: u8): u32
    requires !PhaseModDividesByZero(n)
  {
    ProductOfQuotient(lengthUs, n);
    lengthUs / n
  }

  /** `set_continuous_mode_phase_mod`: the subpulse is the total length
      divided by the code length, truncated. */
  function AfterSetContinuousModePhaseMod(e: Engine, freqKhz: u32, n: u8, totalLengthUs: u32): Applied
    requires !PhaseModDividesByZero(n)
  {
    AfterSetPhaseModulation(AfterEnableModulation(AfterSetContinuous(AfterStop(e))),
                            freqKhz, n, Subpulse(totalLengthUs, n))
  }

  /** Stopping twice leaves the core disabled with the same REG_0 bits kept. */
  lemma LeftDisabledAgain(e: Engine, p: Engine, r: Engine)
    requires LeftDisabled(e, p) && LeftDisabled(p, r)
    ensures LeftDisabled(e, r)
  {
  }

  /** Two steps that each keep the bits of a register outside their own set
      together keep the bits outside the union. */
  lemma RegBitsKeptChain(e: Engine, p: Engine, r: Engine, offset: nat, first: set<nat>, second: set<nat>)
    requires IsRegisterOffset(offset)
    requires RegBitsKept(e, p, offset, first) && RegBitsKept(p, r, offset, second)
    ensures RegBitsKept(e, r, offset, first + second)
  {
  }

  /** The first three steps of `set_continuous_mode_freq_mod` and
      `set_continuous_mode_phase_mod`: stopped, continuous timing, modulation
      enabled, and nothing else changed. */
  lemma ContinuousModulationPrelude(e: Engine)
    ensures var m := AfterEnableModulation(AfterSetContinuous(AfterStop(e)));
      LeftDisabled(e, m) &&
      m == e.(enabled := false, mode := Continuous, modulationEn := true, regs := m.regs) &&
      Bit(Reg(m, REG_1_OFFSET), MODE_BIT) == CONTINUOUS_MODE &&
      Bit(Reg(m, REG_1_OFFSET), MODULATION_EN_BIT) == 1 &&
      RegBitsKept(e, m, REG_1_OFFSET, {MODE_BIT, MODULATION_EN_BIT}) &&
      RegsKept(e, m, {REG_0_OFFSET, REG_1_OFFSET})
  {
    var s := AfterStop(e);
    StopEffect(e);
    var c := AfterSetContinuous(s);
    SetContinuousEffect(s);
    EnableModulationEffect(c);
  }

  /** Continuous timing with modulation enabled is selected first; the call
      succeeds iff the code length has a pattern, the frequency is at most
      20 MHz and the truncated subpulse is at least 1 µs with its `n` copies
      fitting in 200 µs. */
  lemma SetContinuousModePhaseModResult(e: Engine, freqKhz: u32, n: u8, totalLengthUs: u32)
    requires !PhaseModDividesByZero(n)
    ensures var a := AfterSetContinuousModePhaseMod(e, freqKhz, n, totalLengthUs);
      a.ret == (if IsBarkerLength(n) && freqKhz <= 20000 && totalLengthUs / n >= 1 &&
                   (totalLengthUs / n) * n <= 200 then 0 else -1) &&
      LeftDisabled(e, a.next) &&
      a.next.mode == Continuous && Bit(Reg(a.next, REG_1_OFFSET), MODE_BIT) == CONTINUOUS_MODE &&
      a.next.modulationEn && Bit(Reg(a.next, REG_1_OFFSET), MODULATION_EN_BIT) == 1
  {
    var m := AfterEnableModulation(AfterSetContinuous(AfterStop(e)));
    ContinuousModulationPrelude(e);
    var sub := Subpulse(totalLengthUs, n);
    ProductOfQuotient(totalLengthUs, n);
    var a := AfterSetPhaseModulation(m, freqKhz, n, sub);
    SetPhaseModulationResult(m, freqKhz, n, sub);
    assert LeftDisabled(m, a.next);
    LeftDisabledAgain(e, m, a.next);
    if a.ret == 0 {
      SetPhaseModulationFrame(m, freqKhz, n, sub);
      assert Reg(a.next, REG_1_OFFSET) == a.next.regs[1];
      assert Bit(Reg(a.next, REG_1_OFFSET), MODE_BIT) == Bit(Reg(m, REG_1_OFFSET), MODE_BIT);
      assert Bit(Reg(a.next, REG_1_OFFSET), MODULATION_EN_BIT) == Bit(Reg(m, REG_1_OFFSET), MODULATION_EN_BIT);
    } else {
      StopEffect(m);
      assert a.next.regs[1] == m.regs[1];
    }
  }

  /** A failure leaves every field and register other than the stop, the
      timing and the modulation flag as it was. */
  lemma SetContinuousModePhaseModRejected(e: Engine, freqKhz: u32, n: u8, totalLengthUs: u32)
    requires !PhaseModDividesByZero(n)
    ensures var a := AfterSetContinuousModePhaseMod(e, freqKhz, n, totalLengthUs);
      a.ret != 0 ==>
        a.next == e.(enabled := false, mode := Continuous, modulationEn := true, regs := a.next.regs) &&
        RegBitsKept(e, a.next, REG_1_OFFSET, {MODE_BIT, MODULATION_EN_BIT}) &&
        RegsKept(e, a.next, {REG_0_OFFSET, REG_1_OFFSET})
  {
    var m := AfterEnableModulation(AfterSetContinuous(AfterStop(e)));
    ContinuousModulationPrelude(e);
    var sub := Subpulse(totalLengthUs, n);
    var a := AfterSetPhaseModulation(m, freqKhz, n, sub);
    SetPhaseModulationResult(m, freqKhz, n, sub);
    if a.ret != 0 {
      StopEffect(m);
      assert a.next.regs[1] == m.regs[1];
    }
  }

  /** On success the phase-modulation fields hold the code length, the
      truncated subpulse and the carrier, REG_5 the length and pattern, REG_4
      the subpulse in ticks minus one, REG_3 the carrier's phase increment,
      and REG_1's type bit is 0. No other field changes beyond the stop, the
      timing and the modulation flag; REG_1 keeps its other bits and REG_2 is
      not written. */
  lemma SetContinuousModePhaseModWrites(e: Engine, freqKhz: u32, n: u8, totalLengthUs: u32)
    requires !PhaseModDividesByZero(n)
    ensures var a := AfterSetContinuousModePhaseMod(e, freqKhz, n, totalLengthUs);
      a.ret == 0 ==>
        a.next == e.(enabled := false, mode := Continuous, modulationEn := true, modulationMode := PHASE_MOD,
                     barkerSubpulseLengthUs := totalLengthUs / n, contFreqKhz := freqKhz, barkerSeqNum := n,
                     regs := a.next.regs) &&
        Reg(a.next, REG_5_OFFSET) / 0x1000_0000 == n &&
        Reg(a.next, REG_5_OFFSET) % 0x1000_0000 == BarkerCode(n).value &&
        Reg(a.next, REG_4_OFFSET) == (totalLengthUs / n) * 125 - 1 &&
        Reg(a.next, REG_3_OFFSET) == freqKhz * 8589 &&
        Bit(Reg(a.next, REG_1_OFFSET), MODULATION_TYPE_BIT) == PHASE_MOD &&
        RegBitsKept(e, a.next, REG_1_OFFSET, {MODE_BIT, MODULATION_EN_BIT, MODULATION_TYPE_BIT}) &&
        RegsKept(e, a.next, {REG_0_OFFSET, REG_1_OFFSET, REG_3_OFFSET, REG_4_OFFSET, REG_5_OFFSET})
  {
    var m := AfterEnableModulation(AfterSetContinuous(AfterStop(e)));
    ContinuousModulationPrelude(e);
    var sub := Subpulse(totalLengthUs, n);
    SetPhaseModulationResult(m, freqKhz, n, sub);
    if PhaseModulationAccepted(freqKhz, n, sub) {
      ProductOfQuotient(totalLengthUs, n);
      SetPhaseModulationWrites(m, freqKhz, n, sub);
      var a := AfterSetPhaseModulation(m, freqKhz, n, sub);
      RegBitsKeptChain(e, m, a.next, REG_1_OFFSET, {MODE_BIT, MODULATION_EN_BIT}, {MODULATION_TYPE_BIT});
      assert a.next.regs[2] == m.regs[2] == e.regs[2];
    }
  }

  // ---------------------------------------------------------------------
  // Pulsed timing
  // ---------------------------------------------------------------------

  /** The common start of the pulsed entry points: stop, set or clear the
      modulation flag, then `_set_pulsed`. */
  function PulsedPrelude(e: Engine, modulation: bool, periodUs: u32, pulseLengthUs: u32): Applied
  {
    var s := AfterStop(e);
    var m := if modulation then AfterEnableModulation(s) else AfterDisableModulation(s);
    AfterSetPulsed(m, periodUs, pulseLengthUs)
  }

  /** The prelude's first two steps: the core is stopped and the modulation
      flag and bit are set to `modulation`, and nothing else changes. */
  lemma PulsedPreludeStart(e: Engine, modulation: bool)
    ensures var m := if modulation then AfterEnableModulation(AfterStop(e)) else AfterDisableModulation(AfterStop(e));
      LeftDisabled(e, m) &&
      Bit(Reg(m, REG_1_OFFSET), MODULATION_EN_BIT) == (if modulation then 1 else 0) &&
      m == e.(enabled := false, modulationEn := modulation, regs := m.regs) &&
      RegBitsKept(e, m, REG_1_OFFSET, {MODULATION_EN_BIT}) &&
      RegsKept(e, m, {REG_0_OFFSET, REG_1_OFFSET})
  {
    var s := AfterStop(e);
    StopEffect(e);
    if modulation {
      EnableModulationEffect(s);
    } else {
      DisableModulationEffect(s);
    }
  }

  /** The prelude's result is the timing rule's; it always leaves the core
      stopped with the modulation bit set to `modulation`. */
  lemma PulsedPreludeEffect(e: Engine, modulation: bool, periodUs: u32, pulseLengthUs: u32)
    ensures var a := PulsedPrelude(e, modulation, periodUs, pulseLengthUs);
      a.ret == (if PulseTimingValid(periodUs, pulseLengthUs) then 0 else -1) &&
      LeftDisabled(e, a.next) &&
      Bit(Reg(a.next, REG_1_OFFSET), MODULATION_EN_BIT) == (if modulation then 1 else 0)
  {
    var m := if modulation then AfterEnableModulation(AfterStop(e)) else AfterDisableModulation(AfterStop(e));
    PulsedPreludeStart(e, modulation);
    SetPulsedEffect(m, periodUs, pulseLengthUs);
    var a := PulsedPrelude(e, modulation, periodUs, pulseLengthUs);
    assert a == AfterSetPulsed(m, periodUs, pulseLengthUs);
    if a.ret == 0 {
      assert a.next.regs[0] == m.regs[0];
      assert Bit(Reg(a.next, REG_1_OFFSET), MODULATION_EN_BIT) == Bit(Reg(m, REG_1_OFFSET), MODULATION_EN_BIT);
    }
  }

  /** An invalid timing changes nothing beyond the stop and the modulation
      flag and bit. */
  lemma PulsedPreludeRejected(e: Engine, modulation: bool, periodUs: u32, pulseLengthUs: u32)
    requires !PulseTimingValid(periodUs, pulseLengthUs)
    ensures var a := PulsedPrelude(e, modulation, periodUs, pulseLengthUs);
      a.next == e.(enabled := false, modulationEn := modulation, regs := a.next.regs) &&
      RegBitsKept(e, a.next, REG_1_OFFSET, {MODULATION_EN_BIT}) &&
      RegsKept(e, a.next, {REG_0_OFFSET, REG_1_OFFSET})
  {
    var m := if modulation then AfterEnableModulation(AfterStop(e)) else AfterDisableModulation(AfterStop(e));
    PulsedPreludeStart(e, modulation);
    SetPulsedEffect(m, periodUs, pulseLengthUs);
    assert PulsedPrelude(e, modulation, periodUs, pulseLengthUs) == Applied(m, -1);
  }

  /** A valid timing selects pulsed timing with REG_2 holding the two tick
      counts, and changes nothing else beyond the stop and the flag. */
  lemma PulsedPreludeTiming(e: Engine, modulation: bool, periodUs: u32, pulseLengthUs: u32)
    requires PulseTimingValid(periodUs, pulseLengthUs)
    ensures var a := PulsedPrelude(e, modulation, periodUs, pulseLengthUs);
      a.next == e.(enabled := false, modulationEn := modulation, mode := Pulsed, periodUs := periodUs,
                   pulseLengthUs := pulseLengthUs, regs := a.next.regs) &&
      Bit(Reg(a.next, REG_1_OFFSET), MODE_BIT) == PULSED_MODE &&
      RegBitsKept(e, a.next, REG_1_OFFSET, {MODE_BIT, MODULATION_EN_BIT}) &&
      Reg(a.next, REG_2_OFFSET) / 0x1_0000 == pulseLengthUs * 125 &&
      Reg(a.next, REG_2_OFFSET) % 0x1_0000 == periodUs * 125 &&
      RegsKept(e, a.next, {REG_0_OFFSET, REG_1_OFFSET, REG_2_OFFSET})
  {
    var m := if modulation then AfterEnableModulation(AfterStop(e)) else AfterDisableModulation(AfterStop(e));
    PulsedPreludeStart(e, modulation);
    SetPulsedEffect(m, periodUs, pulseLengthUs);
    assert PulsedPrelude(e, modulation, periodUs, pulseLengthUs) == AfterSetPulsed(m, periodUs, pulseLengthUs);
  }

  /** The prelude succeeds exactly when the timing is valid. */
  lemma PulsedPreludeRet(e: Engine, modulation: bool, periodUs: u32, pulseLengthUs: u32)
    ensures PulsedPrelude(e, modulation, periodUs, pulseLengthUs).ret ==
            (if PulseTimingValid(periodUs, pulseLengthUs) then 0 else -1)
  {
    var m := if modulation then AfterEnableModulation(AfterStop(e)) else AfterDisableModulation(AfterStop(e));
    SetPulsedEffect(m, periodUs, pulseLengthUs);
  }

  /** `set_pulsed_mode_constant_freq`. */
  function AfterSetPulsedModeConstantFreq(e: Engine, periodUs: u32, pulseLengthUs: u32, freqKhz: u32): Applied
  {
    var p := PulsedPrelude(e, false, periodUs, pulseLengthUs);
    if p.ret < 0 then p else AfterSetConstantFreq(p.next, freqKhz)
  }

  /** Modulation is disabled first; an invalid timing returns -1 before any
      frequency register is touched; otherwise the frequency rule decides the
      result. */
  lemma SetPulsedModeConstantFreqResult(e: Engine, periodUs: u32, pulseLengthUs: u32, freqKhz: u32)
    ensures var a := AfterSetPulsedModeConstantFreq(e, periodUs, pulseLengthUs, freqKhz);
      a.ret == (if PulseTimingValid(periodUs, pulseLengthUs) && freqKhz <= 20000 then 0 else -1) &&
      LeftDisabled(e, a.next) &&
      !a.next.modulationEn && Bit(Reg(a.next, REG_1_OFFSET), MODULATION_EN_BIT) == 0 &&
      (!PulseTimingValid(periodUs, pulseLengthUs) ==>
         a.next == e.(enabled := false, modulationEn := false, regs := a.next.regs) &&
         RegBitsKept(e, a.next, REG_1_OFFSET, {MODULATION_EN_BIT}) &&
         RegsKept(e, a.next, {REG_0_OFFSET, REG_1_OFFSET}))
  {
    var p := PulsedPrelude(e, false, periodUs, pulseLengthUs);
    PulsedPreludeEffect(e, false, periodUs, pulseLengthUs);
    if p.ret < 0 {
      PulsedPreludeRejected(e, false, periodUs, pulseLengthUs);
    } else {
      PulsedPreludeTiming(e, false, periodUs, pulseLengthUs);
      SetConstantFreqEffect(p.next, freqKhz);
      var a := AfterSetConstantFreq(p.next, freqKhz);
      assert a.next.regs[0] == p.next.regs[0] && a.next.regs[1] == p.next.regs[1];
    }
  }

  /** With a valid timing, pulsed timing is selected with REG_2 holding the two
      tick counts, and the frequency field and REG_3 change exactly when the
      frequency is accepted. */
  lemma SetPulsedModeConstantFreqTiming(e: Engine, periodUs: u32, pulseLengthUs: u32, freqKhz: u32)
    requires PulseTimingValid(periodUs, pulseLengthUs)
    ensures var a := AfterSetPulsedModeConstantFreq(e, periodUs, pulseLengthUs, freqKhz);
      a.next == e.(enabled := false, modulationEn := false, mode := Pulsed, periodUs := periodUs,
                   pulseLengthUs := pulseLengthUs, contFreqKhz := a.next.contFreqKhz, regs := a.next.regs) &&
      Bit(Reg(a.next, REG_1_OFFSET), MODE_BIT) == PULSED_MODE &&
      RegBitsKept(e, a.next, REG_1_OFFSET, {MODE_BIT, MODULATION_EN_BIT}) &&
      Reg(a.next, REG_2_OFFSET) / 0x1_0000 == pulseLengthUs * 125 &&
      Reg(a.next, REG_2_OFFSET) % 0x1_0000 == periodUs * 125 &&
      a.next.contFreqKhz == (if a.ret == 0 then freqKhz else e.contFreqKhz) &&
      Reg(a.next, REG_3_OFFSET) == (if a.ret == 0 then freqKhz * 8589 else Reg(e, REG_3_OFFSET)) &&
      RegsKept(e, a.next, {REG_0_OFFSET, REG_1_OFFSET, REG_2_OFFSET, REG_3_OFFSET})
  {
    var p := PulsedPrelude(e, false, periodUs, pulseLengthUs);
    PulsedPreludeEffect(e, false, periodUs, pulseLengthUs);
    PulsedPreludeTiming(e, false, periodUs, pulseLengthUs);
    SetConstantFreqEffect(p.next, freqKhz);
    var a := AfterSetConstantFreq(p.next, freqKhz);
    assert a.next.regs[1] == p.next.regs[1] && a.next.regs[2] == p.next.regs[2];
    assert p.next.regs[3] == e.regs[3];
  }

  /** `set_pulsed_mode_freq_mod`: the sweep runs over the pulse length. */
  function AfterSetPulsedModeFreqMod(e: Engine, periodUs: u32, pulseLengthUs: u32, lowFreqKhz: u32, highFreqKhz: u32): Applied
  {
    var p := PulsedPrelude(e, true, periodUs, pulseLengthUs);
    if p.ret < 0 then p
    else AfterSetFrequencyModulation(p.next, lowFreqKhz, highFreqKhz, p.next.pulseLengthUs)
  }

  /** Modulation is enabled first; an invalid timing returns -1 before any
      frequency field or register is touched; otherwise the sweep's rule
      decides the result, with the pulse length as the sweep length. */
  lemma SetPulsedModeFreqModResult(e: Engine, periodUs: u32, pulseLengthUs: u32, lowFreqKhz: u32, highFreqKhz: u32)
    ensures var a := AfterSetPulsedModeFreqMod(e, periodUs, pulseLengthUs, lowFreqKhz, highFreqKhz);
      a.ret == (if PulseTimingValid(periodUs, pulseLengthUs) && lowFreqKhz <= highFreqKhz <= 20000 then 0 else -1) &&
      LeftDisabled(e, a.next) &&
      a.next.modulationEn && Bit(Reg(a.next, REG_1_OFFSET), MODULATION_EN_BIT) == 1 &&
      (!PulseTimingValid(periodUs, pulseLengthUs) ==>
         a.next == e.(enabled := false, modulationEn := true, regs := a.next.regs) &&
         RegBitsKept(e, a.next, REG_1_OFFSET, {MODULATION_EN_BIT}) &&
         RegsKept(e, a.next, {REG_0_OFFSET, REG_1_OFFSET}))
  {
    var p := PulsedPrelude(e, true, periodUs, pulseLengthUs);
    PulsedPreludeEffect(e, true, periodUs, pulseLengthUs);
    if p.ret < 0 {
      PulsedPreludeRejected(e, true, periodUs, pulseLengthUs);
    } else {
      PulsedPreludeTiming(e, true, periodUs, pulseLengthUs);
      SetFrequencyModulationEffect(p.next, lowFreqKhz, highFreqKhz, pulseLengthUs);
      var a := AfterSetFrequencyModulation(p.next, lowFreqKhz, highFreqKhz, pulseLengthUs);
      assert a.next.regs[0] == p.next.regs[0];
      assert Bit(Reg(a.next, REG_1_OFFSET), MODULATION_EN_BIT) == Bit(Reg(p.next, REG_1_OFFSET), MODULATION_EN_BIT);
    }
  }

  /** With a valid timing, pulsed timing is selected with REG_2 holding the two
      tick counts, and the type and the two frequencies are stored. The
      period field ends as the pulse length on success and as the period
      otherwise; no other field changes beyond the stop, the modulation flag
      and the sweep's increment, and REG_1 keeps its other bits. A rejected
      sweep writes no register after REG_2. */
  lemma SetPulsedModeFreqModTiming(e: Engine, periodUs: u32, pulseLengthUs: u32, lowFreqKhz: u32, highFreqKhz: u32)
    requires PulseTimingValid(periodUs, pulseLengthUs)
    ensures var a := AfterSetPulsedModeFreqMod(e, periodUs, pulseLengthUs, lowFreqKhz, highFreqKhz);
      a.next == e.(enabled := false, modulationEn := true, mode := Pulsed,
                   periodUs := (if a.ret == 0 then pulseLengthUs else periodUs), pulseLengthUs := pulseLengthUs,
                   modulationMode := FREQ_MOD, lowFreqKhz := lowFreqKhz, highFreqKhz := highFreqKhz,
                   deltaPinc := a.next.deltaPinc, regs := a.next.regs) &&
      Bit(Reg(a.next, REG_1_OFFSET), MODE_BIT) == PULSED_MODE &&
      Reg(a.next, REG_2_OFFSET) / 0x1_0000 == pulseLengthUs * 125 &&
      Reg(a.next, REG_2_OFFSET) % 0x1_0000 == periodUs * 125 &&
      RegBitsKept(e, a.next, REG_1_OFFSET, {MODE_BIT, MODULATION_EN_BIT, MODULATION_TYPE_BIT}) &&
      (a.ret != 0 ==>
         a.next.deltaPinc == e.deltaPinc &&
         RegBitsKept(e, a.next, REG_1_OFFSET, {MODE_BIT, MODULATION_EN_BIT}) &&
         RegsKept(e, a.next, {REG_0_OFFSET, REG_1_OFFSET, REG_2_OFFSET}))
  {
    var p := PulsedPrelude(e, true, periodUs, pulseLengthUs);
    PulsedPreludeRet(e, true, periodUs, pulseLengthUs);
    PulsedPreludeTiming(e, true, periodUs, pulseLengthUs);
    SetFrequencyModulationEffect(p.next, lowFreqKhz, highFreqKhz, pulseLengthUs);
    var a := AfterSetFrequencyModulation(p.next, lowFreqKhz, highFreqKhz, pulseLengthUs);
    if a.ret == 0 {
      assert a.next.regs[2] == p.next.regs[2];
      assert Bit(Reg(a.next, REG_1_OFFSET), MODE_BIT) == Bit(Reg(p.next, REG_1_OFFSET), MODE_BIT);
      RegBitsKeptChain(e, p.next, a.next, REG_1_OFFSET, {MODE_BIT, MODULATION_EN_BIT}, {MODULATION_TYPE_BIT});
    }
  }

  /** On success the period field holds the sweep length, that is the pulse
      length (REG_2 keeps the real period), and REG_3, REG_4, REG_5 and REG_1's
      type bit are those of the sweep. Every other field is kept beyond the
      stop, the timing and the modulation fields, and REG_1 keeps its other
      bits. */
  lemma SetPulsedModeFreqModWrites(e: Engine, periodUs: u32, pulseLengthUs: u32, lowFreqKhz: u32, highFreqKhz: u32)
    ensures var a := AfterSetPulsedModeFreqMod(e, periodUs, pulseLengthUs, lowFreqKhz, highFreqKhz);
      a.ret == 0 ==>
        a.next == e.(enabled := false, modulationEn := true, mode := Pulsed, periodUs := pulseLengthUs,
                     pulseLengthUs := pulseLengthUs, modulationMode := FREQ_MOD, lowFreqKhz := lowFreqKhz,
                     highFreqKhz := highFreqKhz, deltaPinc := a.next.deltaPinc, regs := a.next.regs) &&
        RegBitsKept(e, a.next, REG_1_OFFSET, {MODE_BIT, MODULATION_EN_BIT, MODULATION_TYPE_BIT}) &&
        Reg(a.next, REG_2_OFFSET) % 0x1_0000 == periodUs * 125 &&
        Reg(a.next, REG_3_OFFSET) == lowFreqKhz * 8589 &&
        Reg(a.next, REG_4_OFFSET) == highFreqKhz * 8589 &&
        Reg(a.next, REG_5_OFFSET) == a.next.deltaPinc ==
          (highFreqKhz * 8589 - lowFreqKhz * 8589) / (pulseLengthUs * 125) &&
        Bit(Reg(a.next, REG_1_OFFSET), MODULATION_TYPE_BIT) == FREQ_MOD
  {
    var p := PulsedPrelude(e, true, periodUs, pulseLengthUs);
    PulsedPreludeEffect(e, true, periodUs, pulseLengthUs);
    if p.ret >= 0 {
      PulsedPreludeTiming(e, true, periodUs, pulseLengthUs);
      SetFrequencyModulationEffect(p.next, lowFreqKhz, highFreqKhz, pulseLengthUs);
      SetPulsedModeFreqModTiming(e, periodUs, pulseLengthUs, lowFreqKhz, highFreqKhz);
    }
  }

  /** `set_pulsed_mode_phase_mod`: the subpulse is the pulse length divided by
      the code length, truncated. */
  function AfterSetPulsedModePhaseMod(e: Engine, periodUs: u32, pulseLengthUs: u32, freqKhz: u32, n: u8): Applied
    requires PulseTimingValid(periodUs, pulseLengthUs) ==> !PhaseModDividesByZero(n)
  {
    var p := PulsedPrelude(e, true, periodUs, pulseLengthUs);
    PulsedPreludeRet(e, true, periodUs, pulseLengthUs);
    if p.ret < 0 then p
    else
      AfterSetPhaseModulation(p.next, freqKhz, n, Subpulse(pulseLengthUs, n))
  }

  /** The two stages of `set_pulsed_mode_phase_mod`: the prelude, and when
      the timing is valid the phase-modulation step on its result. */
  lemma PulsedModePhaseModStages(e: Engine, periodUs: u32, pulseLengthUs: u32, freqKhz: u32, n: u8)
    requires PulseTimingValid(periodUs, pulseLengthUs) ==> !PhaseModDividesByZero(n)
    ensures var p := PulsedPrelude(e, true, periodUs, pulseLengthUs);
      AfterSetPulsedModePhaseMod(e, periodUs, pulseLengthUs, freqKhz, n) ==
        if PulseTimingValid(periodUs, pulseLengthUs) then AfterSetPhaseModulation(p.next, freqKhz, n, Subpulse(pulseLengthUs, n))
        else p
  {
    PulsedPreludeRet(e, true, periodUs, pulseLengthUs);
  }

  /** Modulation is enabled first; the call succeeds iff the timing is valid,
      the code length has a pattern, the frequency is at most 20 MHz and the
      truncated subpulse is at least 1 µs with its `n` copies fitting in
      200 µs. */
  lemma SetPulsedModePhaseModResult(e: Engine, periodUs: u32, pulseLengthUs: u32, freqKhz: u32, n: u8)
    requires PulseTimingValid(periodUs, pulseLengthUs) ==> !PhaseModDividesByZero(n)
    ensures var a := AfterSetPulsedModePhaseMod(e, periodUs, pulseLengthUs, freqKhz, n);
      a.ret == (if PulseTimingValid(periodUs, pulseLengthUs) && IsBarkerLength(n) && freqKhz <= 20000 &&
                   pulseLengthUs / n >= 1 && (pulseLengthUs / n) * n <= 200 then 0 else -1) &&
      LeftDisabled(e, a.next) &&
      a.next.modulationEn && Bit(Reg(a.next, REG_1_OFFSET), MODULATION_EN_BIT) == 1
  {
    var p := PulsedPrelude(e, true, periodUs, pulseLengthUs);
    PulsedPreludeEffect(e, true, periodUs, pulseLengthUs);
    PulsedModePhaseModStages(e, periodUs, pulseLengthUs, freqKhz, n);
    if PulseTimingValid(periodUs, pulseLengthUs) {
      PulsedPreludeTiming(e, true, periodUs, pulseLengthUs);
      var sub := Subpulse(pulseLengthUs, n);
      ProductOfQuotient(pulseLengthUs, n);
      var a := AfterSetPhaseModulation(p.next, freqKhz, n, sub);
      SetPhaseModulationResult(p.next, freqKhz, n, sub);
      assert LeftDisabled(p.next, a.next);
      LeftDisabledAgain(e, p.next, a.next);
      if PhaseModulationAccepted(freqKhz, n, sub) {
        SetPhaseModulationFrame(p.next, freqKhz, n, sub);
        assert Bit(Reg(a.next, REG_1_OFFSET), MODULATION_EN_BIT) == Bit(Reg(p.next, REG_1_OFFSET), MODULATION_EN_BIT);
      } else {
        StopEffect(p.next);
        assert a.next.regs[1] == p.next.regs[1];
      }
    }
  }


  /** An invalid timing returns before anything but the stop and the
      modulation flag has changed. */
  lemma SetPulsedModePhaseModRejected(e: Engine, periodUs: u32, pulseLengthUs: u32, freqKhz: u32, n: u8)
    requires !PulseTimingValid(periodUs, pulseLengthUs)
    ensures var a := AfterSetPulsedModePhaseMod(e, periodUs, pulseLengthUs, freqKhz, n);
      a.next == e.(enabled := false, modulationEn := true, regs := a.next.regs) &&
      RegBitsKept(e, a.next, REG_1_OFFSET, {MODULATION_EN_BIT}) &&
      RegsKept(e, a.next, {REG_0_OFFSET, REG_1_OFFSET})
  {
    PulsedPreludeRejected(e, true, periodUs, pulseLengthUs);
    PulsedModePhaseModStages(e, periodUs, pulseLengthUs, freqKhz, n);
  }

  /** A valid timing leaves pulsed timing selected with REG_2 holding the two
      tick counts, whatever the phase-modulation step then decides. On
      success the phase-modulation fields hold the code length, the
      truncated subpulse and the carrier and REG_1 keeps its other bits; on
      failure no field and no register after REG_2 changes beyond the
      prelude. */
  lemma SetPulsedModePhaseModTiming(e: Engine, periodUs: u32, pulseLengthUs: u32, freqKhz: u32, n: u8)
    requires PulseTimingValid(periodUs, pulseLengthUs) && !PhaseModDividesByZero(n)
    ensures var a := AfterSetPulsedModePhaseMod(e, periodUs, pulseLengthUs, freqKhz, n);
      Bit(Reg(a.next, REG_1_OFFSET), MODE_BIT) == PULSED_MODE &&
      Reg(a.next, REG_2_OFFSET) / 0x1_0000 == pulseLengthUs * 125 &&
      Reg(a.next, REG_2_OFFSET) % 0x1_0000 == periodUs * 125 &&
      (a.ret == 0 ==>
         a.next == e.(enabled := false, modulationEn := true, mode := Pulsed, periodUs := periodUs,
                      pulseLengthUs := pulseLengthUs, modulationMode := PHASE_MOD,
                      barkerSubpulseLengthUs := pulseLengthUs / n, contFreqKhz := freqKhz, barkerSeqNum := n,
                      regs := a.next.regs) &&
         RegBitsKept(e, a.next, REG_1_OFFSET, {MODE_BIT, MODULATION_EN_BIT, MODULATION_TYPE_BIT})) &&
      (a.ret != 0 ==>
         a.next == e.(enabled := false, modulationEn := true, mode := Pulsed, periodUs := periodUs,
                      pulseLengthUs := pulseLengthUs, regs := a.next.regs) &&
         RegBitsKept(e, a.next, REG_1_OFFSET, {MODE_BIT, MODULATION_EN_BIT}) &&
         RegsKept(e, a.next, {REG_0_OFFSET, REG_1_OFFSET, REG_2_OFFSET}))
  {
    var p := PulsedPrelude(e, true, periodUs, pulseLengthUs);
    PulsedPreludeTiming(e, true, periodUs, pulseLengthUs);
    PulsedModePhaseModStages(e, periodUs, pulseLengthUs, freqKhz, n);
    var sub := Subpulse(pulseLengthUs, n);
    var a := AfterSetPhaseModulation(p.next, freqKhz, n, sub);
    SetPhaseModulationResult(p.next, freqKhz, n, sub);
    if PhaseModulationAccepted(freqKhz, n, sub) {
      SetPhaseModulationFrame(p.next, freqKhz, n, sub);
      assert a.next.regs[2] == p.next.regs[2];
      assert Bit(Reg(a.next, REG_1_OFFSET), MODE_BIT) == Bit(Reg(p.next, REG_1_OFFSET), MODE_BIT);
      RegBitsKeptChain(e, p.next, a.next, REG_1_OFFSET, {MODE_BIT, MODULATION_EN_BIT}, {MODULATION_TYPE_BIT});
    } else {
      StopEffect(p.next);
      assert a.next.regs[1] == p.next.regs[1] && a.next.regs[2] == p.next.regs[2];
    }
  }


  /** On success the phase-modulation fields and REG_3, REG_4, REG_5 and
      REG_1's type bit are those of `_set_phase_modulation` with the truncated
      subpulse; no other field changes beyond the stop, the timing and the
      modulation flag, and REG_1 keeps its other bits. */
  lemma SetPulsedModePhaseModWrites(e: Engine, periodUs: u32, pulseLengthUs: u32, freqKhz: u32, n: u8)
    requires PulseTimingValid(periodUs, pulseLengthUs) ==> !PhaseModDividesByZero(n)
    ensures var a := AfterSetPulsedModePhaseMod(e, periodUs, pulseLengthUs, freqKhz, n);
      a.ret == 0 ==>
        a.next == e.(enabled := false, modulationEn := true, mode := Pulsed, periodUs := periodUs,
                     pulseLengthUs := pulseLengthUs, modulationMode := PHASE_MOD,
                     barkerSubpulseLengthUs := pulseLengthUs / n, contFreqKhz := freqKhz, barkerSeqNum := n,
                     regs := a.next.regs) &&
        RegBitsKept(e, a.next, REG_1_OFFSET, {MODE_BIT, MODULATION_EN_BIT, MODULATION_TYPE_BIT}) &&
        Reg(a.next, REG_5_OFFSET) / 0x1000_0000 == n &&
        Reg(a.next, REG_5_OFFSET) % 0x1000_0000 == BarkerCode(n).value &&
        Reg(a.next, REG_4_OFFSET) == (pulseLengthUs / n) * 125 - 1 &&
        Reg(a.next, REG_3_OFFSET) == freqKhz * 8589 &&
        Bit(Reg(a.next, REG_1_OFFSET), MODULATION_TYPE_BIT) == PHASE_MOD
  {
    var p := PulsedPrelude(e, true, periodUs, pulseLengthUs);
    PulsedPreludeRet(e, true, periodUs, pulseLengthUs);
    PulsedModePhaseModStages(e, periodUs, pulseLengthUs, freqKhz, n);
    if PulseTimingValid(periodUs, pulseLengthUs) {
      var sub := Subpulse(pulseLengthUs, n);
      ProductOfQuotient(pulseLengthUs, n);
      SetPhaseModulationResult(p.next, freqKhz, n, sub);
      if PhaseModulationAccepted(freqKhz, n, sub) {
        SetPhaseModulationWrites(p.next, freqKhz, n, sub);
        SetPulsedModePhaseModTiming(e, periodUs, pulseLengthUs, freqKhz, n);
      }
    }
  }
}
