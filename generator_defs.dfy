/**
 * The register map, limits and record of the waveform generator: the
 * constants, the mode enum and the `Waveform_Generator_t` fields of
 * sw/src/generator.h.
 */
module GeneratorDefs {
  import opened Bits

  /* Byte offsets of the six 32-bit configuration registers. */
  const REG_0_OFFSET: nat := 0x0
  const REG_1_OFFSET: nat := 0x4
  const REG_2_OFFSET: nat := 0x8
  const REG_3_OFFSET: nat := 0xc
  const REG_4_OFFSET: nat := 0x10
  const REG_5_OFFSET: nat := 0x14

  /* The DDS clock: 125 MHz. */
  const FCLK_MHZ: nat := 125
  const FCLK_KHZ: nat := FCLK_MHZ * 1000

  /* Register 0: enable and debug bits. */
  const ENABLE_BIT: nat := 0
  const DEBUG_BIT: nat := 1

  /* Register 1: timing mode, modulation enable and modulation type bits. The
     hardware encodes continuous timing as 1 and pulsed as 0, the reverse of
     the software enum `generator_mode_t`. */
  const MODE_BIT: nat := 0
  const MODULATION_EN_BIT: nat := 1
  const CONTINUOUS_MODE: nat := 1
  const PULSED_MODE: nat := 0
  const MODULATION_TYPE_BIT: nat := 2
  const FREQ_MOD: u8 := 1
  const PHASE_MOD: u8 := 0

  /* Register 2: two 15-bit counters of clock ticks, pulse length high, period low. */
  const PERIOD_COUNTER_BITS: nat := 15
  /** `(1U << PERIOD_COUNTER_BITS) - 1`, written out (see `MaskValues`). */
  const PERIOD_MASK: nat := 0x7FFF
  const MAX_PERIOD_US: nat := 250
  const MAX_PULSE_LENGTH_US: nat := 200
  const MIN_PULSE_LENGTH_US: nat := 5
  /** The macro is the unparenthesised `5 + MIN_PULSE_LENGTH_US`; at its one
      use, `period_us >= MIN_PERIOD_US`, it evaluates to 10. */
  const MIN_PERIOD_US: nat := 5 + MIN_PULSE_LENGTH_US
  const MIN_BARKER_SUBPULSE_LENGTH_US: nat := 1

  /* Register 3: the 30-bit phase increment. */
  const PINC_BITS: nat := 30
  /** `(1U << PINC_BITS) - 1`, written out (see `MaskValues`). */
  const PINC_MASK: nat := 0x3FFF_FFFF
  const MAX_FREQ_KHZ: nat := 20000

  /* Register 5: Barker chip patterns, by code length. */
  const BARKER_2: u32 := 2
  const BARKER_3: u32 := 6
  const BARKER_4: u32 := 11
  const BARKER_5: u32 := 29
  const BARKER_7: u32 := 114
  const BARKER_11: u32 := 1810
  const BARKER_13: u32 := 7989

  /* Debug capture buffer: one 32-bit word per sample. */
  const MAX_DEBUG_SAMPLES: nat := 125000
  const MAX_DEBUG_BYTES: nat := MAX_DEBUG_SAMPLES * 4

  /** `generator_mode_t`. */
  datatype GeneratorMode = Continuous | Pulsed

  /** The six registers at offsets 0x0 to 0x14, indexed by offset / 4. */
  type RegisterBank = s: seq<u32> | |s| == 6 witness [0, 0, 0, 0, 0, 0]

  /**
   * The fields of `Waveform_Generator_t` that the engine reads and writes,
   * together with the registers of the hardware instance it is mapped to.
   * The `uint8_t` flags `enabled`, `debug_enabled` and `modulation_en` only
   * ever hold 0 or 1 and are booleans here.
   */
  datatype Engine = Engine(
    enabled: bool,
    debugEnabled: bool,
    mode: GeneratorMode,
    modulationEn: bool,
    modulationMode: u8,
    contFreqKhz: u32,
    periodUs: u32,
    pulseLengthUs: u32,
    lowFreqKhz: u32,
    highFreqKhz: u32,
    deltaPinc: u32,
    barkerSubpulseLengthUs: u32,
    barkerSeqNum: u8,
    validDebugSamples: u32,
    regs: RegisterBank)

  /** A register offset of the map above. */
  predicate IsRegisterOffset(offset: nat)
  {
    offset % 4 == 0 && offset <= REG_5_OFFSET
  }

  /** The register at a byte offset. */
  function Reg(e: Engine, offset: nat): u32
    requires IsRegisterOffset(offset)
  {
    e.regs[offset / 4]
  }

  /** The masks are the shifts the macros write: 2^15 - 1 and 2^30 - 1. */
  lemma MaskValues()
    ensures PERIOD_MASK == Pow2(PERIOD_COUNTER_BITS) - 1
    ensures PINC_MASK == Pow2(PINC_BITS) - 1
  {
    Pow2Table();
  }

  /** The accepted limits keep the hardware fields in range: the longest
      period in ticks fits the 15-bit counter, and the highest frequency's
      phase increment fits the 30-bit register. */
  lemma LimitsFitFields()
    ensures MAX_PERIOD_US * FCLK_MHZ <= PERIOD_MASK
    ensures MAX_FREQ_KHZ * (Pow2(PINC_BITS) / FCLK_KHZ) <= PINC_MASK
  {
    Pow2Table();
  }
}
