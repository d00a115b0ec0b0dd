/**
 * The waveform generator engine of sw/src/generator.c, as specification
 * functions over an `Engine` value: the register read-modify-write helpers,
 * the conversions of requests into hardware units, and one `After...`
 * function per engine operation giving the new record and register bank and
 * the C return value. The class `WaveformGenerator` in generator_class.dfy
 * implements these operations on a mutable record and register array.
 */
module Generator {
  import opened Bits
  import opened Optional
  import opened Barker
  import opened GeneratorDefs

  /** `(1U << PINC_BITS) / FCLK_KHZ`, the phase increment per kHz. The division
      is evaluated before the multiplication by the frequency and truncates. */
  const PINC_PER_KHZ: nat := 0x4000_0000 / FCLK_KHZ

  lemma PincPerKhzValue()
    ensures PINC_PER_KHZ == Pow2(PINC_BITS) / FCLK_KHZ == 8589
  {
    Pow2Table();
  }

  // ---------------------------------------------------------------------
  // Register bit access (`_readBit`, `_writeBit`)
  // ---------------------------------------------------------------------

  /** `1 << bit` for a bit of a 32-bit register. */
  function BitMask(bit: nat): u32
    requires bit < 32
  {
    Pow2Fits(bit);
    Pow2(bit)
  }

  /** The value `_writeBit` stores back: the register or'ed with the bit's
      mask when `value` is non-zero, and'ed with its complement otherwise. */
  function BitWritten(reg: u32, bit: nat, value: nat): u32
    requires bit < 32
  {
    Pow2Fits(bit);
    Pow2Table();
    OrBelow(reg, BitMask(bit), 32);
    AndAtMost(reg, Not32(BitMask(bit)));
    if value != 0 then Or(reg, BitMask(bit)) else And(reg, Not32(BitMask(bit)))
  }

  /** The value `_readBit` returns: 1 when the masked register is non-zero. */
  function BitRead(reg: u32, bit: nat): (b: nat)
    requires bit < 32
    ensures b == Bit(reg, bit)
  {
    AndPow2(reg, bit);
    if And(reg, BitMask(bit)) != 0 then 1 else 0
  }

  /** `y` has the bits of `x` at every position below 32 that is not `changed`. */
  predicate BitsKept(x: nat, y: nat, changed: set<nat>)
  {
    forall i :: 0 <= i < 32 && i !in changed ==> Bit(y, i) == Bit(x, i)
  }

  /** `_writeBit` sets bit `bit` to 1 iff `value` is non-zero and keeps every
      other bit; `_readBit` then returns that bit. */
  lemma BitWrittenEffect(reg: u32, bit: nat, value: nat)
    requires bit < 32
    ensures Bit(BitWritten(reg, bit, value), bit) == if value != 0 then 1 else 0
    ensures BitRead(BitWritten(reg, bit, value), bit) == if value != 0 then 1 else 0
    ensures BitsKept(reg, BitWritten(reg, bit, value), {bit})
  {
    Pow2Fits(bit);
    Pow2Table();
    forall i | 0 <= i < 32
      ensures Bit(BitWritten(reg, bit, value), i) ==
        if i == bit then (if value != 0 then 1 else 0) else Bit(reg, i)
    {
      BitOfPow2(bit, i);
      if value != 0 {
        BitOfOr(reg, Pow2(bit), i);
      } else {
        BitOfComplement(Pow2(bit), 32, i);
        BitOfAnd(reg, Not32(Pow2(bit)), i);
      }
    }
  }

  /** Writing the same bit value twice stores the same word as writing it once. */
  lemma BitWrittenIdempotent(reg: u32, bit: nat, value: nat)
    requires bit < 32
    ensures BitWritten(BitWritten(reg, bit, value), bit, value) == BitWritten(reg, bit, value)
  {
    var once := BitWritten(reg, bit, value);
    BitWrittenEffect(reg, bit, value);
    BitWrittenEffect(once, bit, value);
    Pow2Table();
    BitsDetermine(BitWritten(once, bit, value), once, 32);
  }

  // ---------------------------------------------------------------------
  // Conversions into hardware units
  // ---------------------------------------------------------------------

  /** The phase increment written for a frequency in kHz:
      `(freq * PINC_PER_KHZ) & PINC_MASK`. */
  function Pinc(freqKhz: u32): u32
  {
    AndAtMost(Mul32(freqKhz, PINC_PER_KHZ), PINC_MASK);
    And(Mul32(freqKhz, PINC_PER_KHZ), PINC_MASK)
  }

  /** Up to the maximum frequency the mask truncates nothing: the increment is
      the frequency times 8589, and it fits the 30-bit register. */
  lemma PincValue(freqKhz: u32)
    requires freqKhz <= MAX_FREQ_KHZ
    ensures Pinc(freqKhz) == freqKhz * 8589 < 0x4000_0000
    ensures Mul32(freqKhz, PINC_PER_KHZ) == freqKhz * 8589
  {
    assert PINC_PER_KHZ == 8589;
    Mul32NoWrap(freqKhz, PINC_PER_KHZ);
    MaskValues();
    AndLowMask(freqKhz * 8589, PINC_BITS);
  }

  /** The REG_2 word: pulse length in ticks in the high half, period in ticks
      in the low half, each masked to 15 bits. */
  function PulseRegister(pulseLengthUs: u32, periodUs: u32): u32
  {
    var high := And(Mul32(pulseLengthUs, FCLK_MHZ), PERIOD_MASK);
    var low := And(Mul32(periodUs, FCLK_MHZ), PERIOD_MASK);
    MaskValues();
    Pow2Table();
    AndAtMost(Mul32(periodUs, FCLK_MHZ), PERIOD_MASK);
    OrBelow(Shl32(high, 16), low, 32);
    Or(Shl32(high, 16), low)
  }

  /** Up to the maximum period a time in ticks fits the 15-bit counter. */
  lemma TicksUnmasked(us: u32)
    requires us <= MAX_PERIOD_US
    ensures And(Mul32(us, FCLK_MHZ), PERIOD_MASK) == us * 125
  {
    MaskValues();
    Mul32NoWrap(us, FCLK_MHZ);
    AndLowMask(us * 125, PERIOD_COUNTER_BITS);
  }

  /** Up to the maximum period neither mask truncates: REG_2's high half is the
      pulse length times 125 and its low half the period times 125. */
  lemma PulseRegisterFields(pulseLengthUs: u32, periodUs: u32)
    requires pulseLengthUs <= MAX_PERIOD_US && periodUs <= MAX_PERIOD_US
    ensures PulseRegister(pulseLengthUs, periodUs) / 0x1_0000 == pulseLengthUs * 125
    ensures PulseRegister(pulseLengthUs, periodUs) % 0x1_0000 == periodUs * 125
  {
    TicksUnmasked(pulseLengthUs);
    TicksUnmasked(periodUs);
    PackHalves(pulseLengthUs * 125, periodUs * 125);
    SplitAt16(pulseLengthUs * 125, periodUs * 125);
  }

  /** The chirp's per-tick increment: `((high - low) / (length * FCLK_MHZ)) &
      PINC_MASK`, in unsigned 32-bit arithmetic. */
  function DeltaPinc(pincLow: u32, pincHigh: u32, lengthUs: u32): u32
    requires Mul32(lengthUs, FCLK_MHZ) != 0
  {
    var span := Sub32(pincHigh, pincLow);
    var ticks := Mul32(lengthUs, FCLK_MHZ);
    DivAtMost(span, ticks);
    AndAtMost(span / ticks, PINC_MASK);
    And(span / ticks, PINC_MASK)
  }

  /** For an accepted sweep the subtraction does not wrap and the quotient is
      not masked: the increment is the span of phase increments divided by
      the sweep length in ticks. */
  lemma DeltaPincValue(lowFreqKhz: u32, highFreqKhz: u32, lengthUs: u32)
    requires 1 <= lengthUs <= MAX_PERIOD_US
    requires lowFreqKhz <= highFreqKhz <= MAX_FREQ_KHZ
    ensures Mul32(lengthUs, FCLK_MHZ) == lengthUs * 125
    ensures DeltaPinc(Mul32(lowFreqKhz, PINC_PER_KHZ), Pinc(highFreqKhz), lengthUs)
      == (highFreqKhz * 8589 - lowFreqKhz * 8589) / (lengthUs * 125)
  {
    var ticks: nat := lengthUs * 125;
    var span: nat := highFreqKhz * 8589 - lowFreqKhz * 8589;
    PincValue(lowFreqKhz);
    PincValue(highFreqKhz);
    Mul32NoWrap(lengthUs, FCLK_MHZ);
    Sub32NoWrap(Pinc(highFreqKhz), Mul32(lowFreqKhz, PINC_PER_KHZ));
    DivAtMost(span, ticks);
    assert And(span / ticks, PINC_MASK) == span / ticks by {
      MaskValues();
      AndLowMask(span / ticks, PINC_BITS);
    }
  }

  /** Adding the increment once per tick for the sweep length brings the low
      frequency's increment to within one step below the high one's. */
  lemma ChirpStep(lowFreqKhz: u32, highFreqKhz: u32, lengthUs: u32, deltaPinc: nat)
    requires 1 <= lengthUs <= MAX_PERIOD_US
    requires lowFreqKhz <= highFreqKhz <= MAX_FREQ_KHZ
    requires deltaPinc == DeltaPinc(Mul32(lowFreqKhz, PINC_PER_KHZ), Pinc(highFreqKhz), lengthUs)
    ensures lowFreqKhz * 8589 + deltaPinc * (lengthUs * 125) <= highFreqKhz * 8589
    ensures highFreqKhz * 8589 < lowFreqKhz * 8589 + (deltaPinc + 1) * (lengthUs * 125)
  {
    DeltaPincValue(lowFreqKhz, highFreqKhz, lengthUs);
    DivBounds(highFreqKhz * 8589 - lowFreqKhz * 8589, lengthUs * 125);
  }

  /** The switch over `barker_seq`: the chip pattern of a supported length,
      and no pattern (the -1 of the default branch) for any other length. */
  function BarkerCode(n: u8): Option<u32>
  {
    match n
    case 2 => Some(BARKER_2)
    case 3 => Some(BARKER_3)
    case 4 => Some(BARKER_4)
    case 5 => Some(BARKER_5)
    case 7 => Some(BARKER_7)
    case 11 => Some(BARKER_11)
    case 13 => Some(BARKER_13)
    case _ => None
  }

  /** Exactly the lengths 2, 3, 4, 5, 7, 11 and 13 have a pattern, and each
      pattern has bit n-1 set and no higher bit: it holds n chips and stays
      clear of the length field at bit 28. */
  lemma BarkerCodeWidth(n: u8)
    ensures BarkerCode(n).Some? <==> n in {2, 3, 4, 5, 7, 11, 13}
    ensures BarkerCode(n).Some? ==>
      Pow2(n - 1) <= BarkerCode(n).value < Pow2(n) && BarkerCode(n).value < 0x1000_0000
  {
    Pow2Table();
  }

  /** The chips of every pattern form a Barker code: each autocorrelation
      sidelobe has magnitude at most 1. */
  lemma BarkerCodeIsBarker(n: u8)
    requires BarkerCode(n).Some?
    ensures IsBarkerSequence(Chips(BarkerCode(n).value, n))
  {
    match n
    case 2 => Pattern2();
    case 3 => Pattern6();
    case 4 => Pattern11();
    case 5 => Pattern29();
    case 7 => Pattern114();
    case 11 => Pattern1810();
    case 13 => Pattern7989();
  }

  /** The REG_5 word: `(barker_seq << 28) | barker_bits`. */
  function BarkerRegister(n: u8, bits: u32): u32
  {
    Pow2Table();
    OrBelow(Shl32(n, 28), bits, 32);
    Or(Shl32(n, 28), bits)
  }

  /** With a pattern below bit 28, REG_5's top nibble is the code length and its
      low 28 bits are the pattern. The shift is unsigned, so lengths 11 and 13
      land in bits 28 to 31 without overflow. */
  lemma BarkerRegisterFields(n: u8, bits: u32)
    requires n < 16 && bits < 0x1000_0000
    ensures BarkerRegister(n, bits) / 0x1000_0000 == n
    ensures BarkerRegister(n, bits) % 0x1000_0000 == bits
  {
    assert BarkerRegister(n, bits) == n * 0x1000_0000 + bits by {
      Pow2Table();
      assert Shl32(n, 28) == n * Pow2(28);
      OrDisjoint(n, bits, 28);
    }
    SplitAt28(n, bits);
  }

  /** The REG_4 word of phase modulation: `((subpulse * FCLK_MHZ) - 1) & PINC_MASK`. */
  function SubpulseRegister(subpulseLengthUs: u32): u32
  {
    AndAtMost(Sub32(Mul32(subpulseLengthUs, FCLK_MHZ), 1), PINC_MASK);
    And(Sub32(Mul32(subpulseLengthUs, FCLK_MHZ), 1), PINC_MASK)
  }

  /** For an accepted subpulse length the register holds its length in ticks
      minus one. */
  lemma SubpulseRegisterValue(subpulseLengthUs: u32)
    requires MIN_BARKER_SUBPULSE_LENGTH_US <= subpulseLengthUs <= MAX_PULSE_LENGTH_US
    ensures SubpulseRegister(subpulseLengthUs) == subpulseLengthUs * 125 - 1
  {
    Mul32NoWrap(subpulseLengthUs, FCLK_MHZ);
    Sub32NoWrap(subpulseLengthUs * 125, 1);
    assert And(subpulseLengthUs * 125 - 1, PINC_MASK) == subpulseLengthUs * 125 - 1 by {
      MaskValues();
      AndLowMask(subpulseLengthUs * 125 - 1, PINC_BITS);
    }
  }
}
