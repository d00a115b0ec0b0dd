# Radar waveform generator firmware, modelled in Dafny

The firmware runs on a Zynq board. Its subject is a DDS (direct digital
synthesis) waveform generator in the FPGA fabric, which a host drives over a
TCP socket with protobuf messages. This project models three layers of that
firmware.

- **The engine** (`sw/src/generator.c`, `sw/src/generator.h`). The driver
  keeps a `Waveform_Generator_t` record in step with six 32-bit
  memory-mapped registers, REG_0 to REG_5. It programs three things:
  - continuous or pulsed timing, with the pulse length and the period packed
    as 125 MHz tick counts into REG_2;
  - an unmodulated carrier, whose phase increment `f_kHz * 8589` goes in REG_3;
  - a linear frequency sweep (REG_3, REG_4 and the per-tick increment in
    REG_5), or a Barker-coded 180° phase modulation (the subpulse in REG_4,
    the code length and chip pattern in REG_5).

  It also captures a debug trace over DMA and splits each captured word
  into its I and Q halves.
- **The generator sub-app** (`sw/src/generator_app.c`). It initialises the
  engine and applies the first configuration. It then loops over its queue:
  - a generator configuration is applied and answered with ACK or BAD_CONFIG;
  - START, STOP and TRIG_DBG are executed and acknowledged;
  - any other message draws INVALID_MSG;
  - a configuration for another sub-app, or BROKEN_CONN, makes it leave. The
    configuration is first forwarded to the main application. On the way
    out the thread stops the engine.
- **The main application** (`sw/src/main_app.c`). The main thread keeps a
  `current_mode`: MAIN at start, GENERATOR or DEMODULATOR once a
  configuration launches a sub-app, and MAIN again after BROKEN_CONN. While
  no sub-app owns the session, it answers configurations and commands
  itself. The incoming-data thread routes each decoded message to the queue
  of the current mode. When the socket fails, it broadcasts BROKEN_CONN.

The model follows the code's own structure.

- Module `Bits` holds C's 32-bit unsigned arithmetic on `nat`: `&`, `|`, `~`,
  `<<`, and multiplication and subtraction modulo 2^32.
- `GeneratorDefs` holds the constants and the `Engine` value (record plus
  register bank).
- `Generator` holds the register encodings, and `Barker` the chip patterns.
- `GeneratorSpec` and `GeneratorConfig` hold one pure function per engine
  operation, from the state before the call to the state after it and the C
  return value. A lemma beside each function states its acceptance rule, the
  register words it writes and what it leaves untouched.
- `GeneratorInstance.WaveformGenerator` is the driver as a class. Its fields
  are the record, the register bank and the DMA sample buffer. Each of its
  methods performs the C code's steps and is proved to produce what the
  matching function says.
- `GeneratorApp` and `MainApp` have the same two layers for the two threads:
  - pure step and session functions, with lemmas about acknowledgements,
    forwarding and leaving;
  - classes whose methods execute the loops over the queues, which are
    `Messages.MessageQueue` objects.

Some behaviours of the code that the model states explicitly:

- The Barker patterns are those of `generator.h:47-53`: BARKER_2 to
  BARKER_13 are 2, 6, 11, 29, 114, 1810 and 7989. The lemmas
  `Barker.Pattern*` prove that each one is a Barker code, with every
  aperiodic sidelobe of magnitude at most 1.
- The phase increment per kHz is the integer quotient `2^30 / 125000 = 8589`,
  so 1 MHz gives REG_3 = 8589000.
- The pulsed timing rule is 10 ≤ period ≤ 250 µs, pulse ≥ 5 µs and
  pulse < period. `MIN_PERIOD_US` is `5 + 5`.
- A demodulator configuration switches the mode and sends no
  acknowledgement.
- The first generator configuration is always answered with ACK, even when
  the engine rejects it, because `generator_app_init` discards its result
  (`generator_app.c:46`). The lemma `MainApp.RejectedFirstConfigAcked`
  exhibits such a message.
- When the generator thread forwards a configuration with an unrecognised
  tag and leaves, the main thread stays in GENERATOR mode. Later input is
  then routed to a queue nobody reads until BROKEN_CONN arrives. The lemma
  `MainApp.HandOff` states this.
- The low phase increment of a sweep (`generator.c:309`) is not masked. A
  pulsed sweep runs over the pulse length, which thereby becomes the
  engine's `period_us`.

## Model

| member | source | states |
|---|---|---|
| GeneratorDefs.MaskValues | sw/src/generator.h:33-43 | PERIOD_MASK is 2^15 - 1 and PINC_MASK is 2^30 - 1. |
| GeneratorDefs.LimitsFitFields | sw/src/generator.h:33-44 | The longest period in ticks (250 × 125) fits the 15-bit period field, and the phase increment of 20 MHz fits the 30-bit PINC field. |
| Generator.PincPerKhzValue | sw/src/generator.c:274 | `(1 << PINC_BITS) / FCLK_KHZ` is 8589, the integer quotient. |
| Generator.BitRead | sw/src/generator.c:39-47 | `_readBit` returns bit `bit` of the register, 1 iff it is set. |
| Generator.BitWrittenEffect | sw/src/generator.c:55-72 | After `_writeBit`, the chosen bit is 1 iff the value is non-zero, reading it back gives that bit, and every other bit is unchanged. |
| Generator.BitWrittenIdempotent | sw/src/generator.c:55-72 | Writing the same bit value twice is the same as writing it once. |
| Generator.PincValue | sw/src/generator.c:274 | For frequencies up to 20 MHz, the masked phase increment is exactly `f × 8589`, below 2^30, with no 32-bit wrap. |
| Generator.TicksUnmasked | sw/src/generator.c:212 | For times up to 250 µs, the tick count `t × 125` survives the 15-bit mask unchanged. |
| Generator.PulseRegisterFields | sw/src/generator.c:212-213 | REG_2's high half holds the pulse length in ticks and its low half the period in ticks. |
| Generator.DeltaPincValue | sw/src/generator.c:309-311 | For an accepted sweep, `delta_pinc` is `(high×8589 − low×8589) / (length×125)`, with no wrap and no effect from the mask. |
| Generator.ChirpStep | sw/src/generator.c:306-318 | A sweep of `length×125` steps of `delta_pinc` from the low increment stays at or below the high increment and falls short of it by less than one step per tick. |
| Generator.BarkerCodeWidth | sw/src/generator.c:343-352 | A pattern exists iff the length is 2, 3, 4, 5, 7, 11 or 13, and the pattern's top bit is bit n−1. |
| Generator.BarkerCodeIsBarker | sw/src/generator.h:47-53 | Every pattern the switch selects, read as n chips, is a Barker sequence. |
| Generator.BarkerRegisterFields | sw/src/generator.c:372 | REG_5 holds the code length in its top nibble and the pattern in its low 28 bits. |
| Generator.SubpulseRegisterValue | sw/src/generator.c:363 | For subpulses of 1 to 200 µs, the REG_4 word is the tick count minus one. |
| Barker.ChipsOfWord | sw/src/generator.h:47-53 | Reading a pattern's word back as chips gives the original chips, so every pattern below is fixed by its number. |
| Barker.Pattern2 | sw/src/generator.h:47 | BARKER_2 = 2 is the chip sequence −+, a Barker code. |
| Barker.Pattern6 | sw/src/generator.h:48 | BARKER_3 = 6 is −++, a Barker code. |
| Barker.Pattern11 | sw/src/generator.h:49 | BARKER_4 = 11 is ++−+, a Barker code. |
| Barker.Pattern29 | sw/src/generator.h:50 | BARKER_5 = 29 is +−+++, a Barker code. |
| Barker.Pattern114 | sw/src/generator.h:51 | BARKER_7 = 114 is a 7-chip Barker code. |
| Barker.Pattern1810 | sw/src/generator.h:52 | BARKER_11 = 1810 is an 11-chip Barker code. |
| Barker.Pattern7989 | sw/src/generator.h:53 | BARKER_13 = 7989 is the 13-chip Barker code. |
| GeneratorSpec.WithBitEffect | sw/src/generator.c:55-72 | A `_writeBit` on the engine changes only the chosen bit of the chosen register. |
| GeneratorSpec.AfterInit | sw/src/generator.c:74-80 | `generator_init` zeroes the record: disabled, no debug, no modulation, continuous, and all counters 0. The register bank is the hardware's. |
| GeneratorSpec.EnableDebugEffect | sw/src/generator.c:82-105 | Result 0 iff the DMA engine initialises, else −1. Only `debugEnabled` can change, and afterwards holds iff it held before or the call succeeded. No register is written. A later `generator_trigger_debug` gives the same result and registers whatever the flag (it tests `enabled`, generator.c:129). |
| GeneratorSpec.StartEffect | sw/src/generator.c:107-114 | `generator_start` sets the `enabled` flag and REG_0's enable bit together, and changes nothing else. |
| GeneratorSpec.StopEffect | sw/src/generator.c:116-123 | `generator_stop` clears the `enabled` flag and REG_0's enable bit together, and changes nothing else. |
| GeneratorSpec.StartStopIdempotent | sw/src/generator.c:107-123 | Starting twice equals starting once; stopping twice equals stopping once. |
| GeneratorSpec.StopAfterStart | sw/src/generator.c:107-123 | A stop after a start leaves exactly the state of a stop alone. |
| GeneratorSpec.TriggerDebugEffect | sw/src/generator.c:125-172 | A disabled engine returns −1 and nothing changes. Otherwise REG_0's debug bit is set, the sample count becomes the DMA byte count / 4, and the result is 0 iff the transfer started and at least 4 bytes arrived. |
| GeneratorSpec.CapturedSamples | sw/src/generator.c:131-137 | The sample buffer keeps its size. It receives the DMA words over its prefix only when the engine is enabled and the transfer started; every other element is unchanged. |
| GeneratorSpec.SampleRoundTrip | sw/src/generator.c:460-498 | A buffer word splits into a signed 16-bit I (low half) and Q (high half). Packing them back gives the word, and every pair of signed 16-bit samples round-trips. |
| GeneratorSpec.SetContinuousEffect | sw/src/generator.c:180-184 | `_set_continuous` sets the mode and REG_1's mode bit to 1, and changes nothing else. |
| GeneratorSpec.SetPulsedEffect | sw/src/generator.c:194-233 | The result is 0 iff 10 ≤ period ≤ 250, pulse ≥ 5 and pulse < period. On success: pulsed mode, REG_1's mode bit 0, both times stored, and REG_2 = pulse ticks in the high half and period ticks in the low half. On failure nothing changes. |
| GeneratorSpec.DisableModulationEffect | sw/src/generator.c:241-245 | The modulation flag and REG_1's modulation-enable bit are cleared; nothing else changes. |
| GeneratorSpec.EnableModulationEffect | sw/src/generator.c:253-257 | The modulation flag and REG_1's modulation-enable bit are set; nothing else changes. |
| GeneratorSpec.SetConstantFreqEffect | sw/src/generator.c:266-283 | The result is 0 iff f ≤ 20000 kHz. On success the frequency is stored and REG_3 = f × 8589; on failure nothing changes. |
| GeneratorSpec.SetFrequencyModulationEffect | sw/src/generator.c:294-325 | The type and both frequencies are stored even on failure. The result is 0 iff length ≤ 250 and low ≤ high ≤ 20000. On success: REG_3 and REG_4 hold the two increments, REG_5 and `delta_pinc` the per-tick step, REG_1's type bit is 1, the period becomes the length, and nothing else changes. |
| GeneratorSpec.SetPhaseModulationResult | sw/src/generator.c:337-385 | The engine is always stopped first. The result is 0 iff the length has a pattern, f ≤ 20000, subpulse ≥ 1 and `subpulse × n` (32-bit) ≤ 200. On failure only the stop has happened. |
| GeneratorSpec.PhaseModulationSteps | sw/src/generator.c:354-378 | An accepted call is the stop, the field updates, the type-bit write and the writes to REG_4, REG_5 and REG_3, in that order. |
| GeneratorSpec.SetPhaseModulationFrame | sw/src/generator.c:337-385 | On success the core is stopped and REG_1's type bit is 0. Only the phase-modulation fields and REG_0, REG_1, REG_3, REG_4 and REG_5 change. |
| GeneratorSpec.SetPhaseModulationRegs | sw/src/generator.c:363-378 | On success: REG_5 = length in the top nibble and pattern below, REG_3 = f × 8589, and REG_4 = subpulse ticks − 1 when the product did not wrap. |
| GeneratorSpec.SetPhaseModulationWrites | sw/src/generator.c:337-385 | The frame and the register contents of an accepted phase modulation together. |
| GeneratorSpec.SubpulseBound | sw/src/generator.c:357-363 | When `subpulse × n` does not wrap and is ≤ 200, the subpulse is ≤ 200, so REG_4 is its tick count minus one. |
| GeneratorConfig.SetContinuousModeConstantFreqEffect | sw/src/generator.c:387-393 | Stopped, continuous, modulation off in every case. The result is 0 iff f ≤ 20000, and only then do the frequency and REG_3 change; nothing else changes. |
| GeneratorConfig.SetContinuousModeFreqModEffect | sw/src/generator.c:395-400 | Stopped, continuous, modulation on, and sweep type and frequencies stored in every case. The result is the sweep rule's. On failure nothing else changes and only REG_0 and REG_1 are written. On success the period becomes the sweep length, REG_3-REG_5 and the type bit hold the sweep, and every other field and every other bit of REG_0, REG_1 and all of REG_2 is kept. |
| GeneratorConfig.ProductOfQuotient | sw/src/generator.c:407 | The truncated quotient times n is at most the total and does not wrap. |
| GeneratorConfig.ContinuousModulationPrelude | sw/src/generator.c:396-406 | Stop, continuous and modulation-on change only the enable flag, the mode, the modulation flag and their three bits. |
| GeneratorConfig.SetContinuousModePhaseModResult | sw/src/generator.c:402-409 | Stopped, continuous, modulation on. The result is 0 iff the length has a pattern, f ≤ 20000, total/n ≥ 1 and (total/n)×n ≤ 200. |
| GeneratorConfig.SetContinuousModePhaseModRejected | sw/src/generator.c:402-409 | A rejected call changes nothing beyond the stop, the timing mode and the modulation flag. |
| GeneratorConfig.SetContinuousModePhaseModWrites | sw/src/generator.c:402-409 | On success: the phase fields hold n, total/n and f; REG_5 holds the length and pattern; REG_4 the subpulse ticks − 1; REG_3 the increment; REG_1's type bit is 0. No other field changes beyond the stop, the continuous mode and the modulation flag; REG_1 keeps its other bits, REG_0 all but the enable bit, and REG_2 is not written. |
| GeneratorConfig.PulsedPreludeStart | sw/src/generator.c:413-414 | The pulsed entry points' first two steps stop the core and set the modulation flag and bit, and change nothing else. |
| GeneratorConfig.PulsedPreludeEffect | sw/src/generator.c:411-418 | The prelude returns the timing rule's result and always leaves the core stopped with the modulation bit as requested. |
| GeneratorConfig.PulsedPreludeRejected | sw/src/generator.c:415-418 | An invalid timing changes nothing beyond the stop and the modulation flag. |
| GeneratorConfig.PulsedPreludeTiming | sw/src/generator.c:415 | A valid timing selects pulsed mode with both tick counts in REG_2, and changes nothing else. |
| GeneratorConfig.PulsedPreludeRet | sw/src/generator.c:415-418 | The prelude succeeds exactly when the timing is valid. |
| GeneratorConfig.SetPulsedModeConstantFreqResult | sw/src/generator.c:411-423 | Modulation off, stopped. The result is 0 iff the timing is valid and f ≤ 20000; an invalid timing returns before the frequency is looked at. |
| GeneratorConfig.SetPulsedModeConstantFreqTiming | sw/src/generator.c:411-423 | With a valid timing: pulsed mode, REG_2 holds both tick counts, and REG_3 = f × 8589 when the frequency is accepted. |
| GeneratorConfig.SetPulsedModeFreqModResult | sw/src/generator.c:425-440 | Modulation on, stopped. The result is 0 iff the timing is valid and low ≤ high ≤ 20000; the pulse length serves as the sweep length. |
| GeneratorConfig.SetPulsedModeFreqModTiming | sw/src/generator.c:425-440 | With a valid timing: pulsed mode, REG_2 holds both tick counts, the sweep type and frequencies are stored, and the period field ends as the pulse length on success and as the period on failure. No other field changes except the sweep increment, and REG_1 keeps its other bits. A rejected sweep also keeps the increment and writes nothing after REG_2. |
| GeneratorConfig.SetPulsedModeFreqModWrites | sw/src/generator.c:425-440 | On success the period field holds the pulse length, and REG_3, REG_4, REG_5 and the type bit are those of that sweep. Every other field is kept beyond the stop, the timing and the modulation fields, and REG_1 keeps its other bits. |
| GeneratorConfig.PulsedModePhaseModStages | sw/src/generator.c:442-456 | The call is the prelude, then, with a valid timing, `_set_phase_modulation` with subpulse pulse/n. |
| GeneratorConfig.SetPulsedModePhaseModResult | sw/src/generator.c:442-456 | Modulation on, stopped. The result is 0 iff the timing is valid, the length has a pattern, f ≤ 20000, pulse/n ≥ 1 and (pulse/n)×n ≤ 200. |
| GeneratorConfig.SetPulsedModePhaseModRejected | sw/src/generator.c:446-450 | An invalid timing returns −1 with only the stop and the modulation flag changed. |
| GeneratorConfig.SetPulsedModePhaseModTiming | sw/src/generator.c:442-456 | A valid timing leaves pulsed mode with both tick counts in REG_2, whatever the phase step decides. On success the phase fields hold n, pulse/n and f and nothing else changes beyond the stop, the timing and the flag, with REG_1's other bits kept. On failure only the prelude's fields change and nothing after REG_2 is written. |
| GeneratorConfig.SetPulsedModePhaseModWrites | sw/src/generator.c:442-456 | On success the phase fields and REG_3, REG_4 and REG_5 hold the carrier, pulse/n and the pattern. No other field changes beyond the stop, the timing and the modulation flag, and REG_1 keeps its other bits. |
| GeneratorInstance.HalfWordSamples | sw/src/generator.c:468-498 | Element 2i of the buffer read as `s16` is word i's I sample, and element 2i+1 its Q sample. |
| GeneratorInstance.WaveformGenerator.constructor | sw/src/generator.c:74-80 | The new instance's state is `AfterInit` of the hardware registers, and its sample buffer is zero. |
| GeneratorInstance.WaveformGenerator.WriteReg | sw/src/generator.c:27-30 | Only the addressed register changes, to the written word. |
| GeneratorInstance.WaveformGenerator.WriteBit | sw/src/generator.c:55-72 | Read-modify-write of one register; the state is `WithBit` of the old one. |
| GeneratorInstance.WaveformGenerator.ReadBit | sw/src/generator.c:39-47 | Returns bit `bit` of the addressed register. |
| GeneratorInstance.WaveformGenerator.EnableDebug | sw/src/generator.c:82-105 | State and result are `AfterEnableDebug`'s; the sample buffer is zeroed iff the DMA initialised. |
| GeneratorInstance.WaveformGenerator.Start | sw/src/generator.c:107-114 | The state is `AfterStart` of the old one, and the result is 0. |
| GeneratorInstance.WaveformGenerator.Stop | sw/src/generator.c:116-123 | The state is `AfterStop` of the old one, and the result is 0. |
| GeneratorInstance.WaveformGenerator.TriggerDebug | sw/src/generator.c:125-172 | State and result are `AfterTriggerDebug`'s, and the buffer becomes `CapturedSamples` of the old buffer. |
| GeneratorInstance.WaveformGenerator.SetContinuous | sw/src/generator.c:180-184 | The state is `AfterSetContinuous` of the old one, and the result is 0. |
| GeneratorInstance.WaveformGenerator.SetPulsed | sw/src/generator.c:194-233 | State and result are `AfterSetPulsed`'s; the result is 0 iff the timing rule holds. |
| GeneratorInstance.WaveformGenerator.DisableModulation | sw/src/generator.c:241-245 | The state is `AfterDisableModulation` of the old one, and the result is 0. |
| GeneratorInstance.WaveformGenerator.EnableModulation | sw/src/generator.c:253-257 | The state is `AfterEnableModulation` of the old one, and the result is 0. |
| GeneratorInstance.WaveformGenerator.SetConstantFreq | sw/src/generator.c:266-283 | State and result are `AfterSetConstantFreq`'s. |
| GeneratorInstance.WaveformGenerator.SetFrequencyModulation | sw/src/generator.c:294-325 | State and result are `AfterSetFrequencyModulation`'s. |
| GeneratorInstance.WaveformGenerator.SetPhaseModulation | sw/src/generator.c:337-385 | State and result are `AfterSetPhaseModulation`'s. |
| GeneratorInstance.WaveformGenerator.SetContinuousModeConstantFreq | sw/src/generator.c:387-393 | State and result are `AfterSetContinuousModeConstantFreq`'s. |
| GeneratorInstance.WaveformGenerator.SetContinuousModeFreqMod | sw/src/generator.c:395-400 | State and result are `AfterSetContinuousModeFreqMod`'s. |
| GeneratorInstance.WaveformGenerator.SetContinuousModePhaseMod | sw/src/generator.c:402-409 | State and result are `AfterSetContinuousModePhaseMod`'s. |
| GeneratorInstance.WaveformGenerator.SetPulsedModeConstantFreq | sw/src/generator.c:411-423 | State and result are `AfterSetPulsedModeConstantFreq`'s. |
| GeneratorInstance.WaveformGenerator.SetPulsedModeFreqMod | sw/src/generator.c:425-440 | State and result are `AfterSetPulsedModeFreqMod`'s. |
| GeneratorInstance.WaveformGenerator.SetPulsedModePhaseMod | sw/src/generator.c:442-456 | State and result are `AfterSetPulsedModePhaseMod`'s. |
| GeneratorInstance.WaveformGenerator.GetISamples | sw/src/generator.c:468-476 | The first `num_samples` outputs are the I samples of the buffer's words; the rest of the array is unchanged. |
| GeneratorInstance.WaveformGenerator.GetQSamples | sw/src/generator.c:488-498 | The first `num_samples` outputs are the Q samples of the buffer's words; the rest of the array is unchanged. |
| Messages.MessageQueue.Send | sw/src/main_app.c:61 | `xQueueSend` appends the message at the back of the queue. |
| Messages.SendAck | sw/src/main_app.c:56-62 | Exactly one acknowledgement carrying the given return value joins the queue. |
| GeneratorApp.DecodeConfigResult | sw/src/generator_app.c:67-140 | A message decodes to 0 iff it is a generator configuration whose acceptance rule (every entry point's limits written out) holds; otherwise the result is −1. |
| GeneratorApp.DecodeConfigLeavesDisabled | sw/src/generator_app.c:67-140 | A generator configuration with a known modulation leaves the core stopped whatever its result. Any other message leaves the engine as it was. |
| GeneratorApp.ContinuousPhaseSubpulse | sw/src/generator_app.c:67-140 | When the length fits a byte and `subpulse × n` does not wrap, the engine receives the requested subpulse. |
| GeneratorApp.ContinuousPhaseProductWraps | sw/src/generator_app.c:67-140 | A 4-chip request for 2^30 + 10 µs per chip wraps to 40 and is accepted as 10 µs per chip. |
| GeneratorApp.ControlAckRule | sw/src/generator_app.c:148-218 | ACK iff START or STOP; DEBUG_IS_VALID iff TRIG_DBG on an enabled engine with a started transfer of at least one sample; DEBUG_ERROR iff TRIG_DBG otherwise; BAD_COMMAND iff not one of the three, changing nothing. |
| GeneratorApp.ThreadStepOutcome | sw/src/generator_app.c:234-276 | The thread leaves iff it gets another sub-app's configuration or BROKEN_CONN; leaving sends nothing and changes nothing. It forwards exactly the foreign configuration. Otherwise it sends exactly one acknowledgement: ACK or BAD_CONFIG by the acceptance rule, and INVALID_MSG for an unknown message. |
| GeneratorApp.ThreadStepShape | sw/src/generator_app.c:234-276 | One pass sends one acknowledgement and forwards nothing, or leaves having sent nothing and forwarded at most one message. |
| GeneratorApp.SessionAfterExit | sw/src/generator_app.c:234 | Once the thread has left, later messages change nothing. |
| GeneratorApp.SessionExtend | sw/src/generator_app.c:234-276 | A thread that has not left takes one more message by one pass; one that has left ignores it. |
| GeneratorApp.SessionOpen | sw/src/generator_app.c:234-276 | Until it leaves, the thread answers every message with exactly one acknowledgement and forwards nothing. |
| GeneratorApp.SessionOpenNoExit | sw/src/generator_app.c:234-276 | A thread that has not left has taken no leaving message. |
| GeneratorApp.SessionExited | sw/src/generator_app.c:234-276 | A thread that has left took a leaving message, answered fewer messages than it took, and forwarded at most one. |
| GeneratorApp.GeneratorApp.constructor | sw/src/generator_app.c:33-56 | The engine is initialised, debugging enabled and the first message applied as a configuration, its result discarded. |
| GeneratorApp.GeneratorApp.DecodeConfig | sw/src/generator_app.c:67-140 | The engine's new state and the result are `ConfigApplied`'s. |
| GeneratorApp.GeneratorApp.DecodeControl | sw/src/generator_app.c:148-218 | The engine becomes `ControlHandled`'s state and exactly its acknowledgement is sent. After a valid capture, the debug message holds the count and that many I and Q samples; otherwise it is unchanged. |
| GeneratorApp.GeneratorApp.HandleMessage | sw/src/generator_app.c:239-274 | Engine, output queue, main queue and the exit flag follow `ThreadStep`. |
| GeneratorApp.GeneratorApp.TakeMessages | sw/src/generator_app.c:234-276 | Messages are taken in order until a leaving one or none is left. Engine and queues follow `Session` over the taken prefix, and a leaving message is the last one taken. |
| GeneratorApp.GeneratorApp.Run | sw/src/generator_app.c:226-281 | The whole thread: queues as `Session` says, and an engine stopped after leaving. If it stops early, the last message taken made it leave. |
| MainApp.RouteFor | sw/src/main_app.c:214-227 | A decoded message goes to the generator queue iff GENERATOR, the demodulator queue iff DEMODULATOR, the main queue otherwise, and never to the output queue. |
| MainApp.IncomingRule | sw/src/main_app.c:213-238 | An empty read sends nothing. A non-empty read puts exactly one message on exactly one queue: the decoded message on its route, or INVALID_MSG on the output queue. |
| MainApp.BrokenConnReachesRoute | sw/src/main_app.c:241-255 | BROKEN_CONN goes once each to the output queue, the main queue and, only in that mode, the generator or demodulator queue. This covers every queue a message could have been routed to. |
| MainApp.MainStepRule | sw/src/main_app.c:138-169 | A generator configuration launches the sub-app, sets GENERATOR and draws ACK. A demodulator configuration sets DEMODULATOR silently. Only these two change the mode. Another configuration draws BAD_CONFIG, a command other than BROKEN_CONN draws NO_CONFIG, BROKEN_CONN ends the loop, and anything else is ignored. |
| MainApp.RejectedFirstConfigAcked | sw/src/main_app.c:141-147 | A first configuration the engine rejects (30 MHz continuous) is still answered with ACK. |
| MainApp.HandOff | sw/src/generator_app.c:253-257 | A foreign configuration is forwarded and the generator leaves. The main thread in GENERATOR mode then switches to DEMODULATOR for a demodulator configuration, but stays in GENERATOR with BAD_CONFIG for an unrecognised one. |
| MainApp.MainSessionKnownMode | sw/src/main_app.c:133-174 | The main thread only ever stores MAIN, GENERATOR or DEMODULATOR. |
| MainApp.MainSessionAcks | sw/src/main_app.c:133-170 | The main thread answers at most once per message taken, and only with ACK, BAD_CONFIG or NO_CONFIG. |
| MainApp.MainSessionEnds | sw/src/main_app.c:158-162 | The connection loop ends exactly when a BROKEN_CONN has been taken. |
| MainApp.MainSessionAfterEnd | sw/src/main_app.c:161 | After BROKEN_CONN, later messages change nothing. |
| MainApp.MainApp.constructor | sw/src/main_app.c:370 | The application starts in MAIN mode with four distinct empty queues and no generator. |
| MainApp.MainApp.Dispatch | sw/src/main_app.c:213-238 | Every queue receives exactly what `Incoming` routes to it. |
| MainApp.MainApp.BroadcastBrokenConn | sw/src/main_app.c:241-255 | Every queue among the broadcast's targets receives one BROKEN_CONN, and no other queue receives anything. |
| MainApp.MainApp.HandleMessage | sw/src/main_app.c:135-169 | Mode, end flag and output queue follow `MainStep`. On a launch, a fresh generator app has been initialised on the given registers with the message as its first configuration; otherwise the generator is unchanged. |
| MainApp.MainApp.Serve | sw/src/main_app.c:133-174 | Messages are taken until BROKEN_CONN, with mode and output as in `MainSession`. After BROKEN_CONN the mode is MAIN again. If it stops early, the last message taken was BROKEN_CONN. |

## Left out

- The socket, lwIP, `accept`/`read`/`close` and the outer connection loop of `main_app_thread` are I/O. A read is a parameter: the decoded message, or none, and the byte count.
- A `read` returning 0 bytes (peer closed) sends nothing and never reaches the BROKEN_CONN broadcast, as `MainApp.Incoming` shows. The loop's waiting is not modelled.
- FreeRTOS scheduling, blocking receives, queue capacity and `xQueueCreate` failure are not modelled. Queues are unbounded sequences.
- The threads do not interleave in the model. The hand-off between the generator thread and the main thread is stated as a lemma (`MainApp.HandOff`). The race on `current_mode` between the main thread and the incoming-data thread is not modelled.
- Protobuf encoding and decoding are not modelled; `messages.pb.h` is not part of this model. Every numeric message field is taken to be an unsigned 32-bit value.
- The XAxiDma calls are a parameter. `DmaTransfer` gives whether the transfer started, the words it delivered and the BUFFLEN byte count. `dmaReady` gives whether lookup and initialisation succeeded. The busy-wait polling loop and `Xil_DCacheFlushRange` are not modelled.
- The hardware base address and the DMA device id are not modelled; the register bank at launch is a parameter (`hwRegs`).
- State that outlives one launch of the generator sub-app is not carried over. The static `debug_samples` buffer (`generator.c:6`) is zeroed only by a successful `generator_enable_debug` (`generator.c:97`); the global `debug_samples_msg` (`generator_app.c:21`) is never reset. In the model each `GeneratorApp.GeneratorApp` gets a fresh zeroed sample buffer and fresh I/Q arrays. Likewise `MainApp.MainApp.Serve` gives every launch the same `hwRegs`, whereas the board's registers still hold what the previous generator last wrote. After a failed DMA set-up the model's buffer is zero where the board's holds the previous capture.
- The I/Q split reads the buffer through an `s16` pointer, which assumes a little-endian core. The model fixes that layout.
- Division by zero is a precondition, because it is undefined behaviour in C. It covers a continuous sweep of length 0 that passes the frequency checks (`FreqModDividesByZero`) and a Barker length whose low byte is 0 (`PhaseModDividesByZero`). `MsgDividesByZero` and `InboxDecodable` carry them to messages.
- GeneratorApp.GeneratorApp.DecodeControl: requires `DmaWithinBuffer`, which says the DMA reports no more than `MAX_DEBUG_SAMPLES` samples. The code does not check this; it assumes the debug message's arrays hold that many.
- Generator.BitRead: `_readBit` is modelled although no caller in the code uses it.
- The demodulator sub-app, `output_data_thread`, `main.c` and the Python host scripts are not part of this model.
- `print_info` logging is not modelled.
