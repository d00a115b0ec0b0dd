/**
 * The generator sub-app of sw/src/generator_app.c: it maps configuration
 * messages onto the engine's six entry points, control messages onto start,
 * stop and a debug capture, and answers every message it handles with one
 * acknowledgement on the output queue. The functions state what one message
 * does to the engine and to the queues; the methods of `GeneratorApp` perform
 * the C code's steps on a `WaveformGenerator` and are proved to agree.
 */
module GeneratorApp {
  import opened Bits
  import opened Messages
  import opened GeneratorDefs
  import opened GeneratorSpec
  import opened GeneratorConfig
  import opened GeneratorInstance

  // ---------------------------------------------------------------------
  // Configuration messages
  // ---------------------------------------------------------------------

  /** The configurations that reach one of the engine's divisions by zero:
      a continuous sweep of length 0 that passes the frequency checks, or a
      Barker length whose low byte is 0 (the continuous entry point always
      divides, the pulsed one only after a valid timing). */
  predicate SettingsDivideByZero(s: GeneratorSettings)
  {
    match s.modulation
    case FreqMod(lowFreqKhz, highFreqKhz, lengthUs) =>
      s.mode == ConfigContinuous && FreqModDividesByZero(lowFreqKhz, highFreqKhz, lengthUs)
    case PhaseMod(_, n, _) =>
      PhaseModDividesByZero(Trunc8(n)) &&
      (s.mode == ConfigContinuous || PulseTimingValid(s.periodUs, s.pulseLengthUs))
    case _ => false
  }

  /** A message whose decoding would divide by zero. */
  predicate MsgDividesByZero(msg: BaseMsg)
  {
    msg.ConfigMsg? && msg.config.GeneratorCfg? && SettingsDivideByZero(msg.config.generator)
  }

  /** The engine call a generator configuration selects: the modulation tag
      picks the operation and `mode == CONTINUOUS` the continuous variant,
      any other mode value the pulsed one. The Barker length is narrowed to
      the engine's `uint8_t`; the continuous phase variant is given the
      32-bit product of subpulse and length. An unrecognised modulation tag
      calls nothing and yields 0. */
  function SettingsApplied(e: Engine, s: GeneratorSettings): Applied
    requires !SettingsDivideByZero(s)
  {
    var continuous := s.mode == ConfigContinuous;
    match s.modulation
    case ConstFreq(freqKhz) =>
      if continuous then AfterSetContinuousModeConstantFreq(e, freqKhz)
      else AfterSetPulsedModeConstantFreq(e, s.periodUs, s.pulseLengthUs, freqKhz)
    case FreqMod(lowFreqKhz, highFreqKhz, lengthUs) =>
      if continuous then AfterSetContinuousModeFreqMod(e, lowFreqKhz, highFreqKhz, lengthUs)
      else AfterSetPulsedModeFreqMod(e, s.periodUs, s.pulseLengthUs, lowFreqKhz, highFreqKhz)
    case PhaseMod(freqKhz, n, subpulseUs) =>
      if continuous then AfterSetContinuousModePhaseMod(e, freqKhz, Trunc8(n), Mul32(subpulseUs, n))
      else AfterSetPulsedModePhaseMod(e, s.periodUs, s.pulseLengthUs, freqKhz, Trunc8(n))
    case OtherModulation(_) => Applied(e, 0)
  }

  /** Whether a message is a configuration carrying the generator tag. */
  predicate IsGeneratorConfig(msg: BaseMsg)
  {
    msg.ConfigMsg? && msg.config.GeneratorCfg?
  }

  /** `generator_app_decode_config`: anything but a generator configuration
      yields -1 without touching the engine. */
  function ConfigApplied(e: Engine, msg: BaseMsg): Applied
    requires !MsgDividesByZero(msg)
  {
    if IsGeneratorConfig(msg) then SettingsApplied(e, msg.config.generator) else Applied(e, -1)
  }

  /** The acceptance rule of a generator configuration with every limit of
      the selected entry point written out. The pulsed variants also need a
      valid timing; the continuous sweep needs a length of at most 250 µs;
      the phase variants need a Barker length, measured on the low byte of
      the requested one, and a truncated subpulse of at least 1 µs whose
      copies fit in 200 µs. An unrecognised modulation is accepted. */
  predicate SettingsAccepted(s: GeneratorSettings)
  {
    var continuous := s.mode == ConfigContinuous;
    var timing := continuous || PulseTimingValid(s.periodUs, s.pulseLengthUs);
    match s.modulation
    case ConstFreq(freqKhz) => timing && freqKhz <= 20000
    case FreqMod(lowFreqKhz, highFreqKhz, lengthUs) =>
      timing && (continuous ==> lengthUs <= 250) && lowFreqKhz <= highFreqKhz <= 20000
    case PhaseMod(freqKhz, n, subpulseUs) =>
      var total := if continuous then Mul32(subpulseUs, n) else s.pulseLengthUs;
      timing && IsBarkerLength(Trunc8(n)) && freqKhz <= 20000 &&
      total / Trunc8(n) >= 1 && (total / Trunc8(n)) * Trunc8(n) <= 200
    case OtherModulation(_) => true
  }

  /** A generator configuration succeeds exactly when its acceptance rule
      holds; any other message yields -1. */
  lemma DecodeConfigResult(e: Engine, msg: BaseMsg)
    requires !MsgDividesByZero(msg)
    ensures ConfigApplied(e, msg).ret ==
      if IsGeneratorConfig(msg) && SettingsAccepted(msg.config.generator) then 0 else -1
  {
    if IsGeneratorConfig(msg) {
      var s := msg.config.generator;
      match s.modulation
      case ConstFreq(f) =>
        if s.mode == ConfigContinuous {
          SetContinuousModeConstantFreqEffect(e, f);
        } else {
          SetPulsedModeConstantFreqResult(e, s.periodUs, s.pulseLengthUs, f);
        }
      case FreqMod(lo, hi, len) =>
        if s.mode == ConfigContinuous {
          SetContinuousModeFreqModEffect(e, lo, hi, len);
        } else {
          SetPulsedModeFreqModResult(e, s.periodUs, s.pulseLengthUs, lo, hi);
        }
      case PhaseMod(f, n, sub) =>
        if s.mode == ConfigContinuous {
          SetContinuousModePhaseModResult(e, f, Trunc8(n), Mul32(sub, n));
        } else {
          SetPulsedModePhaseModResult(e, s.periodUs, s.pulseLengthUs, f, Trunc8(n));
        }
      case OtherModulation(_) =>
    }
  }

  /** Whatever its outcome, a generator configuration with a recognised
      modulation leaves the core disabled, because every entry point stops
      it first. A message that is not a generator configuration, or one whose
      modulation tag is not recognised, leaves the engine as it was. */
  lemma DecodeConfigLeavesDisabled(e: Engine, msg: BaseMsg)
    requires !MsgDividesByZero(msg)
    ensures IsGeneratorConfig(msg) && !msg.config.generator.modulation.OtherModulation? ==>
      LeftDisabled(e, ConfigApplied(e, msg).next)
    ensures !IsGeneratorConfig(msg) || msg.config.generator.modulation.OtherModulation? ==>
      ConfigApplied(e, msg).next == e
  {
    if IsGeneratorConfig(msg) {
      var s := msg.config.generator;
      match s.modulation
      case ConstFreq(f) =>
        if s.mode == ConfigContinuous {
          SetContinuousModeConstantFreqEffect(e, f);
        } else {
          SetPulsedModeConstantFreqResult(e, s.periodUs, s.pulseLengthUs, f);
        }
      case FreqMod(lo, hi, len) =>
        if s.mode == ConfigContinuous {
          SetContinuousModeFreqModEffect(e, lo, hi, len);
        } else {
          SetPulsedModeFreqModResult(e, s.periodUs, s.pulseLengthUs, lo, hi);
        }
      case PhaseMod(f, n, sub) =>
        if s.mode == ConfigContinuous {
          SetContinuousModePhaseModResult(e, f, Trunc8(n), Mul32(sub, n));
        } else {
          SetPulsedModePhaseModResult(e, s.periodUs, s.pulseLengthUs, f, Trunc8(n));
        }
      case OtherModulation(_) =>
    }
  }

  /** The continuous phase variant multiplies the subpulse by the length and
      the engine divides it again: the engine receives the requested subpulse
      whenever the length fits the engine's byte and the product does not
      wrap. */
  lemma ContinuousPhaseSubpulse(subpulseUs: u32, n: u32)
    requires 1 <= n < 0x100 && subpulseUs * n < WORD
    ensures Trunc8(n) == n
    ensures Subpulse(Mul32(subpulseUs, n), Trunc8(n)) == subpulseUs
  {
    Mul32NoWrap(subpulseUs, n);
    MulDivCancel(subpulseUs, n);
  }

  /** When the product wraps, the engine sees another subpulse: asking for
      2^30 + 10 µs per chip of a 4-chip code is accepted as 10 µs per chip. */
  lemma ContinuousPhaseProductWraps(e: Engine)
    ensures var s := GeneratorSettings(ConfigContinuous, 0, 0, PhaseMod(1000, 4, 0x4000_000A));
      SettingsAccepted(s) && Subpulse(Mul32(0x4000_000A, 4), Trunc8(4)) == 10 &&
      ConfigApplied(e, ConfigMsg(GeneratorCfg(s))).ret == 0
  {
    var s := GeneratorSettings(ConfigContinuous, 0, 0, PhaseMod(1000, 4, 0x4000_000A));
    assert Mul32(0x4000_000A, 4) == 40;
    assert Trunc8(4) == 4;
    assert 40 / 4 == 10;
    assert SettingsAccepted(s);
    assert ConfigApplied(e, ConfigMsg(GeneratorCfg(s))) == AfterSetContinuousModePhaseMod(e, 1000, 4, 40);
    SetContinuousModePhaseModResult(e, 1000, 4, 40);
  }

  // ---------------------------------------------------------------------
  // Control messages
  // ---------------------------------------------------------------------

  /** What one message does to the engine, and the acknowledgement it draws. */
  datatype Handled = Handled(next: Engine, ack: Retval)

  /** `generator_app_decode_control`: START and STOP run the engine's start
      and stop and draw ACK; TRIG_DBG runs a capture and draws DEBUG_ERROR
      when it fails and DEBUG_IS_VALID otherwise; anything else draws
      BAD_COMMAND and touches nothing. */
  function ControlHandled(e: Engine, msg: BaseMsg, dma: DmaTransfer): Handled
  {
    if msg.ControlMsg? then
      match msg.command
      case Start => Handled(AfterStart(e), Ack)
      case Stop => Handled(AfterStop(e), Ack)
      case TrigDbg =>
        var t := AfterTriggerDebug(e, dma);
        Handled(t.next, if t.ret < 0 then DebugError else DebugIsValid)
      case _ => Handled(e, BadCommand)
    else
      Handled(e, BadCommand)
  }

  /** The acknowledgement rule of a control message, with the capture's
      outcome written out: DEBUG_IS_VALID exactly when the engine is enabled,
      the DMA accepted the transfer and at least one whole sample arrived. */
  lemma ControlAckRule(e: Engine, msg: BaseMsg, dma: DmaTransfer)
    ensures var h := ControlHandled(e, msg, dma);
      (h.ack == Ack <==> msg == ControlMsg(Start) || msg == ControlMsg(Stop)) &&
      (h.ack == DebugIsValid <==> msg == ControlMsg(TrigDbg) && e.enabled && dma.started && dma.buffLen >= 4) &&
      (h.ack == DebugError <==> msg == ControlMsg(TrigDbg) && !(e.enabled && dma.started && dma.buffLen >= 4)) &&
      (h.ack == BadCommand <==> !(msg.ControlMsg? && msg.command in {Start, Stop, TrigDbg})) &&
      (h.ack == BadCommand ==> h.next == e) &&
      (msg == ControlMsg(Start) ==> h.next.enabled && Bit(Reg(h.next, REG_0_OFFSET), ENABLE_BIT) == 1) &&
      (msg == ControlMsg(Stop) ==> !h.next.enabled && Bit(Reg(h.next, REG_0_OFFSET), ENABLE_BIT) == 0)
  {
    if msg == ControlMsg(TrigDbg) {
      TriggerDebugEffect(e, dma);
    } else if msg == ControlMsg(Start) {
      StartEffect(e);
    } else if msg == ControlMsg(Stop) {
      StopEffect(e);
    }
  }

  /** The DMA engine fills at most the sample buffer and reports at most its
      size; otherwise `num_samples` would run the extraction past the
      buffers. */
  predicate DmaWithinBuffer(dma: DmaTransfer)
  {
    |dma.words| <= MAX_DEBUG_SAMPLES && dma.buffLen / 4 <= MAX_DEBUG_SAMPLES
  }

  // ---------------------------------------------------------------------
  // The sub-app thread
  // ---------------------------------------------------------------------

  /** What handling messages does: the engine afterwards, the messages put
      on the output queue and on the main application's queue, and whether
      the thread leaves its loop. */
  datatype StepOutcome = StepOutcome(next: Engine, out: seq<BaseMsg>, toMain: seq<BaseMsg>, exit: bool)

  /** Whether a message makes the thread leave its loop: a configuration for
      another sub-app, or the broken-connection command. */
  predicate Exits(msg: BaseMsg)
  {
    (msg.ConfigMsg? && !msg.config.GeneratorCfg?) || msg == ControlMsg(BrokenConn)
  }

  /** One pass of the `generator_app_thread` loop. */
  function ThreadStep(e: Engine, msg: BaseMsg, dma: DmaTransfer): StepOutcome
    requires !MsgDividesByZero(msg)
  {
    match msg
    case ConfigMsg(c) =>
      if c.GeneratorCfg? then
        var a := ConfigApplied(e, msg);
        StepOutcome(a.next, [AckMsg(if a.ret < 0 then BadConfig else Ack)], [], false)
      else
        StepOutcome(e, [], [msg], true)
    case ControlMsg(command) =>
      if command == BrokenConn then StepOutcome(e, [], [], true)
      else
        var h := ControlHandled(e, msg, dma);
        StepOutcome(h.next, [AckMsg(h.ack)], [], false)
    case _ => StepOutcome(e, [AckMsg(InvalidMsg)], [], false)
  }

  /** One pass answers with exactly one acknowledgement unless the message
      makes the thread leave; a configuration for another sub-app is passed
      on to the main application unchanged; leaving changes nothing; a
      generator configuration draws ACK exactly when it is accepted and
      BAD_CONFIG otherwise. */
  lemma ThreadStepOutcome(e: Engine, msg: BaseMsg, dma: DmaTransfer)
    requires !MsgDividesByZero(msg)
    ensures var o := ThreadStep(e, msg, dma);
      o.exit == Exits(msg) &&
      (o.exit ==> o.out == [] && o.next == e) &&
      (!o.exit ==> |o.out| == 1 && o.out[0].AckMsg?) &&
      o.toMain == (if msg.ConfigMsg? && !msg.config.GeneratorCfg? then [msg] else []) &&
      (IsGeneratorConfig(msg) ==>
         o.out == [AckMsg(if SettingsAccepted(msg.config.generator) then Ack else BadConfig)]) &&
      (!msg.ConfigMsg? && !msg.ControlMsg? ==> o.out == [AckMsg(InvalidMsg)] && o.next == e)
  {
    if IsGeneratorConfig(msg) {
      DecodeConfigResult(e, msg);
    }
  }

  /** The part of one pass that the session's shape depends on. */
  lemma ThreadStepShape(e: Engine, msg: BaseMsg, dma: DmaTransfer)
    requires !MsgDividesByZero(msg)
    ensures var o := ThreadStep(e, msg, dma);
      o.exit == Exits(msg) && |o.toMain| <= 1 &&
      (o.exit ==> o.out == []) && (!o.exit ==> |o.out| == 1 && o.toMain == [])
  {
    ThreadStepOutcome(e, msg, dma);
  }

  /** Every message the thread may still receive can be decoded without
      dividing by zero. */
  predicate InboxDecodable(inbox: seq<BaseMsg>)
  {
    forall i :: 0 <= i < |inbox| ==> !MsgDividesByZero(inbox[i])
  }

  /** The thread's loop over the messages it receives, in order, until one
      makes it leave; later messages are not taken from the queue. */
  function Session(e: Engine, inbox: seq<BaseMsg>, dmas: seq<DmaTransfer>): StepOutcome
    requires |dmas| == |inbox| && InboxDecodable(inbox)
    decreases |inbox|
  {
    if |inbox| == 0 then StepOutcome(e, [], [], false)
    else
      var k := |inbox| - 1;
      var r := Session(e, inbox[..k], dmas[..k]);
      if r.exit then r
      else
        var s := ThreadStep(r.next, inbox[k], dmas[k]);
        StepOutcome(s.next, r.out + s.out, r.toMain + s.toMain, s.exit)
  }

  /** Once the thread has left, further messages change nothing. */
  lemma {:induction false} SessionAfterExit(e: Engine, inbox: seq<BaseMsg>, dmas: seq<DmaTransfer>, i: nat)
    requires |dmas| == |inbox| && InboxDecodable(inbox) && i <= |inbox|
    requires Session(e, inbox[..i], dmas[..i]).exit
    ensures Session(e, inbox, dmas) == Session(e, inbox[..i], dmas[..i])
    decreases |inbox| - i
  {
    if i < |inbox| {
      var k := |inbox| - 1;
      assert inbox[..k][..i] == inbox[..i] && dmas[..k][..i] == dmas[..i];
      SessionAfterExit(e, inbox[..k], dmas[..k], i);
    } else {
      assert inbox[..i] == inbox && dmas[..i] == dmas;
    }
  }

  /** A prefix of a decodable inbox is decodable. */
  lemma InboxPrefix(inbox: seq<BaseMsg>, i: nat)
    requires InboxDecodable(inbox) && i <= |inbox|
    ensures InboxDecodable(inbox[..i])
  {
    assert forall j :: 0 <= j < i ==> inbox[..i][j] == inbox[j];
  }

  /** One more message taken by a thread that has not yet left. */
  lemma SessionExtend(e: Engine, inbox: seq<BaseMsg>, dmas: seq<DmaTransfer>, i: nat)
    requires |dmas| == |inbox| && InboxDecodable(inbox) && i < |inbox|
    ensures InboxDecodable(inbox[..i]) && InboxDecodable(inbox[..i + 1])
    ensures var r := Session(e, inbox[..i], dmas[..i]);
      !r.exit ==>
        var s := ThreadStep(r.next, inbox[i], dmas[i]);
        Session(e, inbox[..i + 1], dmas[..i + 1]) == StepOutcome(s.next, r.out + s.out, r.toMain + s.toMain, s.exit)
    ensures Session(e, inbox[..i], dmas[..i]).exit ==>
      Session(e, inbox[..i + 1], dmas[..i + 1]) == Session(e, inbox[..i], dmas[..i])
  {
    InboxPrefix(inbox, i);
    InboxPrefix(inbox, i + 1);
    assert inbox[..i + 1][..i] == inbox[..i] && dmas[..i + 1][..i] == dmas[..i];
    assert inbox[..i + 1][i] == inbox[i] && dmas[..i + 1][i] == dmas[i];
  }

  /** Until it leaves, the thread answers every message with exactly one
      acknowledgement and forwards nothing. */
  lemma {:induction false} SessionOpen(e: Engine, inbox: seq<BaseMsg>, dmas: seq<DmaTransfer>)
    requires |dmas| == |inbox| && InboxDecodable(inbox)
    ensures var r := Session(e, inbox, dmas);
      !r.exit ==> |r.out| == |inbox| && r.toMain == []
    decreases |inbox|
  {
    if |inbox| > 0 {
      var k := |inbox| - 1;
      var r := Session(e, inbox[..k], dmas[..k]);
      SessionOpen(e, inbox[..k], dmas[..k]);
      InboxPrefix(inbox, k);
      if !r.exit {
        ThreadStepShape(r.next, inbox[k], dmas[k]);
      }
    }
  }

  /** A thread that has not left has taken no message that makes it leave. */
  lemma {:induction false} SessionOpenNoExit(e: Engine, inbox: seq<BaseMsg>, dmas: seq<DmaTransfer>, i: nat)
    requires |dmas| == |inbox| && InboxDecodable(inbox) && i < |inbox|
    requires !Session(e, inbox, dmas).exit
    ensures !Exits(inbox[i])
    decreases |inbox|
  {
    var k := |inbox| - 1;
    InboxPrefix(inbox, k);
    var r := Session(e, inbox[..k], dmas[..k]);
    if !r.exit {
      if i < k {
        SessionOpenNoExit(e, inbox[..k], dmas[..k], i);
        assert inbox[..k][i] == inbox[i];
      } else {
        ThreadStepShape(r.next, inbox[k], dmas[k]);
      }
    }
  }

  /** Leaving is caused by a message the thread took, fewer messages than
      it took were answered, and at most one went to the main application. */
  lemma {:induction false} SessionExited(e: Engine, inbox: seq<BaseMsg>, dmas: seq<DmaTransfer>)
    requires |dmas| == |inbox| && InboxDecodable(inbox)
    ensures var r := Session(e, inbox, dmas);
      r.exit ==> |r.out| < |inbox| && |r.toMain| <= 1 && exists i :: 0 <= i < |inbox| && Exits(inbox[i])
    decreases |inbox|
  {
    if |inbox| > 0 {
      var k := |inbox| - 1;
      var r := Session(e, inbox[..k], dmas[..k]);
      SessionExited(e, inbox[..k], dmas[..k]);
      SessionExtend(e, inbox, dmas, k);
      assert inbox[..k + 1] == inbox && dmas[..k + 1] == dmas;
      if r.exit {
        var i :| 0 <= i < k && Exits(inbox[..k][i]);
        assert inbox[..k][i] == inbox[i];
      } else {
        SessionOpen(e, inbox[..k], dmas[..k]);
        ThreadStepShape(r.next, inbox[k], dmas[k]);
      }
    }
  }

  /** The messages on the thread's queue, each with what the DMA engine does
      should it trigger a capture. */
  predicate InboxReady(inbox: seq<BaseMsg>, dmas: seq<DmaTransfer>)
  {
    |dmas| == |inbox| && InboxDecodable(inbox) && forall i :: 0 <= i < |dmas| ==> DmaWithinBuffer(dmas[i])
  }

  // ---------------------------------------------------------------------
  // The sub-app
  // ---------------------------------------------------------------------

  /** `generator_app_t` with the debug message's sample arrays. */
  class GeneratorApp {
    const wg: WaveformGenerator
    const mainQueue: MessageQueue
    const netOut: MessageQueue
    /** `debug_samples_msg`: its count and its I and Q arrays. */
    var numSamples: u32
    const iSamples: array<int>
    const qSamples: array<int>

    predicate Valid()
      reads this, wg
    {
      wg.Valid() && mainQueue != netOut &&
      iSamples.Length == MAX_DEBUG_SAMPLES && qSamples.Length == MAX_DEBUG_SAMPLES && iSamples != qSamples
    }

    /** The configuration step of `generator_app_init`: the engine is
        initialised, debugging is enabled and the first message is decoded
        as a configuration, its result discarded. */
    constructor (hwRegs: RegisterBank, dmaReady: bool, first: BaseMsg, mainQueue: MessageQueue, netOut: MessageQueue)
      requires mainQueue != netOut && !MsgDividesByZero(first)
      ensures Valid() && this.mainQueue == mainQueue && this.netOut == netOut
      ensures wg.State() == ConfigApplied(AfterEnableDebug(AfterInit(hwRegs), dmaReady).next, first).next
      ensures fresh(wg) && fresh(wg.samples) && fresh(iSamples) && fresh(qSamples)
    {
      this.mainQueue := mainQueue;
      this.netOut := netOut;
      numSamples := 0;
      iSamples := new int[MAX_DEBUG_SAMPLES];
      qSamples := new int[MAX_DEBUG_SAMPLES];
      wg := new WaveformGenerator(hwRegs);
      new;
      var status := wg.EnableDebug(dmaReady);
      status := DecodeConfig(first);
    }

    /** `generator_app_decode_config`. */
    method DecodeConfig(msg: BaseMsg) returns (ret: int)
      requires Valid() && !MsgDividesByZero(msg)
      modifies wg
      ensures Valid()
      ensures wg.State() == ConfigApplied(old(wg.State()), msg).next
      ensures ret == ConfigApplied(old(wg.State()), msg).ret
    {
      ret := 0;
      if msg.ConfigMsg? && msg.config.GeneratorCfg? {
        var config := msg.config.generator;
        match config.modulation {
          case ConstFreq(freqKhz) =>
            if config.mode == ConfigContinuous {
              ret := wg.SetContinuousModeConstantFreq(freqKhz);
            } else {
              ret := wg.SetPulsedModeConstantFreq(config.periodUs, config.pulseLengthUs, freqKhz);
            }
          case FreqMod(lowFreqKhz, highFreqKhz, lengthUs) =>
            if config.mode == ConfigContinuous {
              ret := wg.SetContinuousModeFreqMod(lowFreqKhz, highFreqKhz, lengthUs);
            } else {
              ret := wg.SetPulsedModeFreqMod(config.periodUs, config.pulseLengthUs, lowFreqKhz, highFreqKhz);
            }
          case PhaseMod(freqKhz, n, subpulseUs) =>
            if config.mode == ConfigContinuous {
              ret := wg.SetContinuousModePhaseMod(freqKhz, Trunc8(n), Mul32(subpulseUs, n));
            } else {
              ret := wg.SetPulsedModePhaseMod(config.periodUs, config.pulseLengthUs, freqKhz, Trunc8(n));
            }
          case OtherModulation(_) =>
        }
      } else {
        ret := -1;
      }
    }

    /** `generator_app_decode_control`: exactly one acknowledgement is sent;
        after a successful capture the debug message holds the sample count
        and that many I and Q samples. */
    method DecodeControl(msg: BaseMsg, dma: DmaTransfer)
      requires Valid() && DmaWithinBuffer(dma)
      modifies this, wg, wg.samples, iSamples, qSamples, netOut
      ensures Valid()
      ensures var h := ControlHandled(old(wg.State()), msg, dma);
        wg.State() == h.next && netOut.contents == old(netOut.contents) + [AckMsg(h.ack)]
      ensures wg.samples[..] ==
        if msg == ControlMsg(TrigDbg) then CapturedSamples(old(wg.samples[..]), old(wg.State()), dma)
        else old(wg.samples[..])
      ensures ControlHandled(old(wg.State()), msg, dma).ack == DebugIsValid ==>
        numSamples == wg.validDebugSamples &&
        (forall i :: 0 <= i < numSamples ==> iSamples[i] == InPhase(wg.samples[i])) &&
        (forall i :: 0 <= i < numSamples ==> qSamples[i] == Quadrature(wg.samples[i]))
      ensures ControlHandled(old(wg.State()), msg, dma).ack != DebugIsValid ==>
        numSamples == old(numSamples) && iSamples[..] == old(iSamples[..]) && qSamples[..] == old(qSamples[..])
    {
      var validMessage := false;
      var debugError := false;
      var debugIsValid := false;
      if msg.ControlMsg? {
        match msg.command {
          case Start =>
            var status := wg.Start();
            validMessage := true;
          case Stop =>
            var status := wg.Stop();
            validMessage := true;
          case TrigDbg =>
            validMessage := true;
            var status := wg.TriggerDebug(dma);
            if status < 0 {
              debugError := true;
            } else {
              wg.GetISamples(iSamples, wg.validDebugSamples);
              wg.GetQSamples(qSamples, wg.validDebugSamples);
              numSamples := wg.validDebugSamples;
              debugIsValid := true;
            }
          case _ =>
            validMessage := false;
        }
      }
      if !validMessage {
        SendAck(netOut, BadCommand);
      } else if debugIsValid {
        SendAck(netOut, DebugIsValid);
      } else if debugError {
        SendAck(netOut, DebugError);
      } else {
        SendAck(netOut, Ack);
      }
    }

    /** The body of the `generator_app_thread` loop for one received message. */
    method HandleMessage(msg: BaseMsg, dma: DmaTransfer) returns (exit: bool)
      requires Valid() && !MsgDividesByZero(msg) && DmaWithinBuffer(dma)
      modifies this, wg, wg.samples, iSamples, qSamples, netOut, mainQueue
      ensures Valid()
      ensures var o := ThreadStep(old(wg.State()), msg, dma);
        wg.State() == o.next && exit == o.exit &&
        netOut.contents == old(netOut.contents) + o.out &&
        mainQueue.contents == old(mainQueue.contents) + o.toMain
    {
      exit := false;
      match msg {
        case ConfigMsg(c) =>
          if c.GeneratorCfg? {
            var status := DecodeConfig(msg);
            if status < 0 {
              SendAck(netOut, BadConfig);
            } else {
              SendAck(netOut, Ack);
            }
          } else {
            exit := true;
            mainQueue.Send(msg);
          }
        case ControlMsg(command) =>
          if command == BrokenConn {
            exit := true;
          } else {
            DecodeControl(msg, dma);
          }
        case _ =>
          SendAck(netOut, InvalidMsg);
      }
    }

    /** The loop of `generator_app_thread`: messages are taken in order
        until one makes the thread leave or none is left. */
    method TakeMessages(inbox: seq<BaseMsg>, dmas: seq<DmaTransfer>) returns (exit: bool, taken: nat, ghost r: StepOutcome)
      requires Valid() && InboxReady(inbox, dmas)
      modifies this, wg, wg.samples, iSamples, qSamples, netOut, mainQueue
      ensures Valid() && taken <= |inbox| && InboxDecodable(inbox[..taken])
      ensures r == Session(old(wg.State()), inbox[..taken], dmas[..taken])
      ensures exit == r.exit && wg.State() == r.next &&
        netOut.contents == old(netOut.contents) + r.out &&
        mainQueue.contents == old(mainQueue.contents) + r.toMain
      ensures !exit ==> taken == |inbox|
      ensures exit ==> 0 < taken && Exits(inbox[taken - 1])
    {
      ghost var e0 := wg.State();
      exit := false;
      taken := 0;
      r := StepOutcome(e0, [], [], false);
      while !exit && taken < |inbox|
        invariant 0 <= taken <= |inbox| && Valid() && InboxDecodable(inbox[..taken])
        invariant r == Session(e0, inbox[..taken], dmas[..taken])
        invariant exit == r.exit && wg.State() == r.next
        invariant netOut.contents == old(netOut.contents) + r.out
        invariant mainQueue.contents == old(mainQueue.contents) + r.toMain
        invariant exit ==> taken > 0 && Exits(inbox[taken - 1])
      {
        SessionExtend(e0, inbox, dmas, taken);
        ThreadStepShape(r.next, inbox[taken], dmas[taken]);
        ghost var s := ThreadStep(r.next, inbox[taken], dmas[taken]);
        exit := HandleMessage(inbox[taken], dmas[taken]);
        r := StepOutcome(s.next, r.out + s.out, r.toMain + s.toMain, s.exit);
        taken := taken + 1;
      }
    }

    /** `generator_app_thread`: messages are taken in order until one makes
        the thread leave, and the engine is stopped on the way out. If the
        thread has not left, every message was taken and it waits for more. */
    method Run(inbox: seq<BaseMsg>, dmas: seq<DmaTransfer>) returns (taken: nat)
      requires Valid() && InboxReady(inbox, dmas)
      modifies this, wg, wg.samples, iSamples, qSamples, netOut, mainQueue
      ensures Valid()
      ensures var r := Session(old(wg.State()), inbox, dmas);
        wg.State() == (if r.exit then AfterStop(r.next) else r.next) &&
        netOut.contents == old(netOut.contents) + r.out &&
        mainQueue.contents == old(mainQueue.contents) + r.toMain
      ensures taken <= |inbox| && (taken < |inbox| ==> 0 < taken && Exits(inbox[taken - 1]))
    {
      ghost var e0 := wg.State();
      var exit;
      ghost var r;
      exit, taken, r := TakeMessages(inbox, dmas);
      if exit {
        SessionAfterExit(e0, inbox, dmas, taken);
        var status := wg.Stop();
      } else {
        assert inbox[..taken] == inbox && dmas[..taken] == dmas;
      }
    }
  }
}
