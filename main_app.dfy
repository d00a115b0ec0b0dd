/**
 * The main application: the `current_mode` state machine of the main thread,
 * which launches the generator sub-app and answers what no sub-app owns, the
 * routing rule of the incoming-data thread, and the BROKEN_CONN broadcast it
 * sends when the socket fails. Queues are sequences (see `Messages`); the
 * socket, the decoder and the scheduling of the threads are not modelled.
 */
module MainApp {
  import opened Optional
  import opened Messages
  import opened GeneratorDefs
  import opened GeneratorSpec
  import GeneratorApp

  /** `current_mode`. Only MAIN, GENERATOR and DEMODULATOR are ever stored;
      any other value the field could hold is kept as its number. */
  datatype AppMode = Main | Generator | Demodulator | UnknownMode(value: int)

  /** One of the four queues the main application creates. */
  datatype Queue = MainQueue | GeneratorQueue | DemodulatorQueue | OutputQueue

  predicate IsSubAppMode(mode: AppMode)
  {
    mode.Generator? || mode.Demodulator?
  }

  // ---------------------------------------------------------------------
  // The incoming-data thread
  // ---------------------------------------------------------------------

  /** The `switch (current_mode)` of `incoming_data_thread`: a decoded
      message goes to the queue of the sub-app that owns the session, and
      to the main queue in MAIN mode or in a mode the switch does not name. */
  function RouteFor(mode: AppMode): (q: Queue)
    ensures q != OutputQueue
    ensures q == MainQueue <==> !IsSubAppMode(mode)
    ensures q == GeneratorQueue <==> mode == Generator
    ensures q == DemodulatorQueue <==> mode == Demodulator
  {
    match mode
    case Main => MainQueue
    case Generator => GeneratorQueue
    case Demodulator => DemodulatorQueue
    case UnknownMode(_) => MainQueue
  }

  /** A message put on a queue. */
  datatype Delivery = Delivery(queue: Queue, msg: BaseMsg)

  /** What one read of `n` bytes makes the incoming-data thread send: the
      decoded message to its route, an INVALID_MSG acknowledgement to the
      output queue when non-empty input does not decode, nothing when the
      read is empty. */
  function Incoming(mode: AppMode, decoded: Option<BaseMsg>, n: nat): Option<Delivery>
  {
    if decoded.Some? && n != 0 then Some(Delivery(RouteFor(mode), decoded.value))
    else if n != 0 then Some(Delivery(OutputQueue, AckMsg(InvalidMsg)))
    else None
  }

  /** The messages a delivery adds to queue `q`. */
  function Into(d: Option<Delivery>, q: Queue): seq<BaseMsg>
  {
    if d.Some? && d.value.queue == q then [d.value.msg] else []
  }

  /** Every non-empty read puts exactly one message on exactly one queue: a
      decoded message on its route, which is never the output queue, and an
      undecodable one as INVALID_MSG on the output queue. */
  lemma IncomingRule(mode: AppMode, decoded: Option<BaseMsg>, n: nat)
    ensures var d := Incoming(mode, decoded, n);
      (n == 0 ==> forall q :: Into(d, q) == []) &&
      (n != 0 ==> exists q :: Into(d, q) != [] && forall q' :: q' != q ==> Into(d, q') == []) &&
      (n != 0 && decoded.Some? ==> Into(d, RouteFor(mode)) == [decoded.value] && Into(d, OutputQueue) == []) &&
      (n != 0 && decoded.None? ==> Into(d, OutputQueue) == [AckMsg(InvalidMsg)] &&
                                   Into(d, MainQueue) == [] && Into(d, GeneratorQueue) == [] &&
                                   Into(d, DemodulatorQueue) == [])
  {
    var d := Incoming(mode, decoded, n);
    if n != 0 {
      assert Into(d, d.value.queue) != [];
    }
  }

  /** The queues the incoming-data thread notifies of a socket error: the
      output queue, the main queue and, only in GENERATOR or DEMODULATOR
      mode, that sub-app's queue. */
  function BrokenConnTargets(mode: AppMode): seq<Queue>
  {
    [OutputQueue, MainQueue] +
    (if mode == Generator then [GeneratorQueue]
     else if mode == Demodulator then [DemodulatorQueue]
     else [])
  }

  /** The messages the socket-error broadcast adds to queue `q`. */
  function Notified(mode: AppMode, q: Queue): seq<BaseMsg>
  {
    if q in BrokenConnTargets(mode) then [ControlMsg(BrokenConn)] else []
  }

  /** BROKEN_CONN reaches every queue a decoded message could have been
      routed to in the same mode, and the output queue; each target is
      notified once, and a sub-app queue only when that sub-app owns the
      session. */
  lemma BrokenConnReachesRoute(mode: AppMode)
    ensures var t := BrokenConnTargets(mode);
      RouteFor(mode) in t && OutputQueue in t && MainQueue in t &&
      (forall i, j :: 0 <= i < j < |t| ==> t[i] != t[j]) &&
      (GeneratorQueue in t <==> mode == Generator) &&
      (DemodulatorQueue in t <==> mode == Demodulator) &&
      |t| == if IsSubAppMode(mode) then 3 else 2
  {
  }

  // ---------------------------------------------------------------------
  // The main thread
  // ---------------------------------------------------------------------

  /** What the main thread does with one message from its queue. */
  datatype MainOutcome = MainOutcome(mode: AppMode, out: seq<BaseMsg>, launch: bool, end: bool)

  /** One pass of the inner loop of `main_app_thread`. */
  function MainStep(mode: AppMode, msg: BaseMsg): MainOutcome
  {
    match msg
    case ConfigMsg(c) =>
      (match c
       case GeneratorCfg(_) => MainOutcome(Generator, [AckMsg(Ack)], true, false)
       case DemodulatorCfg => MainOutcome(Demodulator, [], false, false)
       case OtherCfg(_) => MainOutcome(mode, [AckMsg(BadConfig)], false, false))
    case ControlMsg(command) =>
      if command == BrokenConn then MainOutcome(mode, [], false, true)
      else MainOutcome(mode, [AckMsg(NoConfig)], false, false)
    case _ => MainOutcome(mode, [], false, false)
  }

  /** A generator configuration launches the sub-app, switches to GENERATOR
      and is acknowledged with ACK; a demodulator configuration switches to
      DEMODULATOR silently; only these two change the mode. Any other
      configuration draws BAD_CONFIG, a control command other than
      BROKEN_CONN draws NO_CONFIG, BROKEN_CONN ends the session, and
      anything else is ignored. */
  lemma MainStepRule(mode: AppMode, msg: BaseMsg)
    ensures var r := MainStep(mode, msg);
      (r.launch <==> msg.ConfigMsg? && msg.config.GeneratorCfg?) &&
      (r.end <==> msg == ControlMsg(BrokenConn)) &&
      (r.mode != mode ==> msg.ConfigMsg? && (msg.config.GeneratorCfg? || msg.config.DemodulatorCfg?)) &&
      (msg.ConfigMsg? && msg.config.GeneratorCfg? ==> r.mode == Generator && r.out == [AckMsg(Ack)]) &&
      (msg.ConfigMsg? && msg.config.DemodulatorCfg? ==> r.mode == Demodulator && r.out == []) &&
      (msg.ConfigMsg? && msg.config.OtherCfg? ==> r.out == [AckMsg(BadConfig)]) &&
      (msg.ControlMsg? && msg.command != BrokenConn ==> r.out == [AckMsg(NoConfig)]) &&
      (|r.out| <= 1) &&
      (r.out == [] <==> (msg.ConfigMsg? && msg.config.DemodulatorCfg?) || msg == ControlMsg(BrokenConn) ||
                        (!msg.ConfigMsg? && !msg.ControlMsg?))
  {
  }

  /** The first generator configuration is acknowledged with ACK even when
      the engine rejects it: a continuous sweep-free request for 30 MHz is
      refused by the engine (-1) while the main thread answers ACK. */
  lemma RejectedFirstConfigAcked(e: Engine, mode: AppMode)
    ensures var msg := ConfigMsg(GeneratorCfg(GeneratorSettings(ConfigContinuous, 0, 0, ConstFreq(30000))));
      GeneratorApp.ConfigApplied(e, msg).ret == -1 && MainStep(mode, msg).out == [AckMsg(Ack)]
  {
    var msg := ConfigMsg(GeneratorCfg(GeneratorSettings(ConfigContinuous, 0, 0, ConstFreq(30000))));
    GeneratorApp.DecodeConfigResult(e, msg);
  }

  /** The hand-off: a configuration for another sub-app makes the generator
      thread forward it to the main queue and leave, and the main thread in
      GENERATOR mode then switches to DEMODULATOR for a demodulator
      configuration, but for an unrecognised tag answers BAD_CONFIG and stays
      in GENERATOR mode, so later input is still routed to the generator
      queue although its thread has left. */
  lemma HandOff(e: Engine, dma: DmaTransfer, c: Config)
    requires !c.GeneratorCfg?
    ensures var o := GeneratorApp.ThreadStep(e, ConfigMsg(c), dma);
      o.exit && o.toMain == [ConfigMsg(c)] && o.out == []
    ensures var r := MainStep(Generator, ConfigMsg(c));
      (c.DemodulatorCfg? ==> r.mode == Demodulator && r.out == [] && RouteFor(r.mode) == DemodulatorQueue) &&
      (c.OtherCfg? ==> r.mode == Generator && r.out == [AckMsg(BadConfig)] && RouteFor(r.mode) == GeneratorQueue)
  {
    GeneratorApp.ThreadStepOutcome(e, ConfigMsg(c), dma);
  }

  /** The inner loop of `main_app_thread` over the messages of its queue, in
      order, until BROKEN_CONN; how many generator apps it launched. */
  datatype MainRun = MainRun(mode: AppMode, out: seq<BaseMsg>, launches: nat, ended: bool)

  function MainSession(mode: AppMode, inbox: seq<BaseMsg>): MainRun
    decreases |inbox|
  {
    if |inbox| == 0 then MainRun(mode, [], 0, false)
    else
      var k := |inbox| - 1;
      var r := MainSession(mode, inbox[..k]);
      if r.ended then r
      else
        var s := MainStep(r.mode, inbox[k]);
        MainRun(s.mode, r.out + s.out, r.launches + (if s.launch then 1 else 0), s.end)
  }

  /** Whether the mode is one the code assigns. */
  predicate KnownMode(mode: AppMode)
  {
    !mode.UnknownMode?
  }

  /** The main thread never stores a mode other than MAIN, GENERATOR or
      DEMODULATOR. */
  lemma {:induction false} MainSessionKnownMode(mode: AppMode, inbox: seq<BaseMsg>)
    requires KnownMode(mode)
    ensures KnownMode(MainSession(mode, inbox).mode)
    decreases |inbox|
  {
    if |inbox| > 0 {
      MainSessionKnownMode(mode, inbox[..|inbox| - 1]);
    }
  }

  /** The main thread only ever answers ACK, BAD_CONFIG or NO_CONFIG, at most
      once per message it took. */
  lemma {:induction false} MainSessionAcks(mode: AppMode, inbox: seq<BaseMsg>)
    ensures var r := MainSession(mode, inbox);
      |r.out| <= |inbox| &&
      forall i :: 0 <= i < |r.out| ==> r.out[i] in {AckMsg(Ack), AckMsg(BadConfig), AckMsg(NoConfig)}
    decreases |inbox|
  {
    if |inbox| > 0 {
      var k := |inbox| - 1;
      var r := MainSession(mode, inbox[..k]);
      MainSessionAcks(mode, inbox[..k]);
      if !r.ended {
        var s := MainStep(r.mode, inbox[k]);
        assert forall i :: 0 <= i < |r.out| ==> (r.out + s.out)[i] == r.out[i];
      }
    }
  }

  /** The session ends exactly when a BROKEN_CONN has been taken. */
  lemma {:induction false} MainSessionEnds(mode: AppMode, inbox: seq<BaseMsg>)
    ensures MainSession(mode, inbox).ended <==> exists i :: 0 <= i < |inbox| && inbox[i] == ControlMsg(BrokenConn)
    decreases |inbox|
  {
    if |inbox| > 0 {
      var k := |inbox| - 1;
      MainSessionEnds(mode, inbox[..k]);
      assert forall i :: 0 <= i < k ==> inbox[..k][i] == inbox[i];
      if inbox[k] == ControlMsg(BrokenConn) {
        assert exists i :: 0 <= i < |inbox| && inbox[i] == ControlMsg(BrokenConn);
      }
    }
  }

  /** Once BROKEN_CONN has been taken, later messages change nothing. */
  lemma {:induction false} MainSessionAfterEnd(mode: AppMode, inbox: seq<BaseMsg>, i: nat)
    requires i <= |inbox| && MainSession(mode, inbox[..i]).ended
    ensures MainSession(mode, inbox) == MainSession(mode, inbox[..i])
    decreases |inbox| - i
  {
    if i < |inbox| {
      var k := |inbox| - 1;
      assert inbox[..k][..i] == inbox[..i];
      MainSessionAfterEnd(mode, inbox[..k], i);
    } else {
      assert inbox[..i] == inbox;
    }
  }

  // ---------------------------------------------------------------------
  // The application
  // ---------------------------------------------------------------------

  /** `main_app_t` with the generator sub-app it launches. */
  class MainApp {
    var currentMode: AppMode
    const mainQueue: MessageQueue
    const generatorQueue: MessageQueue
    const demodulatorQueue: MessageQueue
    const outputQueue: MessageQueue
    /** The static `generator_app` of `main_app_thread`, once initialised. */
    var generator: GeneratorApp.GeneratorApp?

    /** The queues are four distinct objects. */
    predicate Valid()
      reads this
    {
      mainQueue != generatorQueue && mainQueue != demodulatorQueue && mainQueue != outputQueue &&
      generatorQueue != demodulatorQueue && generatorQueue != outputQueue && demodulatorQueue != outputQueue
    }

    function QueueOf(q: Queue): MessageQueue
    {
      match q
      case MainQueue => mainQueue
      case GeneratorQueue => generatorQueue
      case DemodulatorQueue => demodulatorQueue
      case OutputQueue => outputQueue
    }

    /** `main_app_init`: four empty queues and MAIN mode. */
    constructor ()
      ensures Valid() && currentMode == Main && generator == null
      ensures forall q :: QueueOf(q).contents == [] && fresh(QueueOf(q))
    {
      mainQueue := new MessageQueue();
      generatorQueue := new MessageQueue();
      demodulatorQueue := new MessageQueue();
      outputQueue := new MessageQueue();
      generator := null;
      currentMode := Main;
    }

    /** One pass of the loop of `incoming_data_thread` after a read of `n`
        bytes that `decoded` says whether the decoder accepted. */
    method Dispatch(decoded: Option<BaseMsg>, n: nat)
      requires Valid()
      modifies mainQueue, generatorQueue, demodulatorQueue, outputQueue
      ensures forall q :: QueueOf(q).contents == old(QueueOf(q).contents) + Into(Incoming(currentMode, decoded, n), q)
    {
      if decoded.Some? && n != 0 {
        match currentMode {
          case Main => mainQueue.Send(decoded.value);
          case Generator => generatorQueue.Send(decoded.value);
          case Demodulator => demodulatorQueue.Send(decoded.value);
          case UnknownMode(_) => mainQueue.Send(decoded.value);
        }
      } else if n != 0 {
        outputQueue.Send(AckMsg(InvalidMsg));
      }
    }

    /** The end of `incoming_data_thread` after a socket error. */
    method BroadcastBrokenConn()
      requires Valid()
      modifies mainQueue, generatorQueue, demodulatorQueue, outputQueue
      ensures forall q :: QueueOf(q).contents == old(QueueOf(q).contents) + Notified(currentMode, q)
    {
      var msg := ControlMsg(BrokenConn);
      outputQueue.Send(msg);
      mainQueue.Send(msg);
      if currentMode == Generator {
        generatorQueue.Send(msg);
      } else if currentMode == Demodulator {
        demodulatorQueue.Send(msg);
      }
    }

    /** One pass of the inner loop of `main_app_thread`. A generator
        configuration initialises the generator sub-app on the register bank
        the hardware holds, `hwRegs`, with `dmaReady` telling whether its DMA
        engine can be set up; the result of that first configuration is not
        looked at. */
    method HandleMessage(msg: BaseMsg, hwRegs: RegisterBank, dmaReady: bool) returns (end: bool)
      requires Valid() && !GeneratorApp.MsgDividesByZero(msg)
      modifies this, outputQueue
      ensures Valid()
      ensures var r := MainStep(old(currentMode), msg);
        currentMode == r.mode && end == r.end && outputQueue.contents == old(outputQueue.contents) + r.out
      ensures MainStep(old(currentMode), msg).launch ==>
        generator != null && fresh(generator) && generator.Valid() &&
        generator.mainQueue == mainQueue && generator.netOut == outputQueue &&
        generator.wg.State() ==
          GeneratorApp.ConfigApplied(AfterEnableDebug(AfterInit(hwRegs), dmaReady).next, msg).next
      ensures !MainStep(old(currentMode), msg).launch ==> generator == old(generator)
    {
      end := false;
      match msg {
        case ConfigMsg(c) =>
          match c {
            case GeneratorCfg(_) =>
              generator := new GeneratorApp.GeneratorApp(hwRegs, dmaReady, msg, mainQueue, outputQueue);
              currentMode := Generator;
              SendAck(outputQueue, Ack);
            case DemodulatorCfg =>
              currentMode := Demodulator;
            case OtherCfg(_) =>
              SendAck(outputQueue, BadConfig);
          }
        case ControlMsg(command) =>
          if command == BrokenConn {
            end := true;
          } else {
            SendAck(outputQueue, NoConfig);
          }
        case _ =>
      }
    }

    /** The connection loop of `main_app_thread`: messages are taken until
        BROKEN_CONN, after which the application is back in MAIN mode. If no
        BROKEN_CONN came, every message was taken and it waits for more. */
    method Serve(inbox: seq<BaseMsg>, hwRegs: RegisterBank, dmaReady: bool) returns (taken: nat)
      requires Valid() && GeneratorApp.InboxDecodable(inbox)
      modifies this, outputQueue
      ensures Valid()
      ensures var r := MainSession(old(currentMode), inbox);
        currentMode == (if r.ended then Main else r.mode) &&
        outputQueue.contents == old(outputQueue.contents) + r.out &&
        (r.launches == 0 ==> generator == old(generator)) &&
        (r.launches > 0 ==> generator != null && fresh(generator))
      ensures taken <= |inbox| && (taken < |inbox| ==> 0 < taken && inbox[taken - 1] == ControlMsg(BrokenConn))
    {
      ghost var m0 := currentMode;
      var end := false;
      taken := 0;
      while !end && taken < |inbox|
        invariant 0 <= taken <= |inbox| && Valid()
        invariant var r := MainSession(m0, inbox[..taken]);
          end == r.ended && currentMode == r.mode &&
          outputQueue.contents == old(outputQueue.contents) + r.out &&
          (r.launches == 0 ==> generator == old(generator)) &&
          (r.launches > 0 ==> generator != null && fresh(generator))
        invariant end ==> 0 < taken && inbox[taken - 1] == ControlMsg(BrokenConn)
      {
        assert inbox[..taken + 1][..taken] == inbox[..taken];
        assert inbox[..taken + 1][taken] == inbox[taken];
        end := HandleMessage(inbox[taken], hwRegs, dmaReady);
        taken := taken + 1;
      }
      if end {
        MainSessionAfterEnd(m0, inbox, taken);
        currentMode := Main;
      } else {
        assert inbox[..taken] == inbox;
      }
    }
  }
}
