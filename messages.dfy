/**
 * The protobuf messages the firmware exchanges with the host, as values, and
 * the FreeRTOS queues that carry them between the tasks, as first-in
 * first-out sequences. The wire encoding is not modelled: a message is the
 * decoded `Base_msg` union with its `which_*` tags as constructors. Every
 * numeric field is an unsigned 32-bit value; a tag or enumerator that the
 * code does not name becomes an `Other…` constructor holding its number.
 */
module Messages {
  import opened Bits

  /** `Ack_msg_Retval`. */
  datatype Retval = Ack | BadConfig | BadCommand | NoConfig | InvalidMsg | DebugIsValid | DebugError

  /** `Control_msg_Command`. */
  datatype Command = Start | Stop | TrigDbg | BrokenConn | OtherCommand(value: int)

  /** `Generator_Config_msg_Mode`. */
  datatype ConfigMode = ConfigContinuous | ConfigPulsed | OtherConfigMode(value: int)

  /** The `modulation_config` union of a generator configuration, selected by
      `which_modulation_config`. */
  datatype Modulation =
    | ConstFreq(freqKhz: u32)
    | FreqMod(lowFreqKhz: u32, highFreqKhz: u32, lengthUs: u32)
    | PhaseMod(freqKhz: u32, barkerSeqNum: u32, barkerSubpulseLengthUs: u32)
    | OtherModulation(tag: int)

  /** `Generator_Config_msg`. */
  datatype GeneratorSettings = GeneratorSettings(mode: ConfigMode, periodUs: u32, pulseLengthUs: u32,
                                                 modulation: Modulation)

  /** `Config_msg`, selected by `which_config`. */
  datatype Config = GeneratorCfg(generator: GeneratorSettings) | DemodulatorCfg | OtherCfg(tag: int)

  /** `Base_msg`, selected by `which_message`. */
  datatype BaseMsg = ConfigMsg(config: Config) | ControlMsg(command: Command) | AckMsg(retval: Retval) | OtherMsg(tag: int)

  /** A message queue: `xQueueSend` appends at the back. Blocking and the
      queue's capacity are not modelled. */
  class MessageQueue {
    var contents: seq<BaseMsg>

    constructor ()
      ensures contents == []
    {
      contents := [];
    }

    /** `xQueueSend`. */
    method Send(m: BaseMsg)
      modifies this
      ensures contents == old(contents) + [m]
    {
      contents := contents + [m];
    }
  }

  /** `send_ack`: one acknowledgement carrying `retval` joins the queue. */
  method SendAck(queue: MessageQueue, retval: Retval)
    modifies queue
    ensures queue.contents == old(queue.contents) + [AckMsg(retval)]
    ensures queue.contents[|queue.contents| - 1].AckMsg? && queue.contents[|queue.contents| - 1].retval == retval
  {
    queue.Send(AckMsg(retval));
  }
}
