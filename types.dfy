/** Value types exchanged between the proxy driver, the CANopen master driver
    and the ROS interfaces it serves. */
module CanopenTypes {

  type uint8 = x: int | 0 <= x < 0x100
  type uint16 = x: int | 0 <= x < 0x1_0000
  type uint32 = x: int | 0 <= x < 0x1_0000_0000

  datatype Option<T> = None | Some(value: T)

  /** The driver-side triple ros2_canopen::COData: an object-dictionary
      address (index, subindex) and a 32-bit value. */
  datatype COData = COData(index: uint16, subindex: uint8, data: uint32)

  /** The ROS message canopen_interfaces/msg/COData carried on the
      "tpdo" and "rpdo" topics. */
  datatype CODataMsg = CODataMsg(index: uint16, subindex: uint8, data: uint32)

  /** How on_tpdo builds the driver triple from an incoming message. */
  function FromMsg(m: CODataMsg): COData
  {
    COData(m.index, m.subindex, m.data)
  }

  /** How on_rpdo builds the outgoing message from a driver triple. */
  function ToMsg(d: COData): CODataMsg
  {
    CODataMsg(d.index, d.subindex, d.data)
  }

  /** The two conversions lose nothing: each is the other's inverse. */
  lemma MsgRoundTrip(m: CODataMsg, d: COData)
    ensures ToMsg(FromMsg(m)) == m
    ensures FromMsg(ToMsg(d)) == d
  {
  }

  /** The NMT states the Lely driver reports; Unrecognised stands for any
      value of the enumeration that the handler's switch does not list. */
  datatype NmtState =
    | Bootup
    | PreOp
    | ResetComm
    | ResetNode
    | Start
    | Stop
    | Toggle
    | Unrecognised(raw: int)  // an opaque tag, not the driver's numeric encoding

  /** NMT commands the proxy can send to its slave. */
  datatype NmtCommand =
    | CommandStart
    | CommandStop
    | CommandEnterPreOp
    | CommandResetNode
    | CommandResetComm

  /** What waiting on one of the driver's futures yields: its value, or the
      exception that get() throws (the what() text). */
  datatype Future<T> = Ready(value: T) | Raised(what: string)

  /** Request and response of the canopen_interfaces/srv/CORead service. */
  datatype COReadRequest = COReadRequest(index: uint16, subindex: uint8)
  datatype COReadResponse = COReadResponse(success: bool, data: uint32)

  /** Request and response of the canopen_interfaces/srv/COWrite service. */
  datatype COWriteRequest = COWriteRequest(index: uint16, subindex: uint8, data: uint32)
  datatype COWriteResponse = COWriteResponse(success: bool)

  /** Response of the std_srvs/srv/Trigger service; the handlers only set success. */
  datatype TriggerResponse = TriggerResponse(success: bool, message: string)
}
