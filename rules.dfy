/** The rules of the proxy driver's handlers, one step function per handler:
    given the activation flag the handler reads and its input, what it
    answers and what it does to the outside world. */
module ProxyRules {
  import opened CanopenTypes
  import opened Diagnostics

  /** A call the proxy makes on the Lely master driver. */
  datatype DriverCall =
    | TpdoTransmit(data: COData)
    | SendNmtCommand(cmd: NmtCommand)
    | AsyncSdoRead(data: COData)
    | AsyncSdoWrite(data: COData)

  /** Something the proxy does that another component can observe. */
  datatype Effect =
    | Called(call: DriverCall)
    | NmtStatePublished(name: string)
    | RpdoPublished(msg: CODataMsg)
    | DiagnosticUpdated(update: Update)

  /** A handler's answer together with the effects it had, in order. */
  datatype Step<R> = Step(reply: R, effects: seq<Effect>)

  /** What on_nmt reports for one NMT state. */
  datatype NmtReport = NmtReport(name: string, level: Level, message: string)

  /** Every label on_nmt can publish. */
  const NmtLabels: set<string> :=
    {"BOOTUP", "PREOP", "RESET_COMM", "RESET_NODE", "START", "STOP", "TOGGLE", "ERROR"}

  /** The fixed table of on_nmt: both reset states warn, a state the switch
      does not list is an error, every other state is fine. */
  function NmtTranslate(s: NmtState): (r: NmtReport)
    ensures r.name in NmtLabels
    ensures r.level == Warn <==> s == ResetComm || s == ResetNode
    ensures r.level == Error <==> s.Unrecognised?
    ensures r.level == Ok <==> !(s == ResetComm || s == ResetNode || s.Unrecognised?)
    ensures r.name == "ERROR" <==> s.Unrecognised?
  {
    match s
    case Bootup => NmtReport("BOOTUP", Ok, "NMT bootup")
    case PreOp => NmtReport("PREOP", Ok, "NMT preop")
    case ResetComm => NmtReport("RESET_COMM", Warn, "NMT reset comm")
    case ResetNode => NmtReport("RESET_NODE", Warn, "NMT reset node")
    case Start => NmtReport("START", Ok, "NMT start")
    case Stop => NmtReport("STOP", Ok, "NMT stop")
    case Toggle => NmtReport("TOGGLE", Ok, "NMT toggle")
    case Unrecognised(_) => NmtReport("ERROR", Error, "NMT unknown state")
  }

  /** The state a published label names, if it names one. */
  function StateOfLabel(name: string): Option<NmtState>
  {
    if name == "BOOTUP" then Some(Bootup)
    else if name == "PREOP" then Some(PreOp)
    else if name == "RESET_COMM" then Some(ResetComm)
    else if name == "RESET_NODE" then Some(ResetNode)
    else if name == "START" then Some(Start)
    else if name == "STOP" then Some(Stop)
    else if name == "TOGGLE" then Some(Toggle)
    else None
  }

  /** A published label identifies the listed state it was made from, so
      distinct listed states are told apart on the topic. */
  lemma LabelIdentifiesState(s: NmtState)
    ensures StateOfLabel(NmtTranslate(s).name) == if s.Unrecognised? then None else Some(s)
  {
  }

  /** The collector update on_nmt makes for a report: the NMT entry gets the
      published label as its value. */
  function ReportUpdate(r: NmtReport): (u: Update)
    ensures u.key == "NMT" && u.value == r.name
    ensures u.level == r.level && u.message == r.message
  {
    Update(r.level, r.message, "NMT", r.name)
  }

  /** on_nmt: when activated, one collector update under "NMT" followed by one
      publish of the same label; when not, nothing at all. */
  function NmtEffects(activated: bool, s: NmtState): (e: seq<Effect>)
    ensures !activated ==> e == []
    ensures activated ==> |e| == 2 && e[0].DiagnosticUpdated? && e[1].NmtStatePublished?
    ensures activated ==> e[0].update.key == "NMT" && e[0].update.value == e[1].name
    ensures activated ==> e[0].update.level == NmtTranslate(s).level
    ensures activated ==> e[1].name == NmtTranslate(s).name && e[0].update.message == NmtTranslate(s).message
  {
    if activated then
      var r := NmtTranslate(s);
      [DiagnosticUpdated(ReportUpdate(r)), NmtStatePublished(r.name)]
    else
      []
  }

  /** tpdo_transmit: answers the activation flag, and hands the unchanged
      triple to the driver exactly once when activated, never otherwise. */
  function TpdoTransmitStep(activated: bool, d: COData): (r: Step<bool>)
    ensures r.reply == activated
    ensures |r.effects| == (if activated then 1 else 0)
    ensures forall x <- r.effects :: x == Called(TpdoTransmit(d))
  {
    if activated then Step(true, [Called(TpdoTransmit(d))]) else Step(false, [])
  }

  /** on_rpdo: when activated, exactly one rpdo message carrying the driver's
      triple verbatim; nothing otherwise, and never a driver call. */
  function RpdoEffects(activated: bool, d: COData): (e: seq<Effect>)
    ensures |e| == (if activated then 1 else 0)
    ensures forall x <- e :: x.RpdoPublished? && FromMsg(x.msg) == d
  {
    if activated then [RpdoPublished(ToMsg(d))] else []
  }

  /** reset_node_nmt_command and start_node_nmt_command: true and exactly one
      command sent when activated; false and nothing sent otherwise. */
  function CommandStep(activated: bool, cmd: NmtCommand): (r: Step<bool>)
    ensures r.reply == activated
    ensures |r.effects| == (if activated then 1 else 0)
    ensures forall x <- r.effects :: x == Called(SendNmtCommand(cmd))
  {
    if activated then Step(true, [Called(SendNmtCommand(cmd))]) else Step(false, [])
  }

  /** What sdo_read answers and leaves in its in/out argument. */
  datatype SdoReadReply = SdoReadReply(success: bool, data: COData)

  /** sdo_read: when activated, one asynchronous read of the given address;
      success only when the driver delivers a value, and only then is the
      value copied into the argument. The address is never changed. */
  function SdoReadStep(activated: bool, d: COData, f: Future<COData>): (r: Step<SdoReadReply>)
    ensures r.reply.success <==> activated && f.Ready?
    ensures r.reply.data.index == d.index && r.reply.data.subindex == d.subindex
    ensures r.reply.data.data == if r.reply.success then f.value.data else d.data
    ensures |r.effects| == (if activated then 1 else 0)
    ensures forall x <- r.effects :: x == Called(AsyncSdoRead(d))
  {
    if !activated then
      Step(SdoReadReply(false, d), [])
    else
      match f
      case Ready(v) => Step(SdoReadReply(true, d.(data := v.data)), [Called(AsyncSdoRead(d))])
      case Raised(_) => Step(SdoReadReply(false, d), [Called(AsyncSdoRead(d))])
  }

  /** on_sdo_read: the read starts from the value 0, so a response that
      failed always carries 0 and a successful one the driver's value. */
  function OnSdoReadStep(activated: bool, req: COReadRequest, f: Future<COData>): (r: Step<COReadResponse>)
    ensures r.reply.success <==> activated && f.Ready?
    ensures r.reply.data == if r.reply.success then f.value.data else 0
    ensures |r.effects| == (if activated then 1 else 0)
    ensures forall x <- r.effects :: x == Called(AsyncSdoRead(COData(req.index, req.subindex, 0)))
  {
    var s := SdoReadStep(activated, COData(req.index, req.subindex, 0), f);
    Step(COReadResponse(s.reply.success, s.reply.data.data), s.effects)
  }

  /** sdo_write: when activated, one asynchronous write of the triple, and the
      driver's own answer (false if it failed); false and nothing otherwise. */
  function SdoWriteStep(activated: bool, d: COData, f: Future<bool>): (r: Step<bool>)
    ensures r.reply <==> activated && f == Ready(true)
    ensures |r.effects| == (if activated then 1 else 0)
    ensures forall x <- r.effects :: x == Called(AsyncSdoWrite(d))
  {
    if !activated then
      Step(false, [])
    else
      match f
      case Ready(ok) => Step(ok, [Called(AsyncSdoWrite(d))])
      case Raised(_) => Step(false, [Called(AsyncSdoWrite(d))])
  }

  /** on_sdo_write: the request's triple is written unchanged. */
  function OnSdoWriteStep(activated: bool, req: COWriteRequest, f: Future<bool>): (r: Step<COWriteResponse>)
    ensures r.reply.success <==> activated && f == Ready(true)
    ensures |r.effects| == (if activated then 1 else 0)
    ensures forall x <- r.effects :: x == Called(AsyncSdoWrite(COData(req.index, req.subindex, req.data)))
  {
    var s := SdoWriteStep(activated, COData(req.index, req.subindex, req.data), f);
    Step(COWriteResponse(s.reply), s.effects)
  }

  /** One handler invocation, with the driver's outcome where it has one.
      The ROS callbacks map onto these: on_tpdo is TpdoTransmitCalled of the
      converted message, on_sdo_read is SdoReadCalled with the value 0, and
      so on. */
  datatype Event =
    | NmtStateChanged(state: NmtState)
    | TpdoTransmitCalled(data: COData)
    | RpdoReceived(data: COData)
    | ResetNodeCalled
    | StartNodeCalled
    | SdoReadCalled(data: COData, readResult: Future<COData>)
    | SdoWriteCalled(data: COData, writeResult: Future<bool>)

  /** The driver call an event asks for, stated apart from the handlers. */
  function RequestedCall(ev: Event): Option<DriverCall>
  {
    match ev
    case NmtStateChanged(_) => None
    case TpdoTransmitCalled(d) => Some(TpdoTransmit(d))
    case RpdoReceived(_) => None
    case ResetNodeCalled => Some(SendNmtCommand(CommandResetNode))
    case StartNodeCalled => Some(SendNmtCommand(CommandStart))
    case SdoReadCalled(d, _) => Some(AsyncSdoRead(d))
    case SdoWriteCalled(d, _) => Some(AsyncSdoWrite(d))
  }

  /** The effects of one handler invocation. The activation gate closes every
      handler, and the only driver call a handler makes is the one its event
      asks for. */
  function EventEffects(activated: bool, ev: Event): (e: seq<Effect>)
    ensures !activated ==> e == []
    ensures forall x <- e :: x.Called? ==> RequestedCall(ev) == Some(x.call)
  {
    match ev
    case NmtStateChanged(s) => NmtEffects(activated, s)
    case TpdoTransmitCalled(d) => TpdoTransmitStep(activated, d).effects
    case RpdoReceived(d) => RpdoEffects(activated, d)
    case ResetNodeCalled => CommandStep(activated, CommandResetNode).effects
    case StartNodeCalled => CommandStep(activated, CommandStart).effects
    case SdoReadCalled(d, f) => SdoReadStep(activated, d, f).effects
    case SdoWriteCalled(d, f) => SdoWriteStep(activated, d, f).effects
  }
}
