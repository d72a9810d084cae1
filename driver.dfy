/** The proxy driver node: the handlers of NodeCanopenProxyDriver working on
    shared state. The master driver, the ROS publishers and the diagnostic
    collector are seen through what the handlers do to them, recorded in
    order in log; the collector's state is kept as well, because
    diagnostic_callback reads it back. */
module ProxyDriverNode {
  import opened CanopenTypes
  import opened Diagnostics
  import opened ProxyRules
  import opened ProxyTraces

  class ProxyDriver {
    /** The base driver's activation flag. The handlers read it and never
        write it; the lifecycle that sets it is not part of this model. */
    var activated: bool
    /** The diagnostic collector shared with the base driver, which writes
        its DEVICE and EMCY entries; of the handlers only on_nmt writes it. */
    var collector: Collector
    /** Every driver call, publish and collector update made so far, in order. */
    var log: seq<Effect>

    /** The handler invocations so far, with the flag each one read. */
    ghost var inputs: seq<Input>

    /** The log is exactly what the invocations so far produce. The
        collector is not tied to the log: the base driver writes to it too. */
    ghost predicate Valid()
      reads this
    {
      log == Run(inputs)
    }

    constructor (activated: bool, collector: Collector)
      ensures Valid()
      ensures this.activated == activated && this.collector == collector
      ensures log == [] && inputs == []
    {
      this.activated := activated;
      this.collector := collector;
      log := [];
      inputs := [];
    }

    /** on_nmt: when activated, the NMT entry of the collector and the
        overall level and message take the table's report for the state,
        and then its label is published; when not, nothing happens. */
    method OnNmt(s: NmtState)
      requires Valid()
      modifies this`log, this`collector, this`inputs
      ensures Valid()
      ensures inputs == old(inputs) + [Input(activated, NmtStateChanged(s))]
      ensures log == old(log) + NmtEffects(activated, s)
      ensures collector == if activated then old(collector).UpdateAll(ReportUpdate(NmtTranslate(s))) else old(collector)
    {
      if activated {
        var report := NmtTranslate(s);
        var update := Update(report.level, report.message, "NMT", report.name);
        collector := collector.UpdateAll(update);
        log := log + [DiagnosticUpdated(update)];
        log := log + [NmtStatePublished(report.name)];
      }
      inputs := inputs + [Input(activated, NmtStateChanged(s))];
      RunAppend(old(inputs), Input(activated, NmtStateChanged(s)));
    }

    /** tpdo_transmit: hands the triple to the master driver when activated
        and answers whether it did. */
    method TpdoTransmit(d: COData) returns (ok: bool)
      requires Valid()
      modifies this`log, this`inputs
      ensures Valid()
      ensures inputs == old(inputs) + [Input(activated, TpdoTransmitCalled(d))]
      ensures ok == TpdoTransmitStep(activated, d).reply
      ensures log == old(log) + TpdoTransmitStep(activated, d).effects
    {
      if activated {
        log := log + [Called(DriverCall.TpdoTransmit(d))];
        ok := true;
      } else {
        ok := false;
      }
      inputs := inputs + [Input(activated, TpdoTransmitCalled(d))];
      RunAppend(old(inputs), Input(activated, TpdoTransmitCalled(d)));
    }

    /** on_tpdo: the message from the tpdo topic is transmitted field for
        field; a refusal is only logged. */
    method OnTpdo(msg: CODataMsg)
      requires Valid()
      modifies this`log, this`inputs
      ensures Valid()
      ensures inputs == old(inputs) + [Input(activated, TpdoTransmitCalled(FromMsg(msg)))]
      ensures log == old(log) + TpdoTransmitStep(activated, FromMsg(msg)).effects
    {
      var data := COData(msg.index, msg.subindex, msg.data);
      var ok := TpdoTransmit(data);
    }

    /** on_rpdo: when activated, the driver's triple is published on the
        rpdo topic; otherwise it is dropped. */
    method OnRpdo(d: COData)
      requires Valid()
      modifies this`log, this`inputs
      ensures Valid()
      ensures inputs == old(inputs) + [Input(activated, RpdoReceived(d))]
      ensures log == old(log) + RpdoEffects(activated, d)
    {
      if activated {
        var message := CODataMsg(d.index, d.subindex, d.data);
        log := log + [RpdoPublished(message)];
      }
      inputs := inputs + [Input(activated, RpdoReceived(d))];
      RunAppend(old(inputs), Input(activated, RpdoReceived(d)));
    }

    /** reset_node_nmt_command: sends RESET_NODE when activated. */
    method ResetNodeNmtCommand() returns (ok: bool)
      requires Valid()
      modifies this`log, this`inputs
      ensures Valid()
      ensures inputs == old(inputs) + [Input(activated, ResetNodeCalled)]
      ensures ok == CommandStep(activated, CommandResetNode).reply
      ensures log == old(log) + CommandStep(activated, CommandResetNode).effects
    {
      if activated {
        log := log + [Called(SendNmtCommand(CommandResetNode))];
        ok := true;
      } else {
        ok := false;
      }
      inputs := inputs + [Input(activated, ResetNodeCalled)];
      RunAppend(old(inputs), Input(activated, ResetNodeCalled));
    }

    /** on_nmt_state_reset: the nmt_reset_node service answers whether the
        command was sent. */
    method OnNmtStateReset() returns (response: TriggerResponse)
      requires Valid()
      modifies this`log, this`inputs
      ensures Valid()
      ensures inputs == old(inputs) + [Input(activated, ResetNodeCalled)]
      ensures response == TriggerResponse(CommandStep(activated, CommandResetNode).reply, "")
      ensures log == old(log) + CommandStep(activated, CommandResetNode).effects
    {
      var ok := ResetNodeNmtCommand();
      response := TriggerResponse(ok, "");
    }

    /** start_node_nmt_command: sends START when activated. */
    method StartNodeNmtCommand() returns (ok: bool)
      requires Valid()
      modifies this`log, this`inputs
      ensures Valid()
      ensures inputs == old(inputs) + [Input(activated, StartNodeCalled)]
      ensures ok == CommandStep(activated, CommandStart).reply
      ensures log == old(log) + CommandStep(activated, CommandStart).effects
    {
      if activated {
        log := log + [Called(SendNmtCommand(CommandStart))];
        ok := true;
      } else {
        ok := false;
      }
      inputs := inputs + [Input(activated, StartNodeCalled)];
      RunAppend(old(inputs), Input(activated, StartNodeCalled));
    }

    /** on_nmt_state_start: the nmt_start_node service answers whether the
        command was sent. */
    method OnNmtStateStart() returns (response: TriggerResponse)
      requires Valid()
      modifies this`log, this`inputs
      ensures Valid()
      ensures inputs == old(inputs) + [Input(activated, StartNodeCalled)]
      ensures response == TriggerResponse(CommandStep(activated, CommandStart).reply, "")
      ensures log == old(log) + CommandStep(activated, CommandStart).effects
    {
      var ok := StartNodeNmtCommand();
      response := TriggerResponse(ok, "");
    }

    /** sdo_read: d is the in/out argument, returned as data. When activated,
        one asynchronous read is issued and result is what waiting on it
        yields; the value is copied only when the read delivered one. */
    method SdoRead(d: COData, result: Future<COData>) returns (ok: bool, data: COData)
      requires Valid()
      modifies this`log, this`inputs
      ensures Valid()
      ensures inputs == old(inputs) + [Input(activated, SdoReadCalled(d, result))]
      ensures SdoReadReply(ok, data) == SdoReadStep(activated, d, result).reply
      ensures log == old(log) + SdoReadStep(activated, d, result).effects
    {
      data := d;
      if activated {
        log := log + [Called(AsyncSdoRead(d))];
        match result
        case Ready(v) =>
          data := data.(data := v.data);
          ok := true;
        case Raised(_) =>
          ok := false;
      } else {
        ok := false;
      }
      inputs := inputs + [Input(activated, SdoReadCalled(d, result))];
      RunAppend(old(inputs), Input(activated, SdoReadCalled(d, result)));
    }

    /** on_sdo_read: reads the requested address starting from the value 0
        and answers the outcome with the value read. */
    method OnSdoRead(req: COReadRequest, result: Future<COData>) returns (response: COReadResponse)
      requires Valid()
      modifies this`log, this`inputs
      ensures Valid()
      ensures inputs == old(inputs) + [Input(activated, SdoReadCalled(COData(req.index, req.subindex, 0), result))]
      ensures response == OnSdoReadStep(activated, req, result).reply
      ensures log == old(log) + OnSdoReadStep(activated, req, result).effects
    {
      var data := COData(req.index, req.subindex, 0);
      var ok;
      ok, data := SdoRead(data, result);
      response := COReadResponse(ok, data.data);
    }

    /** sdo_write: when activated, one asynchronous write of the triple is
        issued and result is what waiting on it yields. */
    method SdoWrite(d: COData, result: Future<bool>) returns (ok: bool)
      requires Valid()
      modifies this`log, this`inputs
      ensures Valid()
      ensures inputs == old(inputs) + [Input(activated, SdoWriteCalled(d, result))]
      ensures ok == SdoWriteStep(activated, d, result).reply
      ensures log == old(log) + SdoWriteStep(activated, d, result).effects
    {
      if activated {
        log := log + [Called(AsyncSdoWrite(d))];
        match result
        case Ready(written) =>
          ok := written;
        case Raised(_) =>
          ok := false;
      } else {
        ok := false;
      }
      inputs := inputs + [Input(activated, SdoWriteCalled(d, result))];
      RunAppend(old(inputs), Input(activated, SdoWriteCalled(d, result)));
    }

    /** on_sdo_write: writes the request's triple and answers the outcome. */
    method OnSdoWrite(req: COWriteRequest, result: Future<bool>) returns (response: COWriteResponse)
      requires Valid()
      modifies this`log, this`inputs
      ensures Valid()
      ensures inputs == old(inputs) + [Input(activated, SdoWriteCalled(COData(req.index, req.subindex, req.data), result))]
      ensures response == OnSdoWriteStep(activated, req, result).reply
      ensures log == old(log) + OnSdoWriteStep(activated, req, result).effects
    {
      var data := COData(req.index, req.subindex, req.data);
      var ok := SdoWrite(data, result);
      response := COWriteResponse(ok);
    }

    /** diagnostic_callback: reads the collector back, whether or not the
        proxy is activated, and changes nothing. */
    method DiagnosticCallback() returns (stat: Status)
      ensures stat == Summarize(collector)
    {
      stat := Status(collector.level, collector.message, []);
      stat := stat.(values := stat.values + [KeyValue("device_state", collector.GetValue("DEVICE"))]);
      stat := stat.(values := stat.values + [KeyValue("nmt_state", collector.GetValue("NMT"))]);
      stat := stat.(values := stat.values + [KeyValue("emcy_state", collector.GetValue("EMCY"))]);
    }
  }
}
