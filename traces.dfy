/** What any sequence of handler invocations does, and what the proxy promises
    about it: the driver sees exactly the activated requests, RPDO values are
    republished verbatim, and the collector ends up holding the last NMT
    report. */
module ProxyTraces {
  import opened CanopenTypes
  import opened Diagnostics
  import opened ProxyRules

  /** One handler invocation and the activation flag it read. */
  datatype Input = Input(activated: bool, event: Event)

  /** The effects of invoking the handlers one after another. */
  function Run(ins: seq<Input>): seq<Effect>
  {
    if ins == [] then [] else EventEffects(ins[0].activated, ins[0].event) + Run(ins[1..])
  }

  /** The calls made on the master driver, in order. */
  function DriverCalls(log: seq<Effect>): seq<DriverCall>
  {
    if log == [] then []
    else (if log[0].Called? then [log[0].call] else []) + DriverCalls(log[1..])
  }

  /** The labels published on the nmt_state topic, in order. */
  function PublishedNmt(log: seq<Effect>): seq<string>
  {
    if log == [] then []
    else (if log[0].NmtStatePublished? then [log[0].name] else []) + PublishedNmt(log[1..])
  }

  /** The messages published on the rpdo topic, in order. */
  function PublishedRpdo(log: seq<Effect>): seq<CODataMsg>
  {
    if log == [] then []
    else (if log[0].RpdoPublished? then [log[0].msg] else []) + PublishedRpdo(log[1..])
  }

  /** The collector after it has received the updates of a log. */
  function CollectorAfter(c: Collector, log: seq<Effect>): Collector
    decreases |log|
  {
    if log == [] then c
    else CollectorAfter(if log[0].DiagnosticUpdated? then c.UpdateAll(log[0].update) else c, log[1..])
  }

  /** The log is made of single effects and pairs, where every collector
      update is immediately followed by the NMT publish of its value and no
      NMT publish appears anywhere else. */
  ghost predicate PairedLog(log: seq<Effect>)
  {
    if log == [] then true
    else if log[0].DiagnosticUpdated? then
      |log| >= 2 && log[1].NmtStatePublished? &&
      log[0].update.key == "NMT" && log[0].update.value == log[1].name &&
      PairedLog(log[2..])
    else
      !log[0].NmtStatePublished? && PairedLog(log[1..])
  }

  // Reference definitions over the inputs, stated without the handlers.

  /** The driver calls the activated inputs ask for, in order. */
  function Requests(ins: seq<Input>): seq<DriverCall>
  {
    if ins == [] then []
    else
      var c := RequestedCall(ins[0].event);
      (if ins[0].activated && c.Some? then [c.value] else []) + Requests(ins[1..])
  }

  /** The RPDO values delivered while activated, as messages, in order. */
  function ActiveRpdo(ins: seq<Input>): seq<CODataMsg>
  {
    if ins == [] then []
    else
      (if ins[0].activated && ins[0].event.RpdoReceived? then [ToMsg(ins[0].event.data)] else [])
      + ActiveRpdo(ins[1..])
  }

  /** The labels of the NMT states delivered while activated, in order. */
  function ActiveNmtNames(ins: seq<Input>): seq<string>
  {
    if ins == [] then []
    else
      (if ins[0].activated && ins[0].event.NmtStateChanged? then [NmtTranslate(ins[0].event.state).name] else [])
      + ActiveNmtNames(ins[1..])
  }

  /** The report of the last NMT state delivered while activated, if any. */
  function LastNmtReport(ins: seq<Input>): Option<NmtReport>
  {
    if ins == [] then None
    else
      match LastNmtReport(ins[1..])
      case Some(r) => Some(r)
      case None =>
        if ins[0].activated && ins[0].event.NmtStateChanged? then Some(NmtTranslate(ins[0].event.state)) else None
  }

  /** The collector updated by a report, or left alone when there is none. */
  function AfterReport(c: Collector, r: Option<NmtReport>): Collector
  {
    match r
    case None => c
    case Some(r) => c.UpdateAll(ReportUpdate(r))
  }

  // Composition of logs.

  lemma {:induction false} RunAppend(ins: seq<Input>, i: Input)
    ensures Run(ins + [i]) == Run(ins) + EventEffects(i.activated, i.event)
  {
    if ins == [] {
      assert ins + [i] == [i];
      assert [i][1..] == [];
    } else {
      var e0 := EventEffects(ins[0].activated, ins[0].event);
      assert (ins + [i])[0] == ins[0];
      assert (ins + [i])[1..] == ins[1..] + [i];
      calc {
        Run(ins + [i]);
        e0 + Run(ins[1..] + [i]);
        { RunAppend(ins[1..], i); }
        e0 + (Run(ins[1..]) + EventEffects(i.activated, i.event));
      }
    }
  }

  lemma {:induction false} DriverCallsConcat(a: seq<Effect>, b: seq<Effect>)
    ensures DriverCalls(a + b) == DriverCalls(a) + DriverCalls(b)
  {
    if a == [] {
      assert a + b == b;
    } else {
      assert (a + b)[0] == a[0];
      assert (a + b)[1..] == a[1..] + b;
      DriverCallsConcat(a[1..], b);
    }
  }

  lemma {:induction false} PublishedNmtConcat(a: seq<Effect>, b: seq<Effect>)
    ensures PublishedNmt(a + b) == PublishedNmt(a) + PublishedNmt(b)
  {
    if a == [] {
      assert a + b == b;
    } else {
      assert (a + b)[0] == a[0];
      assert (a + b)[1..] == a[1..] + b;
      PublishedNmtConcat(a[1..], b);
    }
  }

  lemma {:induction false} PublishedRpdoConcat(a: seq<Effect>, b: seq<Effect>)
    ensures PublishedRpdo(a + b) == PublishedRpdo(a) + PublishedRpdo(b)
  {
    if a == [] {
      assert a + b == b;
    } else {
      assert (a + b)[0] == a[0];
      assert (a + b)[1..] == a[1..] + b;
      PublishedRpdoConcat(a[1..], b);
    }
  }

  lemma {:induction false} CollectorAfterConcat(c: Collector, a: seq<Effect>, b: seq<Effect>)
    ensures CollectorAfter(c, a + b) == CollectorAfter(CollectorAfter(c, a), b)
    decreases |a|
  {
    if a == [] {
      assert a + b == b;
    } else {
      assert (a + b)[0] == a[0];
      assert (a + b)[1..] == a[1..] + b;
      CollectorAfterConcat(if a[0].DiagnosticUpdated? then c.UpdateAll(a[0].update) else c, a[1..], b);
    }
  }

  lemma {:induction false} PairedConcat(a: seq<Effect>, b: seq<Effect>)
    requires PairedLog(a) && PairedLog(b)
    ensures PairedLog(a + b)
  {
    if a == [] {
      assert a + b == b;
    } else if a[0].DiagnosticUpdated? {
      assert (a + b)[2..] == a[2..] + b;
      PairedConcat(a[2..], b);
    } else {
      assert (a + b)[1..] == a[1..] + b;
      PairedConcat(a[1..], b);
    }
  }

  // One invocation.

  /** The driver sees exactly the call the event asks for when activated. */
  lemma EventDriverCalls(activated: bool, ev: Event)
    ensures DriverCalls(EventEffects(activated, ev)) ==
            if activated && RequestedCall(ev).Some? then [RequestedCall(ev).value] else []
  {
    var e := EventEffects(activated, ev);
    if activated {
      match ev
      case NmtStateChanged(st) =>
        assert e == [DiagnosticUpdated(ReportUpdate(NmtTranslate(st))), NmtStatePublished(NmtTranslate(st).name)];
        assert e[1..] == [e[1]] && e[1..][1..] == [];
        assert DriverCalls(e[1..]) == [];
      case _ =>
        assert |e| == 1 && e[1..] == [];
    }
  }

  lemma EventPublishedNmt(activated: bool, ev: Event)
    ensures PublishedNmt(EventEffects(activated, ev)) ==
            if activated && ev.NmtStateChanged? then [NmtTranslate(ev.state).name] else []
  {
    var e := EventEffects(activated, ev);
    if activated {
      match ev
      case NmtStateChanged(st) =>
        assert e == [DiagnosticUpdated(ReportUpdate(NmtTranslate(st))), NmtStatePublished(NmtTranslate(st).name)];
        assert e[1..] == [e[1]] && e[1..][1..] == [];
        assert PublishedNmt(e[1..]) == [NmtTranslate(st).name];
      case _ =>
        assert |e| == 1 && e[1..] == [];
    }
  }

  lemma EventPublishedRpdo(activated: bool, ev: Event)
    ensures PublishedRpdo(EventEffects(activated, ev)) ==
            if activated && ev.RpdoReceived? then [ToMsg(ev.data)] else []
  {
    var e := EventEffects(activated, ev);
    if activated {
      match ev
      case NmtStateChanged(st) =>
        assert e == [DiagnosticUpdated(ReportUpdate(NmtTranslate(st))), NmtStatePublished(NmtTranslate(st).name)];
        assert e[1..] == [e[1]] && e[1..][1..] == [];
        assert PublishedRpdo(e[1..]) == [];
      case _ =>
        assert |e| == 1 && e[1..] == [];
    }
  }

  lemma EventCollector(c: Collector, activated: bool, ev: Event)
    ensures CollectorAfter(c, EventEffects(activated, ev)) ==
            if activated && ev.NmtStateChanged? then c.UpdateAll(ReportUpdate(NmtTranslate(ev.state))) else c
  {
    var e := EventEffects(activated, ev);
    if activated {
      match ev
      case NmtStateChanged(st) =>
        assert e == [DiagnosticUpdated(ReportUpdate(NmtTranslate(st))), NmtStatePublished(NmtTranslate(st).name)];
        assert e[1..] == [e[1]] && e[1..][1..] == [];
        assert CollectorAfter(c.UpdateAll(e[0].update), e[1..]) == c.UpdateAll(e[0].update);
      case _ =>
        assert |e| == 1 && e[1..] == [];
    }
  }

  lemma EventPaired(activated: bool, ev: Event)
    ensures PairedLog(EventEffects(activated, ev))
  {
  }

  // Any sequence of invocations.

  /** One more invocation appends its own effects to the log, and changes the
      collector only if it is an NMT state delivered while activated. */
  lemma RunStep(c: Collector, ins: seq<Input>, i: Input)
    ensures Run(ins + [i]) == Run(ins) + EventEffects(i.activated, i.event)
    ensures CollectorAfter(c, Run(ins + [i])) ==
            var before := CollectorAfter(c, Run(ins));
            if i.activated && i.event.NmtStateChanged? then before.UpdateAll(ReportUpdate(NmtTranslate(i.event.state))) else before
  {
    RunAppend(ins, i);
    CollectorAfterConcat(c, Run(ins), EventEffects(i.activated, i.event));
    EventCollector(CollectorAfter(c, Run(ins)), i.activated, i.event);
  }

  /** While the proxy is not activated, nothing it receives has any effect. */
  lemma {:induction false} RunInactive(ins: seq<Input>)
    requires forall i :: 0 <= i < |ins| ==> !ins[i].activated
    ensures Run(ins) == []
  {
    if ins != [] {
      RunInactive(ins[1..]);
    }
  }

  /** The master driver is called exactly once per activated request, with
      the request's own arguments and in the order of the requests, and at no
      other time. */
  lemma {:induction false} RunDriverCalls(ins: seq<Input>)
    ensures DriverCalls(Run(ins)) == Requests(ins)
  {
    if ins != [] {
      DriverCallsConcat(EventEffects(ins[0].activated, ins[0].event), Run(ins[1..]));
      EventDriverCalls(ins[0].activated, ins[0].event);
      RunDriverCalls(ins[1..]);
    }
  }

  /** Every RPDO value delivered while activated is republished exactly once,
      verbatim and in order; nothing else is published on the rpdo topic. */
  lemma {:induction false} RunPublishedRpdo(ins: seq<Input>)
    ensures PublishedRpdo(Run(ins)) == ActiveRpdo(ins)
  {
    if ins != [] {
      PublishedRpdoConcat(EventEffects(ins[0].activated, ins[0].event), Run(ins[1..]));
      EventPublishedRpdo(ins[0].activated, ins[0].event);
      RunPublishedRpdo(ins[1..]);
    }
  }

  /** One label is published per NMT state delivered while activated, in
      order, and every published label is one of the eight of the table. */
  lemma {:induction false} RunPublishedNmt(ins: seq<Input>)
    ensures PublishedNmt(Run(ins)) == ActiveNmtNames(ins)
    ensures forall k :: 0 <= k < |PublishedNmt(Run(ins))| ==> PublishedNmt(Run(ins))[k] in NmtLabels
  {
    if ins != [] {
      PublishedNmtConcat(EventEffects(ins[0].activated, ins[0].event), Run(ins[1..]));
      EventPublishedNmt(ins[0].activated, ins[0].event);
      RunPublishedNmt(ins[1..]);
    }
  }

  /** Of the proxy's own writes, only the last NMT report made while
      activated (if any) is left in the collector: earlier reports are
      overwritten and no other handler writes to it. Writes by other
      components between the invocations are not part of a run. */
  lemma {:induction false} RunCollector(c: Collector, ins: seq<Input>)
    ensures CollectorAfter(c, Run(ins)) == AfterReport(c, LastNmtReport(ins))
    decreases |ins|
  {
    if ins != [] {
      var e := EventEffects(ins[0].activated, ins[0].event);
      CollectorAfterConcat(c, e, Run(ins[1..]));
      EventCollector(c, ins[0].activated, ins[0].event);
      RunCollector(CollectorAfter(c, e), ins[1..]);
      match LastNmtReport(ins[1..])
      case None =>
      case Some(r) =>
        if ins[0].activated && ins[0].event.NmtStateChanged? {
          UpdateAllOverwrites(c, ReportUpdate(NmtTranslate(ins[0].event.state)), ReportUpdate(r));
        }
    }
  }

  /** In any run, every collector update is immediately followed by the
      publish of the same NMT label, and every publish is preceded by one. */
  lemma {:induction false} RunPaired(ins: seq<Input>)
    ensures PairedLog(Run(ins))
  {
    if ins != [] {
      EventPaired(ins[0].activated, ins[0].event);
      RunPaired(ins[1..]);
      PairedConcat(EventEffects(ins[0].activated, ins[0].event), Run(ins[1..]));
    }
  }

  /** The diagnostic summary after any run, counting only the proxy's own
      writes: the handlers never touch the DEVICE and EMCY entries, and
      nmt_state with the overall level and message come from the last NMT
      report made while activated. */
  lemma SummaryAfterRun(c: Collector, ins: seq<Input>)
    ensures var s := Summarize(CollectorAfter(c, Run(ins)));
            s.values[0] == KeyValue("device_state", c.GetValue("DEVICE")) &&
            s.values[2] == KeyValue("emcy_state", c.GetValue("EMCY")) &&
            match LastNmtReport(ins)
            case None => s == Summarize(c)
            case Some(r) =>
              s.values[1] == KeyValue("nmt_state", r.name) && s.level == r.level && s.message == r.message
  {
    RunCollector(c, ins);
  }
}
