# CANopen proxy driver: verified model of the handler layer

This project models the handlers of `NodeCanopenProxyDriver`, the ROS 2
adapter that exposes one CANopen slave through the Lely master driver. Every
handler except `diagnostic_callback` first reads the base driver's activation
flag. If the flag is set, the handler does its work. If it is not, the handler
does nothing the model records (no driver call, publish or collector update)
and answers `false` where it answers at all. The handlers are:

- `on_nmt` turns an NMT state reported by the driver into a label on the
  `nmt_state` topic and an entry in the diagnostic collector. A fixed table
  gives the label, level and message.
- `tpdo_transmit` / `on_tpdo` relay an (index, subindex, value) triple to the
  driver.
- `on_rpdo` republishes a triple from the driver on the `rpdo` topic.
- `reset_node_nmt_command` / `start_node_nmt_command` and their services send
  one NMT command.
- `sdo_read` / `sdo_write` and their services run one SDO transfer and turn a
  failure reported through the future as a `std::exception` into `false`.
- `diagnostic_callback` reads the collector back.

Layout:

- `types.dfy` (module `CanopenTypes`): the driver triple `COData`, the ROS
  message and service types, `NmtState`, `NmtCommand`, and `Future<T>`. A
  `Future<T>` is the outcome of waiting on one of the driver's futures: a
  value, or the exception `get()` throws.
- `diagnostics.dfy` (module `Diagnostics`): the collector's observable state
  (overall level and message, one value per key), `updateAll`, `getValue`
  and the summary `diagnostic_callback` builds.
- `rules.dfy` (module `ProxyRules`): one pure step function per handler. A
  step function gives the handler's answer and its effects (driver calls,
  publishes, collector updates) in order, from the flag and the input. This
  module also holds the NMT table and its inverse.
- `traces.dfy` (module `ProxyTraces`): any sequence of handler invocations.
  Each invocation carries the flag value it read. The lemmas here relate the
  effects of the sequence to reference definitions stated over the inputs
  alone.
- `driver.dfy` (module `ProxyDriverNode`): the class `ProxyDriver`. Its fields
  are the flag, the collector and the ordered log of effects. It has one
  method per handler, written step by step as the source is, and each method
  is proved against its step function. The class invariant `Valid()` says the
  log is exactly what the invocations so far produce, so every lemma about
  runs applies to any sequence of calls on the class. The collector is shared
  with the base driver, which writes its DEVICE and EMCY entries, so `Valid()`
  does not tie the collector to the log; `OnNmt` states its own write to it.

The driver's asynchronous outcome is a parameter of the SDO handlers
(`Future<T>`), so the model does not use futures. The Lely driver, the ROS
publishers and the collector are seen only through what the handlers do to
them.

Three points of the code worth stating:

- `on_sdo_read` (lines 252-260) starts from the value 0 and `sdo_read`
  overwrites it only on success, so a failed read always answers 0.
  `OnSdoReadStep` states this.
- When not activated, `on_nmt`, `on_rpdo` and `tpdo_transmit` refuse without
  logging anything, while `on_tpdo`, both NMT commands and both SDO calls log
  an error. Logging is not modelled either way.
- `sdo_write` ends with a `return true` (line 329) after its try/catch. Both
  branches of the try/catch already return, so that line is never reached.
  The model has no such path.

## Model

| member | source | states |
|---|---|---|
| `CanopenTypes.MsgRoundTrip` | canopen_proxy_driver/include/canopen_proxy_driver/node_interfaces/node_canopen_proxy_driver_impl.hpp:171-208 | on_tpdo's message-to-triple conversion and on_rpdo's triple-to-message conversion are inverse to each other: no field is lost or altered |
| `Diagnostics.Collector.UpdateAll` | canopen_proxy_driver/include/canopen_proxy_driver/node_interfaces/node_canopen_proxy_driver_impl.hpp:122-123 | an update sets the overall level and message, stores its value under its key, and leaves every other key's value alone |
| `Diagnostics.UpdateAllOverwrites` | canopen_proxy_driver/include/canopen_proxy_driver/node_interfaces/node_canopen_proxy_driver_impl.hpp:122-159 | a later updateAll under the same key completely hides an earlier one |
| `ProxyRules.NmtTranslate` | canopen_proxy_driver/include/canopen_proxy_driver/node_interfaces/node_canopen_proxy_driver_impl.hpp:118-161 | the NMT table: every label is one of the eight; WARN exactly for RESET_COMM and RESET_NODE; ERROR level and label "ERROR" exactly for a state the switch does not list; OK for every other state |
| `ProxyRules.LabelIdentifiesState` | canopen_proxy_driver/include/canopen_proxy_driver/node_interfaces/node_canopen_proxy_driver_impl.hpp:120-154 | the published label names the listed state it came from (inverse of the table); an unlisted state names none |
| `ProxyRules.ReportUpdate` | canopen_proxy_driver/include/canopen_proxy_driver/node_interfaces/node_canopen_proxy_driver_impl.hpp:122-159 | on_nmt's collector update is filed under "NMT", with the published label as its value and the table's level and message |
| `ProxyRules.NmtEffects` | canopen_proxy_driver/include/canopen_proxy_driver/node_interfaces/node_canopen_proxy_driver_impl.hpp:112-168 | not activated: no effect at all; activated: exactly one collector update under "NMT" with the table's level and message and the table's label as value, then exactly one publish of that same label |
| `ProxyRules.TpdoTransmitStep` | canopen_proxy_driver/include/canopen_proxy_driver/node_interfaces/node_canopen_proxy_driver_impl.hpp:180-192 | answers the activation flag; exactly one transmit of the unchanged triple when activated, no effect otherwise |
| `ProxyRules.RpdoEffects` | canopen_proxy_driver/include/canopen_proxy_driver/node_interfaces/node_canopen_proxy_driver_impl.hpp:194-208 | exactly one rpdo publish when activated, whose message converts back to the driver's triple; nothing otherwise and never a driver call |
| `ProxyRules.CommandStep` | canopen_proxy_driver/include/canopen_proxy_driver/node_interfaces/node_canopen_proxy_driver_impl.hpp:218-250 | the reset and start commands answer the activation flag and send exactly one command of the given kind when activated, none otherwise |
| `ProxyRules.SdoReadStep` | canopen_proxy_driver/include/canopen_proxy_driver/node_interfaces/node_canopen_proxy_driver_impl.hpp:262-291 | success exactly when activated and the driver delivered a value; the address never changes; the value is the driver's on success and the caller's otherwise; one asynchronous read of the given triple iff activated |
| `ProxyRules.OnSdoReadStep` | canopen_proxy_driver/include/canopen_proxy_driver/node_interfaces/node_canopen_proxy_driver_impl.hpp:252-260 | the service response succeeds exactly when activated and the read delivered; it carries the driver's value on success and 0 otherwise; one read of (index, subindex, 0) iff activated |
| `ProxyRules.SdoWriteStep` | canopen_proxy_driver/include/canopen_proxy_driver/node_interfaces/node_canopen_proxy_driver_impl.hpp:302-333 | true exactly when activated and the driver answered true (a failure or a false answer gives false); one asynchronous write of the triple iff activated |
| `ProxyRules.OnSdoWriteStep` | canopen_proxy_driver/include/canopen_proxy_driver/node_interfaces/node_canopen_proxy_driver_impl.hpp:293-300 | the service writes the request's triple unchanged and succeeds exactly when activated and the driver answered true |
| `ProxyRules.EventEffects` | canopen_proxy_driver/include/canopen_proxy_driver/node_interfaces/node_canopen_proxy_driver_impl.hpp:111-333 | the activation gate: no handler has any effect while not activated; the only driver call any handler makes is the one its request asks for |
| `ProxyTraces.RunAppend` | canopen_proxy_driver/include/canopen_proxy_driver/node_interfaces/node_canopen_proxy_driver_impl.hpp:111-333 | the effects of a run followed by one more invocation are the run's effects followed by that invocation's |
| `ProxyTraces.RunStep` | canopen_proxy_driver/include/canopen_proxy_driver/node_interfaces/node_canopen_proxy_driver_impl.hpp:111-168 | one more invocation appends its own effects and changes the collector only when it is an NMT state delivered while activated |
| `ProxyTraces.RunInactive` | canopen_proxy_driver/include/canopen_proxy_driver/node_interfaces/node_canopen_proxy_driver_impl.hpp:111-333 | a run in which the flag is never set has no effect at all: no driver call, no publish, no collector update |
| `ProxyTraces.RunDriverCalls` | canopen_proxy_driver/include/canopen_proxy_driver/node_interfaces/node_canopen_proxy_driver_impl.hpp:180-333 | over any run, the master driver receives exactly the calls the activated requests ask for, with their own arguments, in order, and no others |
| `ProxyTraces.RunPublishedRpdo` | canopen_proxy_driver/include/canopen_proxy_driver/node_interfaces/node_canopen_proxy_driver_impl.hpp:194-208 | over any run, the rpdo topic carries exactly the RPDO triples delivered while activated, verbatim and in order, with no coalescing |
| `ProxyTraces.RunPublishedNmt` | canopen_proxy_driver/include/canopen_proxy_driver/node_interfaces/node_canopen_proxy_driver_impl.hpp:111-168 | over any run, the nmt_state topic carries one label per NMT state delivered while activated, in order, and each is one of the table's eight labels |
| `ProxyTraces.RunCollector` | canopen_proxy_driver/include/canopen_proxy_driver/node_interfaces/node_canopen_proxy_driver_impl.hpp:111-168 | after any run, counting the proxy's own writes only, the collector equals its initial state updated only by the last NMT report made while activated (unchanged if there was none) |
| `ProxyTraces.RunPaired` | canopen_proxy_driver/include/canopen_proxy_driver/node_interfaces/node_canopen_proxy_driver_impl.hpp:118-166 | in any run, every collector update is immediately followed by the publish of the same NMT label, and no label is published without one |
| `ProxyTraces.SummaryAfterRun` | canopen_proxy_driver/include/canopen_proxy_driver/node_interfaces/node_canopen_proxy_driver_impl.hpp:335-343 | after any run, counting the proxy's own writes only, the summary's device_state and emcy_state are as before; nmt_state, level and message come from the last NMT report made while activated, or the whole summary is unchanged if there was none |
| `ProxyDriverNode.ProxyDriver.constructor` | canopen_proxy_driver/include/canopen_proxy_driver/node_interfaces/node_canopen_proxy_driver_impl.hpp:23-27 | a new proxy has an empty log and the given flag and collector |
| `ProxyDriverNode.ProxyDriver.OnNmt` | canopen_proxy_driver/include/canopen_proxy_driver/node_interfaces/node_canopen_proxy_driver_impl.hpp:111-168 | appends NmtEffects to the log; the collector takes the table's report for the state when activated and is unchanged otherwise; keeps Valid |
| `ProxyDriverNode.ProxyDriver.TpdoTransmit` | canopen_proxy_driver/include/canopen_proxy_driver/node_interfaces/node_canopen_proxy_driver_impl.hpp:180-192 | answers and appends as TpdoTransmitStep; collector unchanged; keeps Valid |
| `ProxyDriverNode.ProxyDriver.OnTpdo` | canopen_proxy_driver/include/canopen_proxy_driver/node_interfaces/node_canopen_proxy_driver_impl.hpp:170-178 | transmits the message's triple field for field, exactly as TpdoTransmitStep of the converted message |
| `ProxyDriverNode.ProxyDriver.OnRpdo` | canopen_proxy_driver/include/canopen_proxy_driver/node_interfaces/node_canopen_proxy_driver_impl.hpp:194-208 | appends RpdoEffects to the log; keeps Valid |
| `ProxyDriverNode.ProxyDriver.ResetNodeNmtCommand` | canopen_proxy_driver/include/canopen_proxy_driver/node_interfaces/node_canopen_proxy_driver_impl.hpp:218-229 | answers and appends as CommandStep with RESET_NODE |
| `ProxyDriverNode.ProxyDriver.OnNmtStateReset` | canopen_proxy_driver/include/canopen_proxy_driver/node_interfaces/node_canopen_proxy_driver_impl.hpp:210-216 | the service's success is reset_node_nmt_command's answer |
| `ProxyDriverNode.ProxyDriver.StartNodeNmtCommand` | canopen_proxy_driver/include/canopen_proxy_driver/node_interfaces/node_canopen_proxy_driver_impl.hpp:239-250 | answers and appends as CommandStep with START |
| `ProxyDriverNode.ProxyDriver.OnNmtStateStart` | canopen_proxy_driver/include/canopen_proxy_driver/node_interfaces/node_canopen_proxy_driver_impl.hpp:231-237 | the service's success is start_node_nmt_command's answer |
| `ProxyDriverNode.ProxyDriver.SdoRead` | canopen_proxy_driver/include/canopen_proxy_driver/node_interfaces/node_canopen_proxy_driver_impl.hpp:262-291 | answer, in/out argument and log as SdoReadStep |
| `ProxyDriverNode.ProxyDriver.OnSdoRead` | canopen_proxy_driver/include/canopen_proxy_driver/node_interfaces/node_canopen_proxy_driver_impl.hpp:252-260 | response and log as OnSdoReadStep |
| `ProxyDriverNode.ProxyDriver.SdoWrite` | canopen_proxy_driver/include/canopen_proxy_driver/node_interfaces/node_canopen_proxy_driver_impl.hpp:302-333 | answer and log as SdoWriteStep |
| `ProxyDriverNode.ProxyDriver.OnSdoWrite` | canopen_proxy_driver/include/canopen_proxy_driver/node_interfaces/node_canopen_proxy_driver_impl.hpp:293-300 | response and log as OnSdoWriteStep |
| `ProxyDriverNode.ProxyDriver.DiagnosticCallback` | canopen_proxy_driver/include/canopen_proxy_driver/node_interfaces/node_canopen_proxy_driver_impl.hpp:335-343 | the status is the collector's summary: its level and message, then device_state, nmt_state and emcy_state from the DEVICE, NMT and EMCY values; not gated by activation, changes nothing |

## Left out

- The two `init` specialisations and the generic `init` (lines 29-109) are left out. They create publishers, subscriptions and services and build topic names. This is transport wiring with no decisions in it.
- The `sdo_mtex` scoped lock and the blocking `f.wait()` in `sdo_read` and `sdo_write` are left out. This is concurrency. Each SDO call is modelled as atomic, and its driver outcome is an input. The model therefore does not show that two SDO transfers never overlap.
- Exceptions derived from `std::exception` thrown by `f.get()` become the `Raised` outcome of `Future<T>`. Their text is carried but not used, because it only reaches the log.
- `ProxyRules.SdoReadStep` / `ProxyRules.SdoWriteStep` assume that `async_sdo_read` / `async_sdo_write` and `f.wait()` do not throw, and that `f.get()` throws only exceptions derived from `std::exception`. The call and the wait sit outside the `try`, and the `catch` takes only `std::exception` (lines 274-286 and 315-328), so any other exception escapes `sdo_read` / `sdo_write` and the service callbacks instead of becoming `false`. The model has no outcome for that path.
- Logging (`RCLCPP_INFO`, `RCLCPP_ERROR`) and `lely_driver_->get_id()` are left out. They only produce log text.
- Every handler invocation is modelled as atomic, and a run is the invocations one after another. The source runs the handlers as ROS and driver callbacks, which may interleave; in particular the collector update and the publish of one `on_nmt` call may be separated by another callback's effects. `ProxyTraces.RunPaired` (each update immediately followed by its publish) holds for this sequential model only.
- `ProxyTraces.RunCollector` and `ProxyTraces.SummaryAfterRun` describe only the proxy's own writes to the collector. The base driver also writes to it (the DEVICE and EMCY entries read at lines 340 and 342); those writes are not modelled, and `ProxyDriver.Valid()` does not relate the collector to the log for that reason.
- The flag is a plain `bool` read once per handler. Its atomic loads and the lifecycle that sets it belong to the base driver, which is not part of this model.
- The diagnostic collector's implementation is not part of this model. `UpdateAll` takes `updateAll(level, message, key, value)` to set the overall level and message and the value under the key. `GetValue` takes a missing key to read as the empty string.
- The Lely driver is not part of this model, including its numeric encoding of `NmtState`. `Unrecognised(raw)` stands for any value the switch does not list; `raw` is an opaque tag distinguishing such values, not the driver's numeric encoding. `NmtCommand` lists the commands by name.
