/**
 * The Android plugin's single serial session. The plugin keeps the selected
 * driver, the port, the background I/O pump (the `SerialInputOutputManager`),
 * the read-callback call and six retained connection parameters, and each
 * plugin method or lifecycle hook changes them in a few fixed ways.
 *
 * Every step that goes to the platform or the USB library is an input:
 * the drivers enumeration finds, whether `openDevice` returns a connection,
 * the first port of the driver, which port call throws, how a transfer ends.
 * A ghost `trace` records, in order, the calls the plugin makes on ports and
 * pumps, so the contracts can say what was sent where.
 */
module Serial {
  import opened Wrappers
  import opened Hex
  import Utf8
  import opened Probing
  import opened PluginCalls
  import opened Permissions

  const DEFAULT_BAUD_RATE: int := 115200
  const READ_TIMEOUT: int := 200
  const WRITE_TIMEOUT: int := 2000
  const BUFFER_READ_SIZE: int := 4096

  /** The serial library's `UsbSerialPort.DATABITS_8`, `STOPBITS_1` and `PARITY_NONE`. */
  const DATABITS_8: int := 8
  const STOPBITS_1: int := 1
  const PARITY_NONE: int := 0

  /** A driver found by enumeration and a port of it, known only by identity. */
  type DriverId = nat
  type PortId = nat

  datatype ConnectionParameters = ConnectionParameters(baudRate: int, dataBits: int, stopBits: int, parity: int, dtr: bool, rts: bool)

  const DEFAULT_PARAMETERS: ConnectionParameters :=
    ConnectionParameters(DEFAULT_BAUD_RATE, DATABITS_8, STOPBITS_1, PARITY_NONE, false, false)

  /** One option of `openConnection`: absent (or null), given, or one whose getter throws `JSONException`. */
  datatype CallOption<T> = Absent | Given(value: T) | Malformed

  datatype OpenOptions = OpenOptions(
    baudRate: CallOption<int>, dataBits: CallOption<int>, stopBits: CallOption<int>, parity: CallOption<int>,
    dtr: CallOption<bool>, rts: CallOption<bool>)

  /** `call.getInt(key) ?: default`. */
  function IntOr(o: CallOption<int>, default: int): int {
    if o.Given? then o.value else default
  }

  /** `call.hasOption(key) && (call.getBoolean(key) ?: false)`. */
  function FlagOf(o: CallOption<bool>): bool {
    o == Given(true)
  }

  /** The first k options, in the order the plugin reads them, are well formed. */
  predicate WellFormedUpTo(o: OpenOptions, k: nat) {
    && (k > 0 ==> !o.baudRate.Malformed?)
    && (k > 1 ==> !o.dataBits.Malformed?)
    && (k > 2 ==> !o.stopBits.Malformed?)
    && (k > 3 ==> !o.parity.Malformed?)
    && (k > 4 ==> !o.dtr.Malformed?)
    && (k > 5 ==> !o.rts.Malformed?)
  }

  /** The parameters a call asks for, defaults filled in. */
  function RequestedParameters(o: OpenOptions): ConnectionParameters {
    ConnectionParameters(
      IntOr(o.baudRate, DEFAULT_BAUD_RATE), IntOr(o.dataBits, DATABITS_8), IntOr(o.stopBits, STOPBITS_1),
      IntOr(o.parity, PARITY_NONE), FlagOf(o.dtr), FlagOf(o.rts))
  }

  datatype OptionsOutcome = OptionsOutcome(parameters: ConnectionParameters, ok: bool)

  /**
   * The assignments of `openConnection`'s first try block: each retained
   * parameter in turn, stopping at the first option whose getter throws.
   * A field gets its new value exactly when it and every option read before
   * it are well formed, and keeps its old value otherwise.
   */
  function ApplyOptions(p: ConnectionParameters, o: OpenOptions): (r: OptionsOutcome)
    ensures r.ok <==> WellFormedUpTo(o, 6)
    ensures r.parameters.baudRate == if WellFormedUpTo(o, 1) then IntOr(o.baudRate, DEFAULT_BAUD_RATE) else p.baudRate
    ensures r.parameters.dataBits == if WellFormedUpTo(o, 2) then IntOr(o.dataBits, DATABITS_8) else p.dataBits
    ensures r.parameters.stopBits == if WellFormedUpTo(o, 3) then IntOr(o.stopBits, STOPBITS_1) else p.stopBits
    ensures r.parameters.parity == if WellFormedUpTo(o, 4) then IntOr(o.parity, PARITY_NONE) else p.parity
    ensures r.parameters.dtr == if WellFormedUpTo(o, 5) then FlagOf(o.dtr) else p.dtr
    ensures r.parameters.rts == if WellFormedUpTo(o, 6) then FlagOf(o.rts) else p.rts
    ensures r.ok ==> r.parameters == RequestedParameters(o)
  {
    if o.baudRate.Malformed? then OptionsOutcome(p, false) else
    var p1 := p.(baudRate := IntOr(o.baudRate, DEFAULT_BAUD_RATE));
    if o.dataBits.Malformed? then OptionsOutcome(p1, false) else
    var p2 := p1.(dataBits := IntOr(o.dataBits, DATABITS_8));
    if o.stopBits.Malformed? then OptionsOutcome(p2, false) else
    var p3 := p2.(stopBits := IntOr(o.stopBits, STOPBITS_1));
    if o.parity.Malformed? then OptionsOutcome(p3, false) else
    var p4 := p3.(parity := IntOr(o.parity, PARITY_NONE));
    if o.dtr.Malformed? then OptionsOutcome(p4, false) else
    var p5 := p4.(dtr := FlagOf(o.dtr));
    if o.rts.Malformed? then OptionsOutcome(p5, false) else
    OptionsOutcome(p5.(rts := FlagOf(o.rts)), true)
  }

  /** Omitted options take the defaults: 115200 baud, 8 data bits, 1 stop bit, no parity, DTR and RTS low. */
  lemma OmittedOptionsTakeDefaults(p: ConnectionParameters)
    ensures ApplyOptions(p, OpenOptions(Absent, Absent, Absent, Absent, Absent, Absent)) == OptionsOutcome(DEFAULT_PARAMETERS, true)
  {
  }

  /** Omitting `dtr` (or `rts`) and passing false leave the line equally low. */
  lemma OmittedFlagIsFalse(p: ConnectionParameters, o: OpenOptions)
    ensures ApplyOptions(p, o.(dtr := Absent)) == ApplyOptions(p, o.(dtr := Given(false)))
    ensures ApplyOptions(p, o.(rts := Absent)) == ApplyOptions(p, o.(rts := Given(false)))
  {
  }

  /** The calls the plugin makes on ports and pumps, and the permission prompt. */
  datatype Event =
    | PermissionRequested(driver: DriverId)
    | PumpStarted(pump: nat, port: PortId)
    | PumpStopped(pump: nat)
    | PortOpened(port: PortId)
    | ParametersSet(port: PortId, baudRate: int, dataBits: int, stopBits: int, parity: int)
    | DtrRaised(port: PortId)
    | RtsRaised(port: PortId)
    | PortClose(port: PortId)
    | PortWrite(port: PortId, bytes: seq<byte>, timeout: int)
    | PortRead(port: PortId, bufferSize: int, timeout: int)

  /** Which port call, if any, throws `IOException` while a port is configured. */
  datatype PortFault = NoFault | FailsOnOpen | FailsOnSetParameters | FailsOnDtr | FailsOnRts

  /** Whether configuring with `p` meets the fault: a step that is not taken cannot throw. */
  predicate ConfigFails(p: ConnectionParameters, fault: PortFault) {
    fault == FailsOnOpen || fault == FailsOnSetParameters || (fault == FailsOnDtr && p.dtr) || (fault == FailsOnRts && p.rts)
  }

  /** The calls `open`, `setParameters`, `dtr = true`, `rts = true`, in order, up to and including the one that throws. */
  function ConfigCalls(port: PortId, p: ConnectionParameters, fault: PortFault): seq<Event> {
    [PortOpened(port)] +
    if fault == FailsOnOpen then [] else
      [ParametersSet(port, p.baudRate, p.dataBits, p.stopBits, p.parity)] +
      if fault == FailsOnSetParameters then [] else
        (if p.dtr then [DtrRaised(port)] else []) +
        if p.dtr && fault == FailsOnDtr then [] else
          (if p.rts then [RtsRaised(port)] else [])
  }

  /**
   * A configuration that does not fail sets exactly the given parameters and
   * raises DTR (RTS) exactly when it is requested; no configuration raises a
   * line that was not requested.
   */
  lemma ConfigurationAppliesParameters(port: PortId, p: ConnectionParameters, fault: PortFault)
    ensures DtrRaised(port) in ConfigCalls(port, p, fault) ==> p.dtr
    ensures RtsRaised(port) in ConfigCalls(port, p, fault) ==> p.rts
    ensures !ConfigFails(p, fault) ==>
      ConfigCalls(port, p, fault)[..2] == [PortOpened(port), ParametersSet(port, p.baudRate, p.dataBits, p.stopBits, p.parity)]
      && (DtrRaised(port) in ConfigCalls(port, p, fault) <==> p.dtr)
      && (RtsRaised(port) in ConfigCalls(port, p, fault) <==> p.rts)
      && ConfigCalls(port, p, fault) == ConfigCalls(port, p, NoFault)
  {
  }

  predicate IsPumpEvent(e: Event) {
    e.PumpStarted? || e.PumpStopped?
  }

  /** The running pumps after one more call. */
  function Replay(running: set<nat>, e: Event): set<nat> {
    match e
    case PumpStarted(id, _) => running + {id}
    case PumpStopped(id) => running - {id}
    case _ => running
  }

  /** The pumps started and not stopped since, by replaying the trace. */
  function Running(t: seq<Event>): set<nat>
    decreases |t|
  {
    if t == [] then {} else Replay(Running(t[..|t| - 1]), t[|t| - 1])
  }

  lemma RunningSnoc(t: seq<Event>, e: Event)
    ensures Running(t + [e]) == Replay(Running(t), e)
  {
    assert (t + [e])[..|t|] == t;
  }

  lemma {:induction false} RunningIgnores(t: seq<Event>, es: seq<Event>)
    requires forall i :: 0 <= i < |es| ==> !IsPumpEvent(es[i])
    ensures Running(t + es) == Running(t)
    decreases |es|
  {
    if es != [] {
      var init, last := es[..|es| - 1], es[|es| - 1];
      assert !IsPumpEvent(last);
      assert t + es == (t + init) + [last];
      RunningSnoc(t + init, last);
      assert Replay(Running(t + init), last) == Running(t + init);
      RunningIgnores(t, init);
    } else {
      assert t + es == t;
    }
  }

  ghost predicate StartedAt(t: seq<Event>, i: int, id: nat) {
    0 <= i < |t| && t[i].PumpStarted? && t[i].pump == id
  }

  ghost predicate StoppedAfter(t: seq<Event>, i: int, id: nat) {
    exists j :: 0 <= i < j < |t| && t[j] == PumpStopped(id)
  }

  /** A pump is running when some start of it has no stop after it. */
  ghost predicate Live(t: seq<Event>, id: nat) {
    exists i :: StartedAt(t, i, id) && !StoppedAfter(t, i, id)
  }

  /** The replay agrees with the direct reading of the trace. */
  lemma {:induction false} RunningIsLive(t: seq<Event>, id: nat)
    ensures id in Running(t) <==> Live(t, id)
    decreases |t|
  {
    if t != [] {
      var p, e := t[..|t| - 1], t[|t| - 1];
      assert t == p + [e];
      RunningSnoc(p, e);
      RunningIsLive(p, id);
      if id in Running(t) {
        if e.PumpStarted? && e.pump == id {
          assert StartedAt(t, |t| - 1, id) && !StoppedAfter(t, |t| - 1, id);
        } else {
          var i :| StartedAt(p, i, id) && !StoppedAfter(p, i, id);
          assert StartedAt(t, i, id);
          assert e != PumpStopped(id);
          assert !StoppedAfter(t, i, id) by {
            forall j | i < j < |t| ensures t[j] != PumpStopped(id) {
              if j < |p| { assert t[j] == p[j]; }
            }
          }
        }
      } else if Live(t, id) {
        var i :| StartedAt(t, i, id) && !StoppedAfter(t, i, id);
        assert StartedAt(p, i, id);
      }
    }
  }

  function Handle(m: Option<nat>): set<nat> {
    if m.Some? then {m.value} else {}
  }

  /** `serialIoManager?.stop()` / `port?.close()` as calls in the trace. */
  function StopCalls(m: Option<nat>): seq<Event> {
    if m.Some? then [PumpStopped(m.value)] else []
  }

  function CloseCalls(p: Option<PortId>): seq<Event> {
    if p.Some? then [PortClose(p.value)] else []
  }

  /** How a `write` on the port ends: normally, `SerialTimeoutException`, or `IOException`. */
  datatype Transfer = Completed | TimedOut | IoFailed

  /** How `port.read` ends: with the bytes it put at the front of the buffer, or by throwing. */
  datatype ReadOutcome = Received(bytes: seq<byte>) | ReadTimedOut | ReadIoFailed

  /** The plugin's fields, apart from the trace. */
  datatype PluginFields = PluginFields(
    driver: Option<DriverId>, port: Option<PortId>, serialIoManager: Option<nat>,
    readCallback: Option<PluginCall>, parameters: ConnectionParameters, pumpsCreated: nat)

  /** `write` and `writeHexadecimal` hand the port the same bytes for an ASCII text and its hex spelling. */
  lemma TextAndHexWritesAgree(b: seq<byte>)
    requires forall i :: 0 <= i < |b| ==> b[i] < 0x80
    ensures IsHexString(EncodeHex(b))
    ensures DecodeHex(EncodeHex(b)) == Utf8.Encode(Utf8.AsciiText(b)) == b
  {
    DecodeEncodeHex(b);
    Utf8.EncodeAscii(b);
  }

  class SerialPlugin {
    var driver: Option<DriverId>
    var port: Option<PortId>
    /** The pump handle; pumps are numbered in the order they are created. */
    var serialIoManager: Option<nat>
    var pumpsCreated: nat
    var readCallback: Option<PluginCall>

    var baudRate: int
    var dataBits: int
    var stopBits: int
    var parity: int
    var setDTR: bool
    var setRTS: bool

    ghost var trace: seq<Event>

    /** The pumps running are exactly the one the plugin holds, and a pump is only held with a port. */
    ghost predicate Valid()
      reads this
    {
      Running(trace) == Handle(serialIoManager) && (serialIoManager.Some? ==> port.Some?)
    }

    function Parameters(): ConnectionParameters
      reads this
    {
      ConnectionParameters(baudRate, dataBits, stopBits, parity, setDTR, setRTS)
    }

    function Fields(): PluginFields
      reads this
    {
      PluginFields(driver, port, serialIoManager, readCallback, Parameters(), pumpsCreated)
    }

    constructor ()
      ensures Valid() && trace == []
      ensures Fields() == PluginFields(None, None, None, None, DEFAULT_PARAMETERS, 0)
    {
      driver, port, serialIoManager, pumpsCreated, readCallback := None, None, None, 0, None;
      baudRate, dataBits, stopBits, parity := DEFAULT_BAUD_RATE, DATABITS_8, STOPBITS_1, PARITY_NONE;
      setDTR, setRTS := false, false;
      trace := [];
    }

    /** At most one pump runs at any time. */
    lemma AtMostOnePump()
      requires Valid()
      ensures |Running(trace)| <= 1
      ensures forall id: nat :: Live(trace, id) <==> serialIoManager == Some(id)
    {
      forall id: nat ensures Live(trace, id) <==> serialIoManager == Some(id) {
        RunningIsLive(trace, id);
      }
    }

    /** `stopSerialIoManager`: a no-op without a pump, otherwise stop it and drop the handle. */
    method StopSerialIoManager()
      requires Valid()
      modifies this
      ensures Valid()
      ensures Fields() == old(Fields()).(serialIoManager := None)
      ensures trace == old(trace) + StopCalls(old(serialIoManager))
    {
      if serialIoManager.None? {
        return;
      }
      RunningSnoc(trace, PumpStopped(serialIoManager.value));
      trace := trace + [PumpStopped(serialIoManager.value)];
      serialIoManager := None;
    }

    /** `startSerialIoManager`: nothing without a port; otherwise stop any pump, then start a new one on the port. */
    method StartSerialIoManager()
      requires Valid()
      modifies this
      ensures Valid()
      ensures old(port).None? ==> Fields() == old(Fields()) && trace == old(trace)
      ensures old(port).Some? ==>
        Fields() == old(Fields()).(serialIoManager := Some(old(pumpsCreated)), pumpsCreated := old(pumpsCreated) + 1)
        && trace == old(trace) + StopCalls(old(serialIoManager)) + [PumpStarted(old(pumpsCreated), old(port).value)]
    {
      if port.None? {
        return;
      }
      if serialIoManager.Some? {
        RunningSnoc(trace, PumpStopped(serialIoManager.value));
        trace := trace + [PumpStopped(serialIoManager.value)];
      }
      RunningSnoc(trace, PumpStarted(pumpsCreated, port.value));
      trace := trace + [PumpStarted(pumpsCreated, port.value)];
      serialIoManager := Some(pumpsCreated);
      pumpsCreated := pumpsCreated + 1;
    }

    /** The port calls of `openConnection`'s second try block and of `handleOnResume`; ok is false when one throws. */
    method ConfigurePort(p: PortId, fault: PortFault) returns (ok: bool)
      modifies this`trace
      ensures ok == !ConfigFails(Parameters(), fault)
      ensures trace == old(trace) + ConfigCalls(p, Parameters(), fault)
      ensures Running(trace) == Running(old(trace))
    {
      ghost var calls := ConfigCalls(p, Parameters(), fault);
      RunningIgnores(trace, calls);
      ghost var t0 := trace;
      trace := trace + [PortOpened(p)];
      if fault == FailsOnOpen {
        return false;
      }
      trace := trace + [ParametersSet(p, baudRate, dataBits, stopBits, parity)];
      if fault == FailsOnSetParameters {
        return false;
      }
      if setDTR {
        trace := trace + [DtrRaised(p)];
        if fault == FailsOnDtr {
          assert trace == t0 + calls;
          return false;
        }
      }
      if setRTS {
        trace := trace + [RtsRaised(p)];
      }
      assert trace == t0 + calls;
      ok := !(fault == FailsOnRts && setRTS);
    }

    /** The first try block of `openConnection`: read each option in turn into its field, stopping at one that throws. */
    method AssignOptions(options: OpenOptions) returns (ok: bool)
      modifies this`baudRate, this`dataBits, this`stopBits, this`parity, this`setDTR, this`setRTS
      ensures ok == WellFormedUpTo(options, 6)
      ensures Parameters() == ApplyOptions(old(Parameters()), options).parameters
    {
      if options.baudRate.Malformed? {
        return false;
      }
      baudRate := IntOr(options.baudRate, DEFAULT_BAUD_RATE);
      if options.dataBits.Malformed? {
        return false;
      }
      dataBits := IntOr(options.dataBits, DATABITS_8);
      if options.stopBits.Malformed? {
        return false;
      }
      stopBits := IntOr(options.stopBits, STOPBITS_1);
      if options.parity.Malformed? {
        return false;
      }
      parity := IntOr(options.parity, PARITY_NONE);
      if options.dtr.Malformed? {
        return false;
      }
      setDTR := FlagOf(options.dtr);
      if options.rts.Malformed? {
        return false;
      }
      setRTS := FlagOf(options.rts);
      ok := true;
    }

    /**
     * `requestSerialPermissions`: the call is kept alive; no candidate from
     * the chosen prober rejects NO_DEVICE_ERROR and selects nothing; otherwise
     * the first candidate becomes the driver, before any answer, and a
     * registered receiver holds the call until the system answers.
     */
    method RequestSerialPermissions(call: PluginCall, options: PermissionOptions, enumerate: Prober -> seq<DriverId>)
      returns (receiver: SerialPermissionsBroadcastReceiver?)
      requires Valid()
      requires PermissionOptionsWellFormed(options)
      modifies this, call
      ensures Valid()
      ensures call.keepAlive
      ensures var found := enumerate(ProberFor(options));
        if |found| == 0 then
          && receiver == null
          && Fields() == old(Fields()) && trace == old(trace)
          && call.results == old(call.results) + [Rejected(NoDeviceError)]
        else
          && Fields() == old(Fields()).(driver := Some(found[0]))
          && trace == old(trace) + [PermissionRequested(found[0])]
          && receiver != null && fresh(receiver) && receiver.call == call && receiver.registered
          && call.results == old(call.results)
    {
      call.SetKeepAlive(true);
      var prober := ProberFor(options);
      var availableDrivers := enumerate(prober);
      if |availableDrivers| == 0 {
        call.Reject(NoDeviceError);
        return null;
      }
      driver := Some(availableDrivers[0]);
      receiver := new SerialPermissionsBroadcastReceiver(call);
      receiver.Register();
      RunningIgnores(trace, [PermissionRequested(availableDrivers[0])]);
      trace := trace + [PermissionRequested(availableDrivers[0])];
    }

    /**
     * `openConnection`. Without a driver: UNKNOWN_DRIVER_ERROR, nothing
     * changes. Device does not open: the pump is stopped, CONNECTION_ERROR.
     * Malformed option: PARAMETER_ERROR, the parameters read before it keep
     * their new values. A port call throws: CONNECTION_ERROR with the new port
     * set and no new pump started (a pump from an earlier open keeps running). Otherwise the parameters are stored, the port
     * configured with them, a pump started on it, and the call resolved.
     */
    method OpenConnection(call: PluginCall, options: OpenOptions, deviceOpens: bool, firstPort: PortId, fault: PortFault)
      requires Valid()
      modifies this, call
      ensures Valid()
      ensures call.keepAlive == old(call.keepAlive)
      ensures driver == old(driver) && readCallback == old(readCallback)
      ensures old(driver).None? ==>
        Fields() == old(Fields()) && trace == old(trace)
        && call.results == old(call.results) + [Rejected(UnknownDriverError)]
      ensures old(driver).Some? && !deviceOpens ==>
        Fields() == old(Fields()).(serialIoManager := None)
        && trace == old(trace) + StopCalls(old(serialIoManager))
        && call.results == old(call.results) + [Rejected(ConnectionError)]
      ensures old(driver).Some? && deviceOpens && !WellFormedUpTo(options, 6) ==>
        Fields() == old(Fields()).(parameters := ApplyOptions(old(Parameters()), options).parameters)
        && trace == old(trace)
        && call.results == old(call.results) + [Rejected(ParameterError)]
      ensures old(driver).Some? && deviceOpens && WellFormedUpTo(options, 6) && ConfigFails(RequestedParameters(options), fault) ==>
        Fields() == old(Fields()).(port := Some(firstPort), parameters := RequestedParameters(options))
        && trace == old(trace) + ConfigCalls(firstPort, RequestedParameters(options), fault)
        && call.results == old(call.results) + [Rejected(ConnectionError)]
      ensures old(driver).Some? && deviceOpens && WellFormedUpTo(options, 6) && !ConfigFails(RequestedParameters(options), fault) ==>
        Fields() == old(Fields()).(port := Some(firstPort), parameters := RequestedParameters(options),
                                   serialIoManager := Some(old(pumpsCreated)), pumpsCreated := old(pumpsCreated) + 1)
        && trace == old(trace) + ConfigCalls(firstPort, RequestedParameters(options), NoFault)
                    + StopCalls(old(serialIoManager)) + [PumpStarted(old(pumpsCreated), firstPort)]
        && call.results == old(call.results) + [Resolved(Empty)]
    {
      if driver.None? {
        call.Reject(UnknownDriverError);
        return;
      }
      if !deviceOpens {
        StopSerialIoManager();
        call.Reject(ConnectionError);
        return;
      }

      var optionsOk := AssignOptions(options);
      if !optionsOk {
        call.Reject(ParameterError);
        return;
      }

      OpenPortAndStart(call, firstPort, fault);
    }

    /**
     * The second try block of `openConnection` and what follows it: the port
     * is set before it is opened, so a throwing port call leaves it set and
     * starts no new pump; otherwise a pump starts and the call resolves.
     */
    method OpenPortAndStart(call: PluginCall, firstPort: PortId, fault: PortFault)
      requires Valid()
      modifies this, call
      ensures Valid()
      ensures call.keepAlive == old(call.keepAlive)
      ensures ConfigFails(old(Parameters()), fault) ==>
        Fields() == old(Fields()).(port := Some(firstPort))
        && trace == old(trace) + ConfigCalls(firstPort, old(Parameters()), fault)
        && call.results == old(call.results) + [Rejected(ConnectionError)]
      ensures !ConfigFails(old(Parameters()), fault) ==>
        Fields() == old(Fields()).(port := Some(firstPort), serialIoManager := Some(old(pumpsCreated)),
                                   pumpsCreated := old(pumpsCreated) + 1)
        && trace == old(trace) + ConfigCalls(firstPort, old(Parameters()), NoFault)
                    + StopCalls(old(serialIoManager)) + [PumpStarted(old(pumpsCreated), firstPort)]
        && call.results == old(call.results) + [Resolved(Empty)]
    {
      port := Some(firstPort);
      var ok := ConfigurePort(firstPort, fault);
      if !ok {
        call.Reject(ConnectionError);
        return;
      }
      ConfigurationAppliesParameters(firstPort, Parameters(), fault);
      StartSerialIoManager();
      call.Resolve(Empty);
    }

    /**
     * `closeConnection`: stop the pump, close the port if there is one.
     * Without a port it resolves (closing twice is harmless); if `close`
     * throws it rejects CONNECTION_ERROR and keeps the port.
     */
    method CloseConnection(call: PluginCall, closeFails: bool)
      requires Valid()
      modifies this, call
      ensures Valid()
      ensures call.keepAlive == old(call.keepAlive)
      ensures Fields() == old(Fields()).(serialIoManager := None,
                                         port := if old(port).Some? && closeFails then old(port) else None)
      ensures trace == old(trace) + StopCalls(old(serialIoManager)) + CloseCalls(old(port))
      ensures call.results == old(call.results) +
        [if old(port).Some? && closeFails then Rejected(ConnectionError) else Resolved(Empty)]
    {
      StopSerialIoManager();
      if port.Some? {
        RunningIgnores(trace, [PortClose(port.value)]);
        trace := trace + [PortClose(port.value)];
        if closeFails {
          call.Reject(ConnectionError);
          return;
        }
      }
      port := None;
      call.Resolve(Empty);
    }

    /**
     * `write`: PORT_CLOSED_ERROR without a port (checked first), PARAMETER_ERROR
     * without data; otherwise the UTF-8 bytes of the text go to the port with
     * the write timeout, and a timeout or I/O failure rejects CONNECTION_ERROR.
     */
    method Write(call: PluginCall, data: Option<string>, outcome: Transfer)
      requires Valid()
      modifies this, call
      ensures Valid()
      ensures Fields() == old(Fields()) && call.keepAlive == old(call.keepAlive)
      ensures old(port).None? ==> trace == old(trace) && call.results == old(call.results) + [Rejected(PortClosedError)]
      ensures old(port).Some? && data.None? ==> trace == old(trace) && call.results == old(call.results) + [Rejected(ParameterError)]
      ensures old(port).Some? && data.Some? ==>
        trace == old(trace) + [PortWrite(old(port).value, Utf8.Encode(data.value), WRITE_TIMEOUT)]
        && call.results == old(call.results) + [if outcome == Completed then Resolved(Empty) else Rejected(ConnectionError)]
    {
      if port.None? {
        call.Reject(PortClosedError);
        return;
      } else if data.None? {
        call.Reject(ParameterError);
        return;
      }
      RunningIgnores(trace, [PortWrite(port.value, Utf8.Encode(data.value), WRITE_TIMEOUT)]);
      trace := trace + [PortWrite(port.value, Utf8.Encode(data.value), WRITE_TIMEOUT)];
      match outcome
      case Completed => call.Resolve(Empty);
      case TimedOut => call.Reject(ConnectionError);
      case IoFailed => call.Reject(ConnectionError);
    }

    /** `writeHexadecimal`: as `write`, with the bytes decoded from the hex text. */
    method WriteHexadecimal(call: PluginCall, data: Option<string>, outcome: Transfer)
      requires Valid()
      requires port.Some? && data.Some? ==> IsHexString(data.value)
      modifies this, call
      ensures Valid()
      ensures Fields() == old(Fields()) && call.keepAlive == old(call.keepAlive)
      ensures old(port).None? ==> trace == old(trace) && call.results == old(call.results) + [Rejected(PortClosedError)]
      ensures old(port).Some? && data.None? ==> trace == old(trace) && call.results == old(call.results) + [Rejected(ParameterError)]
      ensures old(port).Some? && data.Some? ==>
        trace == old(trace) + [PortWrite(old(port).value, DecodeHex(data.value), WRITE_TIMEOUT)]
        && call.results == old(call.results) + [if outcome == Completed then Resolved(Empty) else Rejected(ConnectionError)]
    {
      if port.None? {
        call.Reject(PortClosedError);
        return;
      } else if data.None? {
        call.Reject(ParameterError);
        return;
      }
      RunningIgnores(trace, [PortWrite(port.value, DecodeHex(data.value), WRITE_TIMEOUT)]);
      trace := trace + [PortWrite(port.value, DecodeHex(data.value), WRITE_TIMEOUT)];
      match outcome
      case Completed => call.Resolve(Empty);
      case TimedOut => call.Reject(ConnectionError);
      case IoFailed => call.Reject(ConnectionError);
    }

    /**
     * `read`: PORT_CLOSED_ERROR without a port; otherwise one read into a
     * 4096-byte buffer with the read timeout. A timeout or I/O failure rejects
     * CONNECTION_ERROR; otherwise the call resolves with exactly the `readSize`
     * bytes at the front of the buffer.
     */
    method Read(call: PluginCall, outcome: ReadOutcome)
      requires Valid()
      requires outcome.Received? ==> |outcome.bytes| <= BUFFER_READ_SIZE
      modifies this, call
      ensures Valid()
      ensures Fields() == old(Fields()) && call.keepAlive == old(call.keepAlive)
      ensures old(port).None? ==> trace == old(trace) && call.results == old(call.results) + [Rejected(PortClosedError)]
      ensures old(port).Some? ==>
        trace == old(trace) + [PortRead(old(port).value, BUFFER_READ_SIZE, READ_TIMEOUT)]
        && call.results == old(call.results) +
          [if outcome.Received? then Resolved(Data(outcome.bytes)) else Rejected(ConnectionError)]
    {
      if port.None? {
        call.Reject(PortClosedError);
        return;
      }
      var buffer := new byte[BUFFER_READ_SIZE];
      RunningIgnores(trace, [PortRead(port.value, BUFFER_READ_SIZE, READ_TIMEOUT)]);
      trace := trace + [PortRead(port.value, BUFFER_READ_SIZE, READ_TIMEOUT)];
      match outcome {
        case ReadTimedOut =>
          call.Reject(ConnectionError);
          return;
        case ReadIoFailed =>
          call.Reject(ConnectionError);
          return;
        case Received(bytes) =>
          // what `port.read` leaves at the front of the buffer
          forall i | 0 <= i < |bytes| {
            buffer[i] := bytes[i];
          }
          var readSize := |bytes|;
          var response := buffer[..readSize];
          assert response == bytes;
          call.Resolve(Data(response));
      }
    }

    /** `registerReadCallback`: the call replaces any earlier callback and is kept alive. */
    method RegisterReadCallback(call: PluginCall)
      modifies this, call
      ensures Fields() == old(Fields()).(readCallback := Some(call)) && trace == old(trace)
      ensures call.keepAlive && call.results == old(call.results)
    {
      readCallback := Some(call);
      call.SetKeepAlive(true);
    }

    /** `unregisterReadCallback`: clears the callback and resolves. */
    method UnregisterReadCallback(call: PluginCall)
      modifies this, call
      ensures Fields() == old(Fields()).(readCallback := None) && trace == old(trace)
      ensures call.keepAlive == old(call.keepAlive) && call.results == old(call.results) + [Resolved(Empty)]
    {
      readCallback := None;
      call.Resolve(Empty);
    }

    /** `onSerialIoNewData`: the bytes go to the registered callback, if any, as `{data}`. */
    method OnSerialIoNewData(data: seq<byte>)
      modifies if readCallback.Some? then {readCallback.value} else {}
      ensures readCallback.Some? ==>
        readCallback.value.results == old(readCallback.value.results) + [Resolved(Data(data))]
        && readCallback.value.keepAlive == old(readCallback.value.keepAlive)
    {
      if readCallback.None? {
        return;
      }
      readCallback.value.Resolve(Data(data));
    }

    /** `onSerialIoRunError`: the registered callback, if any, is resolved with `{error: CONNECTION_ERROR}`. */
    method OnSerialIoRunError()
      modifies if readCallback.Some? then {readCallback.value} else {}
      ensures readCallback.Some? ==>
        readCallback.value.results == old(readCallback.value.results) + [Resolved(ErrorField(ConnectionError))]
        && readCallback.value.keepAlive == old(readCallback.value.keepAlive)
    {
      if readCallback.None? {
        return;
      }
      readCallback.value.Resolve(ErrorField(ConnectionError));
    }

    /** Stop the pump, close the port if any (a failing close is ignored), forget the port. */
    method StopAndDropPort()
      requires Valid()
      modifies this
      ensures Valid()
      ensures Fields() == old(Fields()).(serialIoManager := None, port := None)
      ensures trace == old(trace) + StopCalls(old(serialIoManager)) + CloseCalls(old(port))
    {
      StopSerialIoManager();
      if port.Some? {
        RunningIgnores(trace, [PortClose(port.value)]);
        trace := trace + [PortClose(port.value)];
      }
      port := None;
    }

    /** `handleOnPause`: the pump stops and the port is gone; driver and parameters are kept. */
    method HandleOnPause()
      requires Valid()
      modifies this
      ensures Valid()
      ensures Fields() == old(Fields()).(serialIoManager := None, port := None)
      ensures trace == old(trace) + StopCalls(old(serialIoManager)) + CloseCalls(old(port))
    {
      StopAndDropPort();
    }

    /** `handleOnDestroy`: the same teardown as pause. */
    method HandleOnDestroy()
      requires Valid()
      modifies this
      ensures Valid()
      ensures Fields() == old(Fields()).(serialIoManager := None, port := None)
      ensures trace == old(trace) + StopCalls(old(serialIoManager)) + CloseCalls(old(port))
    {
      StopAndDropPort();
    }

    /**
     * `handleOnResume`: nothing without a driver or when the device does not
     * open; otherwise the port is set, configured with the retained
     * parameters as stored (a throwing port call is swallowed), and a pump is
     * started on it whatever the configuration did.
     */
    method HandleOnResume(deviceOpens: bool, firstPort: PortId, fault: PortFault)
      requires Valid()
      modifies this
      ensures Valid()
      ensures old(driver).None? || !deviceOpens ==> Fields() == old(Fields()) && trace == old(trace)
      ensures old(driver).Some? && deviceOpens ==>
        Fields() == old(Fields()).(port := Some(firstPort), serialIoManager := Some(old(pumpsCreated)),
                                   pumpsCreated := old(pumpsCreated) + 1)
        && trace == old(trace) + ConfigCalls(firstPort, old(Parameters()), fault)
                    + StopCalls(old(serialIoManager)) + [PumpStarted(old(pumpsCreated), firstPort)]
    {
      if driver.None? {
        return;
      }
      if !deviceOpens {
        return;
      }
      port := Some(firstPort);
      var _ := ConfigurePort(firstPort, fault);
      StartSerialIoManager();
    }
  }
}
