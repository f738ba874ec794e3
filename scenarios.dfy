/**
 * Properties of call sequences, each shown by running the plugin's methods
 * one after the other: what a caller can conclude from their contracts alone.
 */
module SessionScenarios {
  import opened Wrappers
  import opened Hex
  import opened PluginCalls
  import opened Serial

  /** Closing twice: when the first close succeeds, both calls resolve and no port remains. */
  method CloseTwice(plugin: SerialPlugin, first: PluginCall, second: PluginCall, secondCloseFails: bool)
    requires plugin.Valid() && first != second
    modifies plugin, first, second
    ensures plugin.Valid() && plugin.port.None? && plugin.serialIoManager.None?
    ensures first.results == old(first.results) + [Resolved(Empty)]
    ensures second.results == old(second.results) + [Resolved(Empty)]
  {
    plugin.CloseConnection(first, false);
    plugin.CloseConnection(second, secondCloseFails);
  }

  /**
   * Two successful opens without a close between them: the first pump is
   * stopped before the second starts, and only the second runs afterwards.
   */
  method OpenTwice(plugin: SerialPlugin, first: PluginCall, second: PluginCall, options: OpenOptions, port1: PortId, port2: PortId)
    requires plugin.Valid() && plugin.driver.Some? && first != second
    requires WellFormedUpTo(options, 6)
    modifies plugin, first, second
    ensures plugin.Valid()
    ensures first.results == old(first.results) + [Resolved(Empty)]
    ensures second.results == old(second.results) + [Resolved(Empty)]
    ensures |plugin.trace| >= 2 && plugin.trace[|plugin.trace| - 2] == PumpStopped(old(plugin.pumpsCreated))
      && plugin.trace[|plugin.trace| - 1] == PumpStarted(old(plugin.pumpsCreated) + 1, port2)
    ensures Running(plugin.trace) == {old(plugin.pumpsCreated) + 1}
    ensures plugin.serialIoManager == Some(old(plugin.pumpsCreated) + 1) && plugin.port == Some(port2)
  {
    ghost var n := plugin.pumpsCreated;
    plugin.OpenConnection(first, options, true, port1, NoFault);
    assert plugin.serialIoManager == Some(n);
    plugin.OpenConnection(second, options, true, port2, NoFault);
    assert plugin.trace[|plugin.trace| - 2] == PumpStopped(n);
  }

  /**
   * Pause then resume re-applies the parameters of the last successful open
   * verbatim on the new port (for instance baud 9600 with DTR raised), not
   * the defaults: the resumed port receives the same configuration calls as
   * the first one (see `ConfigurationAppliesParameters` for what they set).
   */
  method PauseResumeKeepsParameters(plugin: SerialPlugin, call: PluginCall, options: OpenOptions, port1: PortId, port2: PortId)
    requires plugin.Valid() && plugin.driver.Some?
    requires WellFormedUpTo(options, 6)
    modifies plugin, call
    ensures plugin.Valid()
    ensures call.results == old(call.results) + [Resolved(Empty)]
    ensures plugin.Parameters() == RequestedParameters(options)
    ensures var p, n := RequestedParameters(options), old(plugin.pumpsCreated);
      plugin.trace == old(plugin.trace)
        + ConfigCalls(port1, p, NoFault) + StopCalls(old(plugin.serialIoManager)) + [PumpStarted(n, port1)]
        + [PumpStopped(n), PortClose(port1)]
        + ConfigCalls(port2, p, NoFault) + [PumpStarted(n + 1, port2)]
  {
    ghost var p, n := RequestedParameters(options), plugin.pumpsCreated;
    plugin.OpenConnection(call, options, true, port1, NoFault);
    assert plugin.Parameters() == p && plugin.serialIoManager == Some(n) && plugin.port == Some(port1);
    ghost var t1 := plugin.trace;
    plugin.HandleOnPause();
    assert plugin.trace == t1 + [PumpStopped(n), PortClose(port1)];
    ghost var t2 := plugin.trace;
    plugin.HandleOnResume(true, port2, NoFault);
    assert plugin.trace == t2 + ConfigCalls(port2, p, NoFault) + [PumpStarted(n + 1, port2)];
  }

  /** After a second callback is registered, only it receives inbound data. */
  method ReplaceCallback(plugin: SerialPlugin, first: PluginCall, second: PluginCall, data: seq<byte>)
    requires first != second
    modifies plugin, first, second
    ensures first.results == old(first.results)
    ensures second.results == old(second.results) + [Resolved(Data(data))]
    ensures plugin.readCallback == Some(second)
  {
    plugin.RegisterReadCallback(first);
    plugin.RegisterReadCallback(second);
    plugin.OnSerialIoNewData(data);
  }
}
