/**
 * The plugin's error codes and the host's call object. A call is settled by
 * `resolve` or `reject`; a call kept alive can be resolved again later (the
 * read callback is resolved once per delivery). `results` is the sequence of
 * settlements the caller has received, in order.
 */
module PluginCalls {
  import opened Hex

  datatype SerialError = UnknownDriverError | NoDeviceError | ParameterError | ConnectionError | PortClosedError

  /** The code a rejection carries, as the companion constants spell it. */
  function ErrorCode(e: SerialError): string {
    match e
    case UnknownDriverError => "UNKNOWN_DRIVER_ERROR"
    case NoDeviceError => "NO_DEVICE_ERROR"
    case ParameterError => "PARAMETER_ERROR"
    case ConnectionError => "CONNECTION_ERROR"
    case PortClosedError => "PORT_CLOSED_ERROR"
  }

  /** Each error has its own code, so a caller can tell every rejection apart. */
  lemma ErrorCodesDistinct(e1: SerialError, e2: SerialError)
    requires e1 != e2
    ensures ErrorCode(e1) != ErrorCode(e2)
  {
  }

  /**
   * What a resolution carries: nothing, `{data}` (the bytes read; the
   * host sees them decoded as UTF-8), `{error}` or `{granted}`.
   */
  datatype Payload = Empty | Data(bytes: seq<byte>) | ErrorField(error: SerialError) | Granted(granted: bool)

  datatype Settlement = Resolved(payload: Payload) | Rejected(error: SerialError)

  class PluginCall {
    var keepAlive: bool
    var results: seq<Settlement>

    constructor ()
      ensures !keepAlive && results == []
    {
      keepAlive := false;
      results := [];
    }

    method Resolve(p: Payload)
      modifies this
      ensures results == old(results) + [Resolved(p)] && keepAlive == old(keepAlive)
    {
      results := results + [Resolved(p)];
    }

    method Reject(e: SerialError)
      modifies this
      ensures results == old(results) + [Rejected(e)] && keepAlive == old(keepAlive)
    {
      results := results + [Rejected(e)];
    }

    method SetKeepAlive(b: bool)
      modifies this
      ensures keepAlive == b && results == old(results)
    {
      keepAlive := b;
    }
  }
}
