/**
 * The receiver `requestSerialPermissions` registers for the system's answer
 * to the permission prompt. It holds the pending call; on the permission
 * broadcast it resolves the call with `{granted}`, releases the call's
 * keep-alive and unregisters itself.
 */
module Permissions {
  import opened Wrappers
  import opened PluginCalls

  const USB_PERMISSION: string := "com.adeunis.capacitor.serial.USB_PERMISSION"

  /** A broadcast: its action (null is None) and its `EXTRA_PERMISSION_GRANTED` extra, None when absent. */
  datatype Intent = Intent(action: Option<string>, permissionGranted: Option<bool>)

  predicate IsPermissionIntent(intent: Intent) {
    intent.action == Some(USB_PERMISSION)
  }

  /** `getBooleanExtra(EXTRA_PERMISSION_GRANTED, false)`. */
  function GrantedFlag(intent: Intent): bool {
    intent.permissionGranted.GetOr(false)
  }

  /** The receiver's registration and the state of the call it holds. */
  datatype ReceiverState = ReceiverState(registered: bool, keepAlive: bool, results: seq<Settlement>)

  /** The effect of one `onReceive`. */
  function Receive(s: ReceiverState, intent: Intent): (t: ReceiverState)
    ensures !IsPermissionIntent(intent) ==> t == s
    ensures IsPermissionIntent(intent) ==>
      t.results == s.results + [Resolved(Granted(GrantedFlag(intent)))] && !t.keepAlive && !t.registered
  {
    if IsPermissionIntent(intent) then
      ReceiverState(false, false, s.results + [Resolved(Granted(GrantedFlag(intent)))])
    else
      s
  }

  /** The context hands each broadcast, in order, to the receiver only while it is registered. */
  function Deliver(s: ReceiverState, intents: seq<Intent>): ReceiverState
    decreases |intents|
  {
    if intents == [] then s
    else Deliver(if s.registered then Receive(s, intents[0]) else s, intents[1..])
  }

  /** The first permission broadcast of a sequence, if any. */
  function FirstPermissionIntent(intents: seq<Intent>): (r: Option<Intent>)
    ensures r.Some? ==> IsPermissionIntent(r.value)
    ensures r.Some? ==> exists i ::
      0 <= i < |intents| && intents[i] == r.value && forall j :: 0 <= j < i ==> !IsPermissionIntent(intents[j])
    ensures r.None? ==> forall i :: 0 <= i < |intents| ==> !IsPermissionIntent(intents[i])
    decreases |intents|
  {
    if intents == [] then None
    else if IsPermissionIntent(intents[0]) then Some(intents[0])
    else FirstPermissionIntent(intents[1..])
  }

  /** An unregistered receiver is not called again. */
  lemma {:induction false} DeliverUnregistered(s: ReceiverState, intents: seq<Intent>)
    requires !s.registered
    ensures Deliver(s, intents) == s
    decreases |intents|
  {
    if intents != [] {
      DeliverUnregistered(s, intents[1..]);
    }
  }

  /**
   * A registered receiver answers the first permission broadcast and no
   * other: the call is resolved at most once, with that broadcast's flag.
   */
  lemma {:induction false} DeliverResolvesOnce(s: ReceiverState, intents: seq<Intent>)
    requires s.registered
    ensures var f := FirstPermissionIntent(intents);
      Deliver(s, intents) == if f.Some? then Receive(s, f.value) else s
    ensures |Deliver(s, intents).results| <= |s.results| + 1
    decreases |intents|
  {
    if intents != [] {
      if IsPermissionIntent(intents[0]) {
        DeliverUnregistered(Receive(s, intents[0]), intents[1..]);
      } else {
        DeliverResolvesOnce(s, intents[1..]);
      }
    }
  }

  class SerialPermissionsBroadcastReceiver {
    const call: PluginCall
    /** Whether the context holds this receiver's registration. */
    var registered: bool

    constructor (call: PluginCall)
      ensures this.call == call && !registered
    {
      this.call := call;
      registered := false;
    }

    function State(): ReceiverState
      reads this, call
    {
      ReceiverState(registered, call.keepAlive, call.results)
    }

    /** `context.registerReceiver(receiver, filter)`. */
    method Register()
      modifies this
      ensures registered
    {
      registered := true;
    }

    /** Only the permission action has an effect: resolve `{granted}`, drop keep-alive, unregister. */
    method OnReceive(intent: Intent)
      modifies this, call
      ensures State() == Receive(old(State()), intent)
      ensures !IsPermissionIntent(intent) ==> unchanged(this, call)
    {
      if IsPermissionIntent(intent) {
        call.Resolve(Granted(GrantedFlag(intent)));
        call.SetKeepAlive(false);
        registered := false;
      }
    }
  }
}
