# Serial session core of the Capacitor serial plugin, in Dafny

This project models the Android side of the Capacitor serial plugin: the
`SerialPlugin` controller that holds one USB serial session, and the broadcast
receiver that answers its permission request. It also proves properties of
that model.

The controller keeps these fields:
- the selected driver;
- the open port;
- the background I/O pump (`SerialInputOutputManager`);
- a one-slot read callback;
- six retained connection parameters: baud rate, data bits, stop bits, parity, DTR and RTS.

Each plugin method and lifecycle hook is a method of the class
`Serial.SerialPlugin` that changes these fields. Each outcome depends on which
fields are null and on which external step failed. Every step that goes to
Android or to the USB serial library is an input of the method:
- the drivers that enumeration finds;
- whether `openDevice` gives a connection;
- the driver's first port;
- which port call throws;
- how a write or read ends;
- whether `close` throws.

A ghost `trace` records, in order, every call the plugin makes on a port or a
pump. `Valid()` ties the trace to the fields: the pumps that were started and
not stopped are exactly the one the plugin holds, so at most one pump runs.
A pump is held only while there is a port.

The pure helpers are modelled as functions, with lemmas:
- the hexadecimal decoder (`Hex`);
- vendor/product ID resolution and the driver-name table (`Probing`);
- the UTF-8 encoding that `write` sends (`Utf8`).

The host's call object is `PluginCalls.PluginCall`. Its `results` is the
sequence of resolutions and rejections the caller receives.

In these places the model follows the code, even where a caller may not expect it:
- An odd-length hex string is not refused. "ABC" decodes to [0xAB, 0x0C].
- A read timeout (`SerialTimeoutException`) rejects CONNECTION_ERROR. It is not treated as an empty result.
- `closeConnection` keeps the port when `close` throws.
- `openConnection` opens the device before it reads the options. When a port call throws, the new port stays set and no new pump starts; a pump from an earlier open keeps running.
- `handleOnResume` starts a pump even when configuring the port threw.

## Model

| member | source | states |
|---|---|---|
| `Hex.DecodeHex` | android/src/main/java/com/adeunis/capacitor/serial/SerialPlugin.kt:372-373 | 2k hex digits, in either case, give k bytes; byte i is 16·digit(2i) + digit(2i+1); an odd length gives one more byte, the last digit's value |
| `Hex.Chunked` | android/src/main/java/com/adeunis/capacitor/serial/SerialPlugin.kt:373 | `chunked(2)`: (n+1)/2 pieces; piece i is characters 2i up to 2i+2, the last piece shorter for odd n |
| `Hex.ChunkByte` | android/src/main/java/com/adeunis/capacitor/serial/SerialPlugin.kt:373 | an upper-cased chunk parsed base 16 is 16·first + second digit, or the single digit |
| `Hex.HexValueIgnoresCase` | android/src/main/java/com/adeunis/capacitor/serial/SerialPlugin.kt:373 | `uppercase()` before `toInt(16)` changes no value |
| `Hex.DecodeHexIgnoresCase` | android/src/main/java/com/adeunis/capacitor/serial/SerialPlugin.kt:372-373 | decoding the upper-cased text gives the same bytes |
| `Hex.EncodeHexAt` | android/src/main/java/com/adeunis/capacitor/serial/SerialPlugin.kt:372-373 | the encoder partner puts byte i's two digits at positions 2i and 2i+1 |
| `Hex.DecodeEncodeHex` | android/src/main/java/com/adeunis/capacitor/serial/SerialPlugin.kt:372-373 | round trip: decoding the hex text of any bytes gives those bytes |
| `Hex.HexValue` | android/src/main/java/com/adeunis/capacitor/serial/SerialPlugin.kt:71 | `toInt(16)` on n hex digits, most significant first: a value below 16^n, so one or two digits always fit a byte |
| `Utf8.Encode` | android/src/main/java/com/adeunis/capacitor/serial/SerialPlugin.kt:202 | `toByteArray()`: each character contributes its own 1 to 4 bytes in order, so n characters give between n and 4n bytes |
| `Utf8.EncodeConcat` | android/src/main/java/com/adeunis/capacitor/serial/SerialPlugin.kt:202 | encoding distributes over concatenation: a text sent in pieces gives the same bytes as sent whole |
| `Hex.HexValueOfNatToHex` | android/src/main/java/com/adeunis/capacitor/serial/SerialPlugin.kt:71 | `toInt(16)` of the hex numeral of n is n |
| `Utf8.EncodeChar` | android/src/main/java/com/adeunis/capacitor/serial/SerialPlugin.kt:202 | `toByteArray()` on one character: 1 to 4 bytes, one byte exactly for ASCII, continuation bytes in 0x80..0xBF |
| `Utf8.EncodeAscii` | android/src/main/java/com/adeunis/capacitor/serial/SerialPlugin.kt:202 | ASCII text encodes to its own character codes |
| `Probing.FamilyFor` | android/src/main/java/com/adeunis/capacitor/serial/SerialPlugin.kt:82-89 | a driver name that names a family selects exactly that family (its name is the given one); an absent or unknown name selects CDC-ACM |
| `Probing.ResolveId` | android/src/main/java/com/adeunis/capacitor/serial/SerialPlugin.kt:69-78 | the `when` on an ID: a number is narrowed by `NumberToInt`, a string parsed by `ParseInt16`, any other value gives 0; every result fits an Int |
| `Probing.FamilyForDriverName` | android/src/main/java/com/adeunis/capacitor/serial/SerialPlugin.kt:82-87 | each of the five driver names selects its own family |
| `Probing.FamilyForFallback` | android/src/main/java/com/adeunis/capacitor/serial/SerialPlugin.kt:82-88 | a missing or unknown driver name selects CDC-ACM |
| `Probing.ToInt32` | android/src/main/java/com/adeunis/capacitor/serial/SerialPlugin.kt:70 | `Int`/`Long.toInt()`: the result is in the Int range, equals n modulo 2^32, and is n itself when n fits |
| `Probing.NumberToInt` | android/src/main/java/com/adeunis/capacitor/serial/SerialPlugin.kt:70 | `Number.toInt()` on a JSON integer: within the 64-bit range it wraps to the low 32 bits; beyond it (a Double) it saturates at the Int bounds |
| `Probing.ParseInt16` | android/src/main/java/com/adeunis/capacitor/serial/SerialPlugin.kt:71 | `toInt(16)`: the result fits an Int; an unsigned numeral gives its hex value; a '-' sign negates it |
| `Probing.IdRepresentationsAgree` | android/src/main/java/com/adeunis/capacitor/serial/SerialPlugin.kt:69-78 | an ID in the Int range resolves to itself given as a number and given as its hex numeral |
| `Probing.HexSpellingsAgree` | android/src/main/java/com/adeunis/capacitor/serial/SerialPlugin.kt:69-78 | every hex numeral resolves to the same ID in upper, lower or mixed case, with a leading zero, with '+', and as the number it denotes; '-' negates it |
| `Hex.HexValueLeadingZero` | android/src/main/java/com/adeunis/capacitor/serial/SerialPlugin.kt:71 | a leading zero digit does not change the value `toInt(16)` reads |
| `PluginCalls.ErrorCodesDistinct` | android/src/main/java/com/adeunis/capacitor/serial/SerialPlugin.kt:392-396 | the five rejection codes are pairwise distinct |
| `Probing.ProberFor` | android/src/main/java/com/adeunis/capacitor/serial/SerialPlugin.kt:64-95 | a custom probe table exactly when vendorId and productId are both present, holding the resolved IDs and the family of the driver name |
| `Serial.ApplyOptions` | android/src/main/java/com/adeunis/capacitor/serial/SerialPlugin.kt:142-153 | ok exactly when no option is malformed; a parameter takes its new value exactly when it and every option read before it are well formed, and otherwise keeps its old value |
| `Serial.OmittedOptionsTakeDefaults` | android/src/main/java/com/adeunis/capacitor/serial/SerialPlugin.kt:143-148 | omitted options give 115200 baud, 8 data bits, 1 stop bit, no parity, DTR and RTS low |
| `Serial.OmittedFlagIsFalse` | android/src/main/java/com/adeunis/capacitor/serial/SerialPlugin.kt:147-148 | omitting `dtr`/`rts` and passing false have the same effect |
| `Serial.ConfigurationAppliesParameters` | android/src/main/java/com/adeunis/capacitor/serial/SerialPlugin.kt:155-162 | a configuration that does not throw opens the port, sets exactly the given baud/data/stop/parity, and raises DTR (RTS) exactly when requested; no configuration raises a line that was not requested |
| `Serial.RunningIsLive` | android/src/main/java/com/adeunis/capacitor/serial/SerialPlugin.kt:356-370 | the replayed set of running pumps holds exactly the pumps with a start that no later stop follows |
| `Serial.TextAndHexWritesAgree` | android/src/main/java/com/adeunis/capacitor/serial/SerialPlugin.kt:188-240 | `write` of an ASCII text and `writeHexadecimal` of its hex spelling send the same bytes |
| `Serial.SerialPlugin.constructor` | android/src/main/java/com/adeunis/capacitor/serial/SerialPlugin.kt:33-45 | no driver, port, pump or callback; default parameters |
| `Serial.SerialPlugin.AtMostOnePump` | android/src/main/java/com/adeunis/capacitor/serial/SerialPlugin.kt:364-370 | at most one pump runs, and the one that runs is the one held in `serialIoManager` |
| `Serial.SerialPlugin.StopSerialIoManager` | android/src/main/java/com/adeunis/capacitor/serial/SerialPlugin.kt:356-362 | no-op without a pump; otherwise the held pump is stopped and the handle cleared; nothing else changes |
| `Serial.SerialPlugin.StartSerialIoManager` | android/src/main/java/com/adeunis/capacitor/serial/SerialPlugin.kt:364-370 | nothing without a port; otherwise any held pump is stopped first, then a new pump is started on the port and held |
| `Serial.SerialPlugin.AssignOptions` | android/src/main/java/com/adeunis/capacitor/serial/SerialPlugin.kt:142-153 | the retained parameters become `ApplyOptions` of the old ones; ok exactly when no option is malformed |
| `Serial.SerialPlugin.ConfigurePort` | android/src/main/java/com/adeunis/capacitor/serial/SerialPlugin.kt:155-162 | open, setParameters with the retained values, DTR and RTS if set, in order, up to the call that throws; ok exactly when none throws |
| `Serial.SerialPlugin.RequestSerialPermissions` | android/src/main/java/com/adeunis/capacitor/serial/SerialPlugin.kt:59-125 | keeps the call alive; no candidate rejects NO_DEVICE_ERROR and changes nothing; otherwise the first candidate becomes the driver and a fresh registered receiver holds the still pending call |
| `Serial.SerialPlugin.OpenConnection` | android/src/main/java/com/adeunis/capacitor/serial/SerialPlugin.kt:127-171 | the four failures with their separate effects (UNKNOWN_DRIVER_ERROR, nothing changes; device does not open, pump stopped, CONNECTION_ERROR; malformed option, PARAMETER_ERROR, fields read before it updated; port call throws, CONNECTION_ERROR, new port set, no new pump, an earlier pump still held), and on success the parameters are stored, the port configured with them, and a new pump started |
| `Serial.SerialPlugin.OpenPortAndStart` | android/src/main/java/com/adeunis/capacitor/serial/SerialPlugin.kt:155-169 | the port is set before it is opened; a throwing port call rejects CONNECTION_ERROR with no pump started; otherwise a pump starts on the port and the call resolves |
| `Serial.SerialPlugin.CloseConnection` | android/src/main/java/com/adeunis/capacitor/serial/SerialPlugin.kt:173-186 | stops the pump; resolves without a port; if `close` throws, rejects CONNECTION_ERROR and keeps the port, otherwise clears it; driver and parameters untouched |
| `Serial.SerialPlugin.Write` | android/src/main/java/com/adeunis/capacitor/serial/SerialPlugin.kt:188-213 | PORT_CLOSED_ERROR before PARAMETER_ERROR; otherwise the text's UTF-8 bytes go to the port with the 2000 ms timeout; a timeout or I/O failure rejects CONNECTION_ERROR; no field changes |
| `Serial.SerialPlugin.WriteHexadecimal` | android/src/main/java/com/adeunis/capacitor/serial/SerialPlugin.kt:215-240 | the same checks in the same order: without a port any data, hex or not, rejects PORT_CLOSED_ERROR; then the decoded hex bytes go to the port |
| `Serial.SerialPlugin.Read` | android/src/main/java/com/adeunis/capacitor/serial/SerialPlugin.kt:242-273 | PORT_CLOSED_ERROR without a port; one read of a 4096-byte buffer with the 200 ms timeout; a timeout or I/O failure rejects CONNECTION_ERROR; otherwise exactly the `readSize` bytes read are returned |
| `Serial.SerialPlugin.RegisterReadCallback` | android/src/main/java/com/adeunis/capacitor/serial/SerialPlugin.kt:275-282 | the call replaces the previous callback and is kept alive |
| `Serial.SerialPlugin.UnregisterReadCallback` | android/src/main/java/com/adeunis/capacitor/serial/SerialPlugin.kt:284-291 | the callback is cleared and the call resolves |
| `Serial.SerialPlugin.OnSerialIoNewData` | android/src/main/java/com/adeunis/capacitor/serial/SerialPlugin.kt:293-299 | the data goes to the registered callback only; with none, nothing changes |
| `Serial.SerialPlugin.OnSerialIoRunError` | android/src/main/java/com/adeunis/capacitor/serial/SerialPlugin.kt:301-306 | the registered callback, if any, receives `error: CONNECTION_ERROR` |
| `Serial.SerialPlugin.StopAndDropPort` | android/src/main/java/com/adeunis/capacitor/serial/SerialPlugin.kt:314-321 | pump stopped, port closed if any with a failure ignored, port cleared; driver and parameters kept |
| `Serial.SerialPlugin.HandleOnPause` | android/src/main/java/com/adeunis/capacitor/serial/SerialPlugin.kt:314-321 | pump stopped and port null whatever `close` does; driver and parameters kept |
| `Serial.SerialPlugin.HandleOnDestroy` | android/src/main/java/com/adeunis/capacitor/serial/SerialPlugin.kt:346-354 | the same teardown as pause |
| `Serial.SerialPlugin.HandleOnResume` | android/src/main/java/com/adeunis/capacitor/serial/SerialPlugin.kt:323-344 | nothing without a driver or when the device does not open; otherwise the port is set, configured with the retained parameters as stored, and a pump is started whether or not configuring threw |
| `SessionScenarios.CloseTwice` | android/src/main/java/com/adeunis/capacitor/serial/SerialPlugin.kt:173-186 | two closes in a row both resolve when the first close succeeds |
| `SessionScenarios.OpenTwice` | android/src/main/java/com/adeunis/capacitor/serial/SerialPlugin.kt:364-370 | a second open without a close stops the first pump immediately before it starts the second, and only the second pump runs |
| `SessionScenarios.PauseResumeKeepsParameters` | android/src/main/java/com/adeunis/capacitor/serial/SerialPlugin.kt:314-344 | after open, pause and resume, the new port gets the same configuration calls as the first, from the parameters of the open |
| `SessionScenarios.ReplaceCallback` | android/src/main/java/com/adeunis/capacitor/serial/SerialPlugin.kt:275-299 | after a second registration only the second callback receives inbound data |
| `Permissions.Receive` | android/src/main/java/com/adeunis/capacitor/serial/SerialPermissionsBroadcastReceiver.kt:12-21 | any other action changes nothing; the permission action resolves `granted` with the intent's flag (false when absent), drops keep-alive and unregisters |
| `Permissions.FirstPermissionIntent` | android/src/main/java/com/adeunis/capacitor/serial/SerialPermissionsBroadcastReceiver.kt:14 | a permission broadcast at an index before which no broadcast has the permission action, or none when no broadcast has it |
| `Permissions.DeliverUnregistered` | android/src/main/java/com/adeunis/capacitor/serial/SerialPermissionsBroadcastReceiver.kt:19 | once unregistered, later broadcasts change nothing |
| `Permissions.DeliverResolvesOnce` | android/src/main/java/com/adeunis/capacitor/serial/SerialPermissionsBroadcastReceiver.kt:12-21 | over any sequence of broadcasts the call is resolved at most once, by the first permission broadcast |
| `Permissions.SerialPermissionsBroadcastReceiver.constructor` | android/src/main/java/com/adeunis/capacitor/serial/SerialPermissionsBroadcastReceiver.kt:10-11 | the receiver holds the call and is not yet registered |
| `Permissions.SerialPermissionsBroadcastReceiver.Register` | android/src/main/java/com/adeunis/capacitor/serial/SerialPlugin.kt:112-120 | registration with the context |
| `Permissions.SerialPermissionsBroadcastReceiver.OnReceive` | android/src/main/java/com/adeunis/capacitor/serial/SerialPermissionsBroadcastReceiver.kt:12-21 | the receiver's and call's new state is `Receive` of the old one; any other action leaves both untouched |

## Left out

- `handleOnStart` only fetches the system's `UsbManager`. It is platform state, and `openDevice` is an input instead.
- `PendingIntent`, `IntentFilter` and `usbManager.requestPermission` are platform I/O. The model records the request as one `PermissionRequested` event.
- The context delivers a broadcast only to registered receivers. This Android rule is the premise of `Permissions.Deliver`, not code of the plugin.
- `UsbSerialProber`, `ProbeTable`, `findAllDrivers` and `driver.ports` belong to the serial library. Enumeration is a function from the prober to the candidate list, and the first port is an input. The exception when a driver has no port is not modelled.
- The internals of `SerialInputOutputManager`, the single-thread executor and the asynchronous `execute{}` blocks are concurrency. Each block runs as one step. The model covers only whether a pump handle is held, plus start and stop events. A pump that ends by itself after a run error is not modelled.
- How many bytes reach the device when a write times out is not modelled. The trace records the write call; the result is an input.
- The UTF-8 decoding of read and callback data (`decodeToString`) and `JSObject` marshalling are library behaviour. The model delivers the bytes themselves.
- Kotlin strings are UTF-16. Here a character is a Unicode scalar value, so an unpaired surrogate cannot be written.
- `JSONException` from an option getter is an input flag (`Malformed`). A JSON number that is not an integer (a Double such as 1.5, which `toInt()` truncates) is not modelled as a vendor or product ID.
- `Hex.DecodeHex` requires ASCII hex digits. The source's `toInt(16)` also accepts a chunk with a leading '+' or '-' ("-F" gives -15, sent as byte 0xF1) and the non-ASCII digits `Character.digit` knows, and throws an uncaught `NumberFormatException` on anything else. Those inputs are excluded: `Serial.SerialPlugin.WriteHexadecimal` requires hex data only when a port is open, since without one it rejects before decoding.
- `Probing.ResolveId` requires, when both IDs are present, a string ID to be an optional sign and ASCII hex digits whose value fits an Int. The source also accepts non-ASCII digits, and throws an uncaught `NumberFormatException` for an empty string, another character or overflow. A lone `vendorId` or `productId` is never parsed and needs nothing.
- Log calls and `TAG` have no effect on state.
- `src/definitions.ts` holds only types. It declares a raw/base64 read mode and `registerReadRawCallback`, and Android implements neither.
- `src/web.ts` and `ios/Plugin/SerialPlugin.swift` are stubs: every plugin method answers "not implemented", except the two raw-callback methods of `src/web.ts`, which resolve at once.
