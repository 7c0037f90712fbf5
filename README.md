# Dart bridge dispatch protocol

A model of the Go-to-Dart bridge of this rclone fork: the `//export`
functions in `bridge/exports.go` and the templates in
`bridge/QUICK_REFERENCE.go`. The Dart side calls each of them with the token
of a port it listens on, plus zero or more strings. The function may check
its arguments, may decode a JSON argument, may marshal a result, and posts
one `DartResponse{Success, Message, Data}` to the port through
`SendResponseToPort`. It returns early after a failure.

The model has these parts.

- `Go`, `GeneralSettings` and `Json` hold the values involved. These are
  `int64`, pointers, `(value, error)` results, `ConfigGeneralSettings`, the
  `interface{}` values, and a `Codec` that stands for `encoding/json`.
- `PortChannel` holds `DartResponse` and the class `Ports`. Its `outbox` is
  every response posted so far. Its ghost `trace` records the steps each call
  takes: unmarshal, act on a field or key, marshal, send.
  `SendResponseToPort` appends to both. The class invariant `Valid` says
  that every posted response is well-shaped and that the outbox is exactly
  the sends the trace records, in order.
- `Protocol` is the reference definition. It describes each exported
  function as a `Handler`: a validation, a JSON input, the work, and the
  output. `Run` gives the trace one call must leave: validate, decode, work,
  encode, then exactly one response, stopping at the first failure. The
  lemmas here are stated over every handler.
- `Exports` and `QuickReference` have one method per exported function. Each
  method follows the Go body, early `return`s included. Each is proved to
  append exactly `Run(handler)` to the trace and exactly one delivery, to its
  own token, to the outbox, and to keep `Valid`. A missing `return` would
  post a second response, and these postconditions would then fail. The per-function lemmas say what
  `Run` is for each handler.

## Model

| member | source | states |
|---|---|---|
| GeneralSettings.Zero | bridge/exports.go:96 | the zero `ConfigGeneralSettings{}` has no field present |
| GeneralSettings.PtrBool | bridge/exports.go:230-232 | the pointer is non-nil and points to the argument |
| GeneralSettings.PtrString | bridge/exports.go:234-236 | the pointer is non-nil and points to the argument |
| GeneralSettings.PtrInt | bridge/exports.go:238-240 | the pointer is non-nil and points to the argument |
| PortChannel.Encoded | bridge/exports.go:69-81 | marshal-then-send succeeds iff marshalling does; on success Data is the encoding and Message is empty; on failure Message is the error text and Data is empty |
| PortChannel.Ports.SendResponseToPort | bridge/exports.go:30-36 | one send appends exactly one delivery to the given token and records it in the trace; every response so far stays well-shaped iff the new one is |
| PortChannel.QuietDeliversNothing | bridge/QUICK_REFERENCE.go:197-199 | a trace with no send delivers nothing |
| PortChannel.DeliveriesAppend | bridge/QUICK_REFERENCE.go:197-199 | the deliveries of two consecutive traces are those of the first, then those of the second |
| Protocol.Visits | bridge/QUICK_REFERENCE.go:76-80 | the loop has one iteration per key of the order, and iteration i visits key i |
| Protocol.EnumeratesExtend | bridge/exports.go:184-194 | listing one more unvisited key keeps the order an enumeration of the visited keys |
| Protocol.Response | bridge/QUICK_REFERENCE.go:188-201 | every response is well-shaped: a success has no message, a failure has a non-empty message and no data; a rejected argument fails with its fixed message; success needs validation and decoding to pass; non-empty Data is always the marshalled output |
| Protocol.RunAccepted | bridge/QUICK_REFERENCE.go:188-193 | once arguments pass and input decodes, the call decodes, works, marshals its output if it has one, then sends |
| Protocol.AppliedExactly | bridge/exports.go:105-121 | the patch acts on a field iff the field is non-nil and is AllowLan, BindAddress, Port or LogLevel |
| Protocol.RunDelivers | bridge/exports.go:30-36 | a call adds exactly its own response to what the trace delivers, so an outbox that matches the trace before a call still matches it after |
| Protocol.DecodeFailureTrace | bridge/exports.go:174-181 | when the JSON argument does not decode, the call's whole trace is one unmarshal step and one failure carrying the decode error |
| Protocol.VisitedTrace | bridge/QUICK_REFERENCE.go:66-85 | when the map decodes, the call's whole trace is one unmarshal step, one visit per key in loop order, and one empty success |
| Protocol.AppliedTrace | bridge/exports.go:96-125 | when the patch decodes, the call's whole trace is one unmarshal step, the fields acted on, and one empty success |
| Protocol.RunAnswersOnce | bridge/QUICK_REFERENCE.go:197-201 | every call, on every path, sends exactly one response, to its own token, as its last step |
| Protocol.RejectionComesFirst | bridge/QUICK_REFERENCE.go:189-191 | a rejected argument is answered before any decoding, work or marshalling |
| Protocol.DecodeFailureStops | bridge/exports.go:34-36 | a decode error is answered with its text and empty Data; nothing is applied, visited or marshalled |
| Protocol.EnumerationCounts | bridge/exports.go:184 | an order the `range` can take lists every key of the map exactly once |
| Protocol.VisitCounts | bridge/exports.go:184 | the loop visits each key as many times as the order lists it |
| Protocol.VisitsEveryKeyOnce | bridge/exports.go:184-194 | the `range` loop visits every key of the decoded map exactly once, and no other key |
| Protocol.RangeKeys | bridge/QUICK_REFERENCE.go:76-80 | the loop picks the keys in some order that lists each key once, and its trace is one visit per key in that order |
| Protocol.Marshal | bridge/exports.go:69 | returns `json.Marshal` of the payload and records one marshal step |
| Protocol.UnmarshalSettings | bridge/exports.go:96-97 | returns the decoded settings or the decode error, and records one unmarshal step |
| Protocol.UnmarshalMap | bridge/exports.go:174-175 | returns the decoded map or the decode error, and records one unmarshal step |
| Exports.GeneralDefaults | bridge/exports.go:63-67 | only AllowLan, BindAddress and Port are set, to true, "0.0.0.0" and 8080 |
| Exports.GetGeneralConfig | bridge/exports.go:57-82 | posts exactly one response, to `port`, and leaves the trace `Run` defines for getGeneralConfig |
| Exports.PatchGeneralConfig | bridge/exports.go:91-126 | posts exactly one response, to `port`, and leaves the trace `Run` defines for patchGeneralConfig |
| Exports.ApplyPresent | bridge/exports.go:105-121 | acts on AllowLan, BindAddress, Port and LogLevel, in that order, when each is non-nil |
| Exports.GetRemoteConfig | bridge/exports.go:134-160 | posts exactly one response, to `port`, and leaves the trace `Run` defines for getRemoteConfig |
| Exports.UpdateRemoteConfig | bridge/exports.go:168-199 | posts exactly one response, to `port`; the trace is `Run` for some order in which the loop lists every decoded key once |
| Exports.DeleteRemote | bridge/exports.go:207-224 | posts exactly one response, to `port`, and leaves the trace `Run` defines for deleteRemote |
| Exports.GetGeneralConfigAnswers | bridge/exports.go:63-81 | only the default settings are marshalled; the response is Success=true, Message="" and Data=the encoding, or Success=false with the error text and empty Data |
| Exports.PatchDecodeFailure | bridge/exports.go:96-103 | a patch that fails to decode gets one failure with the decode error, before any field is looked at |
| Exports.PatchActsOnPresentFields | bridge/exports.go:105-125 | a decoded patch acts on a field iff the field is present and is one of the four checked ones; the response is Success=true with empty Message and Data |
| Exports.GetRemoteConfigAnswers | bridge/exports.go:136-159 | every name is accepted, even an empty one; Data encodes {name: the input, type: "s3", url: "https://example.com"} |
| Exports.UpdateRemoteConfigDecodeFailure | bridge/exports.go:174-181 | data that fails to decode gets one failure with the decode error, and the loop is never entered, whatever order the method reports |
| Exports.UpdateRemoteConfigVisitsEveryKey | bridge/exports.go:184-198 | decoded data has every key visited exactly once; the response is then Success=true with empty Data |
| Exports.DeleteRemoteAlwaysSucceeds | bridge/exports.go:208-224 | every name, even an empty one, gets exactly one Success=true with empty Data, and nothing else happens |
| QuickReference.GetSimpleData | bridge/QUICK_REFERENCE.go:30-53 | posts exactly one response, to `port`, and leaves the trace `Run` defines for getSimpleData |
| QuickReference.UpdateSimpleData | bridge/QUICK_REFERENCE.go:59-86 | posts exactly one response, to `port`; the trace is `Run` for some order in which the loop lists every decoded key once |
| QuickReference.GetDataByName | bridge/QUICK_REFERENCE.go:92-126 | posts exactly one response, to `port`, and leaves the trace `Run` defines for getDataByName |
| QuickReference.ProcessData | bridge/QUICK_REFERENCE.go:132-153 | posts exactly one response, to `port`, and leaves the trace `Run` defines for processData |
| QuickReference.DeleteItem | bridge/QUICK_REFERENCE.go:159-179 | posts exactly one response, to `port`, and leaves the trace `Run` defines for deleteItem |
| QuickReference.GetSimpleDataAnswers | bridge/QUICK_REFERENCE.go:33-52 | Data encodes {"key": "value", "count": 42}; an encode failure gets one failure with the error text |
| QuickReference.UpdateSimpleDataAnswers | bridge/QUICK_REFERENCE.go:66-85 | a decode error gets one failure and stops before the loop; otherwise every key is visited once, then one Success=true with empty Data |
| QuickReference.GetDataByNameAnswers | bridge/QUICK_REFERENCE.go:98-125 | an empty name gets one failure "name parameter cannot be empty" and nothing is marshalled; any other name gets the encoding of {name, data: "result for " + name} |
| QuickReference.ProcessDataAnswers | bridge/QUICK_REFERENCE.go:139-152 | success iff source and destination are both non-empty, always with empty Data; otherwise the failure "source and destination cannot be empty" |
| QuickReference.DeleteItemAnswers | bridge/QUICK_REFERENCE.go:165-178 | an empty id gets the failure "itemID cannot be empty"; any other gets Success=true with empty Data |

Notes on the code:

- `deleteRemote` checks nothing and always succeeds
  (`Exports.DeleteRemoteAlwaysSucceeds`). Only `deleteItem` rejects an
  empty id.
- Every setter and engine call in these files is commented out. So the
  model's work steps are the branches and loop iterations the code runs, and
  they have no effect.
- `patchGeneralConfig` ignores `SocksPort`, `MixedPort`, `RedirPort` and
  `TProxyPort` (`Protocol.AppliedExactly`).

## Left out

- The cgo preamble, `GoDart_PostCObject` and `Dart_PostCObject_DL`. These are calls into the Dart runtime; a send is only an append to `Ports.outbox`.
- The file that defines `SendResponseToPort`, `DartResponse` and `InitDartApi` is not part of this model. `DartResponse` is taken as the plain record its uses show, and `Ports.SendResponseToPort` as an append. The wire encoding of the response and the once-only initialisation of the API handle are not modelled.
- `initNativeDartBridge` and `main` in rclone.go are bootstrap glue that hands off to rclone's command line.
- `encoding/json`. Marshal and the two unmarshal calls are arbitrary functions in a `Codec`. The JSON grammar, `omitempty` rendering and key order are not modelled. The model assumes one property of the library: its error texts are never empty.
- With the real library, the bridge's marshal calls cannot fail on these values. The model keeps the failure branches the code has.
- `C.GoString`. Arguments are plain strings, and `int64(port)` is the identity on the token.
- `float64` values from decoding are reals. Floating-point rounding is not modelled, and these values are never read.
- The commented-out setters, engine calls and per-key error returns are not code, so they are not modelled.
- Which goroutine sends, and concurrent calls. Calls are modelled one after another on one `Ports` object.
- The Dart caller example at the end of bridge/QUICK_REFERENCE.go.
- Both `range` loops share the method `Protocol.RangeKeys`. Their bodies only read their variables and have no effect, so the loop is the same in both.
- PtrBool: says the result points to the argument but not that the pointer is a fresh address, because addresses are not modelled.
- PtrString: says the result points to the argument but not that the pointer is a fresh address, because addresses are not modelled.
- PtrInt: says the result points to the argument but not that the pointer is a fresh address, because addresses are not modelled.
