/** The dispatch protocol every exported function follows: validate the
    arguments, decode the JSON input, act on what was decoded, encode the
    result, and post exactly one response to the caller's port, stopping at
    the first failure. An exported function is described by a `Handler`;
    `Run` is the trace a call to it must leave. */
module Protocol {
  import opened Go
  import opened GeneralSettings
  import opened Json
  import opened PortChannel

  /** The check an exported function makes on its string arguments. */
  datatype Validation = Accept | Reject(reason: ErrorText)

  /** The argument, if any, that is decoded from JSON, and its target type. */
  datatype Input = NoInput | SettingsText(text: string) | MapText(text: string)

  /** What the body does with the decoded input. */
  datatype Work =
    | NoWork
      /** the nil checks of `patchGeneralConfig` */
    | ApplyPresentFields
      /** a `range` loop over the decoded map */
    | VisitEachKey

  /** The value, if any, that is marshalled into `Data`. */
  datatype Output = NoData | Data(payload: Payload)

  datatype Handler = Handler(validation: Validation, input: Input, work: Work, output: Output)

  datatype Decoded =
    | NoArgument
    | DecodedSettings(settings: ConfigGeneralSettings)
    | DecodedMap(entries: map<string, Value>)

  function Decode(json: Codec, input: Input): Result<Decoded> {
    match input
    case NoInput => Ok(NoArgument)
    case SettingsText(text) =>
      (match json.unmarshalSettings(text)
       case Ok(s) => Ok(DecodedSettings(s))
       case Err(e) => Err(e))
    case MapText(text) =>
      (match json.unmarshalMap(text)
       case Ok(m) => Ok(DecodedMap(m))
       case Err(e) => Err(e))
  }

  function DecodeEvents(input: Input): seq<Event> {
    if input.NoInput? then [] else [Unmarshalled(input.text)]
  }

  /** The fields `patchGeneralConfig` tests for nil, in the order it tests
      them; `SocksPort`, `MixedPort`, `RedirPort` and `TProxyPort` are never
      looked at. */
  function AppliedFields(s: ConfigGeneralSettings): seq<Event> {
    (if s.allowLan.Ref? then [Applied(AllowLan)] else [])
    + (if s.bindAddress.Ref? then [Applied(BindAddress)] else [])
    + (if s.port.Ref? then [Applied(Port)] else [])
    + (if s.logLevel.Ref? then [Applied(LogLevel)] else [])
  }

  /** `patchGeneralConfig` acts on a field exactly when the patch carries it
      and the field is one of the four it tests. */
  lemma AppliedExactly(s: ConfigGeneralSettings, f: Field)
    ensures Applied(f) in AppliedFields(s)
        <==> Present(s, f) && (f == AllowLan || f == BindAddress || f == Port || f == LogLevel)
  {
    var a := if s.allowLan.Ref? then [Applied(AllowLan)] else [];
    var b := if s.bindAddress.Ref? then [Applied(BindAddress)] else [];
    var c := if s.port.Ref? then [Applied(Port)] else [];
    var d := if s.logLevel.Ref? then [Applied(LogLevel)] else [];
    assert AppliedFields(s) == a + b + c + d;
    assert Applied(f) in AppliedFields(s) <==> Applied(f) in a || Applied(f) in b || Applied(f) in c || Applied(f) in d;
  }

  /** One loop iteration per key of `order`, in that order. */
  function Visits(order: seq<string>): (trace: seq<Event>)
    ensures |trace| == |order|
    ensures forall i :: 0 <= i < |order| ==> trace[i] == Visited(order[i])
  {
    if order == [] then [] else Visits(order[..|order| - 1]) + [Visited(order[|order| - 1])]
  }

  /** `order` lists every key of `keys` once: an order a Go `range` over a
      map with those keys may take. */
  ghost predicate Enumerates(order: seq<string>, keys: set<string>) {
    && (forall i, j :: 0 <= i < j < |order| ==> order[i] != order[j])
    && (forall k :: k in order <==> k in keys)
  }

  /** Extending an enumeration by a key it does not yet list. */
  lemma EnumeratesExtend(order: seq<string>, keys: set<string>, key: string)
    requires Enumerates(order, keys) && key !in keys
    ensures Enumerates(order + [key], keys + {key})
    ensures Visits(order + [key]) == Visits(order) + [Visited(key)]
  {
    assert (order + [key])[..|order|] == order;
  }

  function WorkEvents(work: Work, decoded: Decoded, order: seq<string>): seq<Event> {
    match (work, decoded)
    case (ApplyPresentFields, DecodedSettings(s)) => AppliedFields(s)
    case (VisitEachKey, DecodedMap(_)) => Visits(order)
    case _ => []
  }

  /** `order` is an order the `range` loop of `h` may take over the decoded map. */
  ghost predicate IterationOrder(h: Handler, json: Codec, order: seq<string>) {
    var d := Decode(json, h.input);
    h.work.VisitEachKey? && d.Ok? && d.value.DecodedMap? ==> Enumerates(order, d.value.entries.Keys)
  }

  /** `after` extends `before` by the trace of one call of `h` on token
      `port` whose `range` loop, if any, took `order`. */
  ghost predicate Ran(h: Handler, port: int64, json: Codec, order: seq<string>, before: seq<Event>, after: seq<Event>) {
    IterationOrder(h, json, order) && after == before + Run(h, port, json, order)
  }

  /** The steps a call takes before it responds. */
  function Effects(h: Handler, json: Codec, order: seq<string>): seq<Event> {
    if h.validation.Reject? then []
    else
      DecodeEvents(h.input) +
      match Decode(json, h.input)
      case Err(_) => []
      case Ok(d) =>
        WorkEvents(h.work, d, order) + (if h.output.Data? then [Marshalled(h.output.payload)] else [])
  }

  /** The one response a call posts. */
  function Response(h: Handler, json: Codec): (r: DartResponse)
    ensures WellShaped(r)
    ensures h.validation.Reject? ==> r == Failed(h.validation.reason)
    ensures r.success ==> h.validation.Accept? && Decode(json, h.input).Ok?
    ensures r.data != "" ==> h.output.Data? && json.marshal(h.output.payload) == Ok(r.data)
  {
    match h.validation
    case Reject(reason) => Failed(reason)
    case Accept =>
      match Decode(json, h.input)
      case Err(e) => Failed(e)
      case Ok(_) =>
        match h.output
        case NoData => Succeeded("")
        case Data(p) => Encoded(json.marshal(p))
  }

  /** The whole trace of one call on token `port`. */
  function Run(h: Handler, port: int64, json: Codec, order: seq<string>): seq<Event> {
    Effects(h, json, order) + [Sent(port, Response(h, json))]
  }

  /** The trace of a call whose arguments are accepted and whose input decodes. */
  lemma RunAccepted(h: Handler, port: int64, json: Codec, order: seq<string>, d: Decoded)
    requires h.validation.Accept? && Decode(json, h.input) == Ok(d)
    ensures Response(h, json) == if h.output.NoData? then Succeeded("") else Encoded(json.marshal(h.output.payload))
    ensures Run(h, port, json, order)
         == DecodeEvents(h.input) + WorkEvents(h.work, d, order)
            + (if h.output.Data? then [Marshalled(h.output.payload)] else [])
            + [Sent(port, Response(h, json))]
  {
  }

  /** Every call posts exactly one response, to its own token, after all of
      its other steps. */
  lemma RunAnswersOnce(h: Handler, port: int64, json: Codec, order: seq<string>)
    ensures AnsweredOnce(Run(h, port, json, order), port)
    ensures Deliveries(Run(h, port, json, order)) == [Delivery(port, Response(h, json))]
  {
    var e := Effects(h, json, order);
    var run := Run(h, port, json, order);
    assert run[..|run| - 1] == e;
    QuietDeliversNothing(e);
  }

  /** A call adds exactly its one response to what a trace delivers, so a
      trace and an outbox that agree before a call still agree after it. */
  lemma RunDelivers(h: Handler, port: int64, json: Codec, order: seq<string>,
                    before: seq<Event>, after: seq<Event>, posted: seq<Delivery>, outbox: seq<Delivery>)
    requires Deliveries(before) == posted
    requires after == before + Run(h, port, json, order)
    requires outbox == posted + [Delivery(port, Response(h, json))]
    ensures Deliveries(after) == outbox
  {
    DeliveriesAppend(before, Run(h, port, json, order));
    RunAnswersOnce(h, port, json, order);
  }

  /** The trace of a call whose JSON argument does not decode, in the form a
      method that unmarshals and then sends builds it. */
  lemma DecodeFailureTrace(h: Handler, port: int64, json: Codec, order: seq<string>, before: seq<Event>, err: ErrorText)
    requires h.validation.Accept? && !h.input.NoInput? && Decode(json, h.input) == Err(err)
    ensures Response(h, json) == Failed(err)
    ensures before + [Unmarshalled(h.input.text)] + [Sent(port, Failed(err))] == before + Run(h, port, json, order)
  {
    DecodeFailureStops(h, port, json, order);
  }

  /** The trace of a call that decodes a map, visits its keys in `order`
      and acknowledges with an empty success. */
  lemma VisitedTrace(h: Handler, port: int64, json: Codec, order: seq<string>, before: seq<Event>, m: map<string, Value>)
    requires h.validation.Accept? && h.input.MapText? && h.work.VisitEachKey? && h.output.NoData?
    requires Decode(json, h.input) == Ok(DecodedMap(m))
    ensures Response(h, json) == Succeeded("")
    ensures before + [Unmarshalled(h.input.text)] + Visits(order) + [Sent(port, Succeeded(""))] == before + Run(h, port, json, order)
  {
    RunAccepted(h, port, json, order, DecodedMap(m));
  }

  /** The trace of a call that decodes settings, acts on the fields it tests
      and acknowledges with an empty success. */
  lemma AppliedTrace(h: Handler, port: int64, json: Codec, before: seq<Event>, s: ConfigGeneralSettings)
    requires h.validation.Accept? && h.input.SettingsText? && h.work.ApplyPresentFields? && h.output.NoData?
    requires Decode(json, h.input) == Ok(DecodedSettings(s))
    ensures Response(h, json) == Succeeded("")
    ensures before + [Unmarshalled(h.input.text)] + AppliedFields(s) + [Sent(port, Succeeded(""))] == before + Run(h, port, json, [])
  {
    RunAccepted(h, port, json, [], DecodedSettings(s));
  }

  /** A rejected argument is answered before any decoding, work or encoding. */
  lemma RejectionComesFirst(h: Handler, port: int64, json: Codec, order: seq<string>)
    requires h.validation.Reject?
    ensures Run(h, port, json, order) == [Sent(port, Failed(h.validation.reason))]
  {
  }

  /** A decoding failure is answered with its error text, and nothing is
      applied, visited or encoded. */
  lemma DecodeFailureStops(h: Handler, port: int64, json: Codec, order: seq<string>)
    requires h.validation.Accept? && Decode(json, h.input).Err?
    ensures Response(h, json) == Failed(Decode(json, h.input).error)
    ensures Run(h, port, json, order)
         == DecodeEvents(h.input) + [Sent(port, Failed(Decode(json, h.input).error))]
  {
  }

  lemma {:induction false} EnumerationCounts(order: seq<string>, keys: set<string>, k: string)
    requires Enumerates(order, keys)
    ensures multiset(order)[k] == if k in keys then 1 else 0
  {
    if order != [] {
      var last := order[|order| - 1];
      var rest := order[..|order| - 1];
      assert order == rest + [last];
      assert Enumerates(rest, keys - {last}) by {
        forall x ensures x in rest <==> x in keys - {last} {
          if x in rest {
            var i :| 0 <= i < |rest| && rest[i] == x;
            assert order[i] != order[|order| - 1];
          }
          if x in keys - {last} {
            assert x in order;
            var i :| 0 <= i < |order| && order[i] == x;
            assert i != |order| - 1;
            assert rest[i] == x;
          }
        }
      }
      EnumerationCounts(rest, keys - {last}, k);
    }
  }

  lemma {:induction false} VisitCounts(order: seq<string>, k: string)
    ensures multiset(Visits(order))[Visited(k)] == multiset(order)[k]
  {
    if order != [] {
      var rest := order[..|order| - 1];
      assert order == rest + [order[|order| - 1]];
      VisitCounts(rest, k);
    }
  }

  /** When the `range` loop runs, it visits every key of the decoded map
      exactly once and visits nothing else. */
  lemma VisitsEveryKeyOnce(h: Handler, port: int64, json: Codec, order: seq<string>, m: map<string, Value>)
    requires h.validation.Accept? && h.work.VisitEachKey? && h.output.NoData?
    requires Decode(json, h.input) == Ok(DecodedMap(m))
    requires Enumerates(order, m.Keys)
    ensures forall k :: multiset(Run(h, port, json, order))[Visited(k)] == if k in m then 1 else 0
  {
    var pre := DecodeEvents(h.input);
    var run := Run(h, port, json, order);
    assert Response(h, json) == Succeeded("");
    assert Effects(h, json, order) == pre + Visits(order);
    assert run == pre + Visits(order) + [Sent(port, Succeeded(""))];
    assert multiset(run) == multiset(pre) + multiset(Visits(order)) + multiset([Sent(port, Succeeded(""))]);
    forall k ensures multiset(run)[Visited(k)] == if k in m then 1 else 0 {
      assert multiset(pre)[Visited(k)] == 0;
      VisitCounts(order, k);
      EnumerationCounts(order, m.Keys, k);
    }
  }

  /** `for key, value := range m { }`: the loop body of every `range` in the
      bridge only reads its variables and has no effect. Go leaves the order
      unspecified; `order` is the one this run took. */
  method RangeKeys(ports: Ports, m: map<string, Value>) returns (ghost order: seq<string>)
    modifies ports`trace
    ensures Enumerates(order, m.Keys)
    ensures ports.trace == old(ports.trace) + Visits(order)
  {
    var pending := m.Keys;
    ghost var done: set<string> := {};
    order := [];
    while pending != {}
      invariant done + pending == m.Keys && done !! pending
      invariant Enumerates(order, done)
      invariant ports.trace == old(ports.trace) + Visits(order)
      decreases pending
    {
      var key :| key in pending;
      var value := m[key];
      ports.trace := ports.trace + [Visited(key)];
      EnumeratesExtend(order, done, key);
      order, done, pending := order + [key], done + {key}, pending - {key};
    }
  }

  /** `json.Marshal(p)`, noted in the trace. */
  method Marshal(ports: Ports, json: Codec, p: Payload) returns (data: Result<string>)
    modifies ports`trace
    ensures data == json.marshal(p)
    ensures ports.trace == old(ports.trace) + [Marshalled(p)]
  {
    data := json.marshal(p);
    ports.trace := ports.trace + [Marshalled(p)];
  }

  /** `json.Unmarshal([]byte(text), &ConfigGeneralSettings{})`, noted in the trace. */
  method UnmarshalSettings(ports: Ports, json: Codec, text: string) returns (decoded: Result<ConfigGeneralSettings>)
    modifies ports`trace
    ensures decoded == json.unmarshalSettings(text)
    ensures ports.trace == old(ports.trace) + [Unmarshalled(text)]
  {
    decoded := json.unmarshalSettings(text);
    ports.trace := ports.trace + [Unmarshalled(text)];
  }

  /** `json.Unmarshal([]byte(text), &m)` with `m` a `map[string]interface{}`,
      noted in the trace. */
  method UnmarshalMap(ports: Ports, json: Codec, text: string) returns (decoded: Result<map<string, Value>>)
    modifies ports`trace
    ensures decoded == json.unmarshalMap(text)
    ensures ports.trace == old(ports.trace) + [Unmarshalled(text)]
  {
    decoded := json.unmarshalMap(text);
    ports.trace := ports.trace + [Unmarshalled(text)];
  }
}
