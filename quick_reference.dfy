/** The template exported functions of bridge/QUICK_REFERENCE.go. As in
    `Exports`, each method follows the Go body step by step and is proved to
    leave exactly the trace `Run` gives for its handler. */
module QuickReference {
  import opened Go
  import opened Json
  import opened PortChannel
  import opened Protocol

  const EMPTY_NAME: ErrorText := "name parameter cannot be empty"
  const EMPTY_ENDPOINT: ErrorText := "source and destination cannot be empty"
  const EMPTY_ITEM_ID: ErrorText := "itemID cannot be empty"

  /** The fixed result of `getSimpleData`. */
  function SimpleData(): map<string, Value> {
    map["key" := Str("value"), "count" := Int(42)]
  }

  /** The result `getDataByName` reports for `name`. */
  function DataByName(name: string): map<string, Value> {
    map["name" := Str(name), "data" := Str("result for " + name)]
  }

  function GetSimpleDataHandler(): Handler {
    Handler(Accept, NoInput, NoWork, Data(GenericMap(SimpleData())))
  }

  function UpdateSimpleDataHandler(jsonInput: string): Handler {
    Handler(Accept, MapText(jsonInput), VisitEachKey, NoData)
  }

  function GetDataByNameHandler(name: string): Handler {
    Handler(if name == "" then Reject(EMPTY_NAME) else Accept, NoInput, NoWork, Data(GenericMap(DataByName(name))))
  }

  function ProcessDataHandler(source: string, destination: string): Handler {
    Handler(if source == "" || destination == "" then Reject(EMPTY_ENDPOINT) else Accept, NoInput, NoWork, NoData)
  }

  function DeleteItemHandler(itemID: string): Handler {
    Handler(if itemID == "" then Reject(EMPTY_ITEM_ID) else Accept, NoInput, NoWork, NoData)
  }

  method GetSimpleData(ports: Ports, json: Codec, port: int64)
    requires ports.Valid()
    modifies ports
    ensures ports.outbox == old(ports.outbox) + [Delivery(port, Response(GetSimpleDataHandler(), json))]
    ensures ports.trace == old(ports.trace) + Run(GetSimpleDataHandler(), port, json, [])
    ensures ports.Valid()
  {
    ghost var before, posted := ports.trace, ports.outbox;
    var result := SimpleData();
    var data := Marshal(ports, json, GenericMap(result));
    if data.Err? {
      ports.SendResponseToPort(port, Failed(data.error));
      RunDelivers(GetSimpleDataHandler(), port, json, [], before, ports.trace, posted, ports.outbox);
      return;
    }
    ports.SendResponseToPort(port, Succeeded(data.value));
    RunDelivers(GetSimpleDataHandler(), port, json, [], before, ports.trace, posted, ports.outbox);
  }

  method UpdateSimpleData(ports: Ports, json: Codec, port: int64, jsonInput: string)
    returns (ghost order: seq<string>)
    requires ports.Valid()
    modifies ports
    ensures ports.outbox == old(ports.outbox) + [Delivery(port, Response(UpdateSimpleDataHandler(jsonInput), json))]
    ensures Ran(UpdateSimpleDataHandler(jsonInput), port, json, order, old(ports.trace), ports.trace)
    ensures ports.Valid()
  {
    ghost var h := UpdateSimpleDataHandler(jsonInput);
    ghost var before, posted := ports.trace, ports.outbox;
    var input := jsonInput;
    var decoded := UnmarshalMap(ports, json, input);
    if decoded.Err? {
      order := [];
      DecodeFailureTrace(h, port, json, order, before, decoded.error);
      ports.SendResponseToPort(port, Failed(decoded.error));
      RunDelivers(h, port, json, order, before, ports.trace, posted, ports.outbox);
      return;
    }
    var config := decoded.value;
    order := RangeKeys(ports, config);
    VisitedTrace(h, port, json, order, before, config);
    ports.SendResponseToPort(port, Succeeded(""));
    RunDelivers(h, port, json, order, before, ports.trace, posted, ports.outbox);
  }

  method GetDataByName(ports: Ports, json: Codec, port: int64, name: string)
    requires ports.Valid()
    modifies ports
    ensures ports.outbox == old(ports.outbox) + [Delivery(port, Response(GetDataByNameHandler(name), json))]
    ensures ports.trace == old(ports.trace) + Run(GetDataByNameHandler(name), port, json, [])
    ensures ports.Valid()
  {
    ghost var before, posted := ports.trace, ports.outbox;
    var nameStr := name;
    if nameStr == "" {
      ports.SendResponseToPort(port, Failed(EMPTY_NAME));
      RunDelivers(GetDataByNameHandler(name), port, json, [], before, ports.trace, posted, ports.outbox);
      return;
    }
    var result := DataByName(nameStr);
    var data := Marshal(ports, json, GenericMap(result));
    if data.Err? {
      ports.SendResponseToPort(port, Failed(data.error));
      RunDelivers(GetDataByNameHandler(name), port, json, [], before, ports.trace, posted, ports.outbox);
      return;
    }
    ports.SendResponseToPort(port, Succeeded(data.value));
    RunDelivers(GetDataByNameHandler(name), port, json, [], before, ports.trace, posted, ports.outbox);
  }

  method ProcessData(ports: Ports, json: Codec, port: int64, source: string, destination: string)
    requires ports.Valid()
    modifies ports
    ensures ports.outbox == old(ports.outbox) + [Delivery(port, Response(ProcessDataHandler(source, destination), json))]
    ensures ports.trace == old(ports.trace) + Run(ProcessDataHandler(source, destination), port, json, [])
    ensures ports.Valid()
  {
    ghost var before, posted := ports.trace, ports.outbox;
    var src := source;
    var dst := destination;
    if src == "" || dst == "" {
      ports.SendResponseToPort(port, Failed(EMPTY_ENDPOINT));
      RunDelivers(ProcessDataHandler(source, destination), port, json, [], before, ports.trace, posted, ports.outbox);
      return;
    }
    // The processing of src into dst is not part of the code.
    ports.SendResponseToPort(port, Succeeded(""));
    RunDelivers(ProcessDataHandler(source, destination), port, json, [], before, ports.trace, posted, ports.outbox);
  }

  method DeleteItem(ports: Ports, json: Codec, port: int64, itemID: string)
    requires ports.Valid()
    modifies ports
    ensures ports.outbox == old(ports.outbox) + [Delivery(port, Response(DeleteItemHandler(itemID), json))]
    ensures ports.trace == old(ports.trace) + Run(DeleteItemHandler(itemID), port, json, [])
    ensures ports.Valid()
  {
    ghost var before, posted := ports.trace, ports.outbox;
    var id := itemID;
    if id == "" {
      ports.SendResponseToPort(port, Failed(EMPTY_ITEM_ID));
      RunDelivers(DeleteItemHandler(itemID), port, json, [], before, ports.trace, posted, ports.outbox);
      return;
    }
    // The deletion of the item is not part of the code.
    ports.SendResponseToPort(port, Succeeded(""));
    RunDelivers(DeleteItemHandler(itemID), port, json, [], before, ports.trace, posted, ports.outbox);
  }

  /** `getSimpleData` marshals its fixed result and answers with the
      encoding or with the encoding error. */
  lemma GetSimpleDataAnswers(port: int64, json: Codec)
    ensures var enc := json.marshal(GenericMap(SimpleData()));
            var r := Response(GetSimpleDataHandler(), json);
            && SimpleData().Keys == {"key", "count"}
            && SimpleData()["key"] == Str("value") && SimpleData()["count"] == Int(42)
            && Run(GetSimpleDataHandler(), port, json, []) == [Marshalled(GenericMap(SimpleData())), Sent(port, r)]
            && (enc.Ok? ==> r == DartResponse(true, "", enc.value))
            && (enc.Err? ==> r == DartResponse(false, enc.error, ""))
  {
  }

  /** Input that does not decode is answered with the decoding error and
      the loop is never entered; decoded input has each key visited exactly
      once and is acknowledged with an empty success. */
  lemma UpdateSimpleDataAnswers(port: int64, json: Codec, input: string, order: seq<string>)
    requires json.unmarshalMap(input).Ok? ==> Enumerates(order, json.unmarshalMap(input).value.Keys)
    ensures var d := json.unmarshalMap(input);
            var r := Response(UpdateSimpleDataHandler(input), json);
            && (d.Err? ==> Run(UpdateSimpleDataHandler(input), port, json, order)
                           == [Unmarshalled(input), Sent(port, DartResponse(false, d.error, ""))])
            && (d.Ok? ==> r == DartResponse(true, "", ""))
            && (d.Ok? ==> forall k :: multiset(Run(UpdateSimpleDataHandler(input), port, json, order))[Visited(k)]
                                    == if k in d.value then 1 else 0)
  {
    var h := UpdateSimpleDataHandler(input);
    match json.unmarshalMap(input)
    case Err(_) => DecodeFailureStops(h, port, json, order);
    case Ok(m) => VisitsEveryKeyOnce(h, port, json, order, m);
  }

  /** An empty name is rejected before anything is marshalled; any other
      name is answered with the encoding of `{name, "result for " + name}`. */
  lemma GetDataByNameAnswers(port: int64, json: Codec, name: string)
    ensures name == "" ==>
              Run(GetDataByNameHandler(name), port, json, [])
              == [Sent(port, DartResponse(false, "name parameter cannot be empty", ""))]
    ensures name != "" ==>
              var m := DataByName(name);
              && m.Keys == {"name", "data"}
              && m["name"] == Str(name) && m["data"] == Str("result for " + name)
              && Run(GetDataByNameHandler(name), port, json, [])
                 == [Marshalled(GenericMap(m)), Sent(port, Encoded(json.marshal(GenericMap(m))))]
  {
  }

  /** `processData` succeeds, with no data, exactly when both arguments are
      non-empty, and otherwise rejects them with a fixed message; it does
      nothing but answer. */
  lemma ProcessDataAnswers(port: int64, json: Codec, source: string, destination: string)
    ensures var r := Response(ProcessDataHandler(source, destination), json);
            && Run(ProcessDataHandler(source, destination), port, json, []) == [Sent(port, r)]
            && (r.success <==> source != "" && destination != "")
            && r.data == ""
            && (!r.success ==> r.message == "source and destination cannot be empty")
  {
  }

  /** `deleteItem` rejects an empty id with a fixed message and acknowledges
      any other with an empty success; it does nothing but answer. */
  lemma DeleteItemAnswers(port: int64, json: Codec, itemID: string)
    ensures var r := Response(DeleteItemHandler(itemID), json);
            && Run(DeleteItemHandler(itemID), port, json, []) == [Sent(port, r)]
            && r == if itemID == "" then DartResponse(false, "itemID cannot be empty", "")
                    else DartResponse(true, "", "")
  {
  }
}
