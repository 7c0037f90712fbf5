/** The exported functions of bridge/exports.go. Each method follows the Go
    body step by step, early returns included, and is proved to leave exactly
    the trace `Run` gives for its handler. */
module Exports {
  import opened Go
  import opened GeneralSettings
  import opened Json
  import opened PortChannel
  import opened Protocol

  /** The settings `getGeneralConfig` reports: only `AllowLan`,
      `BindAddress` and `Port` are set. */
  function GeneralDefaults(): (g: ConfigGeneralSettings)
    ensures forall f :: Present(g, f) <==> f == AllowLan || f == BindAddress || f == Port
    ensures g.allowLan == Ref(true) && g.bindAddress == Ref("0.0.0.0") && g.port == Ref(8080)
  {
    Zero().(allowLan := PtrBool(true), bindAddress := PtrString("0.0.0.0"), port := PtrInt(8080))
  }

  /** The placeholder configuration `getRemoteConfig` reports for `name`. */
  function RemoteConfig(name: string): map<string, Value> {
    map["name" := Str(name), "type" := Str("s3"), "url" := Str("https://example.com")]
  }

  function GetGeneralConfigHandler(): Handler {
    Handler(Accept, NoInput, NoWork, Data(SettingsStruct(GeneralDefaults())))
  }

  function PatchGeneralConfigHandler(patch: string): Handler {
    Handler(Accept, SettingsText(patch), ApplyPresentFields, NoData)
  }

  function GetRemoteConfigHandler(name: string): Handler {
    Handler(Accept, NoInput, NoWork, Data(GenericMap(RemoteConfig(name))))
  }

  /** The remote's name is read but not used. */
  function UpdateRemoteConfigHandler(remoteName: string, configData: string): Handler {
    Handler(Accept, MapText(configData), VisitEachKey, NoData)
  }

  /** `deleteRemote` checks nothing, not even that the name is non-empty,
      and deletes nothing. */
  function DeleteRemoteHandler(remoteName: string): Handler {
    Handler(Accept, NoInput, NoWork, NoData)
  }

  method GetGeneralConfig(ports: Ports, json: Codec, port: int64)
    requires ports.Valid()
    modifies ports
    ensures ports.outbox == old(ports.outbox) + [Delivery(port, Response(GetGeneralConfigHandler(), json))]
    ensures ports.trace == old(ports.trace) + Run(GetGeneralConfigHandler(), port, json, [])
    ensures ports.Valid()
  {
    ghost var before, posted := ports.trace, ports.outbox;
    var general := GeneralDefaults();
    var data := Marshal(ports, json, SettingsStruct(general));
    if data.Err? {
      ports.SendResponseToPort(port, Failed(data.error));
      RunDelivers(GetGeneralConfigHandler(), port, json, [], before, ports.trace, posted, ports.outbox);
      return;
    }
    ports.SendResponseToPort(port, Succeeded(data.value));
    RunDelivers(GetGeneralConfigHandler(), port, json, [], before, ports.trace, posted, ports.outbox);
  }

  method PatchGeneralConfig(ports: Ports, json: Codec, port: int64, patchStr: string)
    requires ports.Valid()
    modifies ports
    ensures ports.outbox == old(ports.outbox) + [Delivery(port, Response(PatchGeneralConfigHandler(patchStr), json))]
    ensures ports.trace == old(ports.trace) + Run(PatchGeneralConfigHandler(patchStr), port, json, [])
    ensures ports.Valid()
  {
    ghost var h := PatchGeneralConfigHandler(patchStr);
    ghost var before, posted := ports.trace, ports.outbox;
    var patch := patchStr;
    var decoded := UnmarshalSettings(ports, json, patch);
    if decoded.Err? {
      DecodeFailureTrace(h, port, json, [], before, decoded.error);
      ports.SendResponseToPort(port, Failed(decoded.error));
      RunDelivers(h, port, json, [], before, ports.trace, posted, ports.outbox);
      return;
    }
    var general := decoded.value;
    ApplyPresent(ports, general);
    AppliedTrace(h, port, json, before, general);
    ports.SendResponseToPort(port, Succeeded(""));
    RunDelivers(h, port, json, [], before, ports.trace, posted, ports.outbox);
  }

  /** The nil checks of `patchGeneralConfig`, in the order it makes them. */
  method ApplyPresent(ports: Ports, general: ConfigGeneralSettings)
    modifies ports`trace
    ensures ports.trace == old(ports.trace) + AppliedFields(general)
  {
    // The setters these branches would call are not part of the code.
    if general.allowLan != Nil {
      ports.trace := ports.trace + [Applied(AllowLan)];
    }
    ghost var step1 := ports.trace;
    if general.bindAddress != Nil {
      ports.trace := ports.trace + [Applied(BindAddress)];
    }
    ghost var step2 := ports.trace;
    if general.port != Nil {
      ports.trace := ports.trace + [Applied(Port)];
    }
    ghost var step3 := ports.trace;
    if general.logLevel != Nil {
      ports.trace := ports.trace + [Applied(LogLevel)];
    }
    ghost var a := if general.allowLan.Ref? then [Applied(AllowLan)] else [];
    ghost var b := if general.bindAddress.Ref? then [Applied(BindAddress)] else [];
    ghost var c := if general.port.Ref? then [Applied(Port)] else [];
    ghost var d := if general.logLevel.Ref? then [Applied(LogLevel)] else [];
    assert step1 == old(ports.trace) + a;
    assert step2 == old(ports.trace) + a + b;
    assert step3 == old(ports.trace) + a + b + c;
    assert AppliedFields(general) == a + b + c + d;
  }

  method GetRemoteConfig(ports: Ports, json: Codec, port: int64, remoteName: string)
    requires ports.Valid()
    modifies ports
    ensures ports.outbox == old(ports.outbox) + [Delivery(port, Response(GetRemoteConfigHandler(remoteName), json))]
    ensures ports.trace == old(ports.trace) + Run(GetRemoteConfigHandler(remoteName), port, json, [])
    ensures ports.Valid()
  {
    ghost var before, posted := ports.trace, ports.outbox;
    var name := remoteName;
    var remoteConfig := RemoteConfig(name);
    var data := Marshal(ports, json, GenericMap(remoteConfig));
    if data.Err? {
      ports.SendResponseToPort(port, Failed(data.error));
      RunDelivers(GetRemoteConfigHandler(remoteName), port, json, [], before, ports.trace, posted, ports.outbox);
      return;
    }
    ports.SendResponseToPort(port, Succeeded(data.value));
    RunDelivers(GetRemoteConfigHandler(remoteName), port, json, [], before, ports.trace, posted, ports.outbox);
  }

  method UpdateRemoteConfig(ports: Ports, json: Codec, port: int64, remoteName: string, configData: string)
    returns (ghost order: seq<string>)
    requires ports.Valid()
    modifies ports
    ensures ports.outbox == old(ports.outbox) + [Delivery(port, Response(UpdateRemoteConfigHandler(remoteName, configData), json))]
    ensures Ran(UpdateRemoteConfigHandler(remoteName, configData), port, json, order, old(ports.trace), ports.trace)
    ensures ports.Valid()
  {
    ghost var h := UpdateRemoteConfigHandler(remoteName, configData);
    ghost var before, posted := ports.trace, ports.outbox;
    var name := remoteName;
    var data := configData;
    var decoded := UnmarshalMap(ports, json, data);
    if decoded.Err? {
      order := [];
      DecodeFailureTrace(h, port, json, order, before, decoded.error);
      ports.SendResponseToPort(port, Failed(decoded.error));
      RunDelivers(h, port, json, order, before, ports.trace, posted, ports.outbox);
      return;
    }
    var remoteConfig := decoded.value;
    // The setter that would use name, key and value is not part of the code.
    order := RangeKeys(ports, remoteConfig);
    VisitedTrace(h, port, json, order, before, remoteConfig);
    ports.SendResponseToPort(port, Succeeded(""));
    RunDelivers(h, port, json, order, before, ports.trace, posted, ports.outbox);
  }

  method DeleteRemote(ports: Ports, json: Codec, port: int64, remoteName: string)
    requires ports.Valid()
    modifies ports
    ensures ports.outbox == old(ports.outbox) + [Delivery(port, Response(DeleteRemoteHandler(remoteName), json))]
    ensures ports.trace == old(ports.trace) + Run(DeleteRemoteHandler(remoteName), port, json, [])
    ensures ports.Valid()
  {
    ghost var before, posted := ports.trace, ports.outbox;
    var name := remoteName;
    // The deletion that would use name is not part of the code.
    ports.SendResponseToPort(port, Succeeded(""));
    RunDelivers(DeleteRemoteHandler(remoteName), port, json, [], before, ports.trace, posted, ports.outbox);
  }

  /** `getGeneralConfig` marshals the defaults, and nothing else, and answers
      with their encoding or with the encoding error. */
  lemma GetGeneralConfigAnswers(port: int64, json: Codec)
    ensures var enc := json.marshal(SettingsStruct(GeneralDefaults()));
            var r := Response(GetGeneralConfigHandler(), json);
            && Run(GetGeneralConfigHandler(), port, json, []) == [Marshalled(SettingsStruct(GeneralDefaults())), Sent(port, r)]
            && (enc.Ok? ==> r == DartResponse(true, "", enc.value))
            && (enc.Err? ==> r == DartResponse(false, enc.error, ""))
  {
  }

  /** A patch that does not decode is answered with the decoding error
      before any field is looked at. */
  lemma PatchDecodeFailure(port: int64, json: Codec, patch: string)
    requires json.unmarshalSettings(patch).Err?
    ensures Run(PatchGeneralConfigHandler(patch), port, json, [])
         == [Unmarshalled(patch), Sent(port, DartResponse(false, json.unmarshalSettings(patch).error, ""))]
  {
    DecodeFailureStops(PatchGeneralConfigHandler(patch), port, json, []);
  }

  /** A decoded patch acts on exactly those of `AllowLan`, `BindAddress`,
      `Port` and `LogLevel` that it carries, and is acknowledged with an
      empty success. */
  lemma PatchActsOnPresentFields(port: int64, json: Codec, patch: string, s: ConfigGeneralSettings)
    requires json.unmarshalSettings(patch) == Ok(s)
    ensures Response(PatchGeneralConfigHandler(patch), json) == DartResponse(true, "", "")
    ensures forall f :: Applied(f) in Run(PatchGeneralConfigHandler(patch), port, json, [])
                    <==> Present(s, f) && (f == AllowLan || f == BindAddress || f == Port || f == LogLevel)
  {
    var h := PatchGeneralConfigHandler(patch);
    RunAccepted(h, port, json, [], DecodedSettings(s));
    var run := Run(h, port, json, []);
    assert run == [Unmarshalled(patch)] + AppliedFields(s) + [Sent(port, Succeeded(""))];
    forall f ensures Applied(f) in run <==> Present(s, f) && (f == AllowLan || f == BindAddress || f == Port || f == LogLevel) {
      assert Applied(f) in run <==> Applied(f) in AppliedFields(s);
      AppliedExactly(s, f);
    }
  }

  /** `getRemoteConfig` accepts every name, the empty one included, and
      reports that name with type "s3" and url "https://example.com". */
  lemma GetRemoteConfigAnswers(port: int64, json: Codec, name: string)
    ensures var m := RemoteConfig(name);
            var r := Response(GetRemoteConfigHandler(name), json);
            && m.Keys == {"name", "type", "url"}
            && m["name"] == Str(name) && m["type"] == Str("s3") && m["url"] == Str("https://example.com")
            && Run(GetRemoteConfigHandler(name), port, json, []) == [Marshalled(GenericMap(m)), Sent(port, r)]
            && r == Encoded(json.marshal(GenericMap(m)))
  {
  }

  /** Configuration data that does not decode is answered with the decoding
      error, and the per-key loop is never entered. */
  lemma UpdateRemoteConfigDecodeFailure(port: int64, json: Codec, name: string, data: string, order: seq<string>)
    requires json.unmarshalMap(data).Err?
    ensures Run(UpdateRemoteConfigHandler(name, data), port, json, order)
         == [Unmarshalled(data), Sent(port, DartResponse(false, json.unmarshalMap(data).error, ""))]
  {
    DecodeFailureStops(UpdateRemoteConfigHandler(name, data), port, json, order);
  }

  /** Decoded configuration data has each of its keys visited exactly once,
      in whatever order the loop takes, and is then acknowledged with an
      empty success. */
  lemma UpdateRemoteConfigVisitsEveryKey(port: int64, json: Codec, name: string, data: string,
                                         order: seq<string>, m: map<string, Value>)
    requires json.unmarshalMap(data) == Ok(m) && Enumerates(order, m.Keys)
    ensures Response(UpdateRemoteConfigHandler(name, data), json) == DartResponse(true, "", "")
    ensures forall k :: multiset(Run(UpdateRemoteConfigHandler(name, data), port, json, order))[Visited(k)]
                     == if k in m then 1 else 0
  {
    VisitsEveryKeyOnce(UpdateRemoteConfigHandler(name, data), port, json, order, m);
  }

  /** `deleteRemote` acknowledges every name, the empty one included, with an
      empty success and does nothing else. */
  lemma DeleteRemoteAlwaysSucceeds(port: int64, json: Codec, name: string)
    ensures Run(DeleteRemoteHandler(name), port, json, []) == [Sent(port, DartResponse(true, "", ""))]
  {
  }
}
