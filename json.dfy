/** What the bridge hands to and receives from `encoding/json`. The JSON
    grammar itself is not modelled: `json.Marshal` and `json.Unmarshal` are
    arbitrary functions, supplied as a `Codec`, that either succeed or fail
    with an error text. */
module Json {
  import opened Go
  import opened GeneralSettings

  /** The dynamic values a Go `interface{}` holds here: `int` and `string`
      from the bridge's own literals; `nil`, `bool`, `float64` (a real, with
      no rounding modelled), `string`, `[]interface{}` and
      `map[string]interface{}` from decoding. */
  datatype Value =
    | Null
    | Bool(b: bool)
    | Int(i: int64)
    | Float(f: real)
    | Str(s: string)
    | Array(items: seq<Value>)
    | Object(members: map<string, Value>)

  /** The two kinds of value the bridge marshals. */
  datatype Payload =
    | SettingsStruct(settings: ConfigGeneralSettings)
    | GenericMap(entries: map<string, Value>)

  /** `json.Marshal`, `json.Unmarshal` into a `*ConfigGeneralSettings` that
      starts as the zero value, and `json.Unmarshal` into a
      `map[string]interface{}`. */
  datatype Codec = Codec(
    marshal: Payload -> Result<string>,
    unmarshalSettings: string -> Result<ConfigGeneralSettings>,
    unmarshalMap: string -> Result<map<string, Value>>)
}
