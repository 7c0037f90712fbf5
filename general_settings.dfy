/** The `ConfigGeneralSettings` record of bridge/exports.go and its pointer
    helpers `ptrBool`, `ptrString` and `ptrInt`. */
module GeneralSettings {
  import opened Go

  /** Every field is a pointer, so that a JSON patch can tell a field it
      leaves out (`nil`) from one it sets to the zero value. */
  datatype ConfigGeneralSettings = ConfigGeneralSettings(
    allowLan: Ptr<bool>,
    bindAddress: Ptr<string>,
    logLevel: Ptr<string>,
    port: Ptr<int64>,
    socksPort: Ptr<int64>,
    mixedPort: Ptr<int64>,
    redirPort: Ptr<int64>,
    tproxyPort: Ptr<int64>)

  /** The names of the fields of `ConfigGeneralSettings`. */
  datatype Field =
    | AllowLan | BindAddress | LogLevel | Port
    | SocksPort | MixedPort | RedirPort | TProxyPort

  /** Whether field `f` of `s` is a non-nil pointer. */
  predicate Present(s: ConfigGeneralSettings, f: Field) {
    match f
    case AllowLan => s.allowLan.Ref?
    case BindAddress => s.bindAddress.Ref?
    case LogLevel => s.logLevel.Ref?
    case Port => s.port.Ref?
    case SocksPort => s.socksPort.Ref?
    case MixedPort => s.mixedPort.Ref?
    case RedirPort => s.redirPort.Ref?
    case TProxyPort => s.tproxyPort.Ref?
  }

  /** The zero value `ConfigGeneralSettings{}`: no field is present. */
  function Zero(): (s: ConfigGeneralSettings)
    ensures forall f :: !Present(s, f)
  {
    ConfigGeneralSettings(Nil, Nil, Nil, Nil, Nil, Nil, Nil, Nil)
  }

  /** `ptrBool(v)`: a pointer to a fresh copy of `v`. */
  function PtrBool(v: bool): (p: Ptr<bool>)
    ensures p != Nil && p.target == v
  {
    Ref(v)
  }

  /** `ptrString(v)`: a pointer to a fresh copy of `v`. */
  function PtrString(v: string): (p: Ptr<string>)
    ensures p != Nil && p.target == v
  {
    Ref(v)
  }

  /** `ptrInt(v)`: a pointer to a fresh copy of `v`. */
  function PtrInt(v: int64): (p: Ptr<int64>)
    ensures p != Nil && p.target == v
  {
    Ref(v)
  }
}
