/**
 * The ONNX Runtime set-up: the devices this browser supports, the rule that turns a device
 * name into execution providers, and the write-once cell that makes later sessions wait for
 * the first one.
 */
module OnnxSetup {
  import opened Outcomes
  import opened JsStrings

  /** `DEVICE_TO_EXECUTION_PROVIDER_MAPPING[device]` for the device names the code looks up:
      `auto` and `gpu` map to null and every other such name the table lacks is undefined;
      both are None. Keys inherited from `Object.prototype` are not modelled. */
  function ProviderMapping(device: string): (provider: Option<string>)
    ensures provider.Some? <==> device in ["cpu", "wasm", "webgpu"]
    ensures provider.Some? ==> provider.value == device
  {
    if device == "cpu" then Some("cpu")
    else if device == "wasm" then Some("wasm")
    else if device == "webgpu" then Some("webgpu")
    else None
  }

  /** The supported devices, by priority: WebGPU when the browser has it, then WebAssembly. */
  function SupportedDevices(webgpuAvailable: bool): (devices: seq<string>)
    ensures devices == if webgpuAvailable then ["webgpu", "wasm"] else ["wasm"]
  {
    (if webgpuAvailable then ["webgpu"] else []) + ["wasm"]
  }

  const DEFAULT_DEVICES: seq<string> := ["wasm"]

  const UNSUPPORTED_OPEN: string := "Unsupported device: \""
  const UNSUPPORTED_MIDDLE: string := "\". Should be one of: "

  function UnsupportedMessage(device: string, supported: seq<string>): string {
    UNSUPPORTED_OPEN + device + UNSUPPORTED_MIDDLE + Join(supported, ", ") + "."
  }

  /** `xs` is `ys` with some elements left out, the rest in the same order. */
  predicate IsSubsequence(xs: seq<string>, ys: seq<string>)
    decreases |ys|
  {
    if xs == [] then true
    else if ys == [] then false
    else if xs[0] == ys[0] then IsSubsequence(xs[1..], ys[1..])
    else IsSubsequence(xs, ys[1..])
  }

  /** `supportedDevices.filter(x => ["webgpu"].includes(x))`. */
  function WebGpuOnly(devices: seq<string>): (kept: seq<string>)
    ensures forall x :: x in kept <==> x in devices && x == "webgpu"
    ensures IsSubsequence(kept, devices)
  {
    if devices == [] then []
    else if devices[0] == "webgpu" then [devices[0]] + WebGpuOnly(devices[1..])
    else
      var kept := WebGpuOnly(devices[1..]);
      assert kept != [] ==> kept[0] in kept;
      kept
  }

  /** `deviceToExecutionProviders(device)` over the given supported and default devices. */
  function ExecutionProviders(supported: seq<string>, defaults: seq<string>, device: Option<string>)
    : (r: Result<seq<string>, string>)
    ensures device.None? || device == Some("") ==> r == Ok(defaults)
    ensures device == Some("auto") ==> r == Ok(supported)
    ensures device == Some("gpu") ==> r == Ok(WebGpuOnly(supported))
    ensures device.Some? && device.value !in ["", "auto", "gpu"] ==>
              (r.Ok? <==> device.value in supported)
    ensures device.Some? && device.value !in ["", "auto", "gpu"] && r.Ok? ==>
              r.value == [ProviderMapping(device.value).GetOr(device.value)]
    ensures r.Err? ==> r.error == UnsupportedMessage(device.value, supported)
  {
    match device
    case None => Ok(defaults)
    case Some(d) =>
      if d == "" then Ok(defaults)
      else if d == "auto" then Ok(supported)
      else if d == "gpu" then Ok(WebGpuOnly(supported))
      else if d in supported then Ok([ProviderMapping(d).GetOr(d)])
      else Err(UnsupportedMessage(d, supported))
  }

  lemma {:induction false} SingletonSubsequence(x: string, ys: seq<string>)
    requires x in ys
    ensures IsSubsequence([x], ys)
    decreases |ys|
  {
    if ys[0] != x {
      SingletonSubsequence(x, ys[1..]);
    }
  }

  lemma {:induction false} SubsequenceOfSelf(ys: seq<string>)
    ensures IsSubsequence(ys, ys)
    decreases |ys|
  {
    if ys != [] {
      SubsequenceOfSelf(ys[1..]);
    }
  }

  /** Whatever the device, the providers returned are supported devices in priority order,
      and a named supported device gives itself. */
  lemma ProvidersAreSupported(webgpuAvailable: bool, device: Option<string>)
    ensures var supported := SupportedDevices(webgpuAvailable);
            var r := ExecutionProviders(supported, DEFAULT_DEVICES, device);
            && (r.Ok? ==> IsSubsequence(r.value, supported))
            && (device.Some? && device.value in supported ==> r == Ok([device.value]))
  {
    var supported := SupportedDevices(webgpuAvailable);
    var r := ExecutionProviders(supported, DEFAULT_DEVICES, device);
    if r.Ok? {
      if r.value == supported {
        SubsequenceOfSelf(supported);
      } else if |r.value| == 1 && r.value[0] in supported {
        SingletonSubsequence(r.value[0], supported);
      }
    }
  }

  /** "cpu" is in the mapping table but never supported, so it is rejected. */
  lemma CpuIsRejected(webgpuAvailable: bool)
    ensures ExecutionProviders(SupportedDevices(webgpuAvailable), DEFAULT_DEVICES, Some("cpu"))
         == Err(UnsupportedMessage("cpu", SupportedDevices(webgpuAvailable)))
  {
  }

  /** Without WebGPU, "gpu" gives no providers at all and "webgpu" is rejected. */
  lemma NoWebGpu()
    ensures ExecutionProviders(SupportedDevices(false), DEFAULT_DEVICES, Some("gpu")) == Ok([])
    ensures ExecutionProviders(SupportedDevices(false), DEFAULT_DEVICES, Some("webgpu")).Err?
  {
  }

  // ---------------------------------------------------------------------------
  // the module state
  // ---------------------------------------------------------------------------

  /** How one `InferenceSession.create` call settles: a session handle, or the error thrown. */
  type Creation = Result<nat, string>

  /** A session promise: which create call made it and how it settles. */
  datatype SessionPromise = SessionPromise(call: nat, outcome: Creation)

  /** A created session with the `config` property set on it. */
  datatype ConfiguredSession = ConfiguredSession(handle: nat, config: map<string, string>)

  class OnnxBackend {
    /** `IS_WEBGPU_AVAILABLE`: whether the navigator has a `gpu` member. */
    const webgpuAvailable: bool
    var supportedDevices: seq<string>
    var defaultDevices: seq<string>
    /** `wasmInitPromise`: the first session promise, once there is one. */
    var wasmInitPromise: Option<SessionPromise>
    /** How many `InferenceSession.create` calls have been made. */
    var creates: nat

    /** The state module initialisation leaves and no later call changes. */
    predicate Valid()
      reads this
    {
      supportedDevices == SupportedDevices(webgpuAvailable) && defaultDevices == DEFAULT_DEVICES
    }

    /** Module initialisation: the pushes of the supported devices, then the defaults. */
    constructor(webgpu: bool)
      ensures Valid() && webgpuAvailable == webgpu
      ensures wasmInitPromise == None && creates == 0
    {
      webgpuAvailable := webgpu;
      new;
      supportedDevices := [];
      if webgpuAvailable {
        supportedDevices := supportedDevices + ["webgpu"];
      }
      supportedDevices := supportedDevices + ["wasm"];
      defaultDevices := ["wasm"];
      wasmInitPromise := None;
      creates := 0;
    }

    /** `deviceToExecutionProviders(device)`. */
    function DeviceToExecutionProviders(device: Option<string>): (r: Result<seq<string>, string>)
      reads this
      requires Valid()
      ensures r.Ok? ==> IsSubsequence(r.value, supportedDevices)
      ensures r == ExecutionProviders(SupportedDevices(webgpuAvailable), DEFAULT_DEVICES, device)
    {
      ProvidersAreSupported(webgpuAvailable, device);
      ExecutionProviders(supportedDevices, defaultDevices, device)
    }

    /** `createInferenceSession(buffer, options, config)`, where `outcome` is how this call's
        `InferenceSession.create` settles. A rejected first promise makes every later call
        throw its error before creating anything; otherwise the session is created, the first
        promise is kept in the cell, and the session comes back with its config. */
    method CreateInferenceSession(outcome: Creation, config: map<string, string>)
      returns (r: Result<ConfiguredSession, string>)
      requires Valid()
      modifies this
      ensures Valid()
      ensures wasmInitPromise.Some?
      ensures old(wasmInitPromise).Some? ==> wasmInitPromise == old(wasmInitPromise)
      ensures old(wasmInitPromise).None? ==> wasmInitPromise == Some(SessionPromise(old(creates), outcome))
      ensures old(wasmInitPromise).Some? && old(wasmInitPromise).value.outcome.Err? ==>
                r == Err(old(wasmInitPromise).value.outcome.error) && creates == old(creates)
      ensures old(wasmInitPromise).None? || old(wasmInitPromise).value.outcome.Ok? ==>
                && creates == old(creates) + 1
                && r == match outcome
                        case Err(e) => Err(e)
                        case Ok(handle) => Ok(ConfiguredSession(handle, config))
    {
      if wasmInitPromise.Some? && wasmInitPromise.value.outcome.Err? {
        return Err(wasmInitPromise.value.outcome.error);
      }
      var sessionPromise := SessionPromise(creates, outcome);
      creates := creates + 1;
      if wasmInitPromise.None? {
        wasmInitPromise := Some(sessionPromise);
      }
      match sessionPromise.outcome
      case Err(e) =>
        r := Err(e);
      case Ok(handle) =>
        r := Ok(ConfiguredSession(handle, config));
    }
  }

  /** Two sessions in a row: the cell holds the first call's promise, whatever the second
      call's outcome. */
  method CreateTwice(backend: OnnxBackend, first: Creation, second: Creation, config: map<string, string>)
    returns (r1: Result<ConfiguredSession, string>, r2: Result<ConfiguredSession, string>)
    requires backend.Valid() && backend.wasmInitPromise.None?
    modifies backend
    ensures backend.wasmInitPromise == Some(SessionPromise(old(backend.creates), first))
    ensures first.Err? ==> r2 == Err(first.error)
  {
    r1 := backend.CreateInferenceSession(first, config);
    r2 := backend.CreateInferenceSession(second, config);
  }
}
