/** The decision logic of the Spin engine (engine.rs): which layers are
    precompiled, which media types the engine asks for, which trigger it
    starts and on which address, how the run's outcome becomes an exit code,
    and where the application is loaded from. */
module Engine {
  import opened Wrappers
  import opened Oci
  import opened Constants
  import Sources
  import Triggers

  /** engine.rs's own names for the data and Spin-config tags. */
  const OCI_LAYER_MEDIA_TYPE_DATA: string := "application/vnd.wasm.content.layer.v1+data"
  const OCI_LAYER_MEDIA_TYPE_SPIN_CONFIG: string := "application/vnd.fermyon.spin.application.v1+config"

  /** The media types the engine asks the runtime to hand it. */
  function SupportedLayersTypes(): (r: seq<string>)
    ensures forall t :: t in r ==> Sources.Classify(Other(t)) in {Sources.Wasm, Sources.Data, Sources.SpinConfig}
    ensures OCI_LAYER_MEDIA_TYPE_WASM_WKG !in r && ARCHIVE_MEDIATYPE !in r
  {
    [OCI_LAYER_MEDIA_TYPE_WASM, OCI_LAYER_MEDIA_TYPE_DATA, OCI_LAYER_MEDIA_TYPE_SPIN_CONFIG]
  }

  /** The supported types are, in order, a wasm, a data and a Spin-config
      layer as the source resolver classifies them; wkg and archive layers
      are not among them. */
  lemma SupportedLayersAreWasmDataConfig()
    ensures |SupportedLayersTypes()| == 3
    ensures Sources.Classify(Other(SupportedLayersTypes()[0])) == Sources.Wasm
    ensures Sources.Classify(Other(SupportedLayersTypes()[1])) == Sources.Data
    ensures Sources.Classify(Other(SupportedLayersTypes()[2])) == Sources.SpinConfig
  {
  }

  /** `is_wasm_content`: a copy of the layer when its type is the wasm tag. */
  function IsWasmContent(layer: WasmLayer): (r: Option<WasmLayer>)
    ensures r.Some? <==> layer.config.mediaType == Other(OCI_LAYER_MEDIA_TYPE_WASM)
    ensures r.Some? ==> r.value == layer
  {
    match layer.config.mediaType
    case Other(name) => if name == OCI_LAYER_MEDIA_TYPE_WASM then Some(layer) else None
    case Standard(_) => None
  }

  /** The engine's wasm layers are exactly the layers the source resolver
      writes to the wasm cache as plain wasm. */
  lemma WasmContentIsWasmKind(layer: WasmLayer)
    ensures IsWasmContent(layer).Some? <==> Sources.IsKind(layer, Sources.Wasm)
  {
  }

  /** The wasmtime and componentize calls `precompile` makes, each of which
      may fail. */
  datatype Compiler = Compiler(
    detectPrecompiled: Bytes -> bool,
    componentize: Bytes -> Result<Bytes, string>,
    precompileComponent: Bytes -> Result<Bytes, string>)

  /** What `precompile` yields for one layer: nothing for a non-wasm layer,
      the bytes themselves when they are already precompiled, otherwise the
      precompiled component. */
  function PrecompileLayer(layer: WasmLayer, c: Compiler): (r: Result<Option<Bytes>, Error>)
    ensures r == Ok(None) <==> IsWasmContent(layer).None?
    ensures IsWasmContent(layer).Some? && c.detectPrecompiled(layer.layer) ==> r == Ok(Some(layer.layer))
    ensures r.Err? ==> IsWasmContent(layer).Some? && !c.detectPrecompiled(layer.layer)
    ensures r.Err? ==>
      || (c.componentize(layer.layer).Err? && r.error == Componentize(c.componentize(layer.layer).error))
      || (&& c.componentize(layer.layer).Ok?
          && c.precompileComponent(c.componentize(layer.layer).value).Err?
          && r.error == PrecompileFailed(c.precompileComponent(c.componentize(layer.layer).value).error))
    ensures r.Ok? && r.value.Some? && !c.detectPrecompiled(layer.layer) ==>
      c.componentize(layer.layer).Ok? && c.precompileComponent(c.componentize(layer.layer).value) == Ok(r.value.value)
  {
    match IsWasmContent(layer)
    case None => Ok(None)
    case Some(wasmLayer) =>
      if c.detectPrecompiled(wasmLayer.layer) then Ok(Some(wasmLayer.layer))
      else
        match c.componentize(wasmLayer.layer)
        case Err(e) => Err(Componentize(e))
        case Ok(component) =>
          match c.precompileComponent(component)
          case Err(e) => Err(PrecompileFailed(e))
          case Ok(precompiled) => Ok(Some(precompiled))
  }

  /** `precompile`: every layer in order, the first failure failing the call. */
  function Precompile(layers: seq<WasmLayer>, c: Compiler): (r: Result<seq<Option<Bytes>>, Error>)
    ensures r.Ok? <==> forall i :: 0 <= i < |layers| ==> PrecompileLayer(layers[i], c).Ok?
    ensures r.Ok? ==> |r.value| == |layers|
    ensures r.Ok? ==> forall i :: 0 <= i < |layers| ==> PrecompileLayer(layers[i], c) == Ok(r.value[i])
  {
    if |layers| == 0 then Ok([])
    else
      match PrecompileLayer(layers[0], c)
      case Err(e) => Err(e)
      case Ok(first) =>
        match Precompile(layers[1..], c)
        case Err(e) => Err(e)
        case Ok(rest) =>
          assert forall i :: 0 < i < |layers| ==> layers[i] == layers[1..][i - 1];
          Ok([first] + rest)
  }

  /** A successful `precompile` keeps the length and order of the layers: an
      entry is absent exactly for a layer that is not wasm, and an already
      precompiled wasm layer comes back byte for byte. */
  lemma PrecompileKeepsLayerOrder(layers: seq<WasmLayer>, c: Compiler)
    requires Precompile(layers, c).Ok?
    ensures var out := Precompile(layers, c).value;
      && |out| == |layers|
      && (forall i :: 0 <= i < |layers| ==> (out[i].None? <==> IsWasmContent(layers[i]).None?))
      && (forall i :: 0 <= i < |layers| && IsWasmContent(layers[i]).Some? && c.detectPrecompiled(layers[i].layer) ==>
            out[i] == Some(layers[i].layer))
  {
  }

  /** A failed `precompile` reports the error of the first layer that failed
      to componentize or precompile. */
  lemma {:induction false} PrecompileReportsFirstFailure(layers: seq<WasmLayer>, c: Compiler)
    requires Precompile(layers, c).Err?
    ensures exists i ::
      && 0 <= i < |layers|
      && (forall k :: 0 <= k < i ==> PrecompileLayer(layers[k], c).Ok?)
      && PrecompileLayer(layers[i], c).Err?
      && IsWasmContent(layers[i]).Some? && !c.detectPrecompiled(layers[i].layer)
      && Precompile(layers, c).error == PrecompileLayer(layers[i], c).error
  {
    if PrecompileLayer(layers[0], c).Ok? {
      var tail := layers[1..];
      PrecompileReportsFirstFailure(tail, c);
      var i :| 0 <= i < |tail|
        && (forall k :: 0 <= k < i ==> PrecompileLayer(tail[k], c).Ok?)
        && PrecompileLayer(tail[i], c).Err?
        && IsWasmContent(tail[i]).Some? && !c.detectPrecompiled(tail[i].layer)
        && Precompile(tail, c).error == PrecompileLayer(tail[i], c).error;
      assert forall k :: 0 < k <= i ==> layers[k] == tail[k - 1];
      assert layers[i + 1] == tail[i];
    }
  }

  /** `trigger_command`: the type of the application's first trigger. */
  function TriggerCommand(app: LockedApp): (r: Result<string, Error>)
    ensures r.Ok? <==> |app.triggers| > 0
    ensures r.Ok? ==> r.value == app.triggers[0].triggerType
    ensures r.Err? ==> r.error == NoTrigger
  {
    if |app.triggers| == 0 then Err(NoTrigger) else Ok(app.triggers[0].triggerType)
  }

  /** The trigger the engine starts is one the selector of trigger.rs admits
      whenever that selector accepts the application. */
  lemma TriggerCommandIsSelected(app: LockedApp)
    requires Triggers.GetSupportedTriggers(app.triggers).Ok?
    requires |app.triggers| > 0
    ensures TriggerCommand(app).value in Triggers.GetSupportedTriggers(app.triggers).value
  {
  }

  datatype IpAddr = V4(a: byte, b: byte, c: byte, d: byte) | V6(segments: seq<int>)
  datatype SocketAddr = SocketAddr(ip: IpAddr, port: int)

  /** `addr.is_ipv4() && addr.ip() == Ipv4Addr::LOCALHOST`. */
  predicate IsLocalhostV4(addr: SocketAddr) {
    addr.ip == V4(127, 0, 0, 1)
  }

  /** The `find` over the resolved addresses: the position of the first
      IPv4 loopback address, if there is one. */
  function FindLocalhost(addrs: seq<SocketAddr>): (r: Option<nat>)
    ensures r.Some? ==> r.value < |addrs| && IsLocalhostV4(addrs[r.value])
    ensures r.Some? ==> forall k :: 0 <= k < r.value ==> !IsLocalhostV4(addrs[k])
    ensures r.None? ==> forall k :: 0 <= k < |addrs| ==> !IsLocalhostV4(addrs[k])
  {
    if |addrs| == 0 then None
    else if IsLocalhostV4(addrs[0]) then Some(0)
    else
      match FindLocalhost(addrs[1..])
      case None => None
      case Some(k) => Some(k + 1)
  }

  /** `parse_listen_addr`, given what resolving the address string returned:
      the first IPv4 loopback address if any, else the first address. */
  function ParseListenAddr(resolved: Result<seq<SocketAddr>, string>): (r: Result<SocketAddr, Error>)
    ensures resolved.Err? ==> r == Err(AddressLookup(resolved.error))
    ensures resolved.Ok? ==> (r.Err? <==> |resolved.value| == 0)
    ensures r.Err? && resolved.Ok? ==> r.error == AddressUnresolved
    ensures r.Ok? ==> r.value in resolved.value
    ensures r.Ok? && (exists a :: a in resolved.value && IsLocalhostV4(a)) ==> IsLocalhostV4(r.value)
    ensures r.Ok? && (forall a :: a in resolved.value ==> !IsLocalhostV4(a)) ==> r.value == resolved.value[0]
    ensures r.Ok? && FindLocalhost(resolved.value).Some? ==> r.value == resolved.value[FindLocalhost(resolved.value).value]
  {
    match resolved
    case Err(e) => Err(AddressLookup(e))
    case Ok(addrs) =>
      match FindLocalhost(addrs)
      case Some(i) => Ok(addrs[i])
      case None => if |addrs| == 0 then Err(AddressUnresolved) else Ok(addrs[0])
  }

  /** How the blocked-on run future ended: it completed with the run's
      outcome, or the ctrl-c handler aborted it. */
  datatype RunOutcome = Completed(outcome: Outcome<Error>) | Aborted

  /** The exit-code match of `run_wasi`. */
  function RunWasi(run: RunOutcome): (r: Result<int, Error>)
    ensures r.Ok? ==> r.value == 0
    ensures r.Err? <==> run.Completed? && run.outcome.Fail?
    ensures r.Err? ==> r.error == run.outcome.error
  {
    match run
    case Completed(Pass) => Ok(0)
    case Completed(Fail(err)) => Err(err)
    case Aborted => Ok(0)
  }

  /** The trigger `run` starts, with its arguments. */
  datatype Launch = HttpLaunch(address: SocketAddr) | RedisLaunch

  /** How the dispatch of `run` ends before the trigger runs: a trigger to
      run, an error, or the `todo!` panic for any other trigger type. */
  datatype RunPlan = Launched(launch: Launch) | Failed(error: Error) | Panicked

  /** The trigger dispatch of `run`, given the outcome of building the
      trigger and what resolving the http trigger's default listen address
      "0.0.0.0:80" returned. */
  function RunDispatch(app: LockedApp, build: Outcome<string>, spinAddr: Result<seq<SocketAddr>, string>): (r: RunPlan)
    ensures r.Launched? && r.launch.HttpLaunch? ==> ParseListenAddr(spinAddr) == Ok(r.launch.address)
    ensures r.Failed? <==>
      || |app.triggers| == 0
      || (app.triggers[0].triggerType in {Triggers.HTTP_TRIGGER_TYPE, Triggers.REDIS_TRIGGER_TYPE} && build.Fail?)
      || (app.triggers[0].triggerType == Triggers.HTTP_TRIGGER_TYPE && ParseListenAddr(spinAddr).Err?)
    ensures r.Failed? && |app.triggers| > 0 && build.Fail? ==> r.error == TriggerBuild(build.error)
  {
    match TriggerCommand(app)
    case Err(e) => Failed(e)
    case Ok(triggerType) =>
      if triggerType == Triggers.HTTP_TRIGGER_TYPE then
        if build.Fail? then Failed(TriggerBuild(build.error))
        else
          match ParseListenAddr(spinAddr)
          case Err(e) => Failed(e)
          case Ok(address) => Launched(HttpLaunch(address))
      else if triggerType == Triggers.REDIS_TRIGGER_TYPE then
        if build.Fail? then Failed(TriggerBuild(build.error)) else Launched(RedisLaunch)
      else Panicked
  }

  /** `run` panics exactly when the first trigger's type is neither http nor
      redis, and starts the first trigger's kind when it does not fail. */
  lemma RunDispatchFollowsFirstTrigger(app: LockedApp, build: Outcome<string>, spinAddr: Result<seq<SocketAddr>, string>)
    ensures RunDispatch(app, build, spinAddr).Panicked? <==>
      |app.triggers| > 0 && app.triggers[0].triggerType !in {Triggers.HTTP_TRIGGER_TYPE, Triggers.REDIS_TRIGGER_TYPE}
    ensures RunDispatch(app, build, spinAddr).Launched? ==>
      |app.triggers| > 0 && build.Pass?
      && (RunDispatch(app, build, spinAddr).launch.HttpLaunch? <==> app.triggers[0].triggerType == Triggers.HTTP_TRIGGER_TYPE)
    ensures |app.triggers| == 0 ==> RunDispatch(app, build, spinAddr) == Failed(NoTrigger)
  {
  }

  /** The selector of trigger.rs admits sqs, command and mqtt applications,
      which the dispatch of engine.rs cannot start. */
  lemma SelectorAdmitsWhatDispatchCannotStart(build: Outcome<string>, spinAddr: Result<seq<SocketAddr>, string>)
    ensures var app := LockedApp([], [LockedTrigger("queue", Triggers.SQS_TRIGGER_TYPE)]);
      Triggers.GetSupportedTriggers(app.triggers).Ok? && RunDispatch(app, build, spinAddr).Panicked?
  {
  }

  /** The loaders `load` delegates to: `spin_loader::from_file` and the
      containerd layer loader. */
  datatype AppLoaders = AppLoaders(
    fromFile: Path -> Result<LockedApp, string>,
    fromLayers: seq<WasmLayer> -> Result<LockedApp, string>)

  /** `load`: a file source always loads the well-known manifest; an OCI
      source goes to the layer loader. */
  function Load(source: EntrySource, loaders: AppLoaders): (r: Result<LockedApp, Error>)
    ensures source.Oci? ==> (r.Ok? <==> loaders.fromLayers(source.layers).Ok?)
    ensures source.Oci? && r.Ok? ==> r.value == loaders.fromLayers(source.layers).value
    ensures source.Oci? && r.Err? ==> r.error == Loader(loaders.fromLayers(source.layers).error)
  {
    var loaded := match source
      case File(_) => loaders.fromFile(SPIN_MANIFEST_FILE_PATH)
      case Oci(layers) => loaders.fromLayers(layers);
    if loaded.Err? then Err(Loader(loaded.error)) else Ok(loaded.value)
  }

  /** The path a file source carries never reaches the loader. */
  lemma LoadIgnoresFilePath(p: Path, q: Path, loaders: AppLoaders)
    ensures Load(EntrySource.File(p), loaders) == Load(EntrySource.File(q), loaders)
    ensures Load(EntrySource.File(p), loaders).Ok? <==> loaders.fromFile(SPIN_MANIFEST_FILE_PATH).Ok?
  {
  }
}
