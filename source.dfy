/** Resolving the container's entrypoint into a Spin application source
    (source.rs): the layer walk of `from_ctx`, which fills the loader cache
    and `/spin.json`, and the per-variant loading of `to_locked_app`. */
module Sources {
  import opened Wrappers
  import opened Oci
  import opened Constants

  /** What the shim runs: a manifest file, a Spin application whose locked
      config is `/spin.json` and whose content is in the cache, or a single
      packaged component cached at `wasmPath`. */
  datatype Source = File(path: Path) | OciSpin | OciWkg(wasmPath: Path)

  /** The arms of the media-type match in `from_ctx`. */
  datatype LayerKind = SpinConfig | Wasm | Wkg | Data | Archive | Unknown

  /** The tag each recognised arm matches. */
  function TagOf(k: LayerKind): string
    requires k != Unknown
  {
    match k
    case SpinConfig => SPIN_APPLICATION_MEDIA_TYPE
    case Wasm => OCI_LAYER_MEDIA_TYPE_WASM
    case Wkg => OCI_LAYER_MEDIA_TYPE_WASM_WKG
    case Data => DATA_MEDIATYPE
    case Archive => ARCHIVE_MEDIATYPE
  }

  /** Which arm a layer's media type takes; the guards are tried in the
      order they are written, and only `Other` types can match one. */
  function Classify(mt: MediaType): (k: LayerKind)
    ensures mt.Standard? ==> k == Unknown
    ensures k != Unknown ==> mt == Other(TagOf(k))
    ensures mt.Other? && mt.name in
      {SPIN_APPLICATION_MEDIA_TYPE, OCI_LAYER_MEDIA_TYPE_WASM, OCI_LAYER_MEDIA_TYPE_WASM_WKG, DATA_MEDIATYPE, ARCHIVE_MEDIATYPE}
      ==> k != Unknown
  {
    match mt
    case Standard(_) => Unknown
    case Other(name) =>
      if name == SPIN_APPLICATION_MEDIA_TYPE then SpinConfig
      else if name == OCI_LAYER_MEDIA_TYPE_WASM then Wasm
      else if name == OCI_LAYER_MEDIA_TYPE_WASM_WKG then Wkg
      else if name == DATA_MEDIATYPE then Data
      else if name == ARCHIVE_MEDIATYPE then Archive
      else Unknown
  }

  predicate IsKind(l: WasmLayer, k: LayerKind) {
    Classify(l.config.mediaType) == k
  }

  /** The five tags are told apart: each selects its own arm. */
  lemma ClassifyInvertsTagOf()
    ensures forall k: LayerKind :: k != Unknown ==> Classify(Other(TagOf(k))) == k
  {
  }

  /** The part of the container's filesystem the walk touches: the Spin
      loader cache (wasm files and data files, keyed by digest) and the
      locked config at `/spin.json`. */
  datatype FsState = FsState(
    cacheRoot: Path,
    wasm: map<Digest, Bytes>,
    data: map<Digest, Bytes>,
    spinJson: Option<Bytes>)

  /** The cache's file for a wasm digest, inside the cache directory. */
  function WasmPath(root: Path, d: Digest): (p: Path)
    ensures |p| > |root| && p[..|root|] == root
  {
    root + "/wasm/" + d
  }

  /** The file-system effects the walk depends on: whether the write (or
      unpack) done for the layer at a given position fails, and which files,
      keyed by content digest, an archive unpacks to. */
  datatype Io = Io(fails: nat -> bool, unpack: (Bytes, Digest) -> map<Digest, Bytes>)

  /** The filesystem after resolution, and what resolution returned. */
  datatype Resolution = Resolution(fs: FsState, result: Result<Source, Error>)

  /** The layer walk of `from_ctx` from position `i` on. A wkg layer ends the
      walk after its cache write, and fails unless the image has exactly one
      layer in all; any failed write ends it with that error. */
  function Walk(fs: FsState, layers: seq<WasmLayer>, i: nat, io: Io): (r: Resolution)
    requires i <= |layers|
    ensures r.fs.cacheRoot == fs.cacheRoot
    ensures r.result.Ok? ==> r.result.value == OciSpin || r.result.value.OciWkg?
    ensures r.result.Ok? && r.result.value.OciWkg? ==> |layers| == 1
    ensures r.result.Err? && r.result.error.ExpectedSingleLayer? ==> r.result.error.found == |layers| != 1
    decreases |layers| - i
  {
    if i == |layers| then Resolution(fs, Ok(OciSpin))
    else
      var l := layers[i];
      var d := l.config.digest;
      match Classify(l.config.mediaType)
      case SpinConfig =>
        if io.fails(i) then Resolution(fs, Err(SpinJsonWrite))
        else Walk(fs.(spinJson := Some(l.layer)), layers, i + 1, io)
      case Wasm =>
        if io.fails(i) then Resolution(fs, Err(CacheWrite(d)))
        else Walk(fs.(wasm := fs.wasm[d := l.layer]), layers, i + 1, io)
      case Wkg =>
        if io.fails(i) then Resolution(fs, Err(CacheWrite(d)))
        else
          var written := fs.(wasm := fs.wasm[d := l.layer]);
          if |layers| != 1 then Resolution(written, Err(ExpectedSingleLayer(|layers|)))
          else Resolution(written, Ok(OciWkg(WasmPath(fs.cacheRoot, d))))
      case Data =>
        if io.fails(i) then Resolution(fs, Err(CacheWrite(d)))
        else Walk(fs.(data := fs.data[d := l.layer]), layers, i + 1, io)
      case Archive =>
        if io.fails(i) then Resolution(fs, Err(ArchiveUnpack))
        else Walk(fs.(data := fs.data + io.unpack(l.layer, d)), layers, i + 1, io)
      case Unknown =>
        Walk(fs, layers, i + 1, io)
  }

  /** `from_ctx` as a function of the entrypoint and the filesystem before it. */
  function FromContext(entry: EntrySource, fs: FsState, io: Io): Resolution {
    match entry
    case File(_) => Resolution(fs, Ok(Source.File(SPIN_MANIFEST_FILE_PATH)))
    case Oci(layers) => Walk(fs, layers, 0, io)
  }

  /** A layer that matches no arm leaves the filesystem as it is and does not
      stop the walk. */
  lemma UnknownLayerIsSkipped(fs: FsState, layers: seq<WasmLayer>, i: nat, io: Io)
    requires i < |layers| && IsKind(layers[i], Unknown)
    ensures Walk(fs, layers, i, io) == Walk(fs, layers, i + 1, io)
  {
  }

  /** Layers that all match no arm resolve to `OciSpin` and leave the
      filesystem untouched; with no layers at all this is the empty image. */
  lemma {:induction false} UnknownLayersChangeNothing(fs: FsState, layers: seq<WasmLayer>, i: nat, io: Io)
    requires i <= |layers|
    requires forall j :: i <= j < |layers| ==> IsKind(layers[j], Unknown)
    ensures Walk(fs, layers, i, io) == Resolution(fs, Ok(OciSpin))
    decreases |layers| - i
  {
    if i < |layers| {
      UnknownLayersChangeNothing(fs, layers, i + 1, io);
    }
  }

  /** A walk over layers with no wkg layer either fails or returns `OciSpin`,
      and returns `OciSpin` when no write fails. */
  lemma {:induction false} WithoutWkgResultIsOciSpin(fs: FsState, layers: seq<WasmLayer>, i: nat, io: Io)
    requires i <= |layers|
    requires forall j :: i <= j < |layers| ==> !IsKind(layers[j], Wkg)
    ensures Walk(fs, layers, i, io).result.Ok? ==> Walk(fs, layers, i, io).result == Ok(OciSpin)
    ensures (forall j: nat :: i <= j < |layers| ==> !io.fails(j)) ==> Walk(fs, layers, i, io).result == Ok(OciSpin)
    decreases |layers| - i
  {
    if i < |layers| {
      var l := layers[i];
      var d := l.config.digest;
      match Classify(l.config.mediaType)
      case SpinConfig =>
        WithoutWkgResultIsOciSpin(fs.(spinJson := Some(l.layer)), layers, i + 1, io);
      case Wasm =>
        WithoutWkgResultIsOciSpin(fs.(wasm := fs.wasm[d := l.layer]), layers, i + 1, io);
      case Data =>
        WithoutWkgResultIsOciSpin(fs.(data := fs.data[d := l.layer]), layers, i + 1, io);
      case Archive =>
        WithoutWkgResultIsOciSpin(fs.(data := fs.data + io.unpack(l.layer, d)), layers, i + 1, io);
      case Unknown =>
        WithoutWkgResultIsOciSpin(fs, layers, i + 1, io);
    }
  }

  /** The state a successful write for layer `i` leaves, as the walk applies it. */
  function Applied(fs: FsState, l: WasmLayer, io: Io): FsState {
    var d := l.config.digest;
    match Classify(l.config.mediaType)
    case SpinConfig => fs.(spinJson := Some(l.layer))
    case Wasm => fs.(wasm := fs.wasm[d := l.layer])
    case Wkg => fs.(wasm := fs.wasm[d := l.layer])
    case Data => fs.(data := fs.data[d := l.layer])
    case Archive => fs.(data := fs.data + io.unpack(l.layer, d))
    case Unknown => fs
  }

  /** One step of the walk past a layer that is not wkg and whose write
      succeeds. */
  lemma WalkStep(fs: FsState, layers: seq<WasmLayer>, i: nat, io: Io)
    requires i < |layers| && !IsKind(layers[i], Wkg)
    requires !io.fails(i) || IsKind(layers[i], Unknown)
    ensures Walk(fs, layers, i, io) == Walk(Applied(fs, layers[i], io), layers, i + 1, io)
  {
  }

  /** The walk returns `OciWkg` exactly when the image is a single wkg layer
      whose cache write succeeds; the path is that layer's wasm file in the
      cache, which then holds the layer's bytes. */
  lemma {:induction false} WkgRequiresSingleLayer(fs: FsState, layers: seq<WasmLayer>, i: nat, io: Io)
    requires i <= |layers|
    ensures var r := Walk(fs, layers, i, io);
      r.result.Ok? && r.result.value.OciWkg? <==>
        |layers| == 1 && i == 0 && IsKind(layers[0], Wkg) && !io.fails(0)
    ensures var r := Walk(fs, layers, i, io);
      r.result.Ok? && r.result.value.OciWkg? ==>
        && r.result.value.wasmPath == WasmPath(fs.cacheRoot, layers[0].config.digest)
        && r.fs == fs.(wasm := fs.wasm[layers[0].config.digest := layers[0].layer])
    decreases |layers| - i
  {
    if i < |layers| {
      var l := layers[i];
      if IsKind(l, Wkg) || (io.fails(i) && !IsKind(l, Unknown)) {
      } else {
        WalkStep(fs, layers, i, io);
        WkgRequiresSingleLayer(Applied(fs, l, io), layers, i + 1, io);
      }
    }
  }

  /** A wkg layer in an image of any other number of layers is rejected with
      the total layer count, after its bytes were written to the cache,
      provided no earlier write fails. */
  lemma {:induction false} WkgAmongOtherLayersIsRejected(fs: FsState, layers: seq<WasmLayer>, i: nat, k: nat, io: Io)
    requires i <= k < |layers| && |layers| != 1
    requires IsKind(layers[k], Wkg)
    requires forall j :: i <= j < k ==> !IsKind(layers[j], Wkg)
    requires forall j: nat :: i <= j <= k ==> !io.fails(j)
    ensures Walk(fs, layers, i, io).result == Err(ExpectedSingleLayer(|layers|))
    ensures var d := layers[k].config.digest;
      d in Walk(fs, layers, i, io).fs.wasm && Walk(fs, layers, i, io).fs.wasm[d] == layers[k].layer
    decreases k - i
  {
    if i < k {
      WalkStep(fs, layers, i, io);
      WkgAmongOtherLayersIsRejected(Applied(fs, layers[i], io), layers, i + 1, k, io);
    }
  }

  /** A failed write at layer `k` ends the walk with an error: what follows
      layer `k` is never looked at. */
  lemma {:induction false} FailureIgnoresLaterLayers(fs: FsState, layers: seq<WasmLayer>, i: nat, k: nat, io: Io)
    requires i <= k < |layers|
    requires !IsKind(layers[k], Unknown) && io.fails(k)
    requires forall j :: i <= j < k ==> !IsKind(layers[j], Wkg)
    ensures Walk(fs, layers, i, io) == Walk(fs, layers[..k + 1], i, io)
    ensures Walk(fs, layers, i, io).result.Err?
    decreases k - i
  {
    var prefix := layers[..k + 1];
    assert prefix[i] == layers[i];
    if i < k && (!io.fails(i) || IsKind(layers[i], Unknown)) {
      WalkStep(fs, layers, i, io);
      WalkStep(fs, prefix, i, io);
      FailureIgnoresLaterLayers(Applied(fs, layers[i], io), layers, i + 1, k, io);
    }
  }

  /** After a successful walk, `/spin.json` holds the bytes of the last
      config layer, or is as it was when there is none. */
  lemma {:induction false} LastConfigLayerWins(fs: FsState, layers: seq<WasmLayer>, i: nat, io: Io)
    requires i <= |layers|
    requires Walk(fs, layers, i, io).result.Ok?
    ensures (forall j :: i <= j < |layers| ==> !IsKind(layers[j], SpinConfig)) ==>
      Walk(fs, layers, i, io).fs.spinJson == fs.spinJson
    ensures forall j ::
      (i <= j < |layers| && IsKind(layers[j], SpinConfig) && forall k :: j < k < |layers| ==> !IsKind(layers[k], SpinConfig)) ==>
      Walk(fs, layers, i, io).fs.spinJson == Some(layers[j].layer)
    decreases |layers| - i
  {
    if i < |layers| && !IsKind(layers[i], Wkg) {
      WalkStep(fs, layers, i, io);
      LastConfigLayerWins(Applied(fs, layers[i], io), layers, i + 1, io);
    }
  }

  /** Layers with equal digests carry equal bytes. */
  predicate ContentAddressed(layers: seq<WasmLayer>) {
    forall j, k :: 0 <= j < |layers| && 0 <= k < |layers| && layers[j].config.digest == layers[k].config.digest ==>
      layers[j].layer == layers[k].layer
  }

  /** After a successful walk, every wasm and data layer can be found in the
      cache under its digest. */
  lemma {:induction false} LayersAreCachedByDigest(fs: FsState, layers: seq<WasmLayer>, i: nat, io: Io)
    requires i <= |layers|
    requires Walk(fs, layers, i, io).result.Ok?
    ensures var out := Walk(fs, layers, i, io).fs;
      forall j :: i <= j < |layers| && IsKind(layers[j], Wasm) ==> layers[j].config.digest in out.wasm
    ensures var out := Walk(fs, layers, i, io).fs;
      forall j :: i <= j < |layers| && IsKind(layers[j], Data) ==> layers[j].config.digest in out.data
    decreases |layers| - i
  {
    if i < |layers| && !IsKind(layers[i], Wkg) {
      WalkStep(fs, layers, i, io);
      LayersAreCachedByDigest(Applied(fs, layers[i], io), layers, i + 1, io);
      CacheOnlyGrows(Applied(fs, layers[i], io), layers, i + 1, io);
    }
  }

  /** After a successful walk over layers whose digests are content
      addresses, each wasm layer's file in the cache holds its bytes. */
  lemma {:induction false} CachedWasmMatchesLayer(fs: FsState, layers: seq<WasmLayer>, i: nat, io: Io)
    requires i <= |layers|
    requires Walk(fs, layers, i, io).result.Ok?
    requires ContentAddressed(layers)
    ensures var out := Walk(fs, layers, i, io).fs;
      forall j :: i <= j < |layers| && IsKind(layers[j], Wasm) ==>
        layers[j].config.digest in out.wasm && out.wasm[layers[j].config.digest] == layers[j].layer
    decreases |layers| - i
  {
    if i < |layers| && !IsKind(layers[i], Wkg) {
      WalkStep(fs, layers, i, io);
      CachedWasmMatchesLayer(Applied(fs, layers[i], io), layers, i + 1, io);
      CacheOnlyGrows(Applied(fs, layers[i], io), layers, i + 1, io);
    }
  }

  /** The walk adds a wasm file only for a wasm or wkg layer's digest: a
      layer of an unknown type is never cached. */
  lemma {:induction false} OnlyWasmLayersAreCachedAsWasm(fs: FsState, layers: seq<WasmLayer>, i: nat, io: Io)
    requires i <= |layers|
    ensures var out := Walk(fs, layers, i, io).fs;
      forall d :: d in out.wasm ==>
        (|| d in fs.wasm
         || exists j :: i <= j < |layers| && layers[j].config.digest == d && (IsKind(layers[j], Wasm) || IsKind(layers[j], Wkg)))
    decreases |layers| - i
  {
    if i < |layers| && !IsKind(layers[i], Wkg) && (!io.fails(i) || IsKind(layers[i], Unknown)) {
      WalkStep(fs, layers, i, io);
      OnlyWasmLayersAreCachedAsWasm(Applied(fs, layers[i], io), layers, i + 1, io);
    }
  }

  /** Files already in the cache stay there; a wasm file either keeps its
      bytes or holds those of a later wasm or wkg layer with its digest. */
  lemma {:induction false} CacheOnlyGrows(fs: FsState, layers: seq<WasmLayer>, i: nat, io: Io)
    requires i <= |layers|
    ensures var out := Walk(fs, layers, i, io).fs;
      fs.wasm.Keys <= out.wasm.Keys && fs.data.Keys <= out.data.Keys
    ensures var out := Walk(fs, layers, i, io).fs;
      forall d :: d in fs.wasm ==>
        (|| out.wasm[d] == fs.wasm[d]
         || exists j :: i <= j < |layers| && layers[j].config.digest == d && out.wasm[d] == layers[j].layer
              && (IsKind(layers[j], Wasm) || IsKind(layers[j], Wkg)))
    decreases |layers| - i
  {
    if i < |layers| && !IsKind(layers[i], Wkg) && (!io.fails(i) || IsKind(layers[i], Unknown)) {
      WalkStep(fs, layers, i, io);
      CacheOnlyGrows(Applied(fs, layers[i], io), layers, i + 1, io);
    }
  }

  /** The cache as the component resolver sees it. */
  datatype CacheView = CacheView(wasm: map<Digest, Bytes>, data: map<Digest, Bytes>)

  /** The Spin loaders `to_locked_app` delegates to, each of which may fail:
      `spin_loader::from_file`, `LockedApp::from_json`,
      `OciLoader::resolve_component_content_refs` and
      `spin_loader::from_wasm_file`. */
  datatype Loaders = Loaders(
    fromFile: Path -> Result<LockedApp, string>,
    fromJson: Bytes -> Result<LockedApp, string>,
    resolve: (LockedComponent, CacheView) -> Result<LockedComponent, string>,
    fromWasmFile: Path -> Result<LockedApp, string>)

  /** Components resolved in order; the first that fails ends the pass with
      an error naming that component. */
  function ResolveComponents(
    comps: seq<LockedComponent>,
    view: CacheView,
    resolve: (LockedComponent, CacheView) -> Result<LockedComponent, string>
  ): (r: Result<seq<LockedComponent>, Error>)
    ensures r.Ok? ==> |r.value| == |comps|
  {
    if |comps| == 0 then Ok([])
    else
      match resolve(comps[0], view)
      case Err(e) => Err(ComponentResolve(comps[0].id, e))
      case Ok(c) =>
        match ResolveComponents(comps[1..], view, resolve)
        case Err(e) => Err(e)
        case Ok(rest) => Ok([c] + rest)
  }

  /** When every component resolves, the pass succeeds with the resolved
      components in their original order. */
  lemma {:induction false} AllResolvedIsOk(
    comps: seq<LockedComponent>,
    view: CacheView,
    resolve: (LockedComponent, CacheView) -> Result<LockedComponent, string>,
    out: seq<LockedComponent>)
    requires |out| == |comps|
    requires forall k :: 0 <= k < |comps| ==> resolve(comps[k], view) == Ok(out[k])
    ensures ResolveComponents(comps, view, resolve) == Ok(out)
  {
    if |comps| > 0 {
      AllResolvedIsOk(comps[1..], view, resolve, out[1..]);
      assert out == [out[0]] + out[1..];
    }
  }

  /** When components before `i` resolve and component `i` does not, the
      pass fails with the error of component `i`, naming its id. */
  lemma {:induction false} FirstFailureIsReported(
    comps: seq<LockedComponent>,
    view: CacheView,
    resolve: (LockedComponent, CacheView) -> Result<LockedComponent, string>,
    i: nat)
    requires i < |comps|
    requires forall k :: 0 <= k < i ==> resolve(comps[k], view).Ok?
    requires resolve(comps[i], view).Err?
    ensures ResolveComponents(comps, view, resolve)
            == Err(ComponentResolve(comps[i].id, resolve(comps[i], view).error))
  {
    if i > 0 {
      FirstFailureIsReported(comps[1..], view, resolve, i - 1);
    }
  }

  /** Whenever the pass fails, some component failed to resolve after all
      those before it resolved, and the error names that component. */
  lemma {:induction false} FailureNamesFirstUnresolved(
    comps: seq<LockedComponent>,
    view: CacheView,
    resolve: (LockedComponent, CacheView) -> Result<LockedComponent, string>)
    requires ResolveComponents(comps, view, resolve).Err?
    ensures exists i ::
      && 0 <= i < |comps|
      && resolve(comps[i], view).Err?
      && (forall k :: 0 <= k < i ==> resolve(comps[k], view).Ok?)
      && ResolveComponents(comps, view, resolve).error == ComponentResolve(comps[i].id, resolve(comps[i], view).error)
  {
    if resolve(comps[0], view).Ok? {
      FailureNamesFirstUnresolved(comps[1..], view, resolve);
      var i :| 0 <= i < |comps[1..]| && resolve(comps[1..][i], view).Err?
        && (forall k :: 0 <= k < i ==> resolve(comps[1..][k], view).Ok?)
        && ResolveComponents(comps[1..], view, resolve).error == ComponentResolve(comps[1..][i].id, resolve(comps[1..][i], view).error);
      assert forall k :: 0 <= k < i + 1 ==> resolve(comps[k], view).Ok? by {
        forall k | 0 <= k < i + 1 ensures resolve(comps[k], view).Ok? {
          if k > 0 { assert comps[k] == comps[1..][k - 1]; }
        }
      }
      assert comps[i + 1] == comps[1..][i];
    }
  }

  /** `to_locked_app` as a function of the filesystem it reads. */
  function LockedAppOf(fs: FsState, src: Source, loaders: Loaders): Result<LockedApp, Error> {
    match src
    case File(path) =>
      var loaded := loaders.fromFile(path);
      if loaded.Err? then Err(Loader(loaded.error)) else Ok(loaded.value)
    case OciSpin =>
      if fs.spinJson.None? then Err(SpinJsonRead)
      else
        var decoded := loaders.fromJson(fs.spinJson.value);
        if decoded.Err? then Err(SpinJsonDecode(decoded.error))
        else
          var resolved := ResolveComponents(decoded.value.components, CacheView(fs.wasm, fs.data), loaders.resolve);
          if resolved.Err? then Err(resolved.error)
          else Ok(decoded.value.(components := resolved.value))
    case OciWkg(wasmPath) =>
      var loaded := loaders.fromWasmFile(wasmPath);
      if loaded.Err? then Err(WasmFileLoad(wasmPath, loaded.error)) else Ok(loaded.value)
  }

  /** A file entrypoint resolves to the well-known manifest whatever path it
      names, touches nothing, and is loaded from that manifest. */
  lemma FileEntrypointLoadsManifest(path: Path, fs: FsState, io: Io, loaders: Loaders)
    ensures FromContext(EntrySource.File(path), fs, io) == Resolution(fs, Ok(Source.File(SPIN_MANIFEST_FILE_PATH)))
    ensures LockedAppOf(fs, Source.File(SPIN_MANIFEST_FILE_PATH), loaders).Ok?
        <==> loaders.fromFile(SPIN_MANIFEST_FILE_PATH).Ok?
  {
  }

  /** An image with no layers resolves to `OciSpin` and touches nothing. */
  lemma EmptyImageIsOciSpin(fs: FsState, io: Io)
    ensures FromContext(Oci([]), fs, io) == Resolution(fs, Ok(OciSpin))
  {
  }

  /** Loading `OciSpin` fails when `/spin.json` was never written. */
  lemma OciSpinNeedsSpinJson(fs: FsState, loaders: Loaders)
    requires fs.spinJson.None?
    ensures LockedAppOf(fs, OciSpin, loaders) == Err(SpinJsonRead)
  {
  }

  /** The container filesystem the shim writes while resolving its source. */
  class ContainerFs {
    const cacheRoot: Path
    var wasm: map<Digest, Bytes>
    var data: map<Digest, Bytes>
    var spinJson: Option<Bytes>

    function State(): FsState
      reads this
    {
      FsState(cacheRoot, wasm, data, spinJson)
    }

    /** A fresh, empty cache rooted at `root`, in a container whose
        `/spin.json` (outside the cache) is `existing`. */
    constructor (root: Path, existing: Option<Bytes>)
      ensures State() == FsState(root, map[], map[], existing)
    {
      cacheRoot := root;
      wasm, data, spinJson := map[], map[], existing;
    }

    /** Creates `/spin.json` and writes `bytes` to it. */
    method WriteSpinJson(bytes: Bytes, fails: bool) returns (o: Outcome<Error>)
      modifies this
      ensures o == if fails then Fail(SpinJsonWrite) else Pass
      ensures State() == if fails then old(State()) else old(State()).(spinJson := Some(bytes))
    {
      if fails {
        return Fail(SpinJsonWrite);
      }
      spinJson := Some(bytes);
      o := Pass;
    }

    /** `Cache::write_wasm`: stores `bytes` as the wasm file for `digest`. */
    method WriteWasm(bytes: Bytes, digest: Digest, fails: bool) returns (o: Outcome<Error>)
      modifies this
      ensures o == if fails then Fail(CacheWrite(digest)) else Pass
      ensures State() == if fails then old(State()) else old(State()).(wasm := old(wasm)[digest := bytes])
    {
      if fails {
        return Fail(CacheWrite(digest));
      }
      wasm := wasm[digest := bytes];
      o := Pass;
    }

    /** `Cache::write_data`: stores `bytes` as the data file for `digest`. */
    method WriteData(bytes: Bytes, digest: Digest, fails: bool) returns (o: Outcome<Error>)
      modifies this
      ensures o == if fails then Fail(CacheWrite(digest)) else Pass
      ensures State() == if fails then old(State()) else old(State()).(data := old(data)[digest := bytes])
    {
      if fails {
        return Fail(CacheWrite(digest));
      }
      data := data[digest := bytes];
      o := Pass;
    }

    /** `handle_archive_layer`: unpacks the archive's files into the data cache. */
    method UnpackArchive(bytes: Bytes, digest: Digest, io: Io, fails: bool) returns (o: Outcome<Error>)
      modifies this
      ensures o == if fails then Fail(ArchiveUnpack) else Pass
      ensures State() == if fails then old(State()) else old(State()).(data := old(data) + io.unpack(bytes, digest))
    {
      if fails {
        return Fail(ArchiveUnpack);
      }
      data := data + io.unpack(bytes, digest);
      o := Pass;
    }

    /** `Source::from_ctx`: the new filesystem and the result are those of
        `FromContext` applied to the filesystem before the call. */
    method FromCtx(entry: EntrySource, io: Io) returns (r: Result<Source, Error>)
      modifies this
      ensures Resolution(State(), r) == FromContext(entry, old(State()), io)
    {
      match entry {
        case File(_) =>
          r := Ok(Source.File(SPIN_MANIFEST_FILE_PATH));
        case Oci(layers) =>
          var i := 0;
          while i < |layers|
            invariant i <= |layers|
            invariant Walk(State(), layers, i, io) == Walk(old(State()), layers, 0, io)
          {
            var artifact := layers[i];
            var digest := artifact.config.digest;
            match Classify(artifact.config.mediaType) {
              case SpinConfig =>
                :- WriteSpinJson(artifact.layer, io.fails(i));
              case Wasm =>
                :- WriteWasm(artifact.layer, digest, io.fails(i));
              case Wkg =>
                :- WriteWasm(artifact.layer, digest, io.fails(i));
                if |layers| != 1 {
                  return Err(ExpectedSingleLayer(|layers|));
                }
                return Ok(OciWkg(WasmPath(cacheRoot, digest)));
              case Data =>
                :- WriteData(artifact.layer, digest, io.fails(i));
              case Archive =>
                :- UnpackArchive(artifact.layer, digest, io, io.fails(i));
              case Unknown =>
            }
            i := i + 1;
          }
          r := Ok(OciSpin);
      }
    }

    /** `Source::to_locked_app`: reads the filesystem and loads the
        application as `LockedAppOf` says, resolving the components of an
        `OciSpin` application in place, one after the other. */
    method ToLockedApp(src: Source, loaders: Loaders) returns (r: Result<LockedApp, Error>)
      ensures r == LockedAppOf(State(), src, loaders)
    {
      match src {
        case File(path) =>
          var loaded := loaders.fromFile(path);
          if loaded.Err? {
            return Err(Loader(loaded.error));
          }
          r := Ok(loaded.value);
        case OciSpin =>
          if spinJson.None? {
            return Err(SpinJsonRead);
          }
          var decoded := loaders.fromJson(spinJson.value);
          if decoded.Err? {
            return Err(SpinJsonDecode(decoded.error));
          }
          var app := decoded.value;
          var view := CacheView(wasm, data);
          ghost var original := app.components;
          var components := app.components;
          var i := 0;
          while i < |components|
            invariant i <= |components| == |original|
            invariant components[i..] == original[i..]
            invariant forall k :: 0 <= k < i ==> loaders.resolve(original[k], view) == Ok(components[k])
          {
            var resolved := loaders.resolve(components[i], view);
            if resolved.Err? {
              FirstFailureIsReported(original, view, loaders.resolve, i);
              return Err(ComponentResolve(components[i].id, resolved.error));
            }
            components := components[i := resolved.value];
            i := i + 1;
          }
          AllResolvedIsOk(original, view, loaders.resolve, components);
          r := Ok(app.(components := components));
        case OciWkg(wasmPath) =>
          var loaded := loaders.fromWasmFile(wasmPath);
          if loaded.Err? {
            return Err(WasmFileLoad(wasmPath, loaded.error));
          }
          r := Ok(loaded.value);
      }
    }
  }
}
