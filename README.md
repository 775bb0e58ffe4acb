# containerd-shim-spin: source resolution, trigger selection and engine decisions

A Dafny model of the decision logic in the Spin containerd shim. It covers
three parts. Together they turn what the container runtime hands the shim into
"what to run".

- **Source resolution** (`source.rs`, module `Sources`). `from_ctx` walks the
  image's OCI layers in order and dispatches each on its media type. A Spin
  config layer is written to `/spin.json`. A wasm layer goes to the loader
  cache's wasm files and a data layer to its data files, both keyed by digest.
  An archive layer is unpacked into the data files. A wkg (packaged component)
  layer is cached and ends the walk. Any other layer is skipped. The result is
  `File`, `OciSpin` or `OciWkg`, or an error. `to_locked_app` loads the
  application for each variant. For `OciSpin` it resolves the components one
  after the other, in place. The filesystem the walk writes is the class
  `ContainerFs`: the cache's `wasm` and `data` maps and an optional
  `spinJson`. Its methods carry the loops of the source, and each is proved
  against a specification function: `Walk`/`FromContext` and `LockedAppOf`.
  The properties are lemmas about those functions.
- **Trigger selection** (`trigger.rs`, module `Triggers`).
  `get_supported_triggers` checks the declared trigger types against the five
  supported types and collects them into a set. The module also covers the
  `SPIN_MAX_INSTANCE_MEMORY` rule, including Rust's `usize` parsing, and
  `factors_config`.
- **Engine helpers** (`engine.rs`, module `Engine`). These are `precompile`,
  `is_wasm_content`, `supported_layers_types`, `trigger_command`,
  `parse_listen_addr` (the choice among already-resolved addresses), the
  exit-code match of `run_wasi`, the trigger dispatch of `run`, and `load`.
  engine.rs is from an older API generation than trigger.rs: it starts only
  the first trigger. Each file is modelled as written, and the lemma
  `SelectorAdmitsWhatDispatchCannotStart` shows where the two differ.

Library calls become parameters. The cache writes and the archive unpack
become an `Io` value: per layer position, whether that layer's write fails,
and which files an archive unpacks to. The Spin loaders become `Loaders` and
`AppLoaders`, and the wasmtime and componentize calls become `Compiler`. Each
of these may fail. Shared values (layers, media types, the locked app, the
shim's errors) are in `oci.dfy`. The well-known paths and media-type tags are
in `constants.dfy`. `containerd-shim-spin/src/constants.rs`, the spin_oci
client and the trigger crates define most of these and are not part of this
model. Where each value comes from:

- `SPIN_MANIFEST_FILE_PATH`, `RUNTIME_CONFIG_PATH` and
  `OCI_LAYER_MEDIA_TYPE_WASM` are read by source.rs and trigger.rs from the
  crate's constants module (`source.rs:33`, `source.rs:54`, `trigger.rs:19`).
  They are assumed equal to engine.rs's private constants of the same names
  (`engine.rs:33-42`).
- `SPIN_APPLICATION_MEDIA_TYPE` and `DATA_MEDIATYPE` are assumed equal to
  engine.rs's `OCI_LAYER_MEDIA_TYPE_SPIN_CONFIG` (`engine.rs:39`) and
  `OCI_LAYER_MEDIA_TYPE_DATA` (`engine.rs:37`). The test comment at
  `source.rs:310` names the data tag `application/vnd.spin.content.bytes.v1`
  instead; the engine.rs value is used.
- `OCI_LAYER_MEDIA_TYPE_WASM_WKG` is assumed to be `application/wasm`, the
  tag the test comments at `source.rs:326` and `source.rs:356` name.
- `SPIN_TRIGGER_WORKING_DIR` is assumed to be `/`, the working directory
  `to_locked_app` gives the OCI loader (`source.rs:123`).
- `ARCHIVE_MEDIATYPE` is assumed to be
  `application/vnd.wasm.content.bundle.v1.tar+gzip`; no file of the shim
  spells it out.
- The five trigger types `http`, `redis`, `sqs`, `mqtt` and `command` are
  assumed values of the trigger crates' `TYPE` constants (`trigger.rs:21-25`).

The wkg rule counts all layers. A wkg layer is rejected unless the image has
exactly one layer in all (`source.rs:75`). So a wkg layer next to any other
layer, even one of an unknown type, is an error naming the total count,
provided every write up to and including the wkg layer's own succeeds; an
earlier failed write is reported instead. The wkg layer's cache write has
already happened by the time the count is checked.

## Model

| member | source | states |
|---|---|---|
| Sources.ContainerFs.FromCtx | containerd-shim-spin/src/source.rs:30-112 | the filesystem after the call and the result are exactly `FromContext` of the entrypoint, applied to the filesystem before the call |
| Sources.ContainerFs.WriteSpinJson | containerd-shim-spin/src/source.rs:44-53 | on success `/spin.json` holds exactly the layer's bytes, replacing any earlier content; on failure the error is returned and nothing changes |
| Sources.ContainerFs.WriteWasm | containerd-shim-spin/src/source.rs:54-63 | on success the wasm cache maps the digest to the layer's bytes and nothing else changes; on failure a cache error naming the digest |
| Sources.ContainerFs.WriteData | containerd-shim-spin/src/source.rs:83-91 | on success the data cache maps the digest to the layer's bytes and nothing else changes; on failure a cache error naming the digest |
| Sources.ContainerFs.UnpackArchive | containerd-shim-spin/src/source.rs:92-100 | on success the unpacked files are added to the data cache; on failure "unable to unpack archive layer" and nothing changes |
| Sources.ContainerFs.ToLockedApp | containerd-shim-spin/src/source.rs:114-146 | the loaded application or error is exactly `LockedAppOf` the current filesystem; the in-place loop over the components is proved against `ResolveComponents` |
| Sources.ContainerFs.constructor | containerd-shim-spin/src/source.rs:180-186 | a cache made in a fresh directory has no wasm or data files; `/spin.json`, which lives outside the cache, is whatever the container already holds |
| Sources.Classify | containerd-shim-spin/src/source.rs:43-106 | a standard media type takes no arm; a recognised arm is taken only for `Other` of its own tag, and each of the five tags is recognised |
| Sources.Walk | containerd-shim-spin/src/source.rs:42-109 | the walk keeps the cache root, succeeds only with `OciSpin` or `OciWkg`, returns `OciWkg` only for a one-layer image, and an `ExpectedSingleLayer` error carries the total layer count, which is not 1 |
| Sources.ClassifyInvertsTagOf | containerd-shim-spin/src/source.rs:43-106 | each of the five tags, as an `Other` media type, selects its own arm |
| Sources.WasmPath | containerd-shim-spin/src/source.rs:81 | the wkg path is inside the cache directory (test at 345-353) |
| Sources.FileEntrypointLoadsManifest | containerd-shim-spin/src/source.rs:31-34 | a file entrypoint resolves to `File("/spin.toml")` whatever path it carried, touches nothing, and loads from that manifest |
| Sources.EmptyImageIsOciSpin | containerd-shim-spin/src/source.rs:35-109 | an image with no layers resolves to `OciSpin` and the filesystem is unchanged |
| Sources.UnknownLayerIsSkipped | containerd-shim-spin/src/source.rs:101-106 | a layer of an unrecognised type changes nothing and the walk goes on with the next layer |
| Sources.UnknownLayersChangeNothing | containerd-shim-spin/src/source.rs:101-109 | layers all of unrecognised types resolve to `OciSpin`, with no error and no cache or `/spin.json` change |
| Sources.WithoutWkgResultIsOciSpin | containerd-shim-spin/src/source.rs:42-109 | without a wkg layer a successful walk returns `OciSpin`, and it does succeed when no write fails |
| Sources.WkgRequiresSingleLayer | containerd-shim-spin/src/source.rs:64-82 | the result is `OciWkg` iff the image is one wkg layer whose cache write succeeds; the path is that digest's cached wasm file, which holds the layer's bytes |
| Sources.WkgAmongOtherLayersIsRejected | containerd-shim-spin/src/source.rs:72-80 | a wkg layer in an image of any other total layer count fails with `ExpectedSingleLayer(total)` when every write up to and including its own succeeds, after its bytes were written to the wasm cache |
| Sources.FailureIgnoresLaterLayers | containerd-shim-spin/src/source.rs:42-108 | a failed write or unpack at layer k ends the walk with an error; the outcome is the same as for the layers up to k alone |
| Sources.LastConfigLayerWins | containerd-shim-spin/src/source.rs:44-53 | after a successful walk `/spin.json` holds the bytes of the last Spin config layer, or is unchanged if there is none |
| Sources.LayersAreCachedByDigest | containerd-shim-spin/src/source.rs:54-91 | after a successful walk every wasm layer's digest is in the wasm cache and every data layer's digest is in the data cache |
| Sources.CachedWasmMatchesLayer | containerd-shim-spin/src/source.rs:54-63 | when equal digests mean equal bytes, each wasm layer's cached file holds exactly its bytes after a successful walk |
| Sources.OnlyWasmLayersAreCachedAsWasm | containerd-shim-spin/src/source.rs:42-108 | a wasm cache entry after the walk was there before or has the digest of a wasm or wkg layer, so unknown layers are never cached |
| Sources.CacheOnlyGrows | containerd-shim-spin/src/source.rs:42-108 | the walk never removes a cache entry, and an existing wasm file keeps its bytes unless a later wasm or wkg layer with that digest rewrites it |
| Sources.ResolveComponents | containerd-shim-spin/src/source.rs:131-138 | a successful resolution returns as many components as it was given |
| Sources.AllResolvedIsOk | containerd-shim-spin/src/source.rs:131-139 | when every component resolves, the result is the resolved components in their original order |
| Sources.FirstFailureIsReported | containerd-shim-spin/src/source.rs:131-138 | when the components before i resolve and component i does not, the error is component i's, in context naming its id |
| Sources.FailureNamesFirstUnresolved | containerd-shim-spin/src/source.rs:131-138 | every resolution error names a component whose predecessors all resolved and which itself failed |
| Sources.OciSpinNeedsSpinJson | containerd-shim-spin/src/source.rs:126-128 | loading `OciSpin` without `/spin.json` fails with the read error |
| Engine.SupportedLayersTypes | containerd-shim-spin/src/engine.rs:77-83 | every supported type is one the resolver handles as wasm, data or Spin config; neither the wkg nor the archive tag is among them |
| Engine.SupportedLayersAreWasmDataConfig | containerd-shim-spin/src/engine.rs:77-83 | the supported media types are, in order, the wasm, data and Spin-config tags |
| Engine.IsWasmContent | containerd-shim-spin/src/engine.rs:286-294 | returns `Some` of the layer itself iff its media type is `Other` of the wasm tag, and `None` otherwise |
| Engine.WasmContentIsWasmKind | containerd-shim-spin/src/engine.rs:286-294 | the engine's wasm layers are exactly those the source resolver caches as plain wasm |
| Engine.PrecompileLayer | containerd-shim-spin/src/engine.rs:89-110 | `Ok(None)` iff the layer is not wasm; an already precompiled wasm layer is returned as is; otherwise the precompiled component, or the componentize error, or the precompile error of the componentized bytes |
| Engine.Precompile | containerd-shim-spin/src/engine.rs:85-113 | succeeds iff every layer does; the result has one entry per layer, in order, each that layer's outcome |
| Engine.PrecompileKeepsLayerOrder | containerd-shim-spin/src/engine.rs:86-112 | same length and order as the input; entry i is `None` iff layer i is not wasm, and an already precompiled wasm layer is returned byte for byte |
| Engine.PrecompileReportsFirstFailure | containerd-shim-spin/src/engine.rs:95-111 | a failed call reports the componentize or precompile error of the first wasm layer that failed |
| Engine.TriggerCommand | containerd-shim-spin/src/engine.rs:225-233 | returns the first trigger's type iff the app has a trigger, and otherwise "expected app to have one trigger" |
| Engine.TriggerCommandIsSelected | containerd-shim-spin/src/engine.rs:225-233 | when trigger.rs's selector accepts the app, the trigger the engine starts is in the selected set |
| Engine.FindLocalhost | containerd-shim-spin/src/engine.rs:299-304 | returns the position of the first IPv4 127.0.0.1 address, or `None` when there is none |
| Engine.ParseListenAddr | containerd-shim-spin/src/engine.rs:296-307 | returns a candidate from the list: the first IPv4 127.0.0.1 one if any exists, else the first; errors iff the list is empty or the lookup failed |
| Engine.RunWasi | containerd-shim-spin/src/engine.rs:57-70 | a completed run and an abort both exit with 0; an inner error is returned unchanged |
| Engine.RunDispatch | containerd-shim-spin/src/engine.rs:151-203 | fails iff the app has no trigger, or its first trigger is http or redis and building fails, or it is http and the listen address does not resolve; a build failure is reported as `TriggerBuild`; the http trigger listens on what `ParseListenAddr` chose |
| Engine.RunDispatchFollowsFirstTrigger | containerd-shim-spin/src/engine.rs:151-203 | `run` panics iff the first trigger's type is neither http nor redis; it starts the http trigger iff that type is http; no trigger is an error |
| Engine.SelectorAdmitsWhatDispatchCannotStart | containerd-shim-spin/src/engine.rs:197-199 | an sqs application passes trigger.rs's selector but reaches the `todo!` panic of engine.rs's dispatch |
| Engine.Load | containerd-shim-spin/src/engine.rs:216-219 | an OCI source succeeds iff the layer loader does, with the loader's application, and otherwise wraps its error |
| Engine.LoadIgnoresFilePath | containerd-shim-spin/src/engine.rs:205-223 | a file source always loads `/spin.toml`, whatever path it carries, and succeeds iff loading that manifest does |
| Triggers.GetSupportedTriggers | containerd-shim-spin/src/trigger.rs:88-109 | succeeds iff every declared type is one of the five; the result is then a subset of them and exactly the set of declared types |
| Triggers.UnsupportedTriggerIsFirst | containerd-shim-spin/src/trigger.rs:97-108 | a failure names the first declared trigger, in order, whose type is unsupported |
| Triggers.DuplicateTriggersCollapse | containerd-shim-spin/src/trigger.rs:75-108 | http, http, redis selects {http, redis}, and no triggers selects the empty set |
| Triggers.ParseUsize | containerd-shim-spin/src/trigger.rs:43 | a parsed limit fits in a 64-bit `usize` and is the value of a non-empty digit string, the whole input or the input after a leading '+' |
| Triggers.ParseUsizeAccepts | containerd-shim-spin/src/trigger.rs:43 | any non-empty digit string, with or without a leading '+' and with leading zeros, parses to its value, or fails when that value overflows `usize` |
| Triggers.ParseUsizeRoundTrip | containerd-shim-spin/src/trigger.rs:43 | every `usize` written in decimal, with or without a leading '+', parses back to itself |
| Triggers.ParseUsizeRejects | containerd-shim-spin/src/trigger.rs:43 | the empty string, a lone '+', any non-digit after the optional '+' and any digits after the optional '+' denoting a value too large for `usize` do not parse |
| Triggers.BuilderArgs | containerd-shim-spin/src/trigger.rs:39-47 | unset gives the default args; a set value gives `max_instance_memory` equal to what `ParseUsize` makes of it: `Some(n)` for every decimal spelling of n, and `None` when it does not parse (e.g. empty) |
| Triggers.FactorsConfigFor | containerd-shim-spin/src/trigger.rs:55-73 | `runtime_config_file` is `Some("/runtime-config.toml")` iff that file exists; `working_dir` and `local_app_dir` are the trigger working dir; `log_dir` is `Unset` |

## Left out

- containerd-shim-spin/src/main.rs: process bootstrap that only hands control to `shim_main`.
- `run_wasi`'s stdio redirect, tokio runtime creation, ctrl-c handler and `abortable` wrapper: these are signals and async scheduling. Only the match from outcome to exit code is modelled, and failures of those setup steps are not.
- Racing several triggers and cancelling the losers: this is concurrency, and it is not in the files modelled. engine.rs starts the first trigger only.
- The Spin loader cache's internals are not modelled: the file-system writes, write atomicity and the exact file name derivation. `WasmPath` assumes the layout `<root>/wasm/<digest>`.
- The contents of `handle_archive_layer` are not modelled: an archive's unpacked files are a parameter.
- `spin_loader::from_file`, `from_wasm_file`, `LockedApp::from_json`, `OciLoader::resolve_component_content_refs` and the containerd layer loader are not modelled. They are abstract functions that may fail.
- wasmtime's `detect_precompiled` and `precompile_component`, `spin_componentize`, and the `DefaultHasher` digest in `can_precompile` are left out: they are foreign compilation and hashing. `can_handle` and `name` are constant and left out.
- The DNS or OS lookup in `to_socket_addrs` is not modelled: its result, a candidate list or an error, is a parameter.
- `build_trigger`, `write_locked`, `StdioTriggerHook`, `T::new`, the `TriggerAppBuilder` run, and awaiting the started trigger are left out: they are builder plumbing, file I/O and serde. The outcome of building the trigger is a parameter of `RunDispatch`.
- The `todo!()` in `run` is modelled as the value `Panicked`, not as a crash.
- All logging is left out, including the debug loop over the layers at `source.rs:38-40`.
- `std::env::var` also fails for a value that is not valid Unicode. The model only distinguishes set from unset.
- The default field values of `TriggerAppArgs` and `FactorsConfig` are not modelled. `Defaults` stands for `TriggerAppArgs::default()`.
- Sources.ContainerFs.FromCtx: a failed write leaves the filesystem as it was. In the source, `File::create` followed by a failed `write_all` can leave `/spin.json` truncated, and a failed cache write can leave a partial file.
- Sources.LayersAreCachedByDigest: states that data layers are present in the data cache but not their bytes, because archive entries share that cache and may reuse a digest.
