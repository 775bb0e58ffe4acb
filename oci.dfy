/** The values the shim receives from the container runtime and hands to the
    Spin loaders: OCI layers with their descriptors, the entrypoint's source,
    the locked application, and the errors the shim reports. */
module Oci {
  import opened Wrappers

  newtype byte = x: int | 0 <= x < 256
  type Bytes = seq<byte>

  /** An OCI content digest such as "sha256:6c3c…". */
  type Digest = string
  type Path = string

  /** oci_spec's MediaType: the registered OCI types are named variants, and
      any other string is `Other`. The shim only ever matches on `Other`. */
  datatype MediaType = Standard(registered: string) | Other(name: string)

  datatype Descriptor = Descriptor(mediaType: MediaType, digest: Digest)

  /** A layer as runwasi hands it over: its descriptor and its raw bytes. */
  datatype WasmLayer = WasmLayer(config: Descriptor, layer: Bytes)

  /** Where the container's entrypoint comes from: a file path given in the
      container spec, or the image's layers. */
  datatype EntrySource = File(path: Path) | Oci(layers: seq<WasmLayer>)

  /** A component of a locked application; `source` is its content
      reference, which resolution against the cache rewrites. */
  datatype LockedComponent = LockedComponent(id: string, source: string)

  datatype LockedTrigger = LockedTrigger(id: string, triggerType: string)

  datatype LockedApp = LockedApp(components: seq<LockedComponent>, triggers: seq<LockedTrigger>)

  /** The errors the shim raises or wraps with context, one variant per
      message; `cause` is the library error the context wraps. */
  datatype Error =
    | SpinJsonWrite                                // "failed to create/write spin.json"
    | CacheWrite(digest: Digest)                   // write_wasm / write_data failed
    | ArchiveUnpack                                // "unable to unpack archive layer"
    | ExpectedSingleLayer(found: nat)              // "expected single layer in OCI package, found {} layers"
    | SpinJsonRead                                 // "failed to read from \"/spin.json\""
    | SpinJsonDecode(cause: string)                // "failed to decode locked app from \"/spin.json\""
    | ComponentResolve(id: string, cause: string)  // "failed to resolve content for component {id}"
    | WasmFileLoad(path: Path, cause: string)      // "Failed to load component from {path}"
    | Loader(cause: string)                        // a loader error passed on without context
    | Componentize(cause: string)
    | PrecompileFailed(cause: string)
    | NoTrigger                                    // "expected app to have one trigger"
    | UnsupportedTrigger(triggerType: string)      // "... Found unsupported trigger: {type}"
    | AddressLookup(cause: string)                 // to_socket_addrs failed
    | AddressUnresolved                            // "couldn't resolve address"
    | TriggerBuild(cause: string)                  // "failed to build spin trigger"
}
