/** Well-known paths and media-type tags the shim shares with Spin. The
    crate's constants module and the spin_oci client define most of these and
    are not part of this model; each value below says where it comes from. */
module Constants {

  /** Where the Spin manifest is expected when the container runs a file.
      Assumed equal to engine.rs's private constant of the same name. */
  const SPIN_MANIFEST_FILE_PATH: string := "/spin.toml"

  /** Where a runtime config is picked up from, if one exists. Assumed equal
      to engine.rs's private constant of the same name. */
  const RUNTIME_CONFIG_PATH: string := "/runtime-config.toml"

  /** Working directory of the trigger and default base of its state dir.
      Assumed: the crate's constants module defines it; "/" is the working
      directory `to_locked_app` gives the OCI loader. */
  const SPIN_TRIGGER_WORKING_DIR: string := "/"

  /** A layer holding a Wasm module or component. Assumed equal to
      engine.rs's private constant of the same name. */
  const OCI_LAYER_MEDIA_TYPE_WASM: string := "application/vnd.wasm.content.layer.v1+wasm"

  /** A layer holding a single packaged component (wkg). Assumed from the
      tag the source's tests name for such a layer. */
  const OCI_LAYER_MEDIA_TYPE_WASM_WKG: string := "application/wasm"

  /** spin_oci's tag for a locked Spin application config. Assumed equal to
      engine.rs's `OCI_LAYER_MEDIA_TYPE_SPIN_CONFIG`. */
  const SPIN_APPLICATION_MEDIA_TYPE: string := "application/vnd.fermyon.spin.application.v1+config"

  /** spin_oci's tag for a static data file. Assumed equal to engine.rs's
      `OCI_LAYER_MEDIA_TYPE_DATA`. */
  const DATA_MEDIATYPE: string := "application/vnd.wasm.content.layer.v1+data"

  /** spin_oci's tag for a tar+gzip archive of static files. Assumed: no
      file of the shim spells it out. */
  const ARCHIVE_MEDIATYPE: string := "application/vnd.wasm.content.bundle.v1.tar+gzip"
}
