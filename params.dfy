/** The options of `Params` (`src/main.rs`) that the core reads. */
module Config {
  import opened Wrappers

  datatype Params = Params(
    containers: Option<string>,  // `--containers`: names or ids, separated by commas
    disablePowercap: bool)       // `--disable-powercap` (only with `enrichment-powercap`)
}
