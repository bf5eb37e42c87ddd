/** The bridge's configuration snapshot. Loading it from the YAML file is not
    part of this model; `Default` holds the values the loader falls back to. */
module Config {

  datatype BridgeConfig = BridgeConfig(
    enabled: bool,
    debug: bool,
    defaultDistance: real,
    whisperMultiplier: real,
    maxDistance: real,
    passthrough: bool,
    forceTranscode: bool,
    worldOverrides: map<string, real>)

  const Default: BridgeConfig :=
    BridgeConfig(true, false, 48.0, 0.33, 128.0, true, false, map[])

  /** The loader keeps a per-world override only when it is positive. */
  predicate OverridesPositive(c: BridgeConfig) {
    forall w :: w in c.worldOverrides ==> c.worldOverrides[w] > 0.0
  }
}
