/** The builder's constants (builder/defines.py) and the configuration
    record every section, profile and manager reads (the attributes of
    `WallConfigurator`). In the source each builder class holds its own
    configuration object as a class attribute; here a configuration is an
    immutable value, and the manager's state carries the three the
    classes hold. */
module Config {

  const VOLUME_ICE_PER_FOOT: int := 195
  const COST_PER_VOLUME: int := 1900
  const TARGET_HEIGHT: int := 30
  const MAX_SECTION_COUNT: int := 2000
  const MAX_WORKERS: int := 20
  const BUILD_RATE: int := 1

  /** The tunable parameters and the configured profile list: one row of
      start heights per profile. No field is range-checked by the
      configurator, so every field may hold any integer. `cpuWorktime` is
      the per-step sleep, kept only for its sign (a negative sleep raises). */
  datatype WallConfig = WallConfig(
    volumeIcePerFoot: int,
    costPerVolume: int,
    targetHeight: int,
    maxSectionCount: int,
    buildRate: int,
    numWorkers: int,
    cpuWorktime: real,
    profiles: seq<seq<int>>)

  /** `WallConfigurator()` with every default. */
  const DefaultConfig: WallConfig :=
    WallConfig(195, 1900, 30, 2000, 1, 20, 0.01, [])

  /** The defaults with a given profile list. */
  function WithProfiles(rows: seq<seq<int>>): WallConfig {
    DefaultConfig.(profiles := rows)
  }
}
