/** The frozen limits of the system-record design. */
module SystemLimits {
  const ACTIVATION_RECORDS := 512
  const ACTIVATION_BUNDLE_BYTES := 134_217_728          // 128 MiB
  const ACTIVATION_CLOSURE_BYTES := 268_435_456         // 256 MiB
  const ACTIVATION_LEAVES := 4
  const HARD_RECORDS := 262_144
  const LEAF_MIN_ROWS := 128
  const LEAF_MAX_ROWS := 512
  const INTERNAL_MAX_ENTRIES := 256
  const MAX_TREE_HEIGHT := 3
  const MAX_LEAVES := 2_048
  const MAX_PROFILE_QUADS := 10_000
  const MAX_OWNED_SUBJECTS := 2_048
  const ONE_MIB := 1_048_576
  const SERVICE_RECORDS := 60
  const CLOSURE_SERVICE_BYTES := 25_165_824             // 24 MiB
  const ARRIVAL_RECORDS := 16
  const CLOSURE_ARRIVAL_BYTES := 8_388_608              // 8 MiB
  const MAX_DRAIN_MINUTES := 18.0
  const MINIMUM_LOAD_INTERVALS := 30
  const MAXIMUM_LOAD_INTERVALS := 180
  const MINIMUM_REQUESTS_PER_RECORD := 3
  const REQUESTER_CEILING := SERVICE_RECORDS * MINIMUM_REQUESTS_PER_RECORD + 48
  const PROVIDER_CEILING := SERVICE_RECORDS * MINIMUM_REQUESTS_PER_RECORD + 64
}
