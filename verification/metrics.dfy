/** The two process-wide gauges (pg_backup.go:19-28) as plain state. The
    gauges hold float64 values in the source; the model keeps them as
    integers because only 0, 1 and the size placeholder are ever stored. */
module Metrics {

  datatype Gauges = Gauges(size: int, status: int)

  /** backup_status values. */
  const Healthy: int := 0
  const Failed: int := 1

  /** The size `main` stores before anything runs; no code measures a dump. */
  const PlaceholderSize: int := 7000000

  /** The gauges as `main` sets them before loading the configuration
      (pg_backup.go:101-102). */
  const Initial: Gauges := Gauges(PlaceholderSize, Healthy)
}
