/** Go's `time.Time`, reduced to what the bridge uses. */
module GoTime {

  /**
   * `ZeroTime` is the zero value `time.Time{}` (January 1 of year 1, UTC), which is not
   * the Unix epoch; `UnixMilli(ms)` is the instant `ms` milliseconds after the Unix epoch.
   */
  datatype Time = ZeroTime | UnixMilli(ms: int)
}
