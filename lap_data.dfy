/** The lap record shared by the strategy service and the frontend lap charts. Lap times are
    whole numbers of an abstract time unit: only their order, sums and differences matter. */
module LapData {
  import opened Wrappers

  /** One timed (or untimed) lap of one driver. */
  datatype Lap = Lap(driver: string, lapNumber: int, lapTime: Option<int>)

  function LapDriver(lap: Lap): string { lap.driver }

  function LapNumberOf(lap: Lap): int { lap.lapNumber }
}
