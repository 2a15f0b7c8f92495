/** The stint record shared by the backend services and the frontend chart, with the keys
    the frontend and the services group and sort it by. */
module StintData {
  import opened Wrappers

  /** One tyre stint of one driver; `numLaps` is the number of laps the record says it covers. */
  datatype Stint = Stint(driver: string, stint: int, compound: Option<string>,
                         startLap: int, endLap: int, numLaps: int)

  function DriverOf(s: Stint): string { s.driver }

  function StintNumber(s: Stint): real { s.stint as real }
}
