/** The read-only view of the simulator that the outboard callback receives at
    each communication time: the current time and one record per reported well. */
module SimData {

  /** The fields of a well record that the callback reads: bottom-hole pressure,
      oil rate and gas rate. Other host fields are not examined and not modelled. */
  datatype WellRecord = WellRecord(bhp: real, sto: real, stg: real)

  /** A snapshot: `timeCurr` is the simulation time, `wells` maps each reported
      well name to its record (unreported wells are absent). */
  datatype Snapshot = Snapshot(timeCurr: real, wells: map<string, WellRecord>)
}
