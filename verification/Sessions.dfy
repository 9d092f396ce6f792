/** What every module about sessions shares. */
module Sessions {
  type Id = string

  datatype Status = Queued | Running | Idle | Failed | Completed

  predicate InFlight(s: Status) { s == Queued || s == Running }
}
