/**
 * String constants of the binding. Constants.java is not part of this model:
 * its values are taken to be the constants' own names (the spellings the
 * vendor's JSON uses for door, window and weekday values). The proofs rely
 * only on these values being pairwise distinct.
 */
module Constants {

  // Door and window states, and the aggregate results of checkClosed.
  const OPEN: string := "OPEN"
  const CLOSED: string := "CLOSED"
  const INTERMEDIATE: string := "INTERMEDIATE"
  const INVALID: string := "INVALID"
  const UNKNOWN: string := "UNKNOWN"

  // Check-control summary for an empty message list.
  const OK: string := "OK"

  // Default viewport of ImageProperties.
  const EMPTY: string := ""

  // Separator inside "HH:MM" departure and charging-window times.
  const COLON: char := ':'

  /** The weekday names stored in a timer's weekday list. */
  datatype Weekday = Monday | Tuesday | Wednesday | Thursday | Friday | Saturday | Sunday
  {
    function Name(): string
    {
      match this
      case Monday => "MONDAY"
      case Tuesday => "TUESDAY"
      case Wednesday => "WEDNESDAY"
      case Thursday => "THURSDAY"
      case Friday => "FRIDAY"
      case Saturday => "SATURDAY"
      case Sunday => "SUNDAY"
    }
  }

  /** Vehicle type strings (the CarType enum of ConnectedDriveConstants). */
  const CONVENTIONAL: string := "CONV"
  const PLUGIN_HYBRID: string := "PHEV"
  const ELECTRIC_REX: string := "BEV_REX"
  const ELECTRIC: string := "BEV"
}
