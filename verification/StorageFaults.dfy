/** How a call to the table service ends for its caller. */
module StorageFaults {
  datatype Fault =
    | Ok
    | ThrewBefore      // exception, no effect
    | ThrewAfter       // exception although the call took effect
    | Retried          // took effect, then the library retried it and saw its own write as a conflict
}
