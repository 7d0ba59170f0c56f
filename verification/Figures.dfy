/** Figures the two ends promise, written out: what is stated about runs refers to these, not
    to the program's own constants. */
module Figures {
  import opened Wire

  /** How old captured speech may be and still be played. */
  function OldestNs(mode: Mode): nat {
    match mode
    case QualityFirst => 3_000_000_000
    case Balanced => 2_000_000_000
    case StreamingFirst => 1_000_000_000
  }
}
