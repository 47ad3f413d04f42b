/** The two signals that the runner sends. */
module Signals {
  datatype Signal = TERM | KILL
}
