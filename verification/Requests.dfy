/** Cache lines and what a transaction wants of one. */
module Requests {

  type Line = nat

  /** A write carries data for memory; an invalidation is a write without. */
  datatype Kind = Read | Write | Invalidate
}
