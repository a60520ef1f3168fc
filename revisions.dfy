/** The two readings of the places where the source evidently misbehaves. */
module Revisions {

  /** The source as it is written, or as it is evidently meant. */
  datatype Revision = AsWritten | Corrected
}
