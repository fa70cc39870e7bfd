/**
 * The cluster-wide unique identifier `UID`: two 64-bit halves, equal exactly
 * when both halves are equal. Its own source file is not part of this model;
 * only its value semantics are used here.
 */
module Uid {
  import opened FixedWidth

  datatype UID = UID(first: uint64, second: uint64)
}
