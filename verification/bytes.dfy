/** Octets, as carried by header values and object ids. */
module Bytes {

  newtype byte = x: int | 0 <= x < 256
}
