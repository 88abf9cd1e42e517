/** The bytes of a stream. */
module Octets {
  type Byte = b: int | 0 <= b < 256
}
