/** The byte, shared by the modules that model raw buffers. */
module Bytes {
  type byte = x: int | 0 <= x < 256
}
