/** Bytes as they travel on the serial link and sit in frame payloads (Swift `UInt8`). */
module Bytes {

  type byte = bv8
}
