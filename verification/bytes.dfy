/** An octet, as held by a `Uint8Array` in the browser and by `bytes` on the server. */
module Bytes {

  type Byte = x: int | 0 <= x < 256
}
