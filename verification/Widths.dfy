/** The width of the integers a Want keeps its lengths in. */
module Widths {
  const UINT16_RANGE: nat := 0x1_0000
}
