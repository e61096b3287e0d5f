/** Names and values that several models share. */
module Common {
  type Tid = nat
  type Byte = bv8
}
