/** Values shared by every component of the overlay model. */
module Common {
  newtype byte = x: int | 0 <= x < 0x100

  type Bytes = seq<byte>

  /** One IP packet as read from, or written to, the TUN device. */
  type Packet = Bytes

  datatype Option<+T> = None | Some(value: T)

  function Max(a: nat, b: nat): nat {
    if a > b then a else b
  }
}
