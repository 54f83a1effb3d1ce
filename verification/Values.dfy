/** Values as they travel on a stream and as they sit in a receiver's queue. */
module Values {

  /** A value carried by a StreamValue message. `Null` is the codec's null
      marker: receivers drop it. Everything else is opaque payload. */
  datatype Value = Null | Data(payload: string)

  /** A slot of a pump queue: a pushed value, or nil. The nil slot stands for
      the StreamReady ack, which initiators push to wake the establisher, and
      for a cleared slot of the backing array. */
  datatype Cell = Nil | Held(value: Value)

  function Max(a: int, b: int): (r: int)
    ensures r >= a && r >= b && (r == a || r == b)
  {
    if a >= b then a else b
  }
}
