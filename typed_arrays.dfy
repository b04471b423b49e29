/** The JavaScript typed arrays the envelope code goes through: a view
    constructor over an existing buffer (which checks that the view fits and
    throws a RangeError otherwise) and the bytes of a one-element Uint16Array. */
module TypedArrays {
  import opened Bytes
  import opened Results

  /** `new Uint8Array(buffer, byteOffset, length)`; with `length` omitted the
      view runs to the end of the buffer. A view never copies or changes the
      buffer: element `i` of the view IS byte `byteOffset + i` of the buffer. */
  function Uint8ArrayView(buffer: Bytes, byteOffset: nat, length: Option<nat>): (r: Result<Bytes>)
    ensures r.Err? ==> r.error == RangeError
    ensures r.Ok? <==> byteOffset + (if length.Some? then length.value else 0) <= |buffer|
    ensures r.Ok? && length.Some? ==> |r.value| == length.value
    ensures r.Ok? && length.None? ==> |r.value| == |buffer| - byteOffset
    ensures r.Ok? ==> forall i {:trigger r.value[i]} :: 0 <= i < |r.value| ==> r.value[i] == buffer[byteOffset + i]
  {
    match length
    case None =>
      if byteOffset > |buffer| then Err(RangeError) else Ok(buffer[byteOffset..])
    case Some(n) =>
      if byteOffset + n > |buffer| then Err(RangeError) else Ok(buffer[byteOffset..byteOffset + n])
  }

  /** `new Uint16Array(buffer, byteOffset, length)`: `length` two-byte
      elements starting at `byteOffset`, which must be even. */
  function Uint16ArrayView(buffer: Bytes, byteOffset: nat, length: nat): (r: Result<seq<nat>>)
    ensures r.Err? ==> r.error == RangeError
    ensures r.Ok? <==> byteOffset % 2 == 0 && byteOffset + 2 * length <= |buffer|
    ensures r.Ok? ==> |r.value| == length
    ensures r.Ok? ==> forall i {:trigger r.value[i]} :: 0 <= i < length ==>
              r.value[i] == Uint16FromBytes(buffer[byteOffset + 2 * i], buffer[byteOffset + 2 * i + 1])
  {
    if byteOffset % 2 != 0 || byteOffset + 2 * length > |buffer| then Err(RangeError)
    else Ok(seq(length, i requires 0 <= i < length =>
                  Uint16FromBytes(buffer[byteOffset + 2 * i], buffer[byteOffset + 2 * i + 1])))
  }

  /** The bytes behind `new Uint16Array([n])`: one element, so two bytes,
      holding `n` reduced modulo 2^16. */
  function Uint16ArrayOf(n: nat): (r: Bytes)
    ensures |r| == 2
    ensures Uint16FromBytes(r[0], r[1]) == ToUint16(n)
  {
    Uint16ToBytes(ToUint16(n))
  }
}
