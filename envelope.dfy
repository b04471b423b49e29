/** The envelope: the binary framing `packageResults` writes and the
    parsing block of `decryptTheFile` reads back.

      offset 0            2 bytes      length of the encrypted session key, mod 2^16, little-endian
      offset 2            keyLength    the RSA-OAEP-encrypted session key
      offset 2+keyLength  16 bytes     the AES-CBC initialization vector
      offset 18+keyLength the rest     the AES-CBC ciphertext
*/
module Envelope {
  import opened Bytes
  import opened Results
  import opened TypedArrays

  const IvLength: nat := 16

  /** The four views the parser cuts out of a received buffer. */
  datatype Pieces = Pieces(keyLength: nat, encryptedKey: Bytes, iv: Bytes, ciphertext: Bytes)

  /** The length field of a buffer of at least two bytes. */
  function LengthField(data: Bytes): nat
    requires |data| >= 2
  {
    Uint16FromBytes(data[0], data[1])
  }

  /** `packageResults`: the length field, then the encrypted key, the IV and
      the ciphertext, each exactly as given. */
  function Package(encryptedKey: Bytes, iv: Bytes, ciphertext: Bytes): (blob: Bytes)
    ensures |blob| == 2 + |encryptedKey| + |iv| + |ciphertext|
    ensures LengthField(blob) == ToUint16(|encryptedKey|)
    ensures blob[2..2 + |encryptedKey|] == encryptedKey
    ensures blob[2 + |encryptedKey|..2 + |encryptedKey| + |iv|] == iv
    ensures blob[2 + |encryptedKey| + |iv|..] == ciphertext
  {
    var length := Uint16ArrayOf(|encryptedKey|);
    var blob := length + encryptedKey + iv + ciphertext;
    assert blob[..2] == length;
    assert blob[2..2 + |encryptedKey|] == encryptedKey;
    assert blob[2 + |encryptedKey|..2 + |encryptedKey| + |iv|] == iv;
    blob
  }

  /** The parsing block of `decryptTheFile`'s load handler. The length
      field is read through a two-element Uint16Array, so the buffer must
      hold four bytes even though only the first element is used; the
      encrypted key and the IV must fit in what follows; the ciphertext is
      whatever remains, possibly nothing. Any view that does not fit throws
      a RangeError. */
  function Parse(data: Bytes): (r: Result<Pieces>)
    ensures r.Err? ==> r.error == RangeError
    ensures r.Ok? <==> |data| >= 4 && 2 + LengthField(data) + IvLength <= |data|
    ensures r.Ok? ==>
      var n := LengthField(data);
      && r.value.keyLength == n
      && r.value.encryptedKey == data[2..2 + n]
      && r.value.iv == data[2 + n..2 + n + IvLength]
      && r.value.ciphertext == data[2 + n + IvLength..]
  {
    var lengthView :- Uint16ArrayView(data, 0, 2);
    var keyLength := lengthView[0];
    var encryptedKey :- Uint8ArrayView(data, 2, Some(keyLength));
    var iv :- Uint8ArrayView(data, 2 + keyLength, Some(IvLength));
    match Uint8ArrayView(data, 2 + keyLength + IvLength, None)
    case Err(e) => Err(e)
    case Ok(ciphertext) => Ok(Pieces(keyLength, encryptedKey, iv, ciphertext))
  }

  /** Parsing a package gives back the key, IV and ciphertext it was made
      of exactly when the key's length fits in the 16-bit length field. */
  lemma ParsePackage(encryptedKey: Bytes, iv: Bytes, ciphertext: Bytes)
    requires |iv| == IvLength
    ensures Parse(Package(encryptedKey, iv, ciphertext)) == Ok(Pieces(|encryptedKey|, encryptedKey, iv, ciphertext))
            <==> |encryptedKey| < Two16
  {
    var blob := Package(encryptedKey, iv, ciphertext);
    var n := |encryptedKey|;
    if n < Two16 {
      assert LengthField(blob) == n;
      assert blob[2 + n..2 + n + IvLength] == iv;
      assert blob[2 + n + IvLength..] == ciphertext;
    } else {
      assert LengthField(blob) != n;
    }
  }

  /** A key of 2^16 bytes or more still yields a buffer that parses, but
      the parser then reads the wrong key length: the length modulo 2^16. */
  lemma ParsePackageWraps(encryptedKey: Bytes, iv: Bytes, ciphertext: Bytes)
    requires |iv| == IvLength && |encryptedKey| >= Two16
    ensures Parse(Package(encryptedKey, iv, ciphertext)).Ok?
    ensures Parse(Package(encryptedKey, iv, ciphertext)).value.keyLength == |encryptedKey| % Two16
    ensures Parse(Package(encryptedKey, iv, ciphertext)).value.encryptedKey != encryptedKey
  {
    var blob := Package(encryptedKey, iv, ciphertext);
    assert LengthField(blob) == |encryptedKey| % Two16 < |encryptedKey|;
  }

  /** Every buffer the parser accepts is the package of the pieces it cut
      out of it: parsing loses nothing and reorders nothing. */
  lemma PackageParse(data: Bytes)
    requires Parse(data).Ok?
    ensures var p := Parse(data).value;
            Package(p.encryptedKey, p.iv, p.ciphertext) == data
  {
    var p := Parse(data).value;
    var n := LengthField(data);
    var blob := Package(p.encryptedKey, p.iv, p.ciphertext);
    assert |blob| == |data|;
    Uint16BytesRoundTrip(data[0], data[1]);
    assert blob[..2] == data[..2] by {
      assert ToUint16(n) == n;
      assert Uint16FromBytes(blob[0], blob[1]) == n;
      Uint16BytesRoundTrip(blob[0], blob[1]);
    }
    assert blob == blob[..2] + blob[2..2 + n] + blob[2 + n..2 + n + IvLength] + blob[2 + n + IvLength..];
    assert data == data[..2] + data[2..2 + n] + data[2 + n..2 + n + IvLength] + data[2 + n + IvLength..];
  }

  /** The parser rejects every buffer shorter than the smallest envelope:
      two length bytes, an empty key and an IV. */
  lemma ParseRejectsShort(data: Bytes)
    requires |data| < 2 + IvLength
    ensures Parse(data) == Err(RangeError)
  {
  }

  /** The parser itself accepts an envelope with an empty ciphertext:
      an 18-byte buffer whose length field is 0. */
  lemma ParseAcceptsEmptyCiphertext(data: Bytes)
    requires |data| == 2 + IvLength && LengthField(data) == 0
    ensures Parse(data) == Ok(Pieces(0, [], data[2..], []))
  {
    var pieces := Parse(data).value;
    assert pieces.encryptedKey == data[2..2] == [];
    assert pieces.iv == data[2..2 + IvLength] == data[2..];
    assert pieces.ciphertext == data[2 + IvLength..] == [];
    assert pieces == Pieces(0, [], data[2..], []);
  }
}
