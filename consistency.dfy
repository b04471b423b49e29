/** A transparent stand-in for the primitives, which hides nothing but has
    the shape of the real ones: "RSA" writes the message's length and the
    message into a zero-filled block one modulus long, and "AES-CBC" adds
    PKCS #7 padding and strips it again. It shows that `Correct`, the one
    assumption the end-to-end results rest on, can be met. */
module Consistency {
  import opened Bytes
  import opened Results
  import opened WebCrypto

  function Zeros(n: nat): (r: Bytes)
    ensures |r| == n
  {
    seq(n, i => 0)
  }

  /** PKCS #7 padding: between 1 and 16 copies of its own length. */
  function Pkcs7Pad(m: Bytes): (r: Bytes)
    ensures |r| == PaddedLength(|m|)
  {
    var n := AesBlockSize - |m| % AesBlockSize;
    m + seq(n, i => n as byte)
  }

  function Pkcs7Unpad(c: Bytes): Option<Bytes>
  {
    if |c| == 0 || |c| % AesBlockSize != 0 then None
    else if 1 <= c[|c| - 1] as int <= AesBlockSize then Some(c[..|c| - c[|c| - 1] as int])
    else None
  }

  lemma Pkcs7RoundTrip(m: Bytes)
    ensures Pkcs7Unpad(Pkcs7Pad(m)) == Some(m)
  {
    var n := AesBlockSize - |m| % AesBlockSize;
    var c := Pkcs7Pad(m);
    assert c[|c| - 1] as int == n;
    assert c[..|c| - n] == m;
  }

  /** Moduli up to 2048 bits, so that a message length fits in one byte. */
  function TransparentRsaGenerate(bits: nat, e: Bytes, seed: Bytes): Option<(Bytes, Bytes)>
  {
    if bits <= 2048 then Some((Zeros(ModulusBytes(bits)), Zeros(ModulusBytes(bits)))) else None
  }

  /** Ignores the OAEP seed. */
  function TransparentRsaEncrypt(h: Hash, pub: Bytes, m: Bytes, oaepSeed: Bytes): Option<Bytes>
  {
    if |m| < 256 && |m| < |pub| then Some([|m| as byte] + m + Zeros(|pub| - 1 - |m|)) else None
  }

  function TransparentRsaDecrypt(h: Hash, priv: Bytes, c: Bytes): Option<Bytes>
  {
    if |c| >= 1 && 1 + c[0] as int <= |c| then Some(c[1..1 + c[0] as int]) else None
  }

  function TransparentAesEncrypt(key: Bytes, iv: Bytes, m: Bytes): Bytes
  {
    Pkcs7Pad(m)
  }

  function TransparentAesDecrypt(key: Bytes, iv: Bytes, c: Bytes): Option<Bytes>
  {
    Pkcs7Unpad(c)
  }

  const Transparent: Provider := Provider(
    TransparentRsaGenerate, TransparentRsaEncrypt, TransparentRsaDecrypt,
    TransparentAesEncrypt, TransparentAesDecrypt)

  lemma TransparentRsaOaepCorrect()
    ensures RsaOaepCorrect(Transparent)
  {
    var p := Transparent;
    forall bits, e, seed, h, m, oaepSeed
      {:trigger p.rsaEncrypt(h, p.rsaGenerate(bits, e, seed).value.0, m, oaepSeed)}
      | p.rsaGenerate(bits, e, seed).Some? && |m| <= OaepMaxMessage(bits, h)
      ensures var (pub, priv) := p.rsaGenerate(bits, e, seed).value;
              && p.rsaEncrypt(h, pub, m, oaepSeed).Some?
              && |p.rsaEncrypt(h, pub, m, oaepSeed).value| == ModulusBytes(bits)
              && p.rsaDecrypt(h, priv, p.rsaEncrypt(h, pub, m, oaepSeed).value) == Some(m)
    {
      var pub := Zeros(ModulusBytes(bits));
      assert p.rsaGenerate(bits, e, seed).value == (pub, pub);
      assert |pub| <= 256;
      var c := [|m| as byte] + m + Zeros(|pub| - 1 - |m|);
      assert p.rsaEncrypt(h, pub, m, oaepSeed) == Some(c);
      assert c[1..1 + |m|] == m;
    }
  }

  lemma TransparentAesCbcCorrect()
    ensures AesCbcCorrect(Transparent)
  {
    forall key, iv, m
      ensures TransparentAesDecrypt(key, iv, TransparentAesEncrypt(key, iv, m)) == Some(m)
    {
      Pkcs7RoundTrip(m);
    }
  }

  /** The assumption the end-to-end results rest on is consistent. */
  lemma TransparentIsCorrect()
    ensures Correct(Transparent)
  {
    TransparentRsaOaepCorrect();
    TransparentAesCbcCorrect();
  }
}
