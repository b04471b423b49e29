/** The part of the Web Cryptography API the code calls: key generation,
    raw export and import of secret keys, and encrypt/decrypt with RSA-OAEP
    and AES-CBC. The argument checks the API performs before it reaches the
    cipher (algorithm, usage and key type of the key; IV length; key-data
    length) are modelled exactly. The ciphers themselves are a `Provider` of
    function values that the model knows nothing about except what
    `Correct` states of them. */
module WebCrypto {
  import opened Bytes
  import opened Results

  const AesBlockSize: nat := 16

  datatype Hash = Sha1 | Sha256 | Sha384 | Sha512

  /** Output length of the hash in bytes. */
  function HashLength(h: Hash): nat
  {
    match h
    case Sha1 => 20
    case Sha256 => 32
    case Sha384 => 48
    case Sha512 => 64
  }

  /** The `algorithm` of a CryptoKey. */
  datatype KeyAlgorithm =
    | AesCbcKey(length: nat)
    | RsaOaepKey(modulusLength: nat, publicExponent: Bytes, hash: Hash)

  datatype Usage = ForEncrypt | ForDecrypt

  datatype KeyType = Secret | Public | Private

  /** A CryptoKey: its public attributes and the key material inside it. */
  datatype CryptoKey = CryptoKey(
    kind: KeyType, algorithm: KeyAlgorithm, extractable: bool, usages: set<Usage>, material: Bytes)

  datatype CryptoKeyPair = CryptoKeyPair(publicKey: CryptoKey, privateKey: CryptoKey)

  /** The algorithm argument of `encrypt` and `decrypt`. */
  datatype CipherParams = AesCbcParams(iv: Bytes) | RsaOaepParams

  /** The cryptographic primitives behind the API, working on key material.
      RSA key generation takes the modulus length, the public exponent and
      the randomness it draws, and yields public and private key material.
      RSA-OAEP encryption is randomised: besides the hash, the public key
      material and the message it takes the seed it draws (section 7.1.1 of
      RFC 8017), so the same message need not give the same ciphertext.
      A `None` is a failure of the primitive. */
  datatype Provider = Provider(
    rsaGenerate: (nat, Bytes, Bytes) -> Option<(Bytes, Bytes)>,
    rsaEncrypt: (Hash, Bytes, Bytes, Bytes) -> Option<Bytes>,
    rsaDecrypt: (Hash, Bytes, Bytes) -> Option<Bytes>,
    aesEncrypt: (Bytes, Bytes, Bytes) -> Bytes,
    aesDecrypt: (Bytes, Bytes, Bytes) -> Option<Bytes>)

  /** Byte length of an RSA modulus of `bits` bits, which is also the byte
      length of every RSA ciphertext under it. */
  function ModulusBytes(bits: nat): nat
  {
    (bits + 7) / 8
  }

  /** The longest message RSAES-OAEP can encrypt in one call (section 7.1.1
      of RFC 8017): the modulus length less twice the hash length less two. */
  function OaepMaxMessage(bits: nat, h: Hash): int
  {
    ModulusBytes(bits) - 2 * HashLength(h) - 2
  }

  /** AES-CBC with PKCS #7 padding always adds between 1 and 16 bytes, up to
      the next whole block. */
  function PaddedLength(n: nat): nat
  {
    (n / AesBlockSize + 1) * AesBlockSize
  }

  predicate ValidAesKeyBits(bits: nat)
  {
    bits == 128 || bits == 192 || bits == 256
  }

  /** What the model assumes of the primitives: all three parts below. */
  ghost predicate Correct(p: Provider)
  {
    RsaOaepCorrect(p) && AesCbcCorrect(p) && AesCbcRejectsPartialBlocks(p)
  }

  /** RSA-OAEP decryption with the private key of a generated pair inverts
      encryption with its public key, for every message within the OAEP
      bound and whatever seed the encryption drew, and the ciphertext is one
      modulus long. */
  ghost predicate RsaOaepCorrect(p: Provider)
  {
    forall bits, e, seed, h, m, oaepSeed
      {:trigger p.rsaEncrypt(h, p.rsaGenerate(bits, e, seed).value.0, m, oaepSeed)} ::
      p.rsaGenerate(bits, e, seed).Some? && |m| <= OaepMaxMessage(bits, h) ==>
        var (pub, priv) := p.rsaGenerate(bits, e, seed).value;
        && p.rsaEncrypt(h, pub, m, oaepSeed).Some?
        && |p.rsaEncrypt(h, pub, m, oaepSeed).value| == ModulusBytes(bits)
        && p.rsaDecrypt(h, priv, p.rsaEncrypt(h, pub, m, oaepSeed).value) == Some(m)
  }

  /** AES-CBC decryption with the same key and IV inverts encryption, and
      the ciphertext is the padded length of the plaintext. */
  ghost predicate AesCbcCorrect(p: Provider)
  {
    forall key, iv, m {:trigger p.aesEncrypt(key, iv, m)} ::
      ValidAesKeyBits(8 * |key|) && |iv| == AesBlockSize ==>
        && |p.aesEncrypt(key, iv, m)| == PaddedLength(|m|)
        && p.aesDecrypt(key, iv, p.aesEncrypt(key, iv, m)) == Some(m)
  }

  /** AES-CBC decryption rejects a ciphertext that is not a positive number
      of whole blocks. */
  ghost predicate AesCbcRejectsPartialBlocks(p: Provider)
  {
    forall key, iv, c {:trigger p.aesDecrypt(key, iv, c)} ::
      |c| == 0 || |c| % AesBlockSize != 0 ==> p.aesDecrypt(key, iv, c).None?
  }

  /** `generateKey({name: "AES-CBC", length}, extractable, usages)`;
      `random` is the key material the platform's generator draws. */
  function GenerateAesCbcKey(length: nat, extractable: bool, usages: set<Usage>, random: Bytes)
    : (r: Result<CryptoKey>)
    requires |random| == length / 8
    ensures r.Ok? <==> ValidAesKeyBits(length) && usages != {}
    ensures !ValidAesKeyBits(length) ==> r == Err(OperationError)
    ensures r.Ok? ==> r.value == CryptoKey(Secret, AesCbcKey(length), extractable, usages, random)
  {
    if !ValidAesKeyBits(length) then Err(OperationError)
    else if usages == {} then Err(SyntaxError)
    else Ok(CryptoKey(Secret, AesCbcKey(length), extractable, usages, random))
  }

  /** `generateKey({name: "RSA-OAEP", modulusLength, publicExponent, hash},
      extractable, usages)`. The public key always is extractable and keeps
      only the encrypt usage; the private key keeps only decrypt. */
  function GenerateRsaOaepKeyPair(
    p: Provider, modulusLength: nat, publicExponent: Bytes, hash: Hash,
    extractable: bool, usages: set<Usage>, random: Bytes): (r: Result<CryptoKeyPair>)
    ensures r.Ok? <==> p.rsaGenerate(modulusLength, publicExponent, random).Some? && ForDecrypt in usages
    ensures r.Ok? ==>
      var alg := RsaOaepKey(modulusLength, publicExponent, hash);
      && r.value.publicKey == CryptoKey(Public, alg, true, usages * {ForEncrypt},
                                        p.rsaGenerate(modulusLength, publicExponent, random).value.0)
      && r.value.privateKey == CryptoKey(Private, alg, extractable, usages * {ForDecrypt},
                                         p.rsaGenerate(modulusLength, publicExponent, random).value.1)
  {
    match p.rsaGenerate(modulusLength, publicExponent, random)
    case None => Err(OperationError)
    case Some((pub, priv)) =>
      var alg := RsaOaepKey(modulusLength, publicExponent, hash);
      if ForDecrypt !in usages then Err(SyntaxError)
      else Ok(CryptoKeyPair(CryptoKey(Public, alg, true, usages * {ForEncrypt}, pub),
                            CryptoKey(Private, alg, extractable, usages * {ForDecrypt}, priv)))
  }

  /** `exportKey("raw", key)`: the key material of an extractable secret
      key; RSA keys have no raw format. */
  function ExportRaw(key: CryptoKey): (r: Result<Bytes>)
    ensures r.Ok? <==> key.extractable && key.kind == Secret
    ensures !key.extractable ==> r == Err(InvalidAccessError)
    ensures r.Ok? ==> r.value == key.material
  {
    if !key.extractable then Err(InvalidAccessError)
    else if key.kind != Secret then Err(NotSupportedError)
    else Ok(key.material)
  }

  /** `importKey("raw", keyData, {name: "AES-CBC", ...}, extractable, usages)`.
      The key's length comes from the data, which must be 128, 192 or 256
      bits long; any length given in the algorithm argument is not used. */
  function ImportRawAesCbc(keyData: Bytes, extractable: bool, usages: set<Usage>): (r: Result<CryptoKey>)
    ensures r.Ok? <==> ValidAesKeyBits(8 * |keyData|) && usages != {}
    ensures !ValidAesKeyBits(8 * |keyData|) ==> r == Err(DataError)
    ensures r.Ok? ==> r.value.kind == Secret && r.value.material == keyData
  {
    if !ValidAesKeyBits(8 * |keyData|) then Err(DataError)
    else if usages == {} then Err(SyntaxError)
    else Ok(CryptoKey(Secret, AesCbcKey(8 * |keyData|), extractable, usages, keyData))
  }

  /** Raw import inverts raw export for every AES-CBC key the API can hold:
      the imported key equals the exported one, attributes included. */
  lemma ImportExportRaw(key: CryptoKey)
    requires key.kind == Secret && key.extractable && key.usages != {}
    requires key.algorithm == AesCbcKey(8 * |key.material|) && ValidAesKeyBits(8 * |key.material|)
    ensures ExportRaw(key).Ok?
    ensures ImportRawAesCbc(ExportRaw(key).value, key.extractable, key.usages) == Ok(key)
  {
  }

  /** The checks `encrypt` and `decrypt` make before running the cipher:
      the key's algorithm is the one asked for, and it carries the usage. */
  predicate KeyFits(params: CipherParams, key: CryptoKey, usage: Usage)
  {
    && (params.AesCbcParams? <==> key.algorithm.AesCbcKey?)
    && usage in key.usages
  }

  /** `encrypt(params, key, data)`. `random` is the seed the platform draws
      for RSA-OAEP; AES-CBC takes its IV from `params` and draws nothing. */
  function EncryptData(p: Provider, params: CipherParams, key: CryptoKey, data: Bytes, random: Bytes)
    : (r: Result<Bytes>)
    ensures !KeyFits(params, key, ForEncrypt) ==> r == Err(InvalidAccessError)
    ensures params.AesCbcParams? ==>
      (r.Ok? <==> KeyFits(params, key, ForEncrypt) && |params.iv| == AesBlockSize)
    ensures params.AesCbcParams? && r.Ok? ==> r.value == p.aesEncrypt(key.material, params.iv, data)
    ensures params.RsaOaepParams? ==>
      (r.Ok? <==> KeyFits(params, key, ForEncrypt) && key.kind == Public
                  && p.rsaEncrypt(key.algorithm.hash, key.material, data, random).Some?)
    ensures params.RsaOaepParams? && r.Ok? ==>
      Some(r.value) == p.rsaEncrypt(key.algorithm.hash, key.material, data, random)
  {
    if !KeyFits(params, key, ForEncrypt) then Err(InvalidAccessError)
    else match params
      case AesCbcParams(iv) =>
        if |iv| != AesBlockSize then Err(OperationError)
        else Ok(p.aesEncrypt(key.material, iv, data))
      case RsaOaepParams =>
        if key.kind != Public then Err(InvalidAccessError)
        else match p.rsaEncrypt(key.algorithm.hash, key.material, data, random)
          case None => Err(OperationError)
          case Some(c) => Ok(c)
  }

  /** `decrypt(params, key, data)`. */
  function DecryptData(p: Provider, params: CipherParams, key: CryptoKey, data: Bytes): (r: Result<Bytes>)
    ensures !KeyFits(params, key, ForDecrypt) ==> r == Err(InvalidAccessError)
    ensures params.AesCbcParams? ==>
      (r.Ok? <==> KeyFits(params, key, ForDecrypt) && |params.iv| == AesBlockSize
                  && p.aesDecrypt(key.material, params.iv, data).Some?)
    ensures params.AesCbcParams? && r.Ok? ==>
      Some(r.value) == p.aesDecrypt(key.material, params.iv, data)
    ensures params.RsaOaepParams? ==>
      (r.Ok? <==> KeyFits(params, key, ForDecrypt) && key.kind == Private
                  && p.rsaDecrypt(key.algorithm.hash, key.material, data).Some?)
    ensures params.RsaOaepParams? && r.Ok? ==>
      Some(r.value) == p.rsaDecrypt(key.algorithm.hash, key.material, data)
  {
    if !KeyFits(params, key, ForDecrypt) then Err(InvalidAccessError)
    else match params
      case AesCbcParams(iv) =>
        if |iv| != AesBlockSize then Err(OperationError)
        else (match p.aesDecrypt(key.material, iv, data)
          case None => Err(OperationError)
          case Some(m) => Ok(m))
      case RsaOaepParams =>
        if key.kind != Private then Err(InvalidAccessError)
        else match p.rsaDecrypt(key.algorithm.hash, key.material, data)
          case None => Err(OperationError)
          case Some(m) => Ok(m)
  }
}
