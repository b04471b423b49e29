/** The two pipelines of the page: `encrypt` (session-key generation,
    payload encryption, key export, RSA-OAEP encryption of the key,
    packaging) and `decrypt` (RSA-OAEP decryption of the key, import, AES-CBC
    decryption), with the algorithm parameters both sides share, and the
    page's single key pair. Each promise chain becomes a straight-line
    sequence of steps in which a rejected step ends the chain. */
module Pipeline {
  import opened Bytes
  import opened Results
  import opened WebCrypto
  import opened Envelope

  /** `{name: "AES-CBC", length: 128}` (session key generation and import). */
  const SessionKeyBits: nat := 128
  /** `{name: "RSA-OAEP", modulusLength: 2048, publicExponent: 65537, hash: "SHA-256"}`. */
  const RsaModulusBits: nat := 2048
  /** 65537 as a big-endian byte string. */
  const RsaPublicExponent: Bytes := [1, 0, 1]
  const RsaHash: Hash := Sha256
  /** `["encrypt", "decrypt"]`, asked for every key the page creates. */
  const KeyUsages: set<Usage> := {ForEncrypt, ForDecrypt}

  /** The stages of the encryption chain, in the order they run. */
  datatype EncryptStep = GenerateSessionKey | EncryptPlaintext | ExportSessionKey | EncryptSessionKey | PackageResults

  const EncryptSteps: seq<EncryptStep> :=
    [GenerateSessionKey, EncryptPlaintext, ExportSessionKey, EncryptSessionKey, PackageResults]

  /** The stages of the decryption chain, in the order they run. */
  datatype DecryptStep = DecryptKey | ImportSessionKey | DecryptCiphertext

  const DecryptSteps: seq<DecryptStep> := [DecryptKey, ImportSessionKey, DecryptCiphertext]

  /** What `encrypt(plaintext, publicKey)` resolves to, as a function.
      `keyRandom` is the session key the platform draws, `ivRandom` the
      IV `getRandomValues` fills, `oaepRandom` the seed RSA-OAEP encryption
      of the session key draws. */
  function Seal(p: Provider, plaintext: Bytes, publicKey: CryptoKey, keyRandom: Bytes, ivRandom: Bytes, oaepRandom: Bytes)
    : Result<Bytes>
    requires |keyRandom| == SessionKeyBits / 8
  {
    match GenerateAesCbcKey(SessionKeyBits, true, KeyUsages, keyRandom)
    case Err(e) => Err(e)
    case Ok(sessionKey) =>
      match EncryptData(p, AesCbcParams(ivRandom), sessionKey, plaintext, [])
      case Err(e) => Err(e)
      case Ok(ciphertext) =>
        match ExportRaw(sessionKey)
        case Err(e) => Err(e)
        case Ok(exportedKey) =>
          match EncryptData(p, RsaOaepParams, publicKey, exportedKey, oaepRandom)
          case Err(e) => Err(e)
          case Ok(encryptedKey) => Ok(Package(encryptedKey, ivRandom, ciphertext))
  }

  /** The stages of `encrypt` that ran: each stage runs exactly when every
      stage before it succeeded, so the trace ends at the stage that failed. */
  predicate EncryptTrace(p: Provider, plaintext: Bytes, publicKey: CryptoKey, keyRandom: Bytes, ivRandom: Bytes,
                         oaepRandom: Bytes, steps: seq<EncryptStep>)
    requires |keyRandom| == SessionKeyBits / 8
  {
    match GenerateAesCbcKey(SessionKeyBits, true, KeyUsages, keyRandom)
    case Err(_) => steps == [GenerateSessionKey]
    case Ok(sessionKey) =>
      if EncryptData(p, AesCbcParams(ivRandom), sessionKey, plaintext, []).Err? then steps == [GenerateSessionKey, EncryptPlaintext]
      else match ExportRaw(sessionKey)
        case Err(_) => steps == [GenerateSessionKey, EncryptPlaintext, ExportSessionKey]
        case Ok(exportedKey) =>
          if EncryptData(p, RsaOaepParams, publicKey, exportedKey, oaepRandom).Err? then steps == [GenerateSessionKey, EncryptPlaintext, ExportSessionKey, EncryptSessionKey]
          else steps == EncryptSteps
  }

  /** The stages of `decrypt` that ran, in the same sense. */
  predicate DecryptTrace(p: Provider, encryptedSessionKey: Bytes, privateKey: CryptoKey, steps: seq<DecryptStep>)
  {
    match DecryptData(p, RsaOaepParams, privateKey, encryptedSessionKey)
    case Err(_) => steps == [DecryptKey]
    case Ok(keyBytes) =>
      if ImportRawAesCbc(keyBytes, true, KeyUsages).Err? then steps == [DecryptKey, ImportSessionKey]
      else steps == DecryptSteps
  }

  /** What `decrypt(ciphertext, iv, encryptedSessionKey, privateKey)`
      resolves to, as a function. */
  function Unseal(p: Provider, ciphertext: Bytes, iv: Bytes, encryptedSessionKey: Bytes, privateKey: CryptoKey)
    : Result<Bytes>
  {
    var keyBytes :- DecryptData(p, RsaOaepParams, privateKey, encryptedSessionKey);
    var sessionKey :- ImportRawAesCbc(keyBytes, true, KeyUsages);
    DecryptData(p, AesCbcParams(iv), sessionKey, ciphertext)
  }

  /** What decrypting a received file yields: parse it, then decrypt the pieces. */
  function Open(p: Provider, data: Bytes, privateKey: CryptoKey): Result<Bytes>
  {
    var pieces :- Parse(data);
    Unseal(p, pieces.ciphertext, pieces.iv, pieces.encryptedKey, privateKey)
  }

  /** `encrypt`: the chain of lines 107-116, with `sessionKey` and
      `encryptedFile` the values saved between its stages. `steps` lists the
      stages that ran. */
  method Encrypt(p: Provider, plaintext: Bytes, publicKey: CryptoKey, keyRandom: Bytes, ivRandom: Bytes,
                 oaepRandom: Bytes)
    returns (blob: Result<Bytes>, steps: seq<EncryptStep>)
    requires |keyRandom| == SessionKeyBits / 8 && |ivRandom| == IvLength
    ensures blob == Seal(p, plaintext, publicKey, keyRandom, ivRandom, oaepRandom)
    ensures EncryptTrace(p, plaintext, publicKey, keyRandom, ivRandom, oaepRandom, steps)
    ensures 0 < |steps| && steps <= EncryptSteps
    ensures blob.Ok? <==> steps == EncryptSteps
  {
    var sessionKey: CryptoKey;
    var encryptedFile: (Bytes, Bytes);

    steps := [GenerateSessionKey];
    var generated := GenerateAesCbcKey(SessionKeyBits, true, KeyUsages, keyRandom);
    match generated {
      case Err(e) => return Err(e), steps;
      case Ok(key) => sessionKey := key;
    }

    steps := steps + [EncryptPlaintext];
    var iv := ivRandom;
    var encrypted := EncryptData(p, AesCbcParams(iv), sessionKey, plaintext, []);
    match encrypted {
      case Err(e) => return Err(e), steps;
      case Ok(ciphertext) => encryptedFile := (iv, ciphertext);
    }

    steps := steps + [ExportSessionKey];
    var exported := ExportRaw(sessionKey);
    var exportedKey: Bytes;
    match exported {
      case Err(e) => return Err(e), steps;
      case Ok(k) => exportedKey := k;
    }

    steps := steps + [EncryptSessionKey];
    var encryptedKey := EncryptData(p, RsaOaepParams, publicKey, exportedKey, oaepRandom);
    match encryptedKey {
      case Err(e) => return Err(e), steps;
      case Ok(k) =>
        steps := steps + [PackageResults];
        blob := Ok(Package(k, encryptedFile.0, encryptedFile.1));
    }
  }

  /** `decrypt`: the chain of lines 226-228. `steps` lists the stages that ran. */
  method Decrypt(p: Provider, ciphertext: Bytes, iv: Bytes, encryptedSessionKey: Bytes, privateKey: CryptoKey)
    returns (plaintext: Result<Bytes>, steps: seq<DecryptStep>)
    ensures plaintext == Unseal(p, ciphertext, iv, encryptedSessionKey, privateKey)
    ensures DecryptTrace(p, encryptedSessionKey, privateKey, steps)
    ensures 0 < |steps| && steps <= DecryptSteps
    ensures plaintext.Ok? ==> steps == DecryptSteps
  {
    steps := [DecryptKey];
    var keyBytes := DecryptData(p, RsaOaepParams, privateKey, encryptedSessionKey);
    if keyBytes.Err? {
      return Err(keyBytes.error), steps;
    }

    steps := steps + [ImportSessionKey];
    var sessionKey := ImportRawAesCbc(keyBytes.value, true, KeyUsages);
    if sessionKey.Err? {
      return Err(sessionKey.error), steps;
    }

    steps := steps + [DecryptCiphertext];
    plaintext := DecryptData(p, AesCbcParams(iv), sessionKey.value, ciphertext);
  }

  /** Whenever encryption succeeds, the envelope holds the RSA-OAEP
      encryption of exactly the session key that encrypted the payload, and
      the very IV that was used for it; and with the page's fixed
      parameters the only stage that can fail is the RSA encryption. */
  lemma SealComposition(p: Provider, plaintext: Bytes, publicKey: CryptoKey, keyRandom: Bytes, ivRandom: Bytes,
                        oaepRandom: Bytes)
    requires |keyRandom| == SessionKeyBits / 8 && |ivRandom| == IvLength
    ensures var r := Seal(p, plaintext, publicKey, keyRandom, ivRandom, oaepRandom);
            var encryptedKey := EncryptData(p, RsaOaepParams, publicKey, keyRandom, oaepRandom);
            && (r.Ok? <==> encryptedKey.Ok?)
            && (r.Ok? ==> r.value == Package(encryptedKey.value, ivRandom, p.aesEncrypt(keyRandom, ivRandom, plaintext)))
  {
    var sessionKey := CryptoKey(Secret, AesCbcKey(SessionKeyBits), true, KeyUsages, keyRandom);
    assert GenerateAesCbcKey(SessionKeyBits, true, KeyUsages, keyRandom) == Ok(sessionKey);
    assert EncryptData(p, AesCbcParams(ivRandom), sessionKey, plaintext, []) == Ok(p.aesEncrypt(keyRandom, ivRandom, plaintext));
    assert ExportRaw(sessionKey) == Ok(keyRandom);
  }

  /** The key pair the page generates at start-up from `seed`. */
  function PageKeyPair(p: Provider, seed: Bytes): Result<CryptoKeyPair>
  {
    GenerateRsaOaepKeyPair(p, RsaModulusBits, RsaPublicExponent, RsaHash, true, KeyUsages, seed)
  }

  /** With correct primitives and a key pair of the page's parameters,
      encryption always succeeds; the length field holds 256, the length of a
      2048-bit RSA-OAEP ciphertext, stored as the bytes 0x00 0x01; and the
      envelope is 2 + 256 + 16 bytes plus the padded payload. */
  lemma SealSucceeds(p: Provider, seed: Bytes, plaintext: Bytes, keyRandom: Bytes, ivRandom: Bytes, oaepRandom: Bytes)
    requires Correct(p) && PageKeyPair(p, seed).Ok?
    requires |keyRandom| == SessionKeyBits / 8 && |ivRandom| == IvLength
    ensures var r := Seal(p, plaintext, PageKeyPair(p, seed).value.publicKey, keyRandom, ivRandom, oaepRandom);
            && r.Ok?
            && r.value[..2] == [0, 1]
            && LengthField(r.value) == 256
            && |r.value| == 2 + 256 + IvLength + PaddedLength(|plaintext|)
  {
    var publicKey := PageKeyPair(p, seed).value.publicKey;
    var pair := p.rsaGenerate(RsaModulusBits, RsaPublicExponent, seed).value;
    assert publicKey.material == pair.0;
    assert |keyRandom| <= OaepMaxMessage(RsaModulusBits, RsaHash);
    var c := p.rsaEncrypt(RsaHash, pair.0, keyRandom, oaepRandom);
    assert c.Some? && |c.value| == 256;
    assert EncryptData(p, RsaOaepParams, publicKey, keyRandom, oaepRandom) == Ok(c.value);
    SealComposition(p, plaintext, publicKey, keyRandom, ivRandom, oaepRandom);
    var r := Seal(p, plaintext, publicKey, keyRandom, ivRandom, oaepRandom);
    assert |p.aesEncrypt(keyRandom, ivRandom, plaintext)| == PaddedLength(|plaintext|);
    assert LengthField(r.value) == 256;
    Uint16BytesRoundTrip(r.value[0], r.value[1]);
  }

  /** End to end: with correct primitives, decrypting what encryption
      produced under the page's key pair gives back the plaintext. */
  lemma OpenSeal(p: Provider, seed: Bytes, plaintext: Bytes, keyRandom: Bytes, ivRandom: Bytes, oaepRandom: Bytes)
    requires Correct(p) && PageKeyPair(p, seed).Ok?
    requires |keyRandom| == SessionKeyBits / 8 && |ivRandom| == IvLength
    ensures var kp := PageKeyPair(p, seed).value;
            var r := Seal(p, plaintext, kp.publicKey, keyRandom, ivRandom, oaepRandom);
            r.Ok? && Open(p, r.value, kp.privateKey) == Ok(plaintext)
  {
    var kp := PageKeyPair(p, seed).value;
    var pair := p.rsaGenerate(RsaModulusBits, RsaPublicExponent, seed).value;
    SealSucceeds(p, seed, plaintext, keyRandom, ivRandom, oaepRandom);
    SealComposition(p, plaintext, kp.publicKey, keyRandom, ivRandom, oaepRandom);
    var encryptedKey := p.rsaEncrypt(RsaHash, pair.0, keyRandom, oaepRandom).value;
    var ciphertext := p.aesEncrypt(keyRandom, ivRandom, plaintext);
    var envelope := Seal(p, plaintext, kp.publicKey, keyRandom, ivRandom, oaepRandom).value;
    assert envelope == Package(encryptedKey, ivRandom, ciphertext);
    ParsePackage(encryptedKey, ivRandom, ciphertext);
    assert Parse(envelope) == Ok(Pieces(|encryptedKey|, encryptedKey, ivRandom, ciphertext));
    assert DecryptData(p, RsaOaepParams, kp.privateKey, encryptedKey) == Ok(keyRandom);
    var sessionKey := CryptoKey(Secret, AesCbcKey(SessionKeyBits), true, KeyUsages, keyRandom);
    assert ImportRawAesCbc(keyRandom, true, KeyUsages) == Ok(sessionKey);
    assert DecryptData(p, AesCbcParams(ivRandom), sessionKey, ciphertext) == Ok(plaintext);
  }

  /** The parser lets an envelope with an empty ciphertext through, but
      decryption still fails at some stage and never yields a plaintext.
      When the session key is recovered and imported, the failure is AES-CBC
      rejecting a ciphertext that is not a positive number of whole blocks. */
  lemma OpenRejectsPartialBlocks(p: Provider, data: Bytes, privateKey: CryptoKey)
    requires Correct(p) && Parse(data).Ok?
    requires var c := Parse(data).value.ciphertext; |c| == 0 || |c| % AesBlockSize != 0
    ensures Open(p, data, privateKey).Err?
    ensures var keyBytes := DecryptData(p, RsaOaepParams, privateKey, Parse(data).value.encryptedKey);
            keyBytes.Ok? && ImportRawAesCbc(keyBytes.value, true, KeyUsages).Ok? ==>
              Open(p, data, privateKey) == Err(OperationError)
  {
    var pieces := Parse(data).value;
    var keyBytes := DecryptData(p, RsaOaepParams, privateKey, pieces.encryptedKey);
    if keyBytes.Ok? {
      var sessionKey := ImportRawAesCbc(keyBytes.value, true, KeyUsages);
      if sessionKey.Ok? {
        assert p.aesDecrypt(sessionKey.value.material, pieces.iv, pieces.ciphertext).None?;
      }
    }
  }

  /** The page: the key pair held in the enclosing scope of all handlers,
      and the two file handlers that use it. `subtle` is the platform's
      `window.crypto.subtle`. */
  class App {
    const subtle: Provider
    var keyPair: Option<CryptoKeyPair>
    /** The randomness the held key pair was generated from. */
    ghost var keySeed: Bytes

    ghost predicate Valid()
      reads this
    {
      keyPair.Some? ==> PageKeyPair(subtle, keySeed) == Ok(keyPair.value)
    }

    /** The page before start-up: no key pair yet. */
    constructor (subtle: Provider)
      ensures this.subtle == subtle && keyPair == None && Valid()
    {
      this.subtle := subtle;
      keyPair := None;
      keySeed := [];
    }

    /** `createAndSaveAKeyPair`: a success replaces the held key pair, a
        failure leaves it as it was. */
    method CreateAndSaveAKeyPair(random: Bytes) returns (r: Result<CryptoKeyPair>)
      requires Valid()
      modifies this
      ensures Valid()
      ensures r == PageKeyPair(subtle, random)
      ensures keyPair == if r.Ok? then Some(r.value) else old(keyPair)
    {
      r := GenerateRsaOaepKeyPair(subtle, RsaModulusBits, RsaPublicExponent, RsaHash, true, KeyUsages, random);
      if r.Ok? {
        keyPair := Some(r.value);
        keySeed := random;
      }
    }

    /** The encrypt button's load handler: encrypt the file to the held
        public key. The buttons are enabled only once a key pair exists. */
    method EncryptTheFile(plaintext: Bytes, keyRandom: Bytes, ivRandom: Bytes, oaepRandom: Bytes)
      returns (blob: Result<Bytes>, steps: seq<EncryptStep>)
      requires keyPair.Some?
      requires |keyRandom| == SessionKeyBits / 8 && |ivRandom| == IvLength
      ensures blob == Seal(subtle, plaintext, keyPair.value.publicKey, keyRandom, ivRandom, oaepRandom)
      ensures EncryptTrace(subtle, plaintext, keyPair.value.publicKey, keyRandom, ivRandom, oaepRandom, steps)
      ensures 0 < |steps| && steps <= EncryptSteps
      ensures blob.Ok? <==> steps == EncryptSteps
    {
      blob, steps := Encrypt(subtle, plaintext, keyPair.value.publicKey, keyRandom, ivRandom, oaepRandom);
    }

    /** The decrypt button's load handler: cut the file into its pieces,
        then decrypt them with the held private key. A file that does not
        parse reaches no cryptographic operation. */
    method DecryptTheFile(data: Bytes) returns (plaintext: Result<Bytes>, steps: seq<DecryptStep>)
      requires keyPair.Some?
      ensures plaintext == Open(subtle, data, keyPair.value.privateKey)
      ensures Parse(data).Err? ==> plaintext == Err(RangeError) && steps == []
      ensures Parse(data).Ok? ==>
                DecryptTrace(subtle, Parse(data).value.encryptedKey, keyPair.value.privateKey, steps)
      ensures Parse(data).Ok? ==> 0 < |steps| && steps <= DecryptSteps
      ensures plaintext.Ok? ==> steps == DecryptSteps
    {
      var pieces := Parse(data);
      if pieces.Err? {
        return Err(pieces.error), [];
      }
      var p := pieces.value;
      plaintext, steps := Decrypt(subtle, p.ciphertext, p.iv, p.encryptedKey, keyPair.value.privateKey);
    }

    /** Encrypting a file and decrypting the result on the same page gives
        the file back, whenever the primitives are correct. */
    method EncryptThenDecrypt(plaintext: Bytes, keyRandom: Bytes, ivRandom: Bytes, oaepRandom: Bytes)
      returns (recovered: Result<Bytes>)
      requires Valid() && keyPair.Some? && Correct(subtle)
      requires |keyRandom| == SessionKeyBits / 8 && |ivRandom| == IvLength
      ensures recovered == Ok(plaintext)
    {
      var blob, encryptSteps := EncryptTheFile(plaintext, keyRandom, ivRandom, oaepRandom);
      OpenSeal(subtle, keySeed, plaintext, keyRandom, ivRandom, oaepRandom);
      var decryptSteps;
      recovered, decryptSteps := DecryptTheFile(blob.value);
    }
  }
}
