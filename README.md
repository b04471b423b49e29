# Hybrid-encryption envelope of `pkcrypto.js`, in Dafny

`pkcrypto.js` is a browser page that encrypts a file to an RSA key pair it
creates at start-up. For each file it generates a fresh 128-bit AES-CBC session
key and a fresh 16-byte IV, encrypts the file with them, encrypts the exported
session key with RSA-OAEP (2048-bit modulus, exponent 65537, SHA-256), and
writes one binary envelope:

```
offset 0             2 bytes     length of the encrypted session key (Uint16Array, little-endian)
offset 2             keyLength   RSA-OAEP encryption of the raw session key
offset 2+keyLength   16 bytes    the IV
offset 18+keyLength  the rest    AES-CBC encryption (PKCS #7 padded) of the file
```

Decryption cuts a received buffer into these pieces with typed-array views,
RSA-decrypts the session key with the private key, imports it and AES-decrypts
the ciphertext with the IV from the envelope.

The model:

- `results.dfy` — `Result` and `Option`, and the errors the page can meet
  (the typed-array `RangeError` and the Web Crypto `DOMException` names).
- `bytes.dfy` — bytes, ECMAScript `ToUint16`, little-endian 16-bit values.
- `typed_arrays.dfy` — the `Uint8Array`/`Uint16Array` view constructors
  (they throw `RangeError` when the view does not fit) and the two bytes of
  `new Uint16Array([n])`.
- `web_crypto.dfy` — `CryptoKey`, the Web Crypto calls the page makes
  (`generateKey`, `exportKey("raw")`, `importKey("raw")`, `encrypt`,
  `decrypt`) with the checks they run before the cipher, and a `Provider` of
  uninterpreted cipher functions. `Correct(p)` is the hypothesis about the
  ciphers: RSA-OAEP decryption inverts encryption under a generated pair for
  messages within the OAEP bound; AES-CBC decryption inverts encryption; AES-CBC
  decryption rejects a ciphertext that is not a positive number of blocks.
  Dafny gets no axioms here: the inverse laws are a `requires Correct(p)` on
  the lemmas that need them. `Import(Export(k)) == k` is not assumed. It is
  proved, because raw export and import of a secret key are modelled exactly.
- `envelope.dfy` — `packageResults` (`Package`) and the parsing block of
  `decryptTheFile` (`Parse`). `Package ∘ Parse` is the identity on every
  buffer that parses. `Parse ∘ Package` is the identity only when the IV has
  16 bytes and the encrypted key is shorter than 2^16 bytes: a longer key has
  its length stored modulo 2^16 (`ParsePackageWraps`), and an IV of another
  length moves the boundary between IV and ciphertext, since the parser
  always takes 16 bytes.
- `pipeline.dfy` — the shared parameters; `Seal`/`Unseal`/`Open`, the
  functions that specify the two promise chains; the methods `Encrypt` and
  `Decrypt`, which thread `sessionKey` and `encryptedFile` step by step and
  report the stages that ran; the end-to-end lemma; and the class `App`,
  which holds the page's single `keyPair`.
- `consistency.dfy` — a transparent provider for which `Correct` is proved
  (`Consistency.TransparentIsCorrect`). This shows the hypothesis is
  consistent. It models nothing of the page itself.

Randomness is an input. The session key bytes, the IV, the randomness behind
RSA key generation and the seed RSA-OAEP encryption draws on every call
(section 7.1.1 of RFC 8017) are parameters of the operations that draw them.
The file is bytes in and bytes out: no FileReader, no Blob.

Where the code differs from the behaviour intended for the envelope format,
the model follows the code:

- The parser accepts an envelope whose ciphertext is empty, where such an
  envelope should be rejected as malformed. `OpenRejectsPartialBlocks` shows
  that decrypting it still fails at some stage and never yields a plaintext.
  The stage depends on the envelope: RSA-OAEP decryption or the key import can
  fail first, and when both succeed AES-CBC rejects the ciphertext with
  `OperationError`.
- The encoder does not check that the encrypted key's length fits in 16 bits,
  where an over-long key should be refused.
  `Uint16Array` stores it modulo 2^16 (`ParsePackageWraps`). With the 2048-bit
  key the page uses, the length is always 256 (`SealSucceeds`).
- The length field is read through a two-element `Uint16Array`, so a buffer
  needs 4 bytes before the key and IV views are even tried. The error is
  always a `RangeError`, not a separate "malformed envelope" kind.
- `importKey` takes the AES key length from the key data. The `length: 128`
  passed at pkcrypto.js:245 is not used.

## Model

| member | source | states |
|---|---|---|
| Bytes.ToUint16 | pkcrypto.js:168 | a number stored in a Uint16Array is reduced modulo 2^16: below 2^16 it is kept exactly, and only then |
| Bytes.Uint16ToBytes | pkcrypto.js:168 | a 16-bit value becomes two bytes, and reading them back little-endian gives the value |
| Bytes.Uint16BytesRoundTrip | pkcrypto.js:206 | reading two bytes as a 16-bit value and writing it back gives the same two bytes |
| TypedArrays.Uint8ArrayView | pkcrypto.js:207-209 | a Uint8Array view exists exactly when offset plus length fits in the buffer (to the end when the length is omitted), else RangeError; element i of the view is byte offset+i |
| TypedArrays.Uint16ArrayView | pkcrypto.js:206 | a Uint16Array view of n elements needs an even offset and 2n bytes, else RangeError; element i is the little-endian pair at offset+2i |
| TypedArrays.Uint16ArrayOf | pkcrypto.js:168 | `new Uint16Array([n])` is two bytes holding n modulo 2^16 |
| WebCrypto.GenerateAesCbcKey | pkcrypto.js:107-110 | succeeds exactly for a length of 128, 192 or 256 and a non-empty usage list; the key is a secret AES-CBC key with the attributes asked for and the drawn material |
| WebCrypto.GenerateRsaOaepKeyPair | pkcrypto.js:45-53 | succeeds exactly when the primitive generates a pair and decrypt is a usage; the public key is extractable and keeps only encrypt, the private key keeps only decrypt, both carry the algorithm parameters |
| WebCrypto.ExportRaw | pkcrypto.js:152 | raw export succeeds exactly for an extractable secret key and yields its material; a non-extractable key gives InvalidAccessError |
| WebCrypto.ImportRawAesCbc | pkcrypto.js:242-248 | raw import succeeds exactly for 16, 24 or 32 bytes and a non-empty usage list, else DataError for a bad length; the key is secret and holds the given bytes |
| WebCrypto.ImportExportRaw | pkcrypto.js:239-248 | importing the raw export of an extractable AES-CBC key gives back that same key, attributes included |
| WebCrypto.EncryptData | pkcrypto.js:138 | encrypt fails with InvalidAccessError unless the key's algorithm matches and it has the encrypt usage; AES-CBC needs a 16-byte IV and then yields the cipher's output; RSA-OAEP needs a public key and a message the cipher accepts, and yields the cipher's output for the seed drawn |
| WebCrypto.DecryptData | pkcrypto.js:235 | decrypt fails with InvalidAccessError unless the key's algorithm matches and it has the decrypt usage; AES-CBC needs a 16-byte IV, RSA-OAEP a private key; it succeeds exactly when the cipher does and yields its output |
| Envelope.Package | pkcrypto.js:162-178 | the envelope is 2 + key + IV + ciphertext bytes long; its first two bytes hold the key length modulo 2^16, and the key, IV and ciphertext appear in order, unchanged |
| Envelope.Parse | pkcrypto.js:206-209 | parsing succeeds exactly when the buffer has at least 4 bytes and 2 + keyLength + 16 fit in it, else RangeError; keyLength is bytes 0-1, the key bytes [2, 2+keyLength), the IV the next 16, the ciphertext the rest |
| Envelope.ParsePackage | pkcrypto.js:168-177 | parsing a package with a 16-byte IV returns exactly its key, IV and ciphertext if and only if the key is shorter than 2^16 bytes |
| Envelope.ParsePackageWraps | pkcrypto.js:168 | a key of 2^16 bytes or more still parses, but with key length equal to the real length modulo 2^16, so the key read back differs from the one written |
| Envelope.PackageParse | pkcrypto.js:206-209 | every buffer that parses is the package of its parsed pieces |
| Envelope.ParseRejectsShort | pkcrypto.js:206-208 | a buffer shorter than 18 bytes is rejected with RangeError |
| Envelope.ParseAcceptsEmptyCiphertext | pkcrypto.js:209 | an 18-byte buffer whose length field is 0 parses into an empty key, the 16 bytes after the field as IV, and an empty ciphertext |
| Pipeline.Encrypt | pkcrypto.js:105-178 | the method's result is `Seal` of its inputs, randomness included; the stages that ran are generate key, encrypt plaintext, export key, encrypt key, package, up to and including the first that failed (`EncryptTrace`); it succeeds exactly when all five ran |
| Pipeline.Decrypt | pkcrypto.js:223-259 | the method's result is `Unseal` of its inputs; the stages that ran are decrypt key, import key, decrypt ciphertext, up to and including the first that failed (`DecryptTrace`), and all three ran whenever it succeeds |
| Pipeline.SealComposition | pkcrypto.js:128-177 | encryption succeeds exactly when RSA encryption of the session key does; the envelope then holds the RSA encryption, under the drawn OAEP seed, of the very session key that encrypted the payload, and the very IV used for it |
| Pipeline.SealSucceeds | pkcrypto.js:155-177 | with correct primitives and the page's key pair, encryption succeeds, the length field is 256 (bytes 0x00 0x01) and the envelope is 2 + 256 + 16 bytes plus the padded plaintext |
| Pipeline.OpenSeal | pkcrypto.js:226-258 | with correct primitives, decrypting the envelope encrypted under the page's key pair gives back the plaintext, whatever randomness encryption drew |
| Pipeline.OpenRejectsPartialBlocks | pkcrypto.js:251-258 | with correct primitives, an envelope that parses but whose ciphertext is empty or not whole blocks fails to decrypt; when the session key is decrypted and imported, the failure is AES-CBC's OperationError |
| Pipeline.App.constructor | pkcrypto.js:24 | before start-up no key pair is held |
| Pipeline.App.CreateAndSaveAKeyPair | pkcrypto.js:40-58 | yields the RSA-OAEP key pair of the page's parameters; on success it becomes the held key pair, on failure the held one is unchanged |
| Pipeline.App.EncryptTheFile | pkcrypto.js:76-92 | encrypts the file to the held public key: the result is `Seal` under it, with the same stage guarantees as `Encrypt` |
| Pipeline.App.DecryptTheFile | pkcrypto.js:199-220 | decrypts with the held private key: the result is `Open` of the file; a file that does not parse gives RangeError and no cryptographic stage runs; otherwise the stages run up to the first that failed |
| Pipeline.App.EncryptThenDecrypt | pkcrypto.js:83-84 | with correct primitives, decrypting what the encrypt handler produced on the same page gives the file back |

## Left out

- User-interface wiring: `DOMContentLoaded`, button listeners, `getElementById`,
  `insertAdjacentHTML`, `alert`. This is presentation. That the buttons are
  enabled only after a key pair exists becomes `requires keyPair.Some?` on the
  two handlers.
- `FileReader`, `Blob` and `URL.createObjectURL`. These are browser I/O: the
  handlers take and return bytes.
- The `webkitSubtle` prefix shim and feature detection. These are environment
  plumbing.
- The inside of RSA-OAEP, SHA-256, AES-CBC and the random generator. These are
  foreign calls, modelled as the uninterpreted `Provider` plus the `Correct`
  hypothesis. Random bytes are parameters.
- Promises and asynchrony. Each chain is a sequential pipeline in which a
  rejected stage skips the rest. The `RangeError` of the parsing block is
  thrown synchronously in the load handler, before `decrypt` is called, so the
  `.catch` of pkcrypto.js:218 never sees it; `App.DecryptTheFile` returns it
  as an `Err` all the same, like the errors of the promise chain.
- Freshness of the session key, IV and OAEP seed across calls, and
  "different envelopes for the same plaintext". Randomness is an input, so the
  model cannot state it.
- Rejection of a wrong private key, and tamper detection. Nothing is assumed
  about decrypting data that was not produced by the matching encryption.
  AES-CBC without a MAC does not detect tampering in general, so no such
  property holds for this scheme.
- The usages `wrapKey` and `unwrapKey`, and the key formats other than `raw`.
  The page never asks for them.
- Memory clearing of key material, cancellation and concurrency between
  several handlers. A single straight-line call has none of these.
