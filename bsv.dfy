/**
 * The foreign cryptographic library the authenticated backend calls. Its
 * operations are not modelled; they are supplied as total functions, so every
 * statement about signing holds for whatever these functions compute.
 */
module Bsv {
  import opened Wrappers

  type Bytes = seq<bv8>

  datatype PrivateKey = PrivateKey(secret: Bytes)

  datatype PublicKey = PublicKey(point: Bytes)

  datatype Library = Library(
    /** `new bsv.PrivateKey(text)` for a given key text; the random key for an absent one is not part of the library record. */
    privateKeyFrom: string -> PrivateKey,
    /** `privateKey.toPublicKey()` */
    publicKeyOf: PrivateKey -> PublicKey,
    /** `publicKey.toHex()` */
    publicKeyHex: PublicKey -> string,
    /** `bsv.crypto.Hash.sha256(Buffer.from(message))`: SHA-256 of the UTF-8 bytes */
    sha256: string -> Bytes,
    /** `bsv.crypto.ECDSA.sign(hash, key, "little").toBuffer()` */
    signLittle: (Bytes, PrivateKey) -> Bytes,
    /** `buffer.toString("base64")` */
    base64: Bytes -> string)
}
