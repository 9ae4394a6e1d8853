/**
 Symbolic cryptography.  Ed25519 (RFC 8032 section 5.1) and SHA-256 are parameters of every
 statement, so each theorem holds for every choice of primitives that meets its stated assumptions.
 */
module Cryptography {
  import opened Octets

  datatype Crypto = Crypto(
    verify: (Bytes32, Bytes, Bytes64) -> bool,
    sign: (Bytes32, Bytes) -> Bytes64,
    publicKey: Bytes32 -> Bytes32,
    digest: Bytes -> Bytes32)

  /** Signatures made with a secret verify under its public key. */
  ghost predicate Sound(cr: Crypto) {
    forall secret: Bytes32, message: Bytes ::
      cr.verify(cr.publicKey(secret), message, cr.sign(secret, message))
  }

  /** The first 16 octets of the key's digest, as 32 lower-case hexadecimal characters. */
  function DeviceIdOf(cr: Crypto, publicKey: Bytes32): (id: Bytes)
    ensures LowerHex32(id)
  {
    Hex(cr.digest(publicKey)[..16])
  }

  /** The installation's permanent identity. */
  datatype DeviceIdentity = DeviceIdentity(secret: Bytes32) {
    function PublicKey(cr: Crypto): Bytes32 { cr.publicKey(secret) }
    function DeviceId(cr: Crypto): Bytes { DeviceIdOf(cr, cr.publicKey(secret)) }
    function Sign(cr: Crypto, message: Bytes): Bytes64 { cr.sign(secret, message) }
  }
}
