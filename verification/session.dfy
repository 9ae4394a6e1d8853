/** Authenticated sessions and the identity pins a reconnect is allowed to use. */
module Sessions {
  import opened Octets
  import opened Cryptography
  import opened Certificates
  import opened Records

  /** The result of a completed bilateral identity authentication. */
  datatype Session = Session(
    pairId: Text,
    localDeviceId: Text,
    peerDeviceId: Text,
    localCertificate: DeviceCertificate,
    peerCertificate: DeviceCertificate,
    sessionBinding: Bytes32,
    peerPublicKey: Bytes32,
    localRole: byte)
  {
    predicate IsInitiator() {
      localRole == ROLE_INITIATOR
    }

    /** `local_role` of the record layer. */
    function RecordRole(): byte {
      if IsInitiator() then ROLE_INITIATOR else ROLE_RESPONDER
    }
  }

  /** Validated identity pins of an existing pairing. */
  datatype PairedIdentityContext = PairedIdentityContext(
    pairId: Text,
    initiatorDeviceId: Text,
    responderDeviceId: Text,
    initiatorPublicKey: Bytes32,
    responderPublicKey: Bytes32,
    initiatorCertificate: DeviceCertificate,
    responderCertificate: DeviceCertificate)
  {
    /** The role these pins give an identity, if it is a participant. */
    function RoleFor(cr: Crypto, identity: DeviceIdentity): Result<byte> {
      if identity.DeviceId(cr) == initiatorDeviceId && identity.PublicKey(cr) == initiatorPublicKey then
        Ok(ROLE_INITIATOR)
      else if identity.DeviceId(cr) == responderDeviceId && identity.PublicKey(cr) == responderPublicKey then
        Ok(ROLE_RESPONDER)
      else Err
    }

    function CertificateOf(role: byte): DeviceCertificate {
      if role == ROLE_INITIATOR then initiatorCertificate else responderCertificate
    }

    function DeviceIdOfRole(role: byte): Text {
      if role == ROLE_INITIATOR then initiatorDeviceId else responderDeviceId
    }

    function PublicKeyOf(role: byte): Bytes32 {
      if role == ROLE_INITIATOR then initiatorPublicKey else responderPublicKey
    }
  }

  /** `from_validated_record`. */
  function FromValidatedRecord(r: PairingRecord, initiator: DeviceCertificate, responder: DeviceCertificate):
    Result<PairedIdentityContext>
  {
    if || r.initiatorDeviceId == r.responderDeviceId
       || initiator.deviceId != r.initiatorDeviceId
       || responder.deviceId != r.responderDeviceId
       || initiator.publicKey != r.initiatorPublicKey
       || responder.publicKey != r.responderPublicKey
    then Err
    else Ok(PairedIdentityContext(r.pairId, r.initiatorDeviceId, r.responderDeviceId,
                                  r.initiatorPublicKey, r.responderPublicKey, initiator, responder))
  }
}
