/**
  * The messages exchanged between the main thread and the worker, and the two JSON shapes of the
  * peer connection. common.rs declares only part of the worker protocol; the variants that
  * worker.rs and lib.rs use beyond it are taken from those use sites.
  */
module Common {

  /** Requests the main thread posts to the worker (`MainMessage`). */
  datatype MainMessage =
    | GenerateKeyPair
    | Encrypt(publicKey: string, data: string)
    | Decrypt(privateKey: string, data: string)
    | ExportPrivateKey(recipientPublicKey: string, privateKey: string)
    | GeneratePublicKeyFromPrivate(privateKey: string)
    | ProcessQrData(data: string)

  /** Replies the worker posts to the main thread (`WorkerMessage`). */
  datatype WorkerMessage =
    | Ready
    | Generated(publicKey: string, privateKey: string)
    | Encrypted(encryptedData: string)
    | Decrypted(decryptedData: string)
    | Error(message: string)
    | PrivateKeyExported(encryptedPrivateKey: string)
    | PublicKeyGenerated(publicKey: string)
    | QrDataProcessed(eventType: string, eventData: string)

  /** The JSON shape of an offer or an answer (`SessionDescription` in rtc.rs). */
  datatype SessionDescription = SessionDescription(sdpType: string, sdp: string)

  /** The envelope sent over an open data channel. common.rs does not define `RtcMessage`, so these
      variants are assumed; the model only ever sends a message as its JSON text. */
  datatype RtcMessage = PublicKey(key: string) | EncryptedData(data: string)
}
