/**
  * The cryptography worker (worker.rs): its QR-data classifier, the encrypt, decrypt and key
  * operations over the age and base64 crates, and the dispatcher that answers every message from
  * the main thread with exactly one posted reply.
  */
module Worker {
  import opened Prelude
  import opened Text
  import opened Foreign
  import opened Common

  /** The custom-event names a scanned string is routed to. */
  const AddContactEvent: string := "add_contact"
  const DecryptEvent: string := "decrypt_message"
  const ShowDialogEvent: string := "show_dialog"

  /** The text the fallback route puts before the scanned string. */
  const ReadDataPrefix: string := "Read data: "

  /** The exclusive byte-length window of a scanned ciphertext. */
  const MinCipherBytes: nat := 50
  const MaxCipherBytes: nat := 2000

  /** The heuristic both classifiers use for "an encrypted message": base64, and strictly between
      50 and 2000 bytes long. */
  predicate LooksEncrypted(b: Base64, s: string)
  {
    b.Accepts(s) && MinCipherBytes < ByteLength(s) < MaxCipherBytes
  }

  /**
    * `process_qr_data` of the worker: a public key is added as a contact, then a plausible
    * ciphertext is decrypted, and anything else is shown as read data. It never fails, and unlike
    * the main thread's classifier it has no private-key branch.
    */
  function ProcessQrData(c: Crates, data: string): (r: Result<(string, string), Failure>)
    ensures r.Ok?
    ensures r.value.0 == AddContactEvent <==> c.age.IsRecipient(data)
    ensures r.value.0 == DecryptEvent <==> !c.age.IsRecipient(data) && LooksEncrypted(c.base64, data)
    ensures r.value.0 == ShowDialogEvent <==> !c.age.IsRecipient(data) && !LooksEncrypted(c.base64, data)
    ensures r.value.1 == if r.value.0 == ShowDialogEvent then ReadDataPrefix + data else data
  {
    if c.age.IsRecipient(data) then Ok((AddContactEvent, data))
    else if c.base64.Accepts(data) && ByteLength(data) > MinCipherBytes && ByteLength(data) < MaxCipherBytes then
      Ok((DecryptEvent, data))
    else Ok((ShowDialogEvent, ReadDataPrefix + data))
  }

  /**
    * `process_qr_data` as written: it first logs `data` cut at byte 50, a slice that panics when
    * byte 50 falls inside a character (`None` here); past that it routes like `ProcessQrData`.
    */
  function ProcessQrDataAsWritten(c: Crates, data: string): (r: Option<Result<(string, string), Failure>>)
    ensures r.None? <==> PreviewAsWritten(data).None?
    ensures r.Some? ==> r.value == ProcessQrData(c, data)
  {
    match PreviewAsWritten(data)
    case None => None
    case Some(_) => Some(ProcessQrData(c, data))
  }

  /**
    * `encrypt_message`: fails exactly when the recipient key does not parse; otherwise the result
    * is the base64 text of the age ciphertext of the message's UTF-8 bytes.
    */
  function EncryptMessage(c: Crates, seed: seq<u8>, publicKey: string, message: string): (r: Result<string, Failure>)
    ensures r.Err? <==> !c.age.IsRecipient(publicKey)
    ensures r.Err? ==> r.error == BadRecipient
    ensures r.Ok? ==> r.value == c.base64.encode(c.age.seal(c.age.parseRecipient(publicKey).value, seed, Encode(message)))
  {
    match c.age.parseRecipient(publicKey)
    case None => Err(BadRecipient)
    case Some(recipient) =>
      var encrypted := c.age.seal(recipient, seed, Encode(message));
      Ok(c.base64.encode(encrypted))
  }

  /** The plaintext bytes a well-formed key and base64 ciphertext open to, if any. */
  function Opened(c: Crates, privateKey: string, encrypted: string): Option<seq<u8>>
    requires c.age.IsIdentity(privateKey) && c.base64.Accepts(encrypted)
  {
    c.age.Open(c.age.parseIdentity(privateKey).value, c.base64.decode(encrypted).value)
  }

  /**
    * `decrypt_message`: a key that does not parse or a ciphertext that is not base64 is an error;
    * once both are well-formed, every failure to open the ciphertext is the neutral `Ok(None)`;
    * plaintext that is not UTF-8 is an error again; and otherwise the result is the text whose
    * UTF-8 encoding is exactly the opened plaintext.
    */
  function DecryptMessage(c: Crates, privateKey: string, encrypted: string): (r: Result<Option<string>, Failure>)
    ensures !c.age.IsIdentity(privateKey) ==> r == Err(BadIdentity)
    ensures c.age.IsIdentity(privateKey) && !c.base64.Accepts(encrypted) ==> r == Err(BadBase64)
    ensures r == Ok(None) <==>
      c.age.IsIdentity(privateKey) && c.base64.Accepts(encrypted) && Opened(c, privateKey, encrypted).None?
    ensures r == Err(BadUtf8) <==>
      && c.age.IsIdentity(privateKey) && c.base64.Accepts(encrypted)
      && Opened(c, privateKey, encrypted).Some? && Decode(Opened(c, privateKey, encrypted).value).None?
    ensures r.Ok? && r.value.Some? ==>
      c.age.IsIdentity(privateKey) && c.base64.Accepts(encrypted) &&
      Opened(c, privateKey, encrypted) == Some(Encode(r.value.value))
    ensures c.age.IsIdentity(privateKey) && c.base64.Accepts(encrypted) &&
            Opened(c, privateKey, encrypted).Some? && Decode(Opened(c, privateKey, encrypted).value).Some? ==>
      r == Ok(Decode(Opened(c, privateKey, encrypted).value))
  {
    match c.age.parseIdentity(privateKey)
    case None => Err(BadIdentity)
    case Some(identity) =>
      match c.base64.decode(encrypted)
      case None => Err(BadBase64)
      case Some(bytes) =>
        match c.age.openHeader(bytes)
        case None => Ok(None)
        case Some(decryptor) =>
          match c.age.unlock(decryptor, identity)
          case None => Ok(None)
          case Some(reader) =>
            match c.age.readToEnd(reader)
            case None => Ok(None)
            case Some(decrypted) =>
              match Decode(decrypted)
              case None => Err(BadUtf8)
              case Some(text) =>
                EncodeDecode(decrypted);
                Ok(Some(text))
  }

  /** `generate_public_key_from_private`: the public key of the identity the string names. */
  function GeneratePublicKeyFromPrivate(age: Age, privateKey: string): (r: Result<string, Failure>)
    ensures r.Err? <==> !age.IsIdentity(privateKey)
    ensures r.Err? ==> r.error == BadIdentity
    ensures r.Ok? ==> r.value == age.recipientText(age.toPublic(age.parseIdentity(privateKey).value))
  {
    match age.parseIdentity(privateKey)
    case None => Err(BadIdentity)
    case Some(identity) => Ok(age.recipientText(age.toPublic(identity)))
  }

  /** `generate_key_pair_with_progress`: the (public, private) text pair of a fresh identity. */
  function GenerateKeyPairWithProgress(age: Age, newIdentity: Identity): (r: Result<(string, string), Failure>)
    ensures r.Ok?
    ensures r.value == (age.recipientText(age.toPublic(newIdentity)), age.identityText(newIdentity))
  {
    var recipient := age.toPublic(newIdentity);
    Ok((age.recipientText(recipient), age.identityText(newIdentity)))
  }

  /** Fixed texts of the worker's error replies. */
  const DeserializeFailure: string := "❌ Error deserializing worker message: "
  const EncryptFailure: string := "❌ Error encrypting message: "
  const DecryptFailure: string := "❌ Error decrypting message"
  const ExportFailure: string := "❌ Error exporting private key: "
  const PublicKeyFailure: string := "❌ Error generating public key: "

  /** The reply answers the request: it is the request's own success variant or an `Error`. */
  predicate Answers(event: Result<MainMessage, string>, reply: WorkerMessage)
  {
    reply.Error? ||
    (event.Ok? && match event.value
      case GenerateKeyPair => reply.Generated?
      case Encrypt(_, _) => reply.Encrypted?
      case Decrypt(_, _) => reply.Decrypted?
      case ExportPrivateKey(_, _) => reply.PrivateKeyExported?
      case GeneratePublicKeyFromPrivate(_) => reply.PublicKeyGenerated?
      case ProcessQrData(_) => reply.QrDataProcessed?)
  }

  /**
    * The reply `worker_main` composes for one incoming message, which is either a request or the
    * text of the error that stopped it from deserialising.
    */
  function Reply(c: Crates, rnd: Randomness, event: Result<MainMessage, string>): (r: WorkerMessage)
    ensures Answers(event, r) && !r.Ready?
    ensures event.Err? ==> r == Error(DeserializeFailure + event.error)
    ensures event.Ok? && event.value.GenerateKeyPair? ==>
      r == Generated(c.age.recipientText(c.age.toPublic(rnd.identity)), c.age.identityText(rnd.identity))
    ensures event.Ok? && event.value.Encrypt? ==>
      (r.Encrypted? <==> c.age.IsRecipient(event.value.publicKey)) &&
      (r.Encrypted? ==> Ok(r.encryptedData) == EncryptMessage(c, rnd.seed, event.value.publicKey, event.value.data))
    ensures event.Ok? && event.value.Decrypt? ==>
      var result := DecryptMessage(c, event.value.privateKey, event.value.data);
      && (r.Decrypted? <==> result.Ok? && result.value.Some?)
      && (r.Decrypted? ==> result == Ok(Some(r.decryptedData)))
      && (result == Ok(None) ==> r == Error(DecryptFailure))
    ensures event.Ok? && event.value.ExportPrivateKey? ==>
      (r.PrivateKeyExported? <==> c.age.IsRecipient(event.value.recipientPublicKey)) &&
      (r.PrivateKeyExported? ==>
        Ok(r.encryptedPrivateKey) == EncryptMessage(c, rnd.seed, event.value.recipientPublicKey, event.value.privateKey))
    ensures event.Ok? && event.value.GeneratePublicKeyFromPrivate? ==>
      (r.PublicKeyGenerated? <==> c.age.IsIdentity(event.value.privateKey)) &&
      (r.PublicKeyGenerated? ==> Ok(r.publicKey) == GeneratePublicKeyFromPrivate(c.age, event.value.privateKey))
    ensures event.Ok? && event.value.ProcessQrData? ==>
      r.QrDataProcessed? && Ok((r.eventType, r.eventData)) == ProcessQrData(c, event.value.data)
  {
    match event
    case Err(e) => Error(DeserializeFailure + e)
    case Ok(request) =>
      match request
      case GenerateKeyPair =>
        var pair := GenerateKeyPairWithProgress(c.age, rnd.identity).value;
        Generated(pair.0, pair.1)
      case Encrypt(publicKey, data) =>
        (match EncryptMessage(c, rnd.seed, publicKey, data)
         case Ok(encrypted) => Encrypted(encrypted)
         case Err(f) => Error(EncryptFailure + c.describe(f)))
      case Decrypt(privateKey, data) =>
        (match DecryptMessage(c, privateKey, data)
         case Ok(Some(decrypted)) => Decrypted(decrypted)
         case Ok(None) => Error(DecryptFailure)
         case Err(f) => Error(DecryptFailure + ": " + c.describe(f)))
      case ExportPrivateKey(recipientPublicKey, privateKey) =>
        (match EncryptMessage(c, rnd.seed, recipientPublicKey, privateKey)
         case Ok(encrypted) => PrivateKeyExported(encrypted)
         case Err(f) => Error(ExportFailure + c.describe(f)))
      case GeneratePublicKeyFromPrivate(privateKey) =>
        (match GeneratePublicKeyFromPrivate(c.age, privateKey)
         case Ok(publicKey) => PublicKeyGenerated(publicKey)
         case Err(f) => Error(PublicKeyFailure + c.describe(f)))
      case ProcessQrData(data) =>
        var routed := ProcessQrData(c, data).value;
        QrDataProcessed(routed.0, routed.1)
  }

  /** Whether the browser accepted a `post_message`, and the rendering of its error if not. */
  datatype Delivery = Delivered | Refused(reason: string)

  /** The text `error_report` posts when the browser refuses a success reply. */
  function PostFailure(reply: WorkerMessage): string
  {
    match reply
    case Ready => "❌ Error posting ready message: "
    case Generated(_, _) => "❌ Error posting message: "
    case Encrypted(_) => "❌ Error posting encrypted message: "
    case Decrypted(_) => "❌ Error posting decrypted message: "
    case PrivateKeyExported(_) => "❌ Error posting exported private key: "
    case PublicKeyGenerated(_) => "❌ Error posting generated public key: "
    case QrDataProcessed(_, _) => "❌ Error posting processed QR data: "
    case Error(_) => ""
  }

  /**
    * What reaches the main thread for one reply: the reply itself, or, when the browser refuses a
    * success reply, an `Error` that `error_report` posts in its place.
    */
  function Posted(reply: WorkerMessage, delivery: Delivery): (m: WorkerMessage)
    ensures delivery.Delivered? || reply.Error? ==> m == reply
    ensures delivery.Refused? && !reply.Error? ==> m.Error?
  {
    if delivery.Refused? && !reply.Error? then Error(PostFailure(reply) + delivery.reason) else reply
  }

  /** The worker's global scope: everything it has posted to the main thread, in order. */
  class Scope {
    var posted: seq<WorkerMessage>

    /** `worker_main`: installs the message handler, then posts `Ready`. */
    constructor (delivery: Delivery)
      ensures posted == [Posted(Ready, delivery)]
    {
      posted := [Posted(Ready, delivery)];
    }

    /** The `onmessage` handler: every incoming message adds exactly one posted reply. */
    method OnMessage(c: Crates, rnd: Randomness, event: Result<MainMessage, string>, delivery: Delivery)
      modifies this
      ensures posted == old(posted) + [Posted(Reply(c, rnd, event), delivery)]
      ensures Answers(event, posted[|posted| - 1])
    {
      var reply := Reply(c, rnd, event);
      posted := posted + [Posted(reply, delivery)];
    }
  }

  /** A generated key pair is consistent: deriving the public key from its private half gives its
      public half. */
  lemma GeneratedPairIsConsistent(age: Age, newIdentity: Identity)
    requires IdentityTextRoundTrips(age)
    ensures var pair := GenerateKeyPairWithProgress(age, newIdentity).value;
      GeneratePublicKeyFromPrivate(age, pair.1) == Ok(pair.0)
  {
  }

  /** The derived public key is itself a valid public key, which the classifiers route to
      `add_contact`. */
  lemma DerivedKeyIsRecipient(c: Crates, privateKey: string)
    requires RecipientTextRoundTrips(c.age)
    requires c.age.IsIdentity(privateKey)
    ensures c.age.IsRecipient(GeneratePublicKeyFromPrivate(c.age, privateKey).value)
    ensures ProcessQrData(c, GeneratePublicKeyFromPrivate(c.age, privateKey).value).value.0 == AddContactEvent
  {
  }

  /** Round trip: text encrypted to the public key of an identity decrypts with that identity's
      private key to exactly the same text. */
  lemma EncryptThenDecrypt(c: Crates, seed: seq<u8>, id: Identity, message: string)
    requires Sound(c)
    ensures var publicKey := c.age.recipientText(c.age.toPublic(id));
      EncryptMessage(c, seed, publicKey, message).Ok? &&
      DecryptMessage(c, c.age.identityText(id), EncryptMessage(c, seed, publicKey, message).value)
        == Ok(Some(message))
  {
    var publicKey := c.age.recipientText(c.age.toPublic(id));
    var sealed := c.age.seal(c.age.toPublic(id), seed, Encode(message));
    assert c.age.parseRecipient(publicKey) == Some(c.age.toPublic(id));
    assert c.base64.decode(c.base64.encode(sealed)) == Some(sealed);
    assert c.age.Open(id, sealed) == Some(Encode(message));
    DecodeEncode(message);
  }

  /** Text encrypted to someone else opens to the neutral `Ok(None)`, never to an error, when the
      key and the ciphertext are well-formed. */
  lemma WrongIdentityIsNeutral(c: Crates, seed: seq<u8>, id: Identity, other: Recipient, message: string)
    requires Sound(c) && RejectsOthers(c.age)
    requires other != c.age.toPublic(id)
    ensures var publicKey := c.age.recipientText(other);
      EncryptMessage(c, seed, publicKey, message).Ok? &&
      DecryptMessage(c, c.age.identityText(id), EncryptMessage(c, seed, publicKey, message).value) == Ok(None)
  {
    var sealed := c.age.seal(other, seed, Encode(message));
    assert c.age.parseRecipient(c.age.recipientText(other)) == Some(other);
    assert c.base64.decode(c.base64.encode(sealed)) == Some(sealed);
    assert c.age.Open(id, sealed).None?;
  }
}
