/**
  * The libraries the core calls but does not implement: the age X25519 file encryption, the
  * base64 STANDARD engine, and serde_json. Each is a record of total functions that the model
  * takes as a parameter and never looks inside; the properties the libraries promise are stated
  * as predicates that lemmas require explicitly.
  */
module Foreign {
  import opened Prelude
  import opened Common

  /** An age X25519 identity (secret key). */
  datatype Identity = Identity(secret: seq<u8>)

  /** An age X25519 recipient (public key). */
  datatype Recipient = Recipient(share: seq<u8>)

  /** An `age::Decryptor`: a ciphertext whose header parsed. */
  datatype Decryptor = Decryptor(header: seq<u8>, payload: seq<u8>)

  /** The payload stream that `Decryptor::decrypt` unlocks for a matching identity. */
  datatype Reader = Reader(fileKey: seq<u8>, payload: seq<u8>)

  /** The random choices of one operation: a fresh identity for key generation, and the seed of
      one encryption (its file key and ephemeral share). */
  datatype Randomness = Randomness(identity: Identity, seed: seq<u8>)

  /** The age crate. */
  datatype Age = Age(
    parseRecipient: string -> Option<Recipient>,     // str::parse::<x25519::Recipient>
    parseIdentity: string -> Option<Identity>,       // str::parse::<x25519::Identity>
    recipientText: Recipient -> string,              // Recipient::to_string
    identityText: Identity -> string,                // Identity::to_string, exposed
    toPublic: Identity -> Recipient,                 // Identity::to_public
    seal: (Recipient, seq<u8>, seq<u8>) -> seq<u8>,  // Encryptor over one recipient, seed, plaintext
    openHeader: seq<u8> -> Option<Decryptor>,        // Decryptor::new
    unlock: (Decryptor, Identity) -> Option<Reader>, // Decryptor::decrypt with one identity
    readToEnd: Reader -> Option<seq<u8>>             // Read::read_to_end
  ) {
    /** `is_valid_age_public_key`: the string parses as a recipient. */
    predicate IsRecipient(s: string) { parseRecipient(s).Some? }

    /** `is_private_key_data`: the string parses as an identity. */
    predicate IsIdentity(s: string) { parseIdentity(s).Some? }

    /** The three stages of opening a ciphertext with one identity; `None` if any of them fails. */
    function Open(id: Identity, ciphertext: seq<u8>): Option<seq<u8>>
    {
      match openHeader(ciphertext)
      case None => None
      case Some(d) =>
        match unlock(d, id)
        case None => None
        case Some(reader) => readToEnd(reader)
    }
  }

  /** A recipient's text form parses back to the recipient. */
  ghost predicate RecipientTextRoundTrips(age: Age)
  {
    forall r :: age.parseRecipient(age.recipientText(r)) == Some(r)
  }

  /** An identity's text form parses back to the identity. */
  ghost predicate IdentityTextRoundTrips(age: Age)
  {
    forall id :: age.parseIdentity(age.identityText(id)) == Some(id)
  }

  /** A ciphertext sealed to an identity's public key opens with that identity to its plaintext. */
  ghost predicate OpensSealed(age: Age)
  {
    forall id, seed, pt :: age.Open(id, age.seal(age.toPublic(id), seed, pt)) == Some(pt)
  }

  /** A ciphertext sealed to another recipient does not open with an identity. */
  ghost predicate RejectsOthers(age: Age)
  {
    forall id, r, seed, pt | r != age.toPublic(id) :: age.Open(id, age.seal(r, seed, pt)).None?
  }

  /** The base64 STANDARD engine (RFC 4648 section 4 alphabet, `=` padding). */
  datatype Base64 = Base64(
    encode: seq<u8> -> string,
    decode: string -> Option<seq<u8>>
  ) {
    /** `is_base64`: the engine decodes the string. */
    predicate Accepts(s: string) { decode(s).Some? }
  }

  /** Decoding inverts encoding. */
  ghost predicate Base64RoundTrips(b: Base64)
  {
    forall bytes :: b.decode(b.encode(bytes)) == Some(bytes)
  }

  /** The engine decodes only strings over its (ASCII) alphabet. */
  ghost predicate Base64IsAscii(b: Base64)
  {
    forall s | b.Accepts(s) :: forall i | 0 <= i < |s| :: s[i] < '\U{80}'
  }

  /** The error classes of the worker's operations. */
  datatype Failure = BadRecipient | BadIdentity | BadBase64 | BadUtf8

  /** The crates the worker and the classifier call, with the text each failure renders to. */
  datatype Crates = Crates(age: Age, base64: Base64, describe: Failure -> string)

  /** All of the library properties at once. */
  ghost predicate Sound(c: Crates)
  {
    && RecipientTextRoundTrips(c.age)
    && IdentityTextRoundTrips(c.age)
    && OpensSealed(c.age)
    && Base64RoundTrips(c.base64)
  }

  /** The string and field values of a JSON document, as serde_json yields them to lib.rs. */
  datatype EncryptFields = EncryptFields(contact: Option<string>, message: Option<string>)

  /** serde_json as lib.rs uses it. */
  datatype AppJson = AppJson(
    parseString: string -> Option<string>,         // from_str::<String>
    parseFields: string -> Option<EncryptFields>   // from_str::<Value>, then ["contact"] / ["message"].as_str()
  )

  /** serde_json as rtc.rs uses it. */
  datatype RtcJson = RtcJson(
    parseSession: string -> Result<SessionDescription, string>,  // from_str::<SessionDescription>, or serde's error text
    showSession: SessionDescription -> string,           // to_string(&SessionDescription)
    showMessage: RtcMessage -> string                     // to_string(&RtcMessage)
  )

  /** A session description's JSON text parses back to it. */
  ghost predicate SessionRoundTrips(j: RtcJson)
  {
    forall d :: j.parseSession(j.showSession(d)) == Ok(d)
  }
}
