/**
  * Properties that span the main thread and the worker: the classifier's length window, how the
  * two classifiers relate, the three places whose log preview panics, and the user-visible flows
  * built from the arms of `update`, the worker's `Reply` and the routing of replies: adding a scanned key as a contact, moving a private key to a second
  * device, and sending an encrypted message.
  */
module Flows {
  import opened Prelude
  import opened Text
  import opened Foreign
  import opened Common
  import opened AppModel
  import W = Worker

  /**
    * For base64 text that is no key, the ciphertext window is exclusive on both ends and counts
    * characters: 50 and 2000 characters are shown as read data, 51 and 1999 are decrypted, in both
    * classifiers.
    */
  lemma ClassifierWindow(c: Crates, data: string)
    requires Base64IsAscii(c.base64) && c.base64.Accepts(data)
    requires !c.age.IsRecipient(data) && !c.age.IsIdentity(data)
    ensures AppModel.ProcessQrData(c, data).eventType == W.DecryptEvent <==> 50 < |data| < 2000
    ensures W.ProcessQrData(c, data).value.0 == W.DecryptEvent <==> 50 < |data| < 2000
  {
    AsciiByteLength(data);
  }

  /**
    * The two classifiers route every input alike, except a private key that is not also a public
    * key: the main thread offers it as a contact, while the worker, which has no private-key
    * branch, decrypts it or shows it.
    */
  lemma ClassifiersAgree(c: Crates, data: string)
    ensures !(c.age.IsIdentity(data) && !c.age.IsRecipient(data)) ==>
      AppModel.ProcessQrData(c, data) == Dispatch(W.ProcessQrData(c, data).value.0, W.ProcessQrData(c, data).value.1)
    ensures c.age.IsIdentity(data) && !c.age.IsRecipient(data) ==>
      AppModel.ProcessQrData(c, data).eventType == W.AddContactEvent &&
      W.ProcessQrData(c, data).value.0 != W.AddContactEvent
  {
  }

  /**
    * Scanning a key and confirming a non-blank name stores exactly that name for that key, closes
    * the dialog and the reader, and leaves every other contact as it was. This holds for a private
    * key too, which the classifier also offers as a contact. The custom events are handled by the
    * `HandleCustomEvent` arm, the dialog and the reader by display arms, the confirmation by the
    * `ConfirmAddContact` arm.
    */
  lemma ScannedKeyBecomesContact(s: AppState, key: string, name: string, env: Env)
    requires env.crates.age.IsRecipient(key) || env.crates.age.IsIdentity(key)
    requires !IsBlank(name)
    ensures OnCustomEvent(s, ProcessQrDataEvent, key, env) == [Dispatch(W.AddContactEvent, key)]
    ensures OnCustomEvent(s, W.AddContactEvent, key, env) == [Send(ShowAddContactDialog(key)), Send(HideQrReader)]
    ensures
      var shown := ViewStep(s, ShowAddContactDialog(key)).state;
      var hidden := ViewStep(shown, HideQrReader).state;
      var added := OnConfirmAddContact(hidden, name);
      && added.state.contacts == s.contacts[name := key]
      && added.state.publicKeyToAdd.None? && !added.state.addContactDialogVisible
      && !added.state.qrReaderVisible
      && added.effects == [SaveContacts(s.contacts[name := key])]
  {
    var shown := ViewStep(s, ShowAddContactDialog(key)).state;
    assert shown.publicKeyToAdd == Some(key) && shown.contacts == s.contacts;
    var hidden := ViewStep(shown, HideQrReader).state;
    assert hidden.publicKeyToAdd == Some(key) && hidden.contacts == s.contacts && !hidden.qrReaderVisible;
  }

  /** The text forms of an identity's key pair. */
  function PairOf(age: Age, id: Identity): KeyPair
  {
    KeyPair(age.recipientText(age.toPublic(id)), age.identityText(id))
  }

  /**
    * Moving a private key to a second device: device A exports its private key encrypted to
    * contact B (the `ExportPrivateKey` arm); device B decrypts the QR code (`DecryptMessage`),
    * recognises a private key, asks its worker for the public key (`ConfirmImportPrivateKey`), and
    * imports the pair (`ImportPrivateKeyWithPublicKey`). B ends up with exactly A's key pair.
    * `ct` is the exported ciphertext.
    */
  lemma ExportThenImport(c: Crates, a: Identity, b: Identity, sA: AppState, sB: AppState, name: string,
                         env: Env, rnd: Randomness, stored: Stored) returns (ct: string)
    requires Sound(c) && env.crates == c && env.post.Delivered?
    requires sA.worker && sA.myKeys == Some(PairOf(c.age, a))
    requires name in sA.contacts && sA.contacts[name] == PairOf(c.age, b).publicKey
    requires sB.worker && sB.myKeys == Some(PairOf(c.age, b))
    ensures var exported := MainMessage.ExportPrivateKey(PairOf(c.age, b).publicKey, PairOf(c.age, a).privateKey);
      && OnExportPrivateKey(sA, name, env).effects == [Post(exported)]
      && W.Reply(c, rnd, Ok(exported)) == PrivateKeyExported(ct)
      && OnWorkerMessage(c, stored, Ok(PrivateKeyExported(ct))) == [Dispatch(ShowEncryptedQrEvent, ct)]
    ensures var privateKey := PairOf(c.age, a).privateKey;
      && DecryptAndShowMessage(sB, ct, env).effects == [Post(Decrypt(PairOf(c.age, b).privateKey, ct))]
      && W.Reply(c, rnd, Ok(Decrypt(PairOf(c.age, b).privateKey, ct))) == Decrypted(privateKey)
      && OnWorkerMessage(c, stored, Ok(Decrypted(privateKey))) == [Send(ShowPrivateKeyImportConfirm(privateKey))]
    ensures var privateKey, publicKey := PairOf(c.age, a).privateKey, PairOf(c.age, a).publicKey;
      var pending := ViewStep(sB, ShowPrivateKeyImportConfirm(privateKey)).state;
      && OnConfirmImport(pending, env) == Outcome(pending, [Post(GeneratePublicKeyFromPrivate(privateKey))])
      && W.Reply(c, rnd, Ok(GeneratePublicKeyFromPrivate(privateKey))) == PublicKeyGenerated(publicKey)
      && OnWorkerMessage(c, stored, Ok(PublicKeyGenerated(publicKey))) == [Dispatch(PublicKeyGeneratedEvent, publicKey)]
      && OnCustomEvent(pending, PublicKeyGeneratedEvent, publicKey, env)
           == [Send(ImportPrivateKeyWithPublicKey(privateKey, publicKey))]
      && OnImportWithPublicKey(pending, privateKey, publicKey).state.myKeys == sA.myKeys
  {
    var pairA, pairB := PairOf(c.age, a), PairOf(c.age, b);
    W.EncryptThenDecrypt(c, rnd.seed, b, pairA.privateKey);
    ct := W.EncryptMessage(c, rnd.seed, pairB.publicKey, pairA.privateKey).value;
    assert W.Reply(c, rnd, Ok(MainMessage.ExportPrivateKey(pairB.publicKey, pairA.privateKey))) == PrivateKeyExported(ct);
    assert W.Reply(c, rnd, Ok(Decrypt(pairB.privateKey, ct))) == Decrypted(pairA.privateKey);
    assert c.age.parseIdentity(pairA.privateKey) == Some(a);
    var pending := ViewStep(sB, ShowPrivateKeyImportConfirm(pairA.privateKey)).state;
    assert pending.privateKeyToImport == Some(pairA.privateKey) && pending.worker;
    assert W.Reply(c, rnd, Ok(GeneratePublicKeyFromPrivate(pairA.privateKey))) == PublicKeyGenerated(pairA.publicKey);
  }

  /**
    * Sending a message: an `encrypt_message` request for contact B posts the text with B's key;
    * the worker's ciphertext is shown as a QR code; on B's device it decrypts to the same text,
    * which is shown in the dialog (when it is not itself a private key).
    */
  lemma MessageRoundTrip(c: Crates, b: Identity, sA: AppState, sB: AppState, name: string, text: string,
                         request: string, env: Env, rnd: Randomness, stored: Stored) returns (ct: string)
    requires Sound(c) && env.crates == c && env.post.Delivered?
    requires env.json.parseFields(request) == Some(EncryptFields(Some(name), Some(text)))
    requires sA.worker && name in sA.contacts && sA.contacts[name] == PairOf(c.age, b).publicKey
    requires sB.worker && sB.myKeys == Some(PairOf(c.age, b))
    requires !c.age.IsIdentity(text)
    ensures var publicKey := PairOf(c.age, b).publicKey;
      && OnCustomEvent(sA, EncryptMessageEvent, request, env) == [Post(Encrypt(publicKey, text))]
      && W.Reply(c, rnd, Ok(Encrypt(publicKey, text))) == Encrypted(ct)
      && OnWorkerMessage(c, stored, Ok(Encrypted(ct))) == [Dispatch(ShowEncryptedQrEvent, ct)]
    ensures var privateKey := PairOf(c.age, b).privateKey;
      && DecryptAndShowMessage(sB, ct, env).effects == [Post(Decrypt(privateKey, ct))]
      && W.Reply(c, rnd, Ok(Decrypt(privateKey, ct))) == Decrypted(text)
      && OnWorkerMessage(c, stored, Ok(Decrypted(text))) == [Dispatch(W.ShowDialogEvent, text)]
      && OnCustomEvent(sB, W.ShowDialogEvent, text, env) == [Send(ShowDialog(text)), Send(HideQrReader)]
      && OnShowDialog(sB, text).state.dialogMessage == Some(text)
  {
    var pairB := PairOf(c.age, b);
    W.EncryptThenDecrypt(c, rnd.seed, b, text);
    ct := W.EncryptMessage(c, rnd.seed, pairB.publicKey, text).value;
    assert W.Reply(c, rnd, Ok(Encrypt(pairB.publicKey, text))) == Encrypted(ct);
    assert W.Reply(c, rnd, Ok(Decrypt(pairB.privateKey, ct))) == Decrypted(text);
  }

  /**
    * A ciphertext sealed to someone else never reaches the dialog: the worker answers with the
    * plain decryption error, which the main thread alerts.
    */
  lemma NotForMeIsAlerted(c: Crates, me: Identity, other: Recipient, text: string, rnd: Randomness, stored: Stored)
    requires Sound(c) && RejectsOthers(c.age)
    requires other != c.age.toPublic(me)
    ensures var ct := W.EncryptMessage(c, rnd.seed, c.age.recipientText(other), text).value;
      var reply := W.Reply(c, rnd, Ok(Decrypt(c.age.identityText(me), ct)));
      reply == Error(W.DecryptFailure) && OnWorkerMessage(c, stored, Ok(reply)) == [Alert(W.DecryptFailure)]
  {
    W.WrongIdentityIsNeutral(c, rnd.seed, me, other, text);
  }

  /**
    * Seventeen hiragana letters are 51 bytes, and byte 50 falls inside the last letter: the
    * as-written worker classifier, main-thread classifier and `ShowDialog` arm all panic on it,
    * while the corrected ones classify it and show it.
    */
  lemma PreviewPanicSites(c: Crates, s: AppState)
    ensures var data := seq(17, _ => '\U{3042}');
      && W.ProcessQrDataAsWritten(c, data).None?
      && AppModel.ProcessQrDataAsWritten(c, data).None?
      && OnShowDialogAsWritten(s, data).None?
      && W.ProcessQrData(c, data).Ok?
      && OnShowDialog(s, data).state.dialogMessage == Some(data)
  {
    PreviewPanicsOnHiragana();
  }
}
