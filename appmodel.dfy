/**
  * The main thread of the app (lib.rs) as values: the state the Yew component keeps, the messages
  * it handles, the side effects it requests, the input classifier, the routing of the worker's
  * replies, and one transition function per `update` arm, gathered in `Step`.
  */
module AppModel {
  import opened Prelude
  import opened Text
  import opened Foreign
  import opened Common
  import W = Worker

  /** The user's own age key pair, as text. */
  datatype KeyPair = KeyPair(publicKey: string, privateKey: string)

  /** The contact table: display name to public key. */
  type Contacts = map<string, string>

  /** The messages of the component (`Msg`). */
  datatype Msg =
    | LoadMyKeys
    | GenerateKeys
    | KeysLoaded(keys: KeyPair, loadedContacts: Contacts)
    | DrawQrCode(qrText: string)
    | ShowQrReader
    | HideQrReader
    | StartCamera
    | ShowMessageDialog
    | HideMessageDialog
    | ShowEncryptedQr(encrypted: string)
    | HideEncryptedQr
    | ShowDeleteConfirm(deleteName: string)
    | ConfirmDeleteContact(confirmedName: string)
    | CancelDeleteContact
    | DecryptMessage(ciphertext: string)
    | ShowDialog(text: string)
    | HideDialog
    | UpdateLoadingProgress(progressText: string, progress: Option<u8>)
    | SetLoading(loading: bool)
    | HandleCustomEvent(eventType: string, eventData: string)
    | CopyPublicKey
    | CopyEncryptedMessage
    | ShowExportPrivateKeyDialog
    | HideExportPrivateKeyDialog
    | ExportPrivateKey(recipientName: string)
    | ShowPrivateKeyImportConfirm(candidateKey: string)
    | HidePrivateKeyImportConfirm
    | ConfirmImportPrivateKey
    | CancelImportPrivateKey
    | ImportPrivateKeyWithPublicKey(importedPrivate: string, importedPublic: string)
    | ShowAddContactDialog(keyToAdd: string)
    | HideAddContactDialog
    | ConfirmAddContact(contactName: string)
    | CancelAddContact
    | ShowResetConfirm
    | HideResetConfirm
    | ConfirmReset
    | CancelReset

  /** The component state (`AppState`); the worker handle is reduced to whether one exists. */
  datatype AppState = AppState(
    myKeys: Option<KeyPair>,
    contacts: Contacts,
    qrReaderVisible: bool,
    cameraStarted: bool,
    dialogMessage: Option<string>,
    myPublicKeyQr: Option<string>,
    messageDialogVisible: bool,
    encryptedQrVisible: bool,
    encryptedQrData: Option<string>,
    deleteConfirmVisible: bool,
    deleteTarget: Option<string>,
    isLoading: bool,
    loadingMessage: string,
    loadingProgress: Option<u8>,
    worker: bool,
    exportPrivateKeyDialogVisible: bool,
    privateKeyImportConfirmVisible: bool,
    privateKeyToImport: Option<string>,
    addContactDialogVisible: bool,
    publicKeyToAdd: Option<string>,
    resetConfirmVisible: bool)

  /** `AppState::default`: everything hidden and empty, loading at 0%. */
  function DefaultState(): (s: AppState)
    ensures s.myKeys.None? && s.contacts == map[] && !s.worker
    ensures s.isLoading && s.loadingProgress == Some(0) && s.loadingMessage == "Initializing application..."
    ensures !s.qrReaderVisible && !s.cameraStarted && !s.messageDialogVisible && !s.encryptedQrVisible
    ensures !s.deleteConfirmVisible && !s.exportPrivateKeyDialogVisible && !s.privateKeyImportConfirmVisible
    ensures !s.addContactDialogVisible && !s.resetConfirmVisible
    ensures s.dialogMessage.None? && s.myPublicKeyQr.None? && s.encryptedQrData.None? && s.deleteTarget.None?
    ensures s.privateKeyToImport.None? && s.publicKeyToAdd.None?
  {
    AppState(None, map[], false, false, None, None, false, false, None, false, None,
             true, "Initializing application...", Some(0), false, false, false, None, false, None, false)
  }

  /** The state `App::create` starts from: the default state with a shorter loading text. */
  function InitialState(): (s: AppState)
    ensures s == DefaultState().(loadingMessage := "Initializing...")
  {
    AppState(None, map[], false, false, None, None, false, false, None, false, None,
             true, "Initializing...", Some(0), false, false, false, None, false, None, false)
  }

  /** The two canvases a QR code is drawn on after a delay. */
  datatype Canvas = PublicKeyCanvas | EncryptedCanvas

  /** A side effect the component asks for; the model records them instead of performing them. */
  datatype Effect =
    | Send(msg: Msg)                                       // ctx.link().send_message
    | Post(request: MainMessage)                           // worker.post_message
    | Dispatch(eventType: string, eventData: string)       // dispatch_custom_event
    | Alert(alertText: string)                             // error_report: console and alert
    | SaveKeys(savedKeys: KeyPair)                         // save_my_keys
    | SaveContacts(savedContacts: Contacts)                // save_contacts
    | StartReader                                          // start_qr_reader_js
    | StopReader                                           // stop_qr_reader_js
    | DrawLater(canvas: Canvas, qrData: string, delayMs: nat)  // set_timeout + draw_*_to_canvas
    | CopyToClipboard(copied: string)                      // navigator.clipboard via eval
    | ClearStorage                                         // remove the three localStorage items
    | Reload                                               // window.location().reload()
    | ListenForEvents                                      // setup_custom_event_listener

  /** How one `serde_wasm_bindgen::to_value` plus `post_message` to the worker turns out. */
  datatype PostOutcome = Delivered | SerializeFailed(serializeError: string) | PostFailed(postError: string)

  /** What the browser and the libraries answer during one update. */
  datatype Env = Env(
    crates: Crates,
    json: AppJson,
    workerError: Option<string>,  // the error of `Worker::new`, if it fails
    post: PostOutcome)

  /** The new state and the requested effects of one update. */
  datatype Outcome = Outcome(state: AppState, effects: seq<Effect>)

  // ---------------------------------------------------------------------------------------------
  // The texts shown in dialogs and alerts
  // ---------------------------------------------------------------------------------------------

  const NoPrivateKeyText: string := "No private key available"
  const ContactNotFoundText: string := "Contact not found"
  const ExportPostFailedText: string := "Failed to export private key"
  const ExportSerializeFailedText: string := "Failed to prepare export request"
  const ImportPostFailedText: string := "Failed to generate public key"
  const ImportSerializeFailedText: string := "Failed to prepare public key generation"
  const DecryptNoWorkerText: string := "Worker not available for decryption"
  const WorkerUnavailableText: string := "Worker not available"
  const DecryptPostFailedText: string := "Failed to send decryption request"
  const DecryptSerializeFailedText: string := "Failed to prepare decryption request"
  const EncryptPostFailedText: string := "Failed to send encryption request"
  const EncryptSerializeFailedText: string := "Failed to prepare encryption request"
  const InvalidEncryptRequestText: string := "Invalid encryption request format"
  const ImportedText: string := "Private key imported and saved successfully!"
  const NothingToCopyText: string := "No encrypted message available to copy!"
  const StartingKeyGenerationText: string := "Starting key generation..."
  const GeneratingKeysText: string := "Generating RSA key pair..."
  const KeyGenerationNoWorkerText: string := "❌ Worker not available for key generation"
  const WorkerCreationFailure: string := "❌ Failed to create worker: "
  const KeyGenerationPostFailure: string := "❌ Failed to request key generation: "
  const KeyGenerationSerializeFailure: string := "❌ Failed to serialize key generation request: "

  // ---------------------------------------------------------------------------------------------
  // The input classifier
  // ---------------------------------------------------------------------------------------------

  const ProcessQrDataEvent: string := "process_qr_data"
  const DeleteContactEvent: string := "delete_contact"
  const ShowEncryptedQrEvent: string := "show_encrypted_qr"
  const EncryptMessageEvent: string := "encrypt_message"
  const PublicKeyGeneratedEvent: string := "public_key_generated"

  /**
    * `process_qr_data` of the main thread: public keys and, next, private keys both go to
    * `add_contact`; then a plausible ciphertext goes to `decrypt_message`; anything else is shown
    * as read data. Exactly one custom event is dispatched.
    */
  function ProcessQrData(c: Crates, data: string): (e: Effect)
    ensures e.Dispatch?
    ensures e.eventType == W.AddContactEvent <==> c.age.IsRecipient(data) || c.age.IsIdentity(data)
    ensures e.eventType == W.DecryptEvent <==>
      !c.age.IsRecipient(data) && !c.age.IsIdentity(data) && W.LooksEncrypted(c.base64, data)
    ensures e.eventType == W.ShowDialogEvent <==>
      !c.age.IsRecipient(data) && !c.age.IsIdentity(data) && !W.LooksEncrypted(c.base64, data)
    ensures e.eventData == if e.eventType == W.ShowDialogEvent then W.ReadDataPrefix + data else data
  {
    if c.age.IsRecipient(data) then Dispatch(W.AddContactEvent, data)
    else if c.age.IsIdentity(data) then Dispatch(W.AddContactEvent, data)
    else if c.base64.Accepts(data) && ByteLength(data) > W.MinCipherBytes && ByteLength(data) < W.MaxCipherBytes then
      Dispatch(W.DecryptEvent, data)
    else Dispatch(W.ShowDialogEvent, W.ReadDataPrefix + data)
  }

  /** `process_qr_data` as written: the logged preview panics (`None`) when byte 50 of the input
      falls inside a character. */
  function ProcessQrDataAsWritten(c: Crates, data: string): (r: Option<Effect>)
    ensures r.None? <==> PreviewAsWritten(data).None?
    ensures r.Some? ==> r.value == ProcessQrData(c, data)
  {
    match PreviewAsWritten(data)
    case None => None
    case Some(_) => Some(ProcessQrData(c, data))
  }

  // ---------------------------------------------------------------------------------------------
  // Routing of the worker's replies (the `onmessage` closure of `initialize_app`)
  // ---------------------------------------------------------------------------------------------

  /** What `load_my_keys` and `load_contacts` find in localStorage. */
  datatype Stored = Stored(keys: Option<KeyPair>, contacts: Contacts)

  /** The effects of one reply from the worker, or of the text of its deserialisation error. */
  function OnWorkerMessage(c: Crates, stored: Stored, reply: Result<WorkerMessage, string>): (r: seq<Effect>)
    ensures |r| >= 1
    ensures forall e | e in r :: !e.Post?
    ensures reply.Ok? && reply.value.Encrypted? ==> r == [Dispatch(ShowEncryptedQrEvent, reply.value.encryptedData)]
    ensures reply.Ok? && reply.value.PrivateKeyExported? ==>
      r == [Dispatch(ShowEncryptedQrEvent, reply.value.encryptedPrivateKey)]
    ensures reply.Ok? && reply.value.Decrypted? ==>
      (c.age.IsIdentity(reply.value.decryptedData) ==> r == [Send(ShowPrivateKeyImportConfirm(reply.value.decryptedData))]) &&
      (!c.age.IsIdentity(reply.value.decryptedData) ==> r == [Dispatch(W.ShowDialogEvent, reply.value.decryptedData)])
    ensures reply.Ok? && reply.value.PublicKeyGenerated? ==>
      r == [Dispatch(PublicKeyGeneratedEvent, reply.value.publicKey)]
    ensures reply.Ok? && reply.value.QrDataProcessed? ==> r == [Dispatch(reply.value.eventType, reply.value.eventData)]
    ensures reply.Ok? && reply.value.Error? ==> r == [Alert(reply.value.message)]
    ensures reply.Err? ==>
      r == [ Alert("❌ Key generation error: " + reply.error),
             Send(UpdateLoadingProgress("Key generation failed", Some(0))), Send(SetLoading(false)) ]
    ensures reply.Ok? && reply.value.Generated? ==>
      var keys := KeyPair(reply.value.publicKey, reply.value.privateKey);
      SaveKeys(keys) in r && Send(KeysLoaded(keys, map[])) in r
    ensures reply.Ok? && reply.value.Ready? ==>
      (stored.keys.Some? ==> Send(KeysLoaded(stored.keys.value, stored.contacts)) in r && Send(GenerateKeys) !in r) &&
      (stored.keys.None? ==> Send(GenerateKeys) in r && forall e | e in r :: !(e.Send? && e.msg.KeysLoaded?))
  {
    match reply
    case Err(e) =>
      [ Alert("❌ Key generation error: " + e),
        Send(UpdateLoadingProgress("Key generation failed", Some(0))),
        Send(SetLoading(false)) ]
    case Ok(Ready) =>
      var checking := [ Send(UpdateLoadingProgress("Checking saved keys...", Some(10))),
                        Send(UpdateLoadingProgress("Searching for keys...", Some(20))) ];
      (match stored.keys
       case Some(keys) =>
         checking + [ Send(UpdateLoadingProgress("Keys loaded successfully", Some(90))),
                      Send(UpdateLoadingProgress("Application ready", Some(100))),
                      Send(SetLoading(false)),
                      Send(KeysLoaded(keys, stored.contacts)) ]
       case None =>
         checking + [ Send(UpdateLoadingProgress("Generating new keys...", Some(30))),
                      Send(GenerateKeys) ])
    case Ok(Generated(publicKey, privateKey)) =>
      var keys := KeyPair(publicKey, privateKey);
      [ Send(UpdateLoadingProgress("Saving keys...", Some(85))),
        SaveKeys(keys),
        Send(UpdateLoadingProgress("Application ready", Some(100))),
        Send(SetLoading(false)),
        Send(KeysLoaded(keys, map[])),
        Send(DrawQrCode(publicKey)) ]
    case Ok(Encrypted(encryptedData)) => [Dispatch(ShowEncryptedQrEvent, encryptedData)]
    case Ok(Decrypted(decryptedData)) =>
      if c.age.IsIdentity(decryptedData) then [Send(ShowPrivateKeyImportConfirm(decryptedData))]
      else [Dispatch(W.ShowDialogEvent, decryptedData)]
    case Ok(PrivateKeyExported(encryptedPrivateKey)) => [Dispatch(ShowEncryptedQrEvent, encryptedPrivateKey)]
    case Ok(PublicKeyGenerated(publicKey)) => [Dispatch(PublicKeyGeneratedEvent, publicKey)]
    case Ok(QrDataProcessed(eventType, eventData)) => [Dispatch(eventType, eventData)]
    case Ok(Error(message)) => [Alert(message)]
  }

  // ---------------------------------------------------------------------------------------------
  // The helpers of `App`
  // ---------------------------------------------------------------------------------------------

  /** `initialize_app`: start the worker, or report why it could not be created. */
  function InitializeApp(s: AppState, env: Env): (r: Outcome)
    ensures env.workerError.None? ==> r.state == s.(worker := true) && r.effects == []
    ensures env.workerError.Some? ==> r.state == s && |r.effects| == 1 && r.effects[0].Alert?
  {
    match env.workerError
    case Some(e) => Outcome(s, [Alert(WorkerCreationFailure + e)])
    case None => Outcome(s.(worker := true), [])
  }

  /** `generate_new_keys`: ask the worker for a key pair; every failure turns loading off. */
  function GenerateNewKeys(s: AppState, env: Env): (r: Outcome)
    ensures r.state == s
    ensures Post(GenerateKeyPair) in r.effects <==> s.worker && env.post.Delivered?
    ensures Send(SetLoading(false)) in r.effects <==> !(s.worker && env.post.Delivered?)
  {
    var starting := [Send(UpdateLoadingProgress(StartingKeyGenerationText, Some(40)))];
    if s.worker then
      var generating := starting + [Send(UpdateLoadingProgress(GeneratingKeysText, Some(50)))];
      match env.post
      case Delivered => Outcome(s, generating + [Post(GenerateKeyPair)])
      case PostFailed(e) =>
        Outcome(s, generating + [Alert(KeyGenerationPostFailure + e), Send(SetLoading(false))])
      case SerializeFailed(e) =>
        Outcome(s, generating + [Alert(KeyGenerationSerializeFailure + e), Send(SetLoading(false))])
    else
      Outcome(s, starting + [Alert(KeyGenerationNoWorkerText), Send(SetLoading(false))])
  }

  /** `add_contact`: insert (or overwrite) one entry and save the whole table. */
  function AddContact(s: AppState, name: string, publicKey: string): (r: Outcome)
    ensures name in r.state.contacts && r.state.contacts[name] == publicKey
    ensures forall k | k != name :: k in r.state.contacts <==> k in s.contacts
    ensures forall k | k != name && k in s.contacts :: r.state.contacts[k] == s.contacts[k]
    ensures r.state == s.(contacts := r.state.contacts)
    ensures r.effects == [SaveContacts(r.state.contacts)]
  {
    var contacts := s.contacts[name := publicKey];
    Outcome(s.(contacts := contacts), [SaveContacts(contacts)])
  }

  /** `delete_contact`: remove one entry, if present, and save the whole table. */
  function DeleteContact(s: AppState, name: string): (r: Outcome)
    ensures name !in r.state.contacts
    ensures forall k | k != name :: k in r.state.contacts <==> k in s.contacts
    ensures forall k | k in r.state.contacts :: r.state.contacts[k] == s.contacts[k]
    ensures r.state == s.(contacts := r.state.contacts)
    ensures r.effects == [SaveContacts(r.state.contacts)]
  {
    var contacts := s.contacts - {name};
    Outcome(s.(contacts := contacts), [SaveContacts(contacts)])
  }

  /** `decrypt_and_show_message`: ask the worker to decrypt with the user's own private key. */
  function DecryptAndShowMessage(s: AppState, ciphertext: string, env: Env): (r: Outcome)
    ensures r.state == s && |r.effects| == 1
    ensures r.effects[0].Post? <==> s.myKeys.Some? && s.worker && env.post.Delivered?
    ensures r.effects[0].Post? ==> r.effects[0].request == Decrypt(s.myKeys.value.privateKey, ciphertext)
    ensures !r.effects[0].Post? ==> r.effects[0].Alert?
  {
    match s.myKeys
    case None => Outcome(s, [Alert(NoPrivateKeyText)])
    case Some(keys) =>
      if !s.worker then Outcome(s, [Alert(DecryptNoWorkerText)])
      else
        match env.post
        case Delivered => Outcome(s, [Post(Decrypt(keys.privateKey, ciphertext))])
        case PostFailed(_) => Outcome(s, [Alert(DecryptPostFailedText)])
        case SerializeFailed(_) => Outcome(s, [Alert(DecryptSerializeFailedText)])
  }

  // ---------------------------------------------------------------------------------------------
  // The arms of `update` that do more than set flags
  // ---------------------------------------------------------------------------------------------

  /** `KeysLoaded`: adopt the keys and the contact table, stop loading, and draw the key's QR code. */
  function OnKeysLoaded(s: AppState, keys: KeyPair, contacts: Contacts): (r: Outcome)
    ensures r.state.myKeys == Some(keys) && r.state.contacts == contacts && !r.state.isLoading
    ensures r.state == s.(myKeys := r.state.myKeys, contacts := r.state.contacts, isLoading := false)
    ensures r.effects == [Send(DrawQrCode(keys.publicKey))]
  {
    Outcome(s.(myKeys := Some(keys), contacts := contacts, isLoading := false), [Send(DrawQrCode(keys.publicKey))])
  }

  /** `ShowDialog`: show the message. */
  function OnShowDialog(s: AppState, text: string): (r: Outcome)
    ensures r.state == s.(dialogMessage := Some(text)) && r.effects == []
  {
    Outcome(s.(dialogMessage := Some(text)), [])
  }

  /** `ShowDialog` as written: logging the message cut at byte 50 panics (`None`) when that byte
      falls inside a character. */
  function OnShowDialogAsWritten(s: AppState, text: string): (r: Option<Outcome>)
    ensures r.None? <==> PreviewAsWritten(text).None?
    ensures r.Some? ==> r.value == OnShowDialog(s, text)
  {
    match PreviewAsWritten(text)
    case None => None
    case Some(_) => Some(OnShowDialog(s, text))
  }

  /**
    * The `encrypt_message` custom event: unparseable JSON is ignored; missing fields, an unknown
    * contact, a missing worker and a failed post each show a dialog; only a known contact and a
    * delivered post send the contact's key and the message to the worker.
    */
  function OnEncryptRequest(s: AppState, data: string, env: Env): (r: seq<Effect>)
    ensures env.json.parseFields(data).None? ==> r == []
    ensures |r| <= 1
    ensures (r != [] && r[0].Post?) <==>
      && env.json.parseFields(data).Some?
      && env.json.parseFields(data).value.contact.Some?
      && env.json.parseFields(data).value.message.Some?
      && env.json.parseFields(data).value.contact.value in s.contacts
      && s.worker && env.post.Delivered?
    ensures forall e | e in r && e.Post? ::
      var fields := env.json.parseFields(data).value;
      e.request == Encrypt(s.contacts[fields.contact.value], fields.message.value)
    ensures
      && env.json.parseFields(data).Some?
      && env.json.parseFields(data).value.contact.Some?
      && env.json.parseFields(data).value.message.Some?
      && env.json.parseFields(data).value.contact.value !in s.contacts
      ==> r == [Send(ShowDialog("Contact '" + env.json.parseFields(data).value.contact.value + "' not found"))]
  {
    match env.json.parseFields(data)
    case None => []
    case Some(fields) =>
      if fields.contact.None? || fields.message.None? then
        [Send(ShowDialog(InvalidEncryptRequestText))]
      else
        var contact := fields.contact.value;
        if contact !in s.contacts then [Send(ShowDialog("Contact '" + contact + "' not found"))]
        else if !s.worker then [Send(ShowDialog(WorkerUnavailableText))]
        else
          match env.post
          case Delivered => [Post(Encrypt(s.contacts[contact], fields.message.value))]
          case SerializeFailed(_) => [Send(ShowDialog(EncryptSerializeFailedText))]
          case PostFailed(_) => [Send(ShowDialog(EncryptPostFailedText))]
  }

  /** `HandleCustomEvent`: turn a custom event into messages, never changing the state itself. */
  function OnCustomEvent(s: AppState, eventType: string, data: string, env: Env): (r: seq<Effect>)
    ensures eventType == ProcessQrDataEvent ==> r == [ProcessQrData(env.crates, data)]
    ensures eventType == W.AddContactEvent ==> r == [Send(ShowAddContactDialog(data)), Send(HideQrReader)]
    ensures eventType == DeleteContactEvent ==>
      (env.json.parseString(data).Some? ==>
         r == [Send(ShowDeleteConfirm(env.json.parseString(data).value)), Send(HideQrReader)]) &&
      (env.json.parseString(data).None? ==> r == [])
    ensures eventType == W.DecryptEvent ==> r == [Send(DecryptMessage(data)), Send(HideQrReader)]
    ensures eventType == W.ShowDialogEvent ==> r == [Send(ShowDialog(data)), Send(HideQrReader)]
    ensures eventType == ShowEncryptedQrEvent ==> r == [Send(ShowEncryptedQr(data))]
    ensures eventType == EncryptMessageEvent ==> r == OnEncryptRequest(s, data, env)
    ensures eventType == PublicKeyGeneratedEvent ==>
      (s.privateKeyToImport.Some? ==> r == [Send(ImportPrivateKeyWithPublicKey(s.privateKeyToImport.value, data))]) &&
      (s.privateKeyToImport.None? ==> r == [])
    ensures eventType !in {ProcessQrDataEvent, W.AddContactEvent, DeleteContactEvent, W.DecryptEvent,
                           W.ShowDialogEvent, ShowEncryptedQrEvent, EncryptMessageEvent, PublicKeyGeneratedEvent}
      ==> r == []
  {
    if eventType == ProcessQrDataEvent then [ProcessQrData(env.crates, data)]
    else if eventType == W.AddContactEvent then [Send(ShowAddContactDialog(data)), Send(HideQrReader)]
    else if eventType == DeleteContactEvent then
      match env.json.parseString(data)
      case Some(name) => [Send(ShowDeleteConfirm(name)), Send(HideQrReader)]
      case None => []
    else if eventType == W.DecryptEvent then [Send(DecryptMessage(data)), Send(HideQrReader)]
    else if eventType == W.ShowDialogEvent then [Send(ShowDialog(data)), Send(HideQrReader)]
    else if eventType == ShowEncryptedQrEvent then [Send(ShowEncryptedQr(data))]
    else if eventType == EncryptMessageEvent then OnEncryptRequest(s, data, env)
    else if eventType == PublicKeyGeneratedEvent then
      match s.privateKeyToImport
      case Some(privateKey) => [Send(ImportPrivateKeyWithPublicKey(privateKey, data))]
      case None => []
    else []
  }

  /** `ExportPrivateKey`: send the private key, to be encrypted to the named contact, to the
      worker; whichever branch is taken, the export dialog ends hidden. */
  function OnExportPrivateKey(s: AppState, name: string, env: Env): (r: Outcome)
    ensures r.state == s.(exportPrivateKeyDialogVisible := false)
    ensures s.myKeys.None? ==> r.effects == [Send(ShowDialog(NoPrivateKeyText))]
    ensures s.myKeys.Some? && name !in s.contacts ==> r.effects == [Send(ShowDialog(ContactNotFoundText))]
    ensures s.myKeys.Some? && name in s.contacts ==>
      && (!s.worker ==> r.effects == [])
      && (s.worker && env.post.Delivered? ==>
            r.effects == [Post(MainMessage.ExportPrivateKey(s.contacts[name], s.myKeys.value.privateKey))])
      && (s.worker && !env.post.Delivered? ==> |r.effects| == 1 && !r.effects[0].Post?)
  {
    var hidden := s.(exportPrivateKeyDialogVisible := false);
    match s.myKeys
    case None => Outcome(hidden, [Send(ShowDialog(NoPrivateKeyText))])
    case Some(keys) =>
      if name !in s.contacts then Outcome(hidden, [Send(ShowDialog(ContactNotFoundText))])
      else if !s.worker then Outcome(hidden, [])
      else
        match env.post
        case Delivered => Outcome(hidden, [Post(MainMessage.ExportPrivateKey(s.contacts[name], keys.privateKey))])
        case PostFailed(_) => Outcome(hidden, [Send(ShowDialog(ExportPostFailedText))])
        case SerializeFailed(_) => Outcome(hidden, [Send(ShowDialog(ExportSerializeFailedText))])
  }

  /** The import state with no key pending and the confirmation hidden. */
  function ClearImport(s: AppState): (t: AppState)
    ensures t.privateKeyToImport.None? && !t.privateKeyImportConfirmVisible
    ensures t.(privateKeyImportConfirmVisible := s.privateKeyImportConfirmVisible, privateKeyToImport := s.privateKeyToImport) == s
  {
    s.(privateKeyImportConfirmVisible := false, privateKeyToImport := None)
  }

  /**
    * `ConfirmImportPrivateKey`: ask the worker for the public key of the pending private key. Only
    * a delivered request keeps the import pending; every other path clears it.
    */
  function OnConfirmImport(s: AppState, env: Env): (r: Outcome)
    ensures s.privateKeyToImport.Some? && s.worker && env.post.Delivered? ==>
      r == Outcome(s, [Post(GeneratePublicKeyFromPrivate(s.privateKeyToImport.value))])
    ensures !(s.privateKeyToImport.Some? && s.worker && env.post.Delivered?) ==>
      r.state == ClearImport(s) && forall e | e in r.effects :: !e.Post?
  {
    match s.privateKeyToImport
    case None => Outcome(ClearImport(s), [])
    case Some(privateKey) =>
      if !s.worker then Outcome(ClearImport(s), [Send(ShowDialog(WorkerUnavailableText))])
      else
        match env.post
        case Delivered => Outcome(s, [Post(GeneratePublicKeyFromPrivate(privateKey))])
        case PostFailed(_) => Outcome(ClearImport(s), [Send(ShowDialog(ImportPostFailedText))])
        case SerializeFailed(_) =>
          Outcome(ClearImport(s), [Send(ShowDialog(ImportSerializeFailedText))])
  }

  /** `ImportPrivateKeyWithPublicKey`: the pair replaces the user's keys wholesale, the import
      state is cleared, and the pair is saved and its QR code redrawn. */
  function OnImportWithPublicKey(s: AppState, privateKey: string, publicKey: string): (r: Outcome)
    ensures r.state.myKeys == Some(KeyPair(publicKey, privateKey))
    ensures r.state == ClearImport(s).(myKeys := r.state.myKeys)
    ensures r.effects == [SaveKeys(KeyPair(publicKey, privateKey)), Send(DrawQrCode(publicKey)), Send(ShowDialog(ImportedText))]
  {
    var keys := KeyPair(publicKey, privateKey);
    Outcome(ClearImport(s).(myKeys := Some(keys)),
            [SaveKeys(keys), Send(DrawQrCode(publicKey)),
             Send(ShowDialog(ImportedText))])
  }

  /**
    * `ConfirmAddContact`: with a key pending and a name that is not blank, the (untrimmed) name is
    * bound to the key and the dialog closes; otherwise nothing at all happens.
    */
  function OnConfirmAddContact(s: AppState, name: string): (r: Outcome)
    ensures s.publicKeyToAdd.Some? && !IsBlank(name) ==>
      && r.state.contacts == s.contacts[name := s.publicKeyToAdd.value]
      && r.state == s.(contacts := r.state.contacts, addContactDialogVisible := false, publicKeyToAdd := None)
      && r.effects == [SaveContacts(r.state.contacts)]
    ensures !(s.publicKeyToAdd.Some? && !IsBlank(name)) ==> r == Outcome(s, [])
  {
    TrimEmptyIffBlank(name);
    match s.publicKeyToAdd
    case None => Outcome(s, [])
    case Some(publicKey) =>
      if Trim(name) != [] then
        var added := AddContact(s, name, publicKey);
        Outcome(added.state.(addContactDialogVisible := false, publicKeyToAdd := None), added.effects)
      else Outcome(s, [])
  }

  /** `ConfirmDeleteContact`: remove that one contact and close the confirmation. */
  function OnConfirmDelete(s: AppState, name: string): (r: Outcome)
    ensures name !in r.state.contacts
    ensures forall k | k != name :: k in r.state.contacts <==> k in s.contacts
    ensures forall k | k in r.state.contacts :: r.state.contacts[k] == s.contacts[k]
    ensures r.state == s.(contacts := r.state.contacts, deleteConfirmVisible := false, deleteTarget := None)
    ensures r.effects == [SaveContacts(r.state.contacts)]
  {
    var deleted := DeleteContact(s, name);
    Outcome(deleted.state.(deleteConfirmVisible := false, deleteTarget := None), deleted.effects)
  }

  /** The messages whose arm may change the contact table. */
  predicate TouchesContacts(msg: Msg)
  {
    msg.KeysLoaded? || msg.ConfirmDeleteContact? || msg.ConfirmAddContact?
  }

  /** The messages whose arm may change the user's own keys. */
  predicate TouchesKeys(msg: Msg)
  {
    msg.KeysLoaded? || msg.ImportPrivateKeyWithPublicKey?
  }

  /** The messages whose arm may post a request to the worker. */
  predicate MayPost(msg: Msg)
  {
    msg.GenerateKeys? || msg.DecryptMessage? || msg.HandleCustomEvent? || msg.ExportPrivateKey? ||
    msg.ConfirmImportPrivateKey?
  }

  /** The messages whose arm only sets display fields and asks for no worker or storage work. */
  predicate IsViewMsg(msg: Msg)
  {
    || msg.DrawQrCode? || msg.ShowQrReader? || msg.StartCamera? || msg.HideQrReader?
    || msg.ShowMessageDialog? || msg.HideMessageDialog? || msg.ShowEncryptedQr? || msg.HideEncryptedQr?
    || msg.ShowDeleteConfirm? || msg.CancelDeleteContact? || msg.HideDialog? || msg.UpdateLoadingProgress?
    || msg.SetLoading? || msg.CopyPublicKey? || msg.CopyEncryptedMessage?
    || msg.ShowExportPrivateKeyDialog? || msg.HideExportPrivateKeyDialog?
    || msg.ShowPrivateKeyImportConfirm? || msg.HidePrivateKeyImportConfirm? || msg.CancelImportPrivateKey?
    || msg.ShowAddContactDialog? || msg.HideAddContactDialog? || msg.CancelAddContact?
    || msg.ShowResetConfirm? || msg.HideResetConfirm? || msg.ConfirmReset? || msg.CancelReset?
  }

  /** The display-only arms of `update`: they leave the contacts, the keys, the worker and the
      pending import key alone, except that the import flow's own messages set or clear it. */
  function ViewStep(s: AppState, msg: Msg): (r: Outcome)
    requires IsViewMsg(msg)
    ensures r.state.contacts == s.contacts && r.state.myKeys == s.myKeys && r.state.worker == s.worker
    ensures !(msg.ShowPrivateKeyImportConfirm? || msg.HidePrivateKeyImportConfirm? || msg.CancelImportPrivateKey?) ==>
      r.state.privateKeyToImport == s.privateKeyToImport
    ensures forall e | e in r.effects :: !e.Post?
  {
    match msg
    case DrawQrCode(publicKey) => Outcome(s, [DrawLater(PublicKeyCanvas, publicKey, 100)])
    case ShowQrReader => Outcome(s.(qrReaderVisible := true, cameraStarted := false), [])
    case StartCamera => Outcome(s.(cameraStarted := true), [StartReader])
    case HideQrReader => Outcome(s.(qrReaderVisible := false, cameraStarted := false), [StopReader])
    case ShowMessageDialog => Outcome(s.(messageDialogVisible := true), [])
    case HideMessageDialog => Outcome(s.(messageDialogVisible := false), [])
    case ShowEncryptedQr(data) =>
      Outcome(s.(encryptedQrData := Some(data), encryptedQrVisible := true), [DrawLater(EncryptedCanvas, data, 300)])
    case HideEncryptedQr => Outcome(s.(encryptedQrVisible := false, encryptedQrData := None), [])
    case ShowDeleteConfirm(name) => Outcome(s.(deleteTarget := Some(name), deleteConfirmVisible := true), [])
    case CancelDeleteContact => Outcome(s.(deleteConfirmVisible := false, deleteTarget := None), [])
    case HideDialog => Outcome(s.(dialogMessage := None), [])
    case UpdateLoadingProgress(text, progress) => Outcome(s.(loadingMessage := text, loadingProgress := progress), [])
    case SetLoading(loading) => Outcome(s.(isLoading := loading), [])
    case CopyPublicKey =>
      (match s.myKeys
       case Some(keys) => Outcome(s, [CopyToClipboard(keys.publicKey)])
       case None => Outcome(s, []))
    case CopyEncryptedMessage =>
      (match s.encryptedQrData
       case Some(data) => Outcome(s, [CopyToClipboard(data)])
       case None => Outcome(s, [Dispatch(W.ShowDialogEvent, NothingToCopyText)]))
    case ShowExportPrivateKeyDialog => Outcome(s.(exportPrivateKeyDialogVisible := true), [])
    case HideExportPrivateKeyDialog => Outcome(s.(exportPrivateKeyDialogVisible := false), [])
    case ShowPrivateKeyImportConfirm(privateKey) =>
      Outcome(s.(privateKeyToImport := Some(privateKey), privateKeyImportConfirmVisible := true), [])
    case HidePrivateKeyImportConfirm => Outcome(ClearImport(s), [])
    case CancelImportPrivateKey => Outcome(ClearImport(s), [])
    case ShowAddContactDialog(publicKey) =>
      Outcome(s.(publicKeyToAdd := Some(publicKey), addContactDialogVisible := true), [])
    case HideAddContactDialog => Outcome(s.(addContactDialogVisible := false, publicKeyToAdd := None), [])
    case CancelAddContact => Outcome(s.(addContactDialogVisible := false, publicKeyToAdd := None), [])
    case ShowResetConfirm => Outcome(s.(resetConfirmVisible := true), [])
    case HideResetConfirm => Outcome(s.(resetConfirmVisible := false), [])
    case ConfirmReset => Outcome(s.(resetConfirmVisible := false), [ClearStorage, Reload])
    case CancelReset => Outcome(s.(resetConfirmVisible := false), [])
  }

  /** The arms of `update` that manage keys, contacts and the worker. */
  function ControlStep(s: AppState, msg: Msg, env: Env): (r: Outcome)
    requires !IsViewMsg(msg)
    ensures !TouchesContacts(msg) ==> r.state.contacts == s.contacts
    ensures !TouchesKeys(msg) ==> r.state.myKeys == s.myKeys
    ensures !msg.LoadMyKeys? ==> r.state.worker == s.worker
    ensures forall e | e in r.effects && e.Post? :: MayPost(msg) && s.worker && env.post.Delivered?
  {
    match msg
    case LoadMyKeys => InitializeApp(s, env)
    case GenerateKeys => GenerateNewKeys(s, env)
    case KeysLoaded(keys, contacts) => OnKeysLoaded(s, keys, contacts)
    case ConfirmDeleteContact(name) => OnConfirmDelete(s, name)
    case DecryptMessage(ciphertext) => DecryptAndShowMessage(s, ciphertext, env)
    case ShowDialog(text) => OnShowDialog(s, text)
    case HandleCustomEvent(eventType, data) => Outcome(s, OnCustomEvent(s, eventType, data, env))
    case ExportPrivateKey(name) => OnExportPrivateKey(s, name, env)
    case ConfirmImportPrivateKey => OnConfirmImport(s, env)
    case ImportPrivateKeyWithPublicKey(privateKey, publicKey) => OnImportWithPublicKey(s, privateKey, publicKey)
    case ConfirmAddContact(name) => OnConfirmAddContact(s, name)
  }

  /**
    * `App::update`: one message, one new state and the effects it requests. Only three messages
    * can change the contact table, two the user's keys and five post to the worker, which they do
    * only when a worker exists and the browser accepts the post.
    */
  function Step(s: AppState, msg: Msg, env: Env): (r: Outcome)
    ensures !TouchesContacts(msg) ==> r.state.contacts == s.contacts
    ensures !TouchesKeys(msg) ==> r.state.myKeys == s.myKeys
    ensures !msg.LoadMyKeys? ==> r.state.worker == s.worker
    ensures forall e | e in r.effects && e.Post? :: MayPost(msg) && s.worker && env.post.Delivered?
  {
    if IsViewMsg(msg) then ViewStep(s, msg) else ControlStep(s, msg, env)
  }

  /** Every message of `msgs` leaves the contact table alone. */
  predicate NoneTouchContacts(msgs: seq<Msg>)
  {
    forall i | 0 <= i < |msgs| :: !TouchesContacts(msgs[i])
  }

  /** Every message of `msgs` leaves the user's keys alone. */
  predicate NoneTouchKeys(msgs: seq<Msg>)
  {
    forall i | 0 <= i < |msgs| :: !TouchesKeys(msgs[i])
  }

  /**
    * The component handling queued messages one at a time, as Yew's scheduler does: each message
    * sees the state the previous one left, and the effects accumulate in order. A run of messages
    * none of which may touch the contacts (or the keys) leaves them as they were.
    */
  function Run(s: AppState, msgs: seq<Msg>, env: Env): (r: Outcome)
    ensures NoneTouchContacts(msgs) ==> r.state.contacts == s.contacts
    ensures NoneTouchKeys(msgs) ==> r.state.myKeys == s.myKeys
    ensures (forall i | 0 <= i < |msgs| :: !msgs[i].LoadMyKeys?) ==> r.state.worker == s.worker
    decreases |msgs|
  {
    if msgs == [] then Outcome(s, [])
    else
      var first := Step(s, msgs[0], env);
      var rest := Run(first.state, msgs[1..], env);
      Outcome(rest.state, first.effects + rest.effects)
  }
}
