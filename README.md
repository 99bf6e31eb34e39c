# qr-encrypt, modelled in Dafny

qr-encrypt is a browser application, written in Rust and compiled to WebAssembly, for exchanging
age-encrypted (X25519) messages by QR code. This project models three parts of it and proves
properties of the model:

- **The main-thread component** (`src/lib.rs`). This covers:
  - the input classifier `process_qr_data`, with `is_private_key_data` and `is_base64`;
  - the component state `AppState` and its `Default`;
  - every arm of `App::update`, with the helpers `initialize_app`, `generate_new_keys`,
    `add_contact`, `delete_contact` and `decrypt_and_show_message`;
  - the routing of the worker's replies to custom events and messages.
- **The cryptography worker** (`src/worker.rs`). This covers its own `process_qr_data`,
  `encrypt_message`, `decrypt_message`, `generate_public_key_from_private`,
  `generate_key_pair_with_progress`, and the `worker_main` dispatcher, which answers each message
  with one posted reply (with the corrected log preview of "## Findings"; as written, the
  dispatcher panics on the inputs listed there).
- **The WebRTC wrapper** (`src/rtc.rs`). This is the `Connection` object, with its handler slots,
  its ICE-state reaction, the offer/answer exchange, the signal slot, sending over the data
  channel, `wait_for_open` and `close`.

Files:

- `prelude.dfy`: `Option`, `Result`, bytes.
- `text.dfy`: Rust's `str` as the model needs it: UTF-8 byte length, `String::from_utf8`, slicing
  at a byte index (which panics off a char boundary), and `trim`.
- `common.dfy`: the worker protocol (`MainMessage`, `WorkerMessage`), `SessionDescription` and
  `RtcMessage`.
- `foreign.dfy`: the age, base64 and serde_json crates.
  - Each crate is a record of total functions that the model takes as a parameter and never looks
    inside.
  - What the crates promise is stated as predicates: round trips of key texts, sealed messages
    opening with the matching identity, base64 round trips. Lemmas require these predicates
    explicitly.
- `worker.dfy`: the worker operations, its reply function `Reply`, and the class `Scope`, which
  logs what the worker posts.
- `appmodel.dfy`: the main thread as functions. `Step` takes a state and a message to a new state
  plus the effects requested, as a list. It is split into `ViewStep` for the display-only arms and
  `ControlStep` for the rest.
- `app.dfy`: the class `App`, whose `state` field the methods update in place. Each method is
  proved to agree with its function in `appmodel.dfy` and appends that function's effects to
  `outbox`.
- `flows.dfy`: properties that cross the thread boundary:
  - the ciphertext length window;
  - how the two classifiers differ;
  - a scanned key becoming a contact;
  - moving a private key to a second device;
  - a message round trip;
  - a wrong recipient;
  - the three panic sites.
- `rtc.dfy`: the class `Connection`. The browser's events (ICE-state change, ICE candidate, data
  channel received, channel open, channel message) are methods, and the browser's answers
  (created SDP, failed asynchronous steps, refused sends) are parameters. The file ends with
  scenario methods that run two connections through a handshake.

Notes on the code as written:

- **Classifier.** Both classifiers start at the public-key test (src/lib.rs:1814,
  src/worker.rs:382).
- **Undecryptable message.** The worker answers a ciphertext that does not open with an `Error`
  reply "❌ Error decrypting message" (src/worker.rs:134-136), which the main thread shows as an
  alert.
- **WebRTC.** No code sends a public key when the channel opens, and ICE failure only logs
  (src/rtc.rs:107-109).
- **rtc.rs stands alone.** `src/lib.rs` does not declare `rtc` as a module, and `src/rtc.rs`
  imports an `RtcMessage` that `src/common.rs` does not define. rtc.rs only passes an
  `&RtcMessage` to serde_json (src/rtc.rs:1, :324). The variants `PublicKey` and `EncryptedData`
  in `common.dfy` are an assumption; no member of the model depends on them, since a message
  reaches the channel only as `showMessage` of it.
- **Protocol variants rebuilt from their uses.** `src/common.rs:6-29` defines only `Ready`,
  `Generated`, `Encrypted`, `Decrypted` and `Error` for `WorkerMessage`, and only
  `GenerateKeyPair`, `Encrypt` and `Decrypt` for `MainMessage`. worker.rs and lib.rs also use
  `MainMessage::ExportPrivateKey`, `GeneratePublicKeyFromPrivate` and `ProcessQrData`, and
  `WorkerMessage::PrivateKeyExported`, `PublicKeyGenerated` and `QrDataProcessed`
  (src/worker.rs:145, :184, :218; src/lib.rs:471, :526, :828-838). `common.dfy` defines them
  with the fields those uses give them.

## Model

| member | source | states |
|---|---|---|
| Text.ByteLength | src/lib.rs:1820 | `str::len` counts UTF-8 bytes: it is the length of the encoding, between the number of characters and four times that |
| Text.DecodeEncode | src/worker.rs:309 | the UTF-8 bytes of any string decode back to it, so `from_utf8(message.as_bytes())` never fails |
| Text.EncodeDecode | src/worker.rs:353 | a byte sequence that decodes is exactly the encoding of what it decodes to |
| Text.AsciiByteLength | src/lib.rs:1820 | for ASCII text (all base64 text) the byte length is the character count |
| Text.EndIsBoundary | src/lib.rs:1811 | the end of a string is a char boundary, so a string of at most 50 bytes is previewed whole |
| Text.SliceTo | src/lib.rs:1811 | `&s[..k]` succeeds exactly at a char boundary and then yields the prefix of exactly k bytes |
| Text.Preview | src/lib.rs:1809-1812 | corrected preview: a prefix of at most 50 bytes, the whole string when it fits, otherwise the longest prefix that fits; it agrees with the as-written slice whenever that slice does not panic |
| Text.PreviewPanicsOnHiragana | src/lib.rs:1811 | the as-written slice panics on 17 hiragana letters, where byte 50 falls inside the 17th letter |
| Text.TrimEmptyIffBlank | src/lib.rs:614 | `name.trim().is_empty()` holds exactly when every character is white space |
| Worker.ProcessQrData | src/worker.rs:374-392 | never fails; routes to add_contact iff the text parses as a public key, to decrypt_message iff it does not and is base64 of 51..1999 bytes, otherwise to show_dialog with "Read data: " before the text |
| Worker.ProcessQrDataAsWritten | src/worker.rs:374-380 | the as-written worker classifier panics exactly when the 50-byte preview does, and otherwise routes as the corrected one |
| Worker.EncryptMessage | src/worker.rs:295-317 | fails (bad recipient) iff the public key does not parse; otherwise returns base64 of the age ciphertext of the message's UTF-8 bytes |
| Worker.DecryptMessage | src/worker.rs:319-357 | a bad identity, then bad base64, are errors; a ciphertext that fails to open is `Ok(None)`; plaintext that is not UTF-8 is an error; plaintext that opens and is UTF-8 gives `Ok(Some(t))` with t its decoding, and `Ok(Some(t))` happens only then |
| Worker.GeneratePublicKeyFromPrivate | src/worker.rs:359-372 | fails iff the private key does not parse; otherwise returns the text of its public key |
| Worker.GenerateKeyPairWithProgress | src/worker.rs:280-293 | never fails; returns the texts of a fresh identity's public key and of the identity |
| Worker.Reply | src/worker.rs:36-261 | every request gets its own success variant or an `Error`, never `Ready`; a message that does not deserialise gets the deserialisation error; each success carries the result of the matching operation; a decrypt that opens nothing answers "❌ Error decrypting message" |
| Worker.Posted | src/worker.rs:45-72 | a delivered reply (or an error) reaches the main thread as is; a refused success reply reaches it as an `Error` |
| Worker.Scope.constructor | src/worker.rs:267-277 | the worker's first post is `Ready` |
| Worker.Scope.OnMessage | src/worker.rs:33-261 | each incoming message appends exactly one post, and that post answers the message |
| Worker.GeneratedPairIsConsistent | src/worker.rs:280-293 | deriving the public key from a generated private key gives the generated public key |
| Worker.DerivedKeyIsRecipient | src/worker.rs:359-372 | a derived public key parses as a public key, so the worker classifier routes it to add_contact |
| Worker.EncryptThenDecrypt | src/worker.rs:295-357 | with sound crates, decrypting with an identity what was encrypted to its public key gives back the message |
| Worker.WrongIdentityIsNeutral | src/worker.rs:326-345 | with sound crates, decrypting with another identity gives `Ok(None)`, never an error or a wrong text |
| AppModel.DefaultState | src/lib.rs:99-124 | `AppState::default`: no keys, no contacts, every dialog and panel hidden, nothing pending, loading at 0 with "Initializing application...", no worker |
| AppModel.InitialState | src/lib.rs:135-165 | the state `create` builds is the default except for the loading text "Initializing..." |
| AppModel.ProcessQrData | src/lib.rs:1806-1827 | exactly one event; add_contact iff the text parses as a public or a private key; decrypt_message iff it is neither and is base64 of 51..1999 bytes; show_dialog with "Read data: " otherwise |
| AppModel.ProcessQrDataAsWritten | src/lib.rs:1806-1812 | the as-written main-thread classifier panics exactly when the 50-byte preview does |
| AppModel.OnWorkerMessage | src/lib.rs:737-860 | every reply yields at least one effect and never a post; ciphertexts and exported keys go to show_encrypted_qr; a decrypted private key opens the import confirmation, other plaintext goes to show_dialog; a generated key is announced; errors alert; a reply that does not deserialise alerts "❌ Key generation error: …" and ends loading; `Ready` loads stored keys or asks for generation, never both; `Generated` saves and loads the pair |
| AppModel.InitializeApp | src/lib.rs:723-863 | a created worker is recorded with no effect; a failure leaves the state and alerts once |
| AppModel.GenerateNewKeys | src/lib.rs:865-902 | the state is unchanged; the request is posted iff a worker exists and the post is delivered; loading is switched off exactly when it is not |
| AppModel.AddContact | src/lib.rs:904-910 | the name maps to the key, every other entry is unchanged, and the whole table is saved |
| AppModel.DeleteContact | src/lib.rs:912-918 | the name is absent, every other entry is unchanged, and the whole table is saved |
| AppModel.DecryptAndShowMessage | src/lib.rs:937-967 | one effect: the decrypt request with the user's own private key iff keys and a worker exist and the post is delivered, otherwise an alert |
| AppModel.OnKeysLoaded | src/lib.rs:179-187 | keys and contacts are adopted, loading stops, and the key's QR code is drawn |
| AppModel.OnShowDialog | src/lib.rs:288-296 | the dialog shows exactly the message, with nothing else changed |
| AppModel.OnShowDialogAsWritten | src/lib.rs:288-293 | the as-written arm panics exactly when the message's 50-byte preview does |
| AppModel.OnEncryptRequest | src/lib.rs:342-404 | unparseable JSON is ignored; at most one effect; an encrypt request is posted iff both fields are present, the contact is known, a worker exists and the post is delivered, and it carries that contact's key and the message; an unknown contact gets "Contact '…' not found" |
| AppModel.OnCustomEvent | src/lib.rs:314-417 | each event name gives its messages (add_contact: dialog and hide reader; delete_contact: the delete confirmation for a JSON-string name and hide reader, nothing when the name does not parse; decrypt_message; show_dialog; show_encrypted_qr; encrypt_message; public_key_generated only with a pending import); unknown names do nothing |
| AppModel.OnExportPrivateKey | src/lib.rs:466-507 | the export dialog always closes; no keys and an unknown contact each show a dialog; otherwise the private key is posted for the contact's public key iff a worker exists and the post is delivered |
| AppModel.ClearImport | src/lib.rs:562-565 | no import pending and the confirmation hidden; every other field kept |
| AppModel.OnConfirmImport | src/lib.rs:520-567 | with a pending key, a worker and a delivered post, the public key is requested and the import stays pending; on every other path the import is cleared and nothing is posted |
| AppModel.OnImportWithPublicKey | src/lib.rs:574-598 | the pair replaces the user's keys, the import is cleared, and the effects are exactly: save the pair, redraw its QR code, show the imported message |
| AppModel.OnConfirmAddContact | src/lib.rs:611-621 | with a pending key and a name that is not blank, the untrimmed name maps to the key, the dialog closes and the table is saved; otherwise nothing changes |
| AppModel.OnConfirmDelete | src/lib.rs:267-274 | the contact is removed, others are untouched, and the confirmation closes |
| AppModel.ViewStep | src/lib.rs:188-266 | the display-only arms never touch contacts, keys or the worker and never post; only the import confirmation's own messages change the pending import key |
| AppModel.ControlStep | src/lib.rs:167-650 | the other arms touch contacts only on KeysLoaded/ConfirmDeleteContact/ConfirmAddContact, keys only on KeysLoaded/ImportPrivateKeyWithPublicKey, and post only when a worker exists and the post is delivered |
| AppModel.Step | src/lib.rs:167-650 | `App::update`: only three messages change the contacts, two the keys, only LoadMyKeys the worker; a post happens only for the five posting messages, with a worker and a delivered post |
| AppModel.Run | src/lib.rs:167-168 | a run of messages none of which may touch the contacts (or keys, or worker) leaves them unchanged |
| AppComponent.App.constructor | src/lib.rs:135-165 | the initial state, with LoadMyKeys sent and the event listener installed |
| AppComponent.App.AddContact | src/lib.rs:904-910 | the in-place update agrees with `AppModel.AddContact` |
| AppComponent.App.DeleteContact | src/lib.rs:912-918 | the in-place update agrees with `AppModel.DeleteContact` |
| AppComponent.App.InitializeApp | src/lib.rs:723-863 | the in-place update agrees with `AppModel.InitializeApp` |
| AppComponent.App.GenerateNewKeys | src/lib.rs:865-902 | the state is unchanged and the effects are those of `AppModel.GenerateNewKeys` |
| AppComponent.App.DecryptAndShowMessage | src/lib.rs:937-967 | the state is unchanged and the effects are those of `AppModel.DecryptAndShowMessage` |
| AppComponent.App.ExportPrivateKey | src/lib.rs:466-507 | the in-place update agrees with `AppModel.OnExportPrivateKey` |
| AppComponent.App.ClearImport | src/lib.rs:562-565 | the in-place update agrees with `AppModel.ClearImport` |
| AppComponent.App.ConfirmImportPrivateKey | src/lib.rs:520-567 | the in-place update agrees with `AppModel.OnConfirmImport` |
| AppComponent.App.ImportPrivateKeyWithPublicKey | src/lib.rs:574-598 | the in-place update agrees with `AppModel.OnImportWithPublicKey` |
| AppComponent.App.ConfirmAddContact | src/lib.rs:611-621 | the in-place update agrees with `AppModel.OnConfirmAddContact` |
| AppComponent.App.ConfirmDeleteContact | src/lib.rs:267-274 | the in-place update agrees with `AppModel.OnConfirmDelete` |
| AppComponent.App.UpdateView | src/lib.rs:188-266 | the in-place update agrees with `AppModel.ViewStep` |
| AppComponent.App.UpdateControl | src/lib.rs:167-650 | the in-place update agrees with `AppModel.ControlStep` |
| AppComponent.App.Update | src/lib.rs:167-650 | `update` on the component agrees with `AppModel.Step` |
| Flows.ClassifierWindow | src/lib.rs:1820 | for base64 text that is no key, both classifiers decrypt exactly when the length is strictly between 50 and 2000 |
| Flows.ClassifiersAgree | src/lib.rs:1815-1826 | the two classifiers agree except on a private key that is not a public key, which only the main thread routes to add_contact |
| Flows.ScannedKeyBecomesContact | src/lib.rs:611-621 | scanning a public or private key and confirming a non-blank name adds exactly that entry, closes the dialog and reader, and saves the table |
| Flows.ExportThenImport | src/lib.rs:818-824 | exporting A's private key to contact B, decrypting it on B, confirming the import and receiving the derived public key leaves B with exactly A's key pair |
| Flows.MessageRoundTrip | src/lib.rs:342-404 | a message encrypted to contact B is shown as a QR code and, decrypted on B, shows the same text in the dialog |
| Flows.NotForMeIsAlerted | src/worker.rs:130-136 | a ciphertext for someone else yields the "❌ Error decrypting message" reply and an alert, never a dialog |
| Flows.PreviewPanicSites | src/lib.rs:1809-1812 | on 17 hiragana, all three as-written sites panic while the corrected classifier and dialog handle the text |
| Rtc.OpenCalls | src/rtc.rs:172-179 | a channel's open event runs at most one closure: the waiting callback, or the data-channel-open handler if one is set |
| Rtc.Connection.constructor | src/rtc.rs:69-89 | no channel, not the initiator, no stored signal, no handlers, no descriptions |
| Rtc.Connection.SetConnectionEstablishedHandler | src/rtc.rs:138-146 | replaces the handler, changes nothing else, always Ok |
| Rtc.Connection.SetDataChannelOpenHandler | src/rtc.rs:148-156 | replaces the handler, changes nothing else, always Ok |
| Rtc.Connection.OnIceConnectionStateChange | src/rtc.rs:94-120 | Connected or Completed run the connection-established handler once if set; no other state runs anything |
| Rtc.Connection.StartConnection | src/rtc.rs:158-223 | becomes initiator and stores one fresh "data" channel even if a later step fails; installs the offer signal; a failed create or set is returned; otherwise the local description is the offer |
| Rtc.Connection.OnIceCandidate | src/rtc.rs:190-207 | only the end of gathering runs the signal callback, with the JSON of the local SDP under the installed sdp_type |
| Rtc.Connection.RecvOffer | src/rtc.rs:225-304 | the channel listener is installed first; a parse failure returns "Failed to parse offer: …" with no description set; otherwise the remote description is an offer whatever sdp_type said, the answer signal is installed, and the local answer set |
| Rtc.Connection.OnDataChannel | src/rtc.rs:234-254 | with a listener, the received channel gets the forwarding open handler and replaces the connection's channel |
| Rtc.Connection.RecvAnswer | src/rtc.rs:306-315 | a parse failure returns "Failed to parse answer: …" and changes nothing; otherwise the remote description is the answer |
| Rtc.Connection.ProcessSignal | src/rtc.rs:317-322 | keeps only the latest signal, always Ok |
| Rtc.Connection.SendMessage | src/rtc.rs:324-345 | no channel and a channel that is not open are errors that send nothing; Ok iff the channel is open and the browser accepts; then exactly the message's JSON is sent |
| Rtc.Connection.SendData | src/rtc.rs:347-354 | no channel is Ok and sends nothing; otherwise no ready-state check, only the browser's refusal is an error |
| Rtc.Connection.SetDataHandler | src/rtc.rs:356-370 | installs the message handler on the current channel, if any, always Ok |
| Rtc.Connection.OnChannelMessage | src/rtc.rs:359-363 | a text payload runs the message handler with that text; anything else does nothing |
| Rtc.Connection.WaitForOpen | src/rtc.rs:372-391 | no channel: no-op; open channel: the callback runs once at once; otherwise the callback replaces the channel's open handler; always Ok |
| Rtc.Connection.OnChannelOpen | src/rtc.rs:172-182 | the channel becomes open and its open handler runs |
| Rtc.Connection.Close | src/rtc.rs:393-400 | the channel, if any, starts closing and the peer connection is closed |
| Rtc.Handshake | src/rtc.rs:158-315 | when session JSON round-trips, offer and answer exchanged through the callbacks leave each side with the other's description as remote |
| Rtc.SendBeforeAndAfterOpen | src/rtc.rs:324-345 | sending on a connecting channel is refused with the "not ready (state: Connecting)" error; after open exactly the message's JSON is sent |
| Rtc.WaitForOpenDisplacesHandler | src/rtc.rs:372-391 | `wait_for_open` on a connecting channel displaces the data-channel-open handler: on open only the waiting callback runs |
| Rtc.OpenRunsHandler | src/rtc.rs:171-181 | without `wait_for_open`, opening the initiator's channel runs the data-channel-open handler once |

## Left out

- Worker.Reply, Worker.Scope.OnMessage, AppModel.OnCustomEvent, AppModel.ControlStep, AppModel.Step and AppComponent.App.Update: these use the corrected log previews of "## Findings" (`Worker.ProcessQrData`, `AppModel.ProcessQrData`, `AppModel.OnShowDialog`). On the inputs listed there (17 × U+3042, or "Read data: " followed by 20 × U+00E9), the code as written panics and posts or shows nothing, while these members answer. The as-written behaviour is stated separately by the `…AsWritten` members.

- **Browser I/O is recorded as `Effect` values, not performed.** This covers localStorage, alerts
  and console, the clipboard via `js_sys::eval` and its quote escaping, timers, page reload, canvas
  drawing, and custom-event dispatch. What `load_my_keys`/`load_contacts` return is the `Stored`
  parameter.
- **Asynchronous ordering.** `spawn_local` and `Closure::forget` are not modelled. Effects are
  listed in the order the code requests them; when asynchronous tasks complete is not modelled.
- **Rendering.** The `view`/`render_*` functions and the QR drawing are left out. They are UI
  work, with floating-point canvas geometry.
- **Foreign crates.** The internals of age, base64 and serde_json are parameters. The rendering of
  their errors with `{:?}` is reduced to one `describe` function.
- **Worker serialisation failures.** A failure of `serde_wasm_bindgen::to_value` on a worker
  reply, and the `unwrap` calls inside `error_report`, are left out. Only the browser refusing a
  post is modelled.
- **Requests and replies are not correlated.** Replies are matched to requests only by their tag.
  The model routes each reply on its own.
- **Mutexes and channels.** `Arc<Mutex<…>>` locking is left out; the wasm build runs single
  threaded and a lock never fails there. The `Reflect::get(...).as_string().unwrap()` on a created
  SDP is also left out: the browser always supplies the string, so the parameter is that string.
- **WebRTC internals.** The STUN server list, ICE gathering and `RtcPeerConnection::new`'s
  `expect` are left out. The data channel's asynchronous transition from closing to closed is not
  modelled.
- **serde_json always succeeds here.** Serialising a `SessionDescription` or an `RtcMessage` is
  assumed to succeed, as it does for these plain string records.
- AppModel.ControlStep: proved at the level of which state parts may change and when a post may
  happen. The effects of each arm are stated on the arm's own function.
- AppModel.Run: states only what stays unchanged over a run. The concatenation law over two runs
  is not stated.

## Findings

| source | as written | input that shows it | evidently intended | confidence | as-written member | corrected member |
|---|---|---|---|---|---|---|
| src/worker.rs:377-380 | logs `&data[..data.len().min(50)]`, which panics when byte 50 is not a char boundary | 17 × U+3042 (51 bytes; byte 50 is inside the last letter) | a preview cut at the last char boundary at or below 50 bytes, so any scanned text is classified | not executed | Worker.ProcessQrDataAsWritten | Worker.ProcessQrData |
| src/lib.rs:1809-1812 | the same preview in the main-thread classifier panics on the same input | 17 × U+3042 | the same corrected preview | not executed | AppModel.ProcessQrDataAsWritten | AppModel.ProcessQrData |
| src/lib.rs:290-293 | the `ShowDialog` arm logs `&message[..message.len().min(50)]` and panics on the same input, including "Read data: " plus long non-ASCII text and decrypted messages | 17 × U+3042 | the same corrected preview | not executed | AppModel.OnShowDialogAsWritten | AppModel.OnShowDialog |
