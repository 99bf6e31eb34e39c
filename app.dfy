/**
  * The Yew component of lib.rs as an object: `App` holds its `AppState` and an outbox of the effects
  * it has requested, and `Update` assigns the state's fields arm by arm as `App::update` does. Every method is proved to agree with the pure transition of `AppModel`.
  */
module AppComponent {
  import opened Prelude
  import opened Text
  import opened Foreign
  import opened Common
  import opened AppModel
  import W = Worker

  class App {
    /** `App::state`. */
    var state: AppState

    /** Every effect requested so far, in order. */
    var outbox: seq<Effect>

    /** `App::create`: the initial state; the first message loads the keys, and the custom-event
        listener is installed. */
    constructor ()
      ensures state == InitialState()
      ensures outbox == [Send(LoadMyKeys), ListenForEvents]
    {
      state := AppState(None, map[], false, false, None, None, false, false, None, false, None,
                        true, "Initializing...", Some(0), false, false, false, None, false, None, false);
      outbox := [Send(LoadMyKeys), ListenForEvents];
    }

    /** `add_contact`: insert into the table in place, then save it. */
    method AddContact(name: string, publicKey: string)
      modifies this
      ensures state == AppModel.AddContact(old(state), name, publicKey).state
      ensures outbox == old(outbox) + AppModel.AddContact(old(state), name, publicKey).effects
    {
      state := state.(contacts := state.contacts[name := publicKey]);
      outbox := outbox + [SaveContacts(state.contacts)];
    }

    /** `delete_contact`: remove from the table in place, then save it. */
    method DeleteContact(name: string)
      modifies this
      ensures state == AppModel.DeleteContact(old(state), name).state
      ensures outbox == old(outbox) + AppModel.DeleteContact(old(state), name).effects
    {
      state := state.(contacts := state.contacts - {name});
      outbox := outbox + [SaveContacts(state.contacts)];
    }

    /** `initialize_app`. */
    method InitializeApp(env: Env)
      modifies this
      ensures state == AppModel.InitializeApp(old(state), env).state
      ensures outbox == old(outbox) + AppModel.InitializeApp(old(state), env).effects
    {
      if env.workerError.Some? {
        outbox := outbox + [Alert(WorkerCreationFailure + env.workerError.value)];
        return;
      }
      state := state.(worker := true);
    }

    /** `generate_new_keys`. */
    method GenerateNewKeys(env: Env)
      modifies this
      ensures state == old(state)
      ensures outbox == old(outbox) + AppModel.GenerateNewKeys(old(state), env).effects
    {
      outbox := outbox + [Send(UpdateLoadingProgress(StartingKeyGenerationText, Some(40)))];
      if state.worker {
        outbox := outbox + [Send(UpdateLoadingProgress(GeneratingKeysText, Some(50)))];
        match env.post {
          case Delivered =>
            outbox := outbox + [Post(GenerateKeyPair)];
          case PostFailed(e) =>
            outbox := outbox + [Alert(KeyGenerationPostFailure + e), Send(SetLoading(false))];
          case SerializeFailed(e) =>
            outbox := outbox + [Alert(KeyGenerationSerializeFailure + e), Send(SetLoading(false))];
        }
      } else {
        outbox := outbox + [Alert(KeyGenerationNoWorkerText), Send(SetLoading(false))];
      }
    }

    /** `decrypt_and_show_message`. */
    method DecryptAndShowMessage(ciphertext: string, env: Env)
      modifies this
      ensures state == old(state)
      ensures outbox == old(outbox) + AppModel.DecryptAndShowMessage(old(state), ciphertext, env).effects
    {
      if state.myKeys.None? {
        outbox := outbox + [Alert(NoPrivateKeyText)];
      } else if !state.worker {
        outbox := outbox + [Alert(DecryptNoWorkerText)];
      } else {
        var privateKey := state.myKeys.value.privateKey;
        match env.post {
          case Delivered => outbox := outbox + [Post(Decrypt(privateKey, ciphertext))];
          case PostFailed(_) => outbox := outbox + [Alert(DecryptPostFailedText)];
          case SerializeFailed(_) => outbox := outbox + [Alert(DecryptSerializeFailedText)];
        }
      }
    }

    /** The `ExportPrivateKey` arm. */
    method ExportPrivateKey(name: string, env: Env)
      modifies this
      ensures state == OnExportPrivateKey(old(state), name, env).state
      ensures outbox == old(outbox) + OnExportPrivateKey(old(state), name, env).effects
    {
      var effects: seq<Effect> := [];
      var current := state;
      match current.myKeys {
        case Some(keys) =>
          if name in current.contacts {
            if current.worker {
              match env.post {
                case Delivered =>
                  effects := [Post(MainMessage.ExportPrivateKey(current.contacts[name], keys.privateKey))];
                case PostFailed(_) =>
                  effects := [Send(ShowDialog(ExportPostFailedText))];
                case SerializeFailed(_) =>
                  effects := [Send(ShowDialog(ExportSerializeFailedText))];
              }
            }
          } else {
            effects := [Send(ShowDialog(ContactNotFoundText))];
          }
        case None =>
          effects := [Send(ShowDialog(NoPrivateKeyText))];
      }
      outbox := outbox + effects;
      state := current.(exportPrivateKeyDialogVisible := false);
    }

    /** Clear the pending import and hide its confirmation. */
    method ClearImport()
      modifies this
      ensures state == AppModel.ClearImport(old(state)) && outbox == old(outbox)
    {
      state := state.(privateKeyImportConfirmVisible := false, privateKeyToImport := None);
    }

    /** The `ConfirmImportPrivateKey` arm. */
    method ConfirmImportPrivateKey(env: Env)
      modifies this
      ensures state == OnConfirmImport(old(state), env).state
      ensures outbox == old(outbox) + OnConfirmImport(old(state), env).effects
    {
      if state.privateKeyToImport.Some? {
        if state.worker {
          match env.post {
            case Delivered =>
              outbox := outbox + [Post(GeneratePublicKeyFromPrivate(state.privateKeyToImport.value))];
            case PostFailed(_) =>
              outbox := outbox + [Send(ShowDialog(ImportPostFailedText))];
              ClearImport();
            case SerializeFailed(_) =>
              outbox := outbox + [Send(ShowDialog(ImportSerializeFailedText))];
              ClearImport();
          }
        } else {
          outbox := outbox + [Send(ShowDialog(WorkerUnavailableText))];
          ClearImport();
        }
      } else {
        ClearImport();
      }
    }

    /** The `ImportPrivateKeyWithPublicKey` arm. */
    method ImportPrivateKeyWithPublicKey(privateKey: string, publicKey: string)
      modifies this
      ensures state == OnImportWithPublicKey(old(state), privateKey, publicKey).state
      ensures outbox == old(outbox) + OnImportWithPublicKey(old(state), privateKey, publicKey).effects
    {
      var keys := KeyPair(publicKey, privateKey);
      state := state.(myKeys := Some(keys));
      ClearImport();
      outbox := outbox + [SaveKeys(keys), Send(DrawQrCode(publicKey)),
                          Send(ShowDialog(ImportedText))];
    }

    /** The `ConfirmAddContact` arm. */
    method ConfirmAddContact(name: string)
      modifies this
      ensures state == OnConfirmAddContact(old(state), name).state
      ensures outbox == old(outbox) + OnConfirmAddContact(old(state), name).effects
    {
      if state.publicKeyToAdd.Some? {
        if Trim(name) != [] {
          AddContact(name, state.publicKeyToAdd.value);
          state := state.(addContactDialogVisible := false, publicKeyToAdd := None);
        }
      }
    }

    /** The `ConfirmDeleteContact` arm. */
    method ConfirmDeleteContact(name: string)
      modifies this
      ensures state == OnConfirmDelete(old(state), name).state
      ensures outbox == old(outbox) + OnConfirmDelete(old(state), name).effects
    {
      DeleteContact(name);
      state := state.(deleteConfirmVisible := false, deleteTarget := None);
    }

    /** The arms that only set display fields. */
    method UpdateView(msg: Msg)
      requires IsViewMsg(msg)
      modifies this
      ensures state == ViewStep(old(state), msg).state
      ensures outbox == old(outbox) + ViewStep(old(state), msg).effects
    {
      match msg {
        case DrawQrCode(publicKey) => outbox := outbox + [DrawLater(PublicKeyCanvas, publicKey, 100)];
        case ShowQrReader => state := state.(qrReaderVisible := true, cameraStarted := false);
        case StartCamera => state := state.(cameraStarted := true); outbox := outbox + [StartReader];
        case HideQrReader => state := state.(qrReaderVisible := false, cameraStarted := false); outbox := outbox + [StopReader];
        case ShowMessageDialog => state := state.(messageDialogVisible := true);
        case HideMessageDialog => state := state.(messageDialogVisible := false);
        case ShowEncryptedQr(data) =>
          state := state.(encryptedQrData := Some(data), encryptedQrVisible := true);
          outbox := outbox + [DrawLater(EncryptedCanvas, data, 300)];
        case HideEncryptedQr => state := state.(encryptedQrVisible := false, encryptedQrData := None);
        case ShowDeleteConfirm(name) => state := state.(deleteTarget := Some(name), deleteConfirmVisible := true);
        case CancelDeleteContact => state := state.(deleteConfirmVisible := false, deleteTarget := None);
        case HideDialog => state := state.(dialogMessage := None);
        case UpdateLoadingProgress(text, progress) => state := state.(loadingMessage := text, loadingProgress := progress);
        case SetLoading(loading) => state := state.(isLoading := loading);
        case CopyPublicKey =>
          if state.myKeys.Some? {
            outbox := outbox + [CopyToClipboard(state.myKeys.value.publicKey)];
          }
        case CopyEncryptedMessage =>
          if state.encryptedQrData.Some? {
            outbox := outbox + [CopyToClipboard(state.encryptedQrData.value)];
          } else {
            outbox := outbox + [Dispatch(W.ShowDialogEvent, NothingToCopyText)];
          }
        case ShowExportPrivateKeyDialog => state := state.(exportPrivateKeyDialogVisible := true);
        case HideExportPrivateKeyDialog => state := state.(exportPrivateKeyDialogVisible := false);
        case ShowPrivateKeyImportConfirm(privateKey) =>
          state := state.(privateKeyToImport := Some(privateKey), privateKeyImportConfirmVisible := true);
        case HidePrivateKeyImportConfirm => ClearImport();
        case CancelImportPrivateKey => ClearImport();
        case ShowAddContactDialog(publicKey) => state := state.(publicKeyToAdd := Some(publicKey), addContactDialogVisible := true);
        case HideAddContactDialog => state := state.(addContactDialogVisible := false, publicKeyToAdd := None);
        case CancelAddContact => state := state.(addContactDialogVisible := false, publicKeyToAdd := None);
        case ShowResetConfirm => state := state.(resetConfirmVisible := true);
        case HideResetConfirm => state := state.(resetConfirmVisible := false);
        case ConfirmReset => outbox := outbox + [ClearStorage, Reload]; state := state.(resetConfirmVisible := false);
        case CancelReset => state := state.(resetConfirmVisible := false);
      }
    }

    /** The arms of `App::update` that manage keys, contacts and the worker. */
    method UpdateControl(msg: Msg, env: Env)
      requires !IsViewMsg(msg)
      modifies this
      ensures state == ControlStep(old(state), msg, env).state
      ensures outbox == old(outbox) + ControlStep(old(state), msg, env).effects
    {
      match msg {
        case LoadMyKeys => InitializeApp(env);
        case GenerateKeys => GenerateNewKeys(env);
        case KeysLoaded(keys, loaded) =>
          state := state.(myKeys := Some(keys), contacts := loaded, isLoading := false);
          outbox := outbox + [Send(DrawQrCode(keys.publicKey))];
        case ConfirmDeleteContact(name) => ConfirmDeleteContact(name);
        case DecryptMessage(ciphertext) => DecryptAndShowMessage(ciphertext, env);
        case ShowDialog(text) => state := state.(dialogMessage := Some(text));
        case HandleCustomEvent(eventType, data) => outbox := outbox + OnCustomEvent(state, eventType, data, env);
        case ExportPrivateKey(name) => ExportPrivateKey(name, env);
        case ConfirmImportPrivateKey => ConfirmImportPrivateKey(env);
        case ImportPrivateKeyWithPublicKey(privateKey, publicKey) => ImportPrivateKeyWithPublicKey(privateKey, publicKey);
        case ConfirmAddContact(name) => ConfirmAddContact(name);
      }
    }

    /** `App::update`: handle one message in place. */
    method Update(msg: Msg, env: Env)
      modifies this
      ensures state == Step(old(state), msg, env).state
      ensures outbox == old(outbox) + Step(old(state), msg, env).effects
    {
      if IsViewMsg(msg) {
        UpdateView(msg);
      } else {
        UpdateControl(msg, env);
      }
    }
  }
}
