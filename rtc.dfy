/**
  * The WebRTC peer-connection wrapper (`Connection` in rtc.rs). The browser's
  * `RtcPeerConnection` and `RtcDataChannel` are plain values held in the connection's fields;
  * what the browser decides on its own (the SDP it creates, whether an asynchronous step fails,
  * whether a send is refused, the events it fires) arrives as method parameters, and each
  * event the browser fires is a method. The application's closures are known by an identity, and
  * every time one runs the connection appends a `Call` to its `calls` log.
  */
module Rtc {
  import opened Prelude
  import opened Foreign
  import opened Common

  /** `RtcDataChannelState`. */
  datatype ChannelState = Connecting | Open | Closing | Closed

  /** The `{:?}` text of a channel state, as the not-ready error shows it. */
  function StateName(st: ChannelState): string
  {
    match st
    case Connecting => "Connecting"
    case Open => "Open"
    case Closing => "Closing"
    case Closed => "Closed"
  }

  /** `RtcIceConnectionState`. */
  datatype IceState = IceNew | IceChecking | IceConnected | IceCompleted | IceFailed | IceDisconnected | IceClosed

  /** An application closure, known to the model only by its identity. */
  type Callback = nat

  /** What runs when a data channel's `open` event fires. */
  datatype OpenHandler =
    | NoOpenHandler
    | ForwardOpen                     // runs whatever data-channel-open handler the connection holds then
    | CallOnOpen(callback: Callback)  // installed by `wait_for_open`

  /** A data channel: its label, ready state, handlers, and the texts sent over it. */
  datatype Channel = Channel(
    channelLabel: string,
    readyState: ChannelState,
    onOpen: OpenHandler,
    onMessage: Option<Callback>,
    sent: seq<string>)

  /** The browser's peer connection, as far as the wrapper sets and reads it. */
  datatype Peer = Peer(
    localDescription: Option<SessionDescription>,
    remoteDescription: Option<SessionDescription>,
    onIceCandidate: Option<(Callback, string)>,  // the signal callback and the sdp_type it reports
    listensForChannel: bool,                     // an `ondatachannel` handler is installed
    closed: bool)

  /** One run of an application closure, with its argument when it takes one. */
  datatype Call = Call(callback: Callback, argument: Option<string>)

  /** Every field of a connection at once. */
  datatype Fields = Fields(
    peer: Peer,
    channel: Option<Channel>,
    isInitiator: bool,
    currentSignal: Option<string>,
    onConnectionEstablished: Option<Callback>,
    onDataChannelOpen: Option<Callback>,
    calls: seq<Call>)

  const DataChannelLabel: string := "data"
  const OfferType: string := "offer"
  const AnswerType: string := "answer"
  const NoChannelText: string := "No data channel available"
  const ParseOfferFailure: string := "Failed to parse offer: "
  const ParseAnswerFailure: string := "Failed to parse answer: "

  /** The error `send_message` returns for a channel that is not open. */
  function NotReadyText(st: ChannelState): string
  {
    "Data channel is not ready (state: " + StateName(st) + "). Cannot send message."
  }

  /** The closures a channel's `open` event runs, given the connection's data-channel-open handler. */
  function OpenCalls(onOpen: OpenHandler, onDataChannelOpen: Option<Callback>): (r: seq<Call>)
    ensures |r| <= 1
    ensures onOpen.CallOnOpen? ==> r == [Call(onOpen.callback, None)]
    ensures r == [] <==> onOpen.NoOpenHandler? || (onOpen.ForwardOpen? && onDataChannelOpen.None?)
  {
    match onOpen
    case NoOpenHandler => []
    case ForwardOpen => if onDataChannelOpen.Some? then [Call(onDataChannelOpen.value, None)] else []
    case CallOnOpen(callback) => [Call(callback, None)]
  }

  /** The ICE connection states that count as established. */
  predicate Established(st: IceState)
  {
    st == IceConnected || st == IceCompleted
  }

  class Connection {
    var peer: Peer
    var channel: Option<Channel>
    var isInitiator: bool
    var currentSignal: Option<string>
    var onConnectionEstablished: Option<Callback>
    var onDataChannelOpen: Option<Callback>
    /** The application closures run so far, in order. */
    var calls: seq<Call>

    function Snapshot(): Fields
      reads this
    {
      Fields(peer, channel, isInitiator, currentSignal, onConnectionEstablished, onDataChannelOpen, calls)
    }

    /** `Connection::new`: no channel, not the initiator, no signal, no handlers; the ICE-state
        monitor is installed, which `OnIceConnectionStateChange` stands for. */
    constructor()
      ensures peer == Peer(None, None, None, false, false)
      ensures channel == None && !isInitiator && currentSignal == None
      ensures onConnectionEstablished == None && onDataChannelOpen == None && calls == []
    {
      peer := Peer(None, None, None, false, false);
      channel := None;
      isInitiator := false;
      currentSignal := None;
      onConnectionEstablished := None;
      onDataChannelOpen := None;
      calls := [];
    }

    /** `set_connection_established_handler`: replace the handler; always `Ok`. */
    method SetConnectionEstablishedHandler(handler: Callback) returns (r: Result<(), string>)
      modifies this
      ensures r.Ok?
      ensures Snapshot() == old(Snapshot()).(onConnectionEstablished := Some(handler))
    {
      onConnectionEstablished := Some(handler);
      r := Ok(());
    }

    /** `set_data_channel_open_handler`: replace the handler; always `Ok`. */
    method SetDataChannelOpenHandler(handler: Callback) returns (r: Result<(), string>)
      modifies this
      ensures r.Ok?
      ensures Snapshot() == old(Snapshot()).(onDataChannelOpen := Some(handler))
    {
      onDataChannelOpen := Some(handler);
      r := Ok(());
    }

    /** The ICE-state monitor: only Connected and Completed run the connection-established
        handler, and only when one is set; every other state only logs. */
    method OnIceConnectionStateChange(st: IceState)
      modifies this
      ensures Established(st) && onConnectionEstablished.Some? ==>
        Snapshot() == old(Snapshot()).(calls := old(calls) + [Call(onConnectionEstablished.value, None)])
      ensures !(Established(st) && onConnectionEstablished.Some?) ==> Snapshot() == old(Snapshot())
    {
      if Established(st) && onConnectionEstablished.Some? {
        calls := calls + [Call(onConnectionEstablished.value, None)];
      }
    }

    /**
      * `start_connection`: become the initiator, create the ordered channel "data" whose `open`
      * event forwards to the data-channel-open handler, report the offer at the end of ICE
      * gathering, and create and set the local offer. The channel and the initiator flag stay set
      * even when a later asynchronous step fails.
      */
    method StartConnection(signal: Callback, offer: Result<string, string>, setLocalError: Option<string>)
      returns (r: Result<(), string>)
      modifies this
      ensures isInitiator && channel == Some(Channel(DataChannelLabel, Connecting, ForwardOpen, None, []))
      ensures peer.onIceCandidate == Some((signal, OfferType))
      ensures currentSignal == old(currentSignal) && calls == old(calls)
      ensures onConnectionEstablished == old(onConnectionEstablished) && onDataChannelOpen == old(onDataChannelOpen)
      ensures peer.remoteDescription == old(peer.remoteDescription) && peer.listensForChannel == old(peer.listensForChannel)
      ensures peer.closed == old(peer.closed)
      ensures offer.Err? ==> r == Err(offer.error) && peer.localDescription == old(peer.localDescription)
      ensures offer.Ok? && setLocalError.Some? ==>
        r == Err(setLocalError.value) && peer.localDescription == old(peer.localDescription)
      ensures offer.Ok? && setLocalError.None? ==>
        r.Ok? && peer.localDescription == Some(SessionDescription(OfferType, offer.value))
    {
      isInitiator := true;
      channel := Some(Channel(DataChannelLabel, Connecting, ForwardOpen, None, []));
      peer := peer.(onIceCandidate := Some((signal, OfferType)));
      match offer {
        case Err(e) => return Err(e);
        case Ok(sdp) =>
          if setLocalError.Some? {
            return Err(setLocalError.value);
          }
          peer := peer.(localDescription := Some(SessionDescription(OfferType, sdp)));
          return Ok(());
      }
    }

    /**
      * The `icecandidate` event: a found candidate only logs; the end of gathering
      * (`candidate == None`) hands the signal callback the JSON of the local description's SDP
      * under the installed sdp_type, when a callback is installed and a local description exists.
      */
    method OnIceCandidate(candidate: Option<string>, json: RtcJson)
      modifies this
      ensures candidate.None? && peer.onIceCandidate.Some? && peer.localDescription.Some? ==>
        var (callback, sdpType) := peer.onIceCandidate.value;
        var signalled := json.showSession(SessionDescription(sdpType, peer.localDescription.value.sdp));
        Snapshot() == old(Snapshot()).(calls := old(calls) + [Call(callback, Some(signalled))])
      ensures !(candidate.None? && peer.onIceCandidate.Some? && peer.localDescription.Some?) ==>
        Snapshot() == old(Snapshot())
    {
      if candidate.None? && peer.onIceCandidate.Some? && peer.localDescription.Some? {
        var (callback, sdpType) := peer.onIceCandidate.value;
        var signalled := json.showSession(SessionDescription(sdpType, peer.localDescription.value.sdp));
        calls := calls + [Call(callback, Some(signalled))];
      }
    }

    /**
      * `recv_offer`: install the data-channel listener first; then parse the offer (a failure
      * returns before any description is set), set it as the remote description with type offer
      * whatever its `sdp_type` says, install the answer signal, and create and set the local answer.
      */
    method RecvOffer(offer: string, signal: Callback, json: RtcJson, setRemoteError: Option<string>,
                     answer: Result<string, string>, setLocalError: Option<string>)
      returns (r: Result<(), string>)
      modifies this
      ensures peer.listensForChannel && peer.closed == old(peer.closed)
      ensures channel == old(channel) && isInitiator == old(isInitiator) && currentSignal == old(currentSignal)
      ensures onConnectionEstablished == old(onConnectionEstablished) && onDataChannelOpen == old(onDataChannelOpen)
      ensures calls == old(calls)
      ensures json.parseSession(offer).Err? ==>
        && r == Err(ParseOfferFailure + json.parseSession(offer).error)
        && peer == old(peer).(listensForChannel := true)
      ensures json.parseSession(offer).Ok? && setRemoteError.Some? ==>
        r == Err(setRemoteError.value) && peer == old(peer).(listensForChannel := true)
      ensures json.parseSession(offer).Ok? && setRemoteError.None? ==>
        && peer.remoteDescription == Some(SessionDescription(OfferType, json.parseSession(offer).value.sdp))
        && peer.onIceCandidate == Some((signal, AnswerType))
        && (answer.Err? ==> r == Err(answer.error) && peer.localDescription == old(peer.localDescription))
        && (answer.Ok? && setLocalError.Some? ==>
              r == Err(setLocalError.value) && peer.localDescription == old(peer.localDescription))
        && (answer.Ok? && setLocalError.None? ==>
              r.Ok? && peer.localDescription == Some(SessionDescription(AnswerType, answer.value)))
    {
      peer := peer.(listensForChannel := true);
      match json.parseSession(offer) {
        case Err(e) => return Err(ParseOfferFailure + e);
        case Ok(description) =>
          if setRemoteError.Some? {
            return Err(setRemoteError.value);
          }
          peer := peer.(remoteDescription := Some(SessionDescription(OfferType, description.sdp)));
          peer := peer.(onIceCandidate := Some((signal, AnswerType)));
          match answer {
            case Err(e) => return Err(e);
            case Ok(sdp) =>
              if setLocalError.Some? {
                return Err(setLocalError.value);
              }
              peer := peer.(localDescription := Some(SessionDescription(AnswerType, sdp)));
              return Ok(());
          }
      }
    }

    /** The `datachannel` event on the answering side: the received channel gets the forwarding
        `open` handler and replaces the connection's channel. Without a listener nothing happens. */
    method OnDataChannel(channelLabel: string, readyState: ChannelState)
      modifies this
      ensures peer.listensForChannel ==>
        Snapshot() == old(Snapshot()).(channel := Some(Channel(channelLabel, readyState, ForwardOpen, None, [])))
      ensures !peer.listensForChannel ==> Snapshot() == old(Snapshot())
    {
      if peer.listensForChannel {
        channel := Some(Channel(channelLabel, readyState, ForwardOpen, None, []));
      }
    }

    /** `recv_answer`: parse the answer (a failure returns `Err` and sets nothing) and set it as
        the remote description with type answer. */
    method RecvAnswer(answer: string, json: RtcJson, setRemoteError: Option<string>) returns (r: Result<(), string>)
      modifies this
      ensures json.parseSession(answer).Err? ==>
        r == Err(ParseAnswerFailure + json.parseSession(answer).error) && Snapshot() == old(Snapshot())
      ensures json.parseSession(answer).Ok? && setRemoteError.Some? ==>
        r == Err(setRemoteError.value) && Snapshot() == old(Snapshot())
      ensures json.parseSession(answer).Ok? && setRemoteError.None? ==>
        && r.Ok?
        && Snapshot() == old(Snapshot()).(peer := old(peer).(remoteDescription :=
             Some(SessionDescription(AnswerType, json.parseSession(answer).value.sdp))))
    {
      match json.parseSession(answer) {
        case Err(e) => return Err(ParseAnswerFailure + e);
        case Ok(description) =>
          if setRemoteError.Some? {
            return Err(setRemoteError.value);
          }
          peer := peer.(remoteDescription := Some(SessionDescription(AnswerType, description.sdp)));
          return Ok(());
      }
    }

    /** `process_signal`: keep only the latest signal; always `Ok`. */
    method ProcessSignal(signalData: string) returns (r: Result<(), string>)
      modifies this
      ensures r.Ok?
      ensures Snapshot() == old(Snapshot()).(currentSignal := Some(signalData))
    {
      currentSignal := Some(signalData);
      r := Ok(());
    }

    /**
      * `send_message`: without a channel, or with one that is not open, return the error and send
      * nothing; otherwise send the message's JSON text, unless the browser refuses it.
      */
    method SendMessage(message: RtcMessage, json: RtcJson, sendError: Option<string>) returns (r: Result<(), string>)
      modifies this
      ensures old(channel).None? ==> r == Err(NoChannelText)
      ensures old(channel).Some? && old(channel).value.readyState != Open ==>
        r == Err(NotReadyText(old(channel).value.readyState))
      ensures old(channel).Some? && old(channel).value.readyState == Open && sendError.Some? ==> r == Err(sendError.value)
      ensures r.Ok? <==> old(channel).Some? && old(channel).value.readyState == Open && sendError.None?
      ensures r.Ok? ==>
        var ch := old(channel).value;
        Snapshot() == old(Snapshot()).(channel := Some(ch.(sent := ch.sent + [json.showMessage(message)])))
      ensures r.Err? ==> Snapshot() == old(Snapshot())
    {
      match channel {
        case None => return Err(NoChannelText);
        case Some(ch) =>
          if ch.readyState != Open {
            return Err(NotReadyText(ch.readyState));
          }
          if sendError.Some? {
            return Err(sendError.value);
          }
          channel := Some(ch.(sent := ch.sent + [json.showMessage(message)]));
          return Ok(());
      }
    }

    /** `send_data`: with no channel, `Ok` and nothing sent; otherwise the text goes to the
        browser with no ready-state check, and only the browser's refusal is an error. */
    method SendData(data: string, sendError: Option<string>) returns (r: Result<(), string>)
      modifies this
      ensures old(channel).None? ==> r.Ok? && Snapshot() == old(Snapshot())
      ensures old(channel).Some? && sendError.Some? ==> r == Err(sendError.value) && Snapshot() == old(Snapshot())
      ensures old(channel).Some? && sendError.None? ==>
        var ch := old(channel).value;
        r.Ok? && Snapshot() == old(Snapshot()).(channel := Some(ch.(sent := ch.sent + [data])))
    {
      match channel {
        case None => return Ok(());
        case Some(ch) =>
          if sendError.Some? {
            return Err(sendError.value);
          }
          channel := Some(ch.(sent := ch.sent + [data]));
          return Ok(());
      }
    }

    /** `set_data_handler`: install the message handler on the current channel, if any; always `Ok`. */
    method SetDataHandler(handler: Callback) returns (r: Result<(), string>)
      modifies this
      ensures r.Ok?
      ensures old(channel).None? ==> Snapshot() == old(Snapshot())
      ensures old(channel).Some? ==>
        Snapshot() == old(Snapshot()).(channel := Some(old(channel).value.(onMessage := Some(handler))))
    {
      if channel.Some? {
        channel := Some(channel.value.(onMessage := Some(handler)));
      }
      r := Ok(());
    }

    /** A `message` event on the current channel: a text payload goes to the message handler;
        anything else, or no handler, does nothing. */
    method OnChannelMessage(data: Option<string>)
      modifies this
      ensures channel.Some? && channel.value.onMessage.Some? && data.Some? ==>
        Snapshot() == old(Snapshot()).(calls := old(calls) + [Call(channel.value.onMessage.value, data)])
      ensures !(channel.Some? && channel.value.onMessage.Some? && data.Some?) ==> Snapshot() == old(Snapshot())
    {
      if channel.Some? && channel.value.onMessage.Some? && data.Some? {
        calls := calls + [Call(channel.value.onMessage.value, data)];
      }
    }

    /**
      * `wait_for_open`: no channel is a no-op; an open channel runs the callback at once, exactly
      * once; any other channel gets the callback as its `open` handler, replacing the one there.
      * Always `Ok`.
      */
    method WaitForOpen(callback: Callback) returns (r: Result<(), string>)
      modifies this
      ensures r.Ok?
      ensures old(channel).None? ==> Snapshot() == old(Snapshot())
      ensures old(channel).Some? && old(channel).value.readyState == Open ==>
        Snapshot() == old(Snapshot()).(calls := old(calls) + [Call(callback, None)])
      ensures old(channel).Some? && old(channel).value.readyState != Open ==>
        Snapshot() == old(Snapshot()).(channel := Some(old(channel).value.(onOpen := CallOnOpen(callback))))
    {
      match channel {
        case None =>
        case Some(ch) =>
          if ch.readyState == Open {
            calls := calls + [Call(callback, None)];
          } else {
            channel := Some(ch.(onOpen := CallOnOpen(callback)));
          }
      }
      r := Ok(());
    }

    /** The current channel's `open` event: the channel is open and its `open` handler runs. */
    method OnChannelOpen()
      modifies this
      ensures old(channel).None? ==> Snapshot() == old(Snapshot())
      ensures old(channel).Some? ==>
        Snapshot() == old(Snapshot()).(
          channel := Some(old(channel).value.(readyState := Open)),
          calls := old(calls) + OpenCalls(old(channel).value.onOpen, onDataChannelOpen))
    {
      if channel.Some? {
        var ch := channel.value;
        channel := Some(ch.(readyState := Open));
        calls := calls + OpenCalls(ch.onOpen, onDataChannelOpen);
      }
    }

    /** `close`: close the channel, if any (an open or connecting channel starts closing; a
        closing or closed one stays as it is), then the peer connection. */
    method Close()
      modifies this
      ensures peer == old(peer).(closed := true)
      ensures old(channel).None? ==> channel.None?
      ensures old(channel).Some? ==>
        var was := old(channel).value.readyState;
        channel == Some(old(channel).value.(readyState := if was == Open || was == Connecting then Closing else was))
      ensures isInitiator == old(isInitiator) && currentSignal == old(currentSignal) && calls == old(calls)
      ensures onConnectionEstablished == old(onConnectionEstablished) && onDataChannelOpen == old(onDataChannelOpen)
    {
      if channel.Some? {
        var ch := channel.value;
        if ch.readyState == Open || ch.readyState == Connecting {
          channel := Some(ch.(readyState := Closing));
        }
      }
      peer := peer.(closed := true);
    }
  }

  /**
    * The signalling exchange between two fresh connections: the initiator's offer JSON, handed
    * to the responder, and the responder's answer JSON, handed back, leave each side with the
    * other's description as its remote one, when the JSON of a session description parses back.
    */
  method Handshake(json: RtcJson, onOffer: Callback, onAnswer: Callback, offerSdp: string, answerSdp: string)
    returns (offerJson: string, answerJson: string, initiator: Connection, responder: Connection)
    requires SessionRoundTrips(json)
    ensures initiator.isInitiator && !responder.isInitiator
    ensures offerJson == json.showSession(SessionDescription(OfferType, offerSdp))
    ensures answerJson == json.showSession(SessionDescription(AnswerType, answerSdp))
    ensures initiator.calls == [Call(onOffer, Some(offerJson))] && responder.calls == [Call(onAnswer, Some(answerJson))]
    ensures initiator.peer.localDescription == responder.peer.remoteDescription == Some(SessionDescription(OfferType, offerSdp))
    ensures responder.peer.localDescription == initiator.peer.remoteDescription == Some(SessionDescription(AnswerType, answerSdp))
  {
    initiator := new Connection();
    var started := initiator.StartConnection(onOffer, Ok(offerSdp), None);
    initiator.OnIceCandidate(None, json);
    offerJson := initiator.calls[0].argument.value;
    responder := new Connection();
    var accepted := responder.RecvOffer(offerJson, onAnswer, json, None, Ok(answerSdp), None);
    responder.OnIceCandidate(None, json);
    answerJson := responder.calls[0].argument.value;
    var answered := initiator.RecvAnswer(answerJson, json, None);
  }

  /**
    * On the initiating side, `send_message` refuses while the channel is still connecting and,
    * once the browser reports it open, sends exactly the message's JSON text.
    */
  method SendBeforeAndAfterOpen(json: RtcJson, signal: Callback, offerSdp: string, message: RtcMessage)
    returns (early: Result<(), string>, late: Result<(), string>, sent: seq<string>)
    ensures early == Err(NotReadyText(Connecting))
    ensures late.Ok?
    ensures sent == [json.showMessage(message)]
  {
    var connection := new Connection();
    var started := connection.StartConnection(signal, Ok(offerSdp), None);
    early := connection.SendMessage(message, json, None);
    connection.OnChannelOpen();
    late := connection.SendMessage(message, json, None);
    sent := connection.channel.value.sent;
  }

  /**
    * `wait_for_open` on a channel that is still connecting displaces the forwarding `open`
    * handler: when the channel opens, only the waiting callback runs, never the
    * data-channel-open handler set before.
    */
  method WaitForOpenDisplacesHandler(handler: Callback, waiting: Callback, offerSdp: string)
    returns (calls: seq<Call>)
    ensures calls == [Call(waiting, None)]
    ensures handler != waiting ==> Call(handler, None) !in calls
  {
    var connection := new Connection();
    var installed := connection.SetDataChannelOpenHandler(handler);
    var started := connection.StartConnection(0, Ok(offerSdp), None);
    var waited := connection.WaitForOpen(waiting);
    connection.OnChannelOpen();
    calls := connection.calls;
  }

  /** Without `wait_for_open`, the opening of the initiator's channel runs the data-channel-open
      handler, once. */
  method OpenRunsHandler(handler: Callback, offerSdp: string) returns (calls: seq<Call>)
    ensures calls == [Call(handler, None)]
  {
    var connection := new Connection();
    var installed := connection.SetDataChannelOpenHandler(handler);
    var started := connection.StartConnection(0, Ok(offerSdp), None);
    connection.OnChannelOpen();
    calls := connection.calls;
  }
}
