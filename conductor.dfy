/**
 * ConductorWs, the signaling conductor between the media engine and the Janus
 * gateway, as a class whose methods update its fields in place. Each method is
 * proved to do what the matching function of Signaling or OutQueue describes.
 * What the socket client is handed (`client_->SendToJanus`) is appended to
 * `outbox`; what the media engine and the window would do is not modelled.
 */
module Conductor {
  import opened Wrappers
  import opened JanusJson
  import opened Signaling
  import OutQueue
  import Text

  /** The second argument StartLogin passes to the client's Connect. */
  const ClientName := "1111"

  datatype ConnectCall = ConnectCall(url: string, clientName: string)

  class ConductorWs {
    var txMap: map<string, Transaction>     // m_transactionMap
    var sessionId: int                      // m_SessionId
    var handleId: int                       // m_HandleId
    var outbox: seq<Json>                   // every envelope given to SendToJanus, in order
    var calls: seq<Call>                    // continuations that ran, in order
    var pending: seq<Json>                  // pending_messages_
    var peerId: int                         // peer_id_
    var loopback: bool                      // loopback_
    var server: string                      // server_

    /** The signaling part of the fields, as a Signaling state. */
    function SignalingState(): Signaling.State
      reads this
    {
      Signaling.State(txMap, sessionId, handleId, outbox, calls)
    }

    ghost predicate Valid()
      reads this
    {
      Signaling.Valid(SignalingState())
    }

    constructor ()
      ensures Valid() && SignalingState() == Initial()
      ensures pending == [] && peerId == -1 && !loopback
    {
      txMap, sessionId, handleId, outbox, calls := map[], 0, 0, [], [];
      pending, peerId, loopback, server := [], -1, false, "";
    }

    /** DeletePeerConnection's field resets (the renderers and the peer
        connection objects belong to the window and the media engine). */
    method DeletePeerConnection()
      modifies this`peerId, this`loopback
      ensures peerId == -1 && !loopback
    {
      peerId := -1;
      loopback := false;
    }

    /** StartLogin: nothing when the client is already connected; otherwise
        remembers the server and connects to its websocket address. */
    method StartLogin(host: string, port: int, isConnected: bool) returns (connect: Option<ConnectCall>)
      modifies this`server
      ensures isConnected ==> connect.None? && server == old(server)
      ensures !isConnected ==> server == host && connect == Some(ConnectCall(Text.WsUrl(host, port), ClientName))
    {
      if isConnected {
        return None;
      }
      server := host;
      var wsServer := "ws://" + host + ":" + Text.IntToString(port);
      connect := Some(ConnectCall(wsServer, ClientName));
    }

    // ----- Request issuers -----

    method CreateSession(newId: FreshId)
      requires Valid()
      modifies this
      ensures Valid() && SignalingState() == IssueCreateSession(old(SignalingState()), newId)
      ensures pending == old(pending) && peerId == old(peerId) && loopback == old(loopback) && server == old(server)
    {
      var jt := Transaction(newId, CreateSessionTx);
      txMap := txMap[newId := jt];
      outbox := outbox + [Encode(Create(newId))];
    }

    method CreateHandle(newId: FreshId)
      requires Valid()
      modifies this
      ensures Valid() && SignalingState() == IssueCreateHandle(old(SignalingState()), newId)
      ensures pending == old(pending) && peerId == old(peerId) && loopback == old(loopback) && server == old(server)
    {
      var jt := Transaction(newId, CreateHandleTx);
      txMap := txMap[newId := jt];
      outbox := outbox + [Encode(Attach(newId, EchoTestPlugin, sessionId))];
    }

    /** JoinRoom; as conductor_ws.cpp does, it sends the stored ids, not its arguments.
        Starting the peer connection and the offer afterwards is the media
        engine's part. */
    method JoinRoom(handle: int, feedId: int, newId: FreshId)
      requires Valid()
      modifies this
      ensures Valid() && SignalingState() == IssueJoinRoom(old(SignalingState()), newId)
      ensures pending == old(pending) && peerId == old(peerId) && loopback == old(loopback) && server == old(server)
    {
      var jt := Transaction(newId, JoinRoomTx);
      txMap := txMap[newId := jt];
      outbox := outbox + [Encode(Join(newId, sessionId, handleId))];
    }

    method SendOffer(handle: int, sdpType: string, sdp: string, newId: FreshId)
      requires Valid()
      modifies this
      ensures Valid() && SignalingState() == IssueSendOffer(old(SignalingState()), newId, sdpType, sdp)
      ensures pending == old(pending) && peerId == old(peerId) && loopback == old(loopback) && server == old(server)
    {
      var jt := Transaction(newId, SendOfferTx);
      txMap := txMap[newId := jt];
      outbox := outbox + [Encode(Configure(newId, sessionId, handleId, sdpType, sdp))];
    }

    method TrickleCandidate(handle: int, candidate: IceCandidate, newId: FreshId)
      requires Valid()
      modifies this`outbox
      ensures Valid() && SignalingState() == IssueTrickle(old(SignalingState()), candidate, newId)
    {
      if candidate.text.None? {
        return;
      }
      var envelope := TrickleEnvelope(newId, sessionId, handleId, candidate.sdpMid,
                                      candidate.sdpMLineIndex, candidate.text.value);
      outbox := outbox + [envelope];
    }

    /** OnJanusConnected starts the chain. */
    method OnJanusConnected(newId: FreshId)
      requires Valid()
      modifies this
      ensures Valid() && SignalingState() == IssueCreateSession(old(SignalingState()), newId)
      ensures pending == old(pending) && peerId == old(peerId) && loopback == old(loopback) && server == old(server)
    {
      CreateSession(newId);
    }

    // ----- Continuations -----

    method InvokeSuccess(jt: Transaction, key: string, message: Option<Inbound>, newId: FreshId)
      returns (fault: Option<Fault>)
      requires Valid()
      modifies this
      ensures Valid()
      ensures Reflects(SuccessContinuation(old(SignalingState()), jt.kind, key, message, newId), fault, old(SignalingState()), SignalingState())
      ensures pending == old(pending) && peerId == old(peerId) && loopback == old(loopback) && server == old(server)
    {
      if !jt.kind.HasSuccess() {
        return Some(EmptyContinuation(key));
      }
      if message.None? {
        calls := calls + [Succeeded(key)];
        return None;
      }
      var id := ParseId(message.value.dataId);
      if id.None? {
        return Some(InvalidId(key));
      }
      if jt.kind.CreateSessionTx? {
        sessionId := id.value;
        CreateHandle(newId);
      } else {
        handleId := id.value;
        JoinRoom(handleId, 0, newId);
      }
      calls := calls + [Succeeded(key)];
      fault := None;
    }

    method InvokeError(jt: Transaction, key: string, code: string, reason: string) returns (fault: Option<Fault>)
      requires Valid()
      modifies this`calls
      ensures Valid()
      ensures Reflects(ErrorContinuation(old(SignalingState()), jt.kind, key, code, reason), fault, old(SignalingState()), SignalingState())
    {
      if !jt.kind.HasError() {
        return Some(EmptyContinuation(key));
      }
      calls := calls + [Failed(key, code, reason)];
      fault := None;
    }

    method InvokeEvent(jt: Transaction, key: string) returns (fault: Option<Fault>)
      requires Valid()
      modifies this`calls
      ensures Valid()
      ensures Reflects(EventContinuation(old(SignalingState()), jt.kind, key), fault, old(SignalingState()), SignalingState())
    {
      if !jt.kind.HasEvent() {
        return Some(EmptyContinuation(key));
      }
      calls := calls + [Notified(key)];
      fault := None;
    }

    // ----- Inbound router -----

    /** OnMessageFromJanus. A fault is an exception escaping the call; the
        fields are then as they were. */
    method OnMessageFromJanus(message: Option<Inbound>, newId: FreshId) returns (fault: Option<Fault>)
      requires Valid()
      modifies this
      ensures Valid()
      ensures Reflects(Route(old(SignalingState()), message, newId), fault, old(SignalingState()), SignalingState())
      ensures pending == old(pending) && peerId == old(peerId) && loopback == old(loopback) && server == old(server)
    {
      fault := None;
      if message.None? {
        return;
      }
      var m := message.value;
      var janus := m.janus.GetOr("");
      if janus == "" || janus == "ack" || janus == "trickle" || janus == "webrtcup" || janus == "hangup"
         || janus == "detached" || janus == "media" || janus == "slowlink" {
        return;
      }
      if janus == "success" {
        var key := m.transaction.GetOr(janus);
        if key !in txMap {
          return Some(UnknownTransaction(key));
        }
        var jt := txMap[key];
        fault := InvokeSuccess(jt, key, message, newId);
        if fault.Some? {
          return;
        }
        txMap := txMap - {key};
      } else if janus == "error" {
        var key := m.transaction.GetOr(janus);
        if key !in txMap {
          return Some(UnknownTransaction(key));
        }
        var jt := txMap[key];
        fault := InvokeError(jt, key, PlaceholderCode, PlaceholderReason);
        if fault.Some? {
          return;
        }
        txMap := txMap - {key};
      } else if janus == "event" {
        var key := m.transaction.GetOr(janus);
        if key !in txMap {
          return Some(UnknownTransaction(key));
        }
        var jt := txMap[key];
        fault := InvokeEvent(jt, key);
      }
    }

    // ----- Outbound queue -----

    /** The SEND_MESSAGE_TO_PEER case of UIThreadCallback: a present message
        goes to the back of the queue, then the front is sent and removed if
        the queue is not empty and the client is not already sending. */
    method SendMessageToPeer(message: Option<Json>, busy: bool)
      modifies this`pending, this`outbox
      ensures var r := OutQueue.Step(old(pending), message, busy);
              pending == r.pending && outbox == old(outbox) + OutQueue.AsSeq(r.sent)
    {
      if message.Some? {
        pending := pending + [message.value];
      }
      if pending != [] && !busy {
        var front := pending[0];
        pending := pending[1..];
        outbox := outbox + [front];
      }
    }

    /** SendMessage: the message is handed to the UI thread's callback. */
    method SendMessage(json: Json, busy: bool)
      modifies this`pending, this`outbox
      ensures var r := OutQueue.Step(old(pending), Some(json), busy);
              pending == r.pending && outbox == old(outbox) + OutQueue.AsSeq(r.sent)
    {
      SendMessageToPeer(Some(json), busy);
    }

    /** OnMessageSent: the callback runs again without a message, to send the
        next pending one. */
    method OnMessageSent(busy: bool)
      modifies this`pending, this`outbox
      ensures var r := OutQueue.Step(old(pending), None, busy);
              pending == r.pending && outbox == old(outbox) + OutQueue.AsSeq(r.sent)
    {
      SendMessageToPeer(None, busy);
    }

    /** OnIceCandidate: in loopback the candidate goes back to the media
        engine and nothing is queued; a candidate that cannot be written out
        is dropped; otherwise its record is queued. */
    method OnIceCandidate(candidate: IceCandidate, busy: bool)
      modifies this`pending, this`outbox
      ensures loopback || candidate.text.None? ==> pending == old(pending) && outbox == old(outbox)
      ensures !loopback && candidate.text.Some? ==>
                var r := OutQueue.Step(old(pending),
                  Some(CandidateRecord(candidate.sdpMid, candidate.sdpMLineIndex, candidate.text.value)), busy);
                pending == r.pending && outbox == old(outbox) + OutQueue.AsSeq(r.sent)
    {
      if loopback {
        return;
      }
      if candidate.text.None? {
        return;
      }
      var record := CandidateRecord(candidate.sdpMid, candidate.sdpMLineIndex, candidate.text.value);
      SendMessage(record, busy);
    }

    /** The signaling half of OnSuccess (the offer was created): send the
        offer to the gateway, then queue the description record. */
    method OnLocalDescription(sdpType: string, sdp: string, newId: FreshId, busy: bool)
      requires Valid()
      modifies this
      ensures Valid()
      ensures var offered := IssueSendOffer(old(SignalingState()), newId, sdpType, sdp);
              var r := OutQueue.Step(old(pending), Some(DescriptionRecord(sdpType, sdp)), busy);
              && SignalingState() == offered.(outbox := offered.outbox + OutQueue.AsSeq(r.sent))
              && pending == r.pending
      ensures peerId == old(peerId) && loopback == old(loopback) && server == old(server)
    {
      SendOffer(handleId, sdpType, sdp, newId);
      SendMessage(DescriptionRecord(sdpType, sdp), busy);
    }
  }

  /** How a method's outcome and new state reflect a Signaling outcome: the
      state the function gives, or the old state and the fault raised. */
  predicate Reflects(o: Outcome, fault: Option<Fault>, before: Signaling.State, after: Signaling.State) {
    match o
    case Done(s) => fault.None? && after == s
    case Raised(f) => fault == Some(f) && after == before
  }
}
