/**
 * The Janus signaling state of ConductorWs, as values: the transaction map,
 * the gateway-assigned session and handle ids, the envelopes handed to the
 * socket, and the log of continuations that ran. `Route` is what
 * OnMessageFromJanus does with one inbound message; the Issue* functions are
 * what the four request issuers do. The class in Conductor is proved to
 * follow these functions.
 */
module Signaling {
  import opened Wrappers
  import opened JanusJson

  /** RandomString(12) draws transaction ids of this length. */
  const IdLength := 12
  type FreshId = s: string | |s| == IdLength witness "000000000000"

  const EchoTestPlugin := "janus.plugin.echotest"
  /** The error continuation is always called with these two strings, never
      with the gateway's own code and reason. */
  const PlaceholderCode := "123"
  const PlaceholderReason := "456"

  const Int64Min: int := -0x8000_0000_0000_0000
  const Int64Max: int := 0x7FFF_FFFF_FFFF_FFFF

  predicate IsInt64(n: int) {
    Int64Min <= n <= Int64Max
  }

  /** Which issuer registered a transaction. The continuations are closures
      over the conductor itself, so the issuer determines all of them. */
  datatype TxKind = CreateSessionTx | CreateHandleTx | JoinRoomTx | SendOfferTx {
    /** Only the session and handle requests assign a Success continuation. */
    predicate HasSuccess() { CreateSessionTx? || CreateHandleTx? }
    /** Only the session and handle requests assign an Error continuation. */
    predicate HasError() { CreateSessionTx? || CreateHandleTx? }
    /** The session request assigns no Event continuation. */
    predicate HasEvent() { !CreateSessionTx? }
  }

  datatype Transaction = Transaction(transactionId: string, kind: TxKind)

  /** What the router and the continuations read from a parsed inbound
      message: the `janus` and `transaction` strings and the integer `data.id`. */
  datatype Inbound = Inbound(janus: Option<string>, transaction: Option<string>, dataId: Option<int>)

  /** A continuation that ran to its end, with the map key it was found under. */
  datatype Call =
    | Succeeded(key: string)
    | Failed(key: string, code: string, reason: string)
    | Notified(key: string)

  /** The exceptions that escape OnMessageFromJanus. */
  datatype Fault =
    | UnknownTransaction(key: string)  // std::map::at on a missing key
    | EmptyContinuation(key: string)   // calling a std::function nobody assigned
    | InvalidId(key: string)           // std::stoll on a missing data.id, or on one in [2^63, 2^64)

  datatype State = State(
    txMap: map<string, Transaction>,
    sessionId: int,
    handleId: int,
    outbox: seq<Json>,
    calls: seq<Call>)

  datatype Outcome = Done(state: State) | Raised(fault: Fault)

  /** Every entry records the id it is stored under. */
  predicate WellKeyed(m: map<string, Transaction>) {
    forall k :: k in m ==> m[k].transactionId == k
  }

  predicate Valid(s: State) {
    WellKeyed(s.txMap) && IsInt64(s.sessionId) && IsInt64(s.handleId)
  }

  function Initial(): (s: State)
    ensures Valid(s) && s.txMap == map[] && s.outbox == [] && s.calls == []
  {
    State(map[], 0, 0, [], [])
  }

  /** std::stoll(JsonValueToString(data.id)): only a signed 64-bit integer
      gets through. A missing id is written as "null" and an id in [2^63, 2^64)
      overflows, and stoll refuses both. An integer literal outside jsoncpp's
      integer range is read as a double, whose text this model does not follow
      (see README). */
  function ParseId(v: Option<int>): (r: Option<int>)
    ensures r.Some? <==> v.Some? && IsInt64(v.value)
    ensures r.Some? ==> r.value == v.value
  {
    if v.Some? && IsInt64(v.value) then v else None
  }

  // ----- Request issuers -----

  /** `after` is `before` with one transaction of kind `kind` stored under
      `newId`, every other entry as it was, and one envelope more, whose
      `janus` is `janus` and whose `transaction` is `newId`; the ids and the
      call log are unchanged. */
  ghost predicate Registers(before: State, after: State, newId: string, kind: TxKind, janus: string) {
    && newId in after.txMap && after.txMap[newId] == Transaction(newId, kind)
    && (forall k :: k != newId ==> (k in after.txMap <==> k in before.txMap))
    && (forall k :: k != newId && k in before.txMap ==> after.txMap[k] == before.txMap[k])
    && |after.outbox| == |before.outbox| + 1
    && after.outbox[..|before.outbox|] == before.outbox
    && StringMember(after.outbox[|before.outbox|], "janus") == Some(janus)
    && StringMember(after.outbox[|before.outbox|], "transaction") == Some(newId)
    && after.sessionId == before.sessionId && after.handleId == before.handleId
    && after.calls == before.calls
  }

  /** Stores a transaction under a new id and sends one envelope. */
  function Register(s: State, newId: FreshId, kind: TxKind, request: Request): (r: State)
    requires request.transaction == newId
    ensures Registers(s, r, newId, kind, request.Discriminator())
  {
    s.(txMap := s.txMap[newId := Transaction(newId, kind)], outbox := s.outbox + [Encode(request)])
  }

  function IssueCreateSession(s: State, newId: FreshId): (r: State)
    ensures Registers(s, r, newId, CreateSessionTx, "create")
  {
    Register(s, newId, CreateSessionTx, Create(newId))
  }

  function IssueCreateHandle(s: State, newId: FreshId): (r: State)
    ensures Registers(s, r, newId, CreateHandleTx, "attach")
  {
    Register(s, newId, CreateHandleTx, Attach(newId, EchoTestPlugin, s.sessionId))
  }

  function IssueJoinRoom(s: State, newId: FreshId): (r: State)
    ensures Registers(s, r, newId, JoinRoomTx, "message")
  {
    Register(s, newId, JoinRoomTx, Join(newId, s.sessionId, s.handleId))
  }

  function IssueSendOffer(s: State, newId: FreshId, sdpType: string, sdp: string): (r: State)
    ensures Registers(s, r, newId, SendOfferTx, "message")
  {
    Register(s, newId, SendOfferTx, Configure(newId, s.sessionId, s.handleId, sdpType, sdp))
  }

  /** trickleCandidate: a `message` envelope carrying the candidate, sent
      without registering anything; nothing is sent when the candidate cannot
      be written out. */
  function IssueTrickle(s: State, candidate: IceCandidate, newId: FreshId): (r: State)
    ensures r.txMap == s.txMap && r.sessionId == s.sessionId && r.handleId == s.handleId && r.calls == s.calls
    ensures candidate.text.None? ==> r == s
    ensures candidate.text.Some? ==>
              r.outbox == s.outbox + [Encode(Trickle(newId, s.sessionId, s.handleId,
                                                     candidate.sdpMLineIndex, candidate.text.value))]
  {
    match candidate.text
    case None => s
    case Some(text) =>
      s.(outbox := s.outbox + [TrickleEnvelope(newId, s.sessionId, s.handleId,
                                               candidate.sdpMid, candidate.sdpMLineIndex, text)])
  }

  // ----- Continuations -----

  /** The Success continuation of an entry of kind `kind`, given the message
      it re-parses (None when that parse fails). The session continuation
      stores the id and attaches a handle; the handle continuation stores the
      id and joins the room. */
  function SuccessContinuation(s: State, kind: TxKind, key: string, message: Option<Inbound>, newId: FreshId): (r: Outcome)
    ensures r.Raised? <==> !kind.HasSuccess() || (message.Some? && ParseId(message.value.dataId).None?)
    ensures r.Raised? ==> r.fault.key == key
    ensures r.Done? ==> r.state.calls == s.calls + [Succeeded(key)]
    ensures r.Done? && message.Some? ==>
              && (kind.CreateSessionTx? ==>
                    && r.state.sessionId == message.value.dataId.value
                    && Registers(s.(sessionId := r.state.sessionId), r.state.(calls := s.calls),
                                 newId, CreateHandleTx, "attach"))
              && (kind.CreateHandleTx? ==>
                    && r.state.handleId == message.value.dataId.value
                    && Registers(s.(handleId := r.state.handleId), r.state.(calls := s.calls),
                                 newId, JoinRoomTx, "message"))
  {
    if !kind.HasSuccess() then Raised(EmptyContinuation(key))
    else if message.None? then Done(s.(calls := s.calls + [Succeeded(key)]))
    else match ParseId(message.value.dataId)
      case None => Raised(InvalidId(key))
      case Some(id) =>
        var next :=
          if kind.CreateSessionTx? then IssueCreateHandle(s.(sessionId := id), newId)
          else IssueJoinRoom(s.(handleId := id), newId);
        Done(next.(calls := next.calls + [Succeeded(key)]))
  }

  /** The Error continuations only log. */
  function ErrorContinuation(s: State, kind: TxKind, key: string, code: string, reason: string): (r: Outcome)
    ensures r.Raised? <==> !kind.HasError()
    ensures r.Raised? ==> r.fault == EmptyContinuation(key)
    ensures r.Done? ==> r.state.(calls := s.calls) == s && r.state.calls == s.calls + [Failed(key, code, reason)]
  {
    if !kind.HasError() then Raised(EmptyContinuation(key))
    else Done(s.(calls := s.calls + [Failed(key, code, reason)]))
  }

  /** The Event continuations only log or hand a description to the media
      engine, which is not part of this model. */
  function EventContinuation(s: State, kind: TxKind, key: string): (r: Outcome)
    ensures r.Raised? <==> !kind.HasEvent()
    ensures r.Raised? ==> r.fault == EmptyContinuation(key)
    ensures r.Done? ==> r.state.(calls := s.calls) == s && r.state.calls == s.calls + [Notified(key)]
  {
    if !kind.HasEvent() then Raised(EmptyContinuation(key))
    else Done(s.(calls := s.calls + [Notified(key)]))
  }

  // ----- Router -----

  /** The key the router looks up: the `transaction` string, or, when the
      message has none, the discriminator itself (the variable it is read
      into keeps its old value). */
  function LookupKey(m: Inbound, discriminator: string): string {
    m.transaction.GetOr(discriminator)
  }

  /** The discriminators the router acts on; every other one only logs. */
  const Dispatched: set<string> := {"success", "error", "event"}

  function InboundDiscriminator(m: Inbound): string {
    m.janus.GetOr("")
  }

  /** OnMessageFromJanus on one message; None is text that does not parse.
      A message the router does not act on changes nothing. One it acts on
      raises at the lookup exactly when its key is absent; every fault names
      that key. Otherwise no entry appears except under the new id, `success`
      and `error` remove the key, and at most one continuation is logged. */
  function Route(s: State, message: Option<Inbound>, newId: FreshId): (r: Outcome)
    ensures message.None? || InboundDiscriminator(message.value) !in Dispatched ==> r == Done(s)
    ensures message.Some? && InboundDiscriminator(message.value) in Dispatched ==>
              var key := LookupKey(message.value, InboundDiscriminator(message.value));
              && (key !in s.txMap <==> r == Raised(UnknownTransaction(key)))
              && (r.Raised? ==> r.fault.key == key)
              && (r.Done? && InboundDiscriminator(message.value) != "event" ==> key !in r.state.txMap)
    ensures r.Done? ==> forall k :: k in r.state.txMap ==> k in s.txMap || k == newId
    ensures r.Done? ==> s.calls <= r.state.calls && |r.state.calls| <= |s.calls| + 1
  {
    if message.None? then Done(s)
    else
      var m := message.value;
      var janus := InboundDiscriminator(m);
      if janus !in Dispatched then Done(s)
      else
        var key := LookupKey(m, janus);
        if key !in s.txMap then Raised(UnknownTransaction(key))
        else
          var kind := s.txMap[key].kind;
          if janus == "success" then
            match SuccessContinuation(s, kind, key, message, newId)
            case Raised(f) => Raised(f)
            case Done(next) => Done(next.(txMap := next.txMap - {key}))
          else if janus == "error" then
            match ErrorContinuation(s, kind, key, PlaceholderCode, PlaceholderReason)
            case Raised(f) => Raised(f)
            case Done(next) => Done(next.(txMap := next.txMap - {key}))
          else
            EventContinuation(s, kind, key)
  }

  // ----- Properties of the router -----

  /** A `success` message for a stored entry whose Success continuation runs
      to its end calls it exactly once and then removes the entry; all other
      entries stay, except that the continuation may store the next request
      under `newId`. Otherwise the message raises, and which fault it raises
      is determined by the lookup, the continuation and the id. */
  lemma SuccessResolvesOnce(s: State, m: Inbound, newId: FreshId)
    requires m.janus == Some("success")
    ensures var key := LookupKey(m, "success");
            var r := Route(s, Some(m), newId);
            && (key !in s.txMap ==> r == Raised(UnknownTransaction(key)))
            && (key in s.txMap && !s.txMap[key].kind.HasSuccess() ==> r == Raised(EmptyContinuation(key)))
            && (key in s.txMap && s.txMap[key].kind.HasSuccess() && ParseId(m.dataId).None? ==>
                  r == Raised(InvalidId(key)))
            && (key in s.txMap && s.txMap[key].kind.HasSuccess() && ParseId(m.dataId).Some? ==>
                  && r.Done?
                  && r.state.calls == s.calls + [Succeeded(key)]
                  && key !in r.state.txMap
                  && (newId != key ==> newId in r.state.txMap)
                  && (forall k :: k in s.txMap && k != key && k != newId ==>
                        k in r.state.txMap && r.state.txMap[k] == s.txMap[k])
                  && (forall k :: k in r.state.txMap ==> k == newId || k in s.txMap))
  {
  }

  /** An `error` message for a stored entry with an Error continuation calls
      it once, with the placeholder code and reason, and removes the entry and
      nothing else. The same message delivered again finds no entry, and the
      lookup raises. */
  lemma ErrorResolvesOnce(s: State, m: Inbound, newId: FreshId)
    requires m.janus == Some("error")
    requires LookupKey(m, "error") in s.txMap && s.txMap[LookupKey(m, "error")].kind.HasError()
    ensures var key := LookupKey(m, "error");
            var r := Route(s, Some(m), newId);
            && r == Done(s.(txMap := s.txMap - {key},
                            calls := s.calls + [Failed(key, PlaceholderCode, PlaceholderReason)]))
            && Route(r.state, Some(m), newId) == Raised(UnknownTransaction(key))
  {
  }

  /** An `error` message raises when there is no entry, or when the entry
      has no Error continuation, and then changes nothing. */
  lemma ErrorWithoutContinuationRaises(s: State, m: Inbound, newId: FreshId)
    requires m.janus == Some("error")
    requires LookupKey(m, "error") !in s.txMap || !s.txMap[LookupKey(m, "error")].kind.HasError()
    ensures var key := LookupKey(m, "error");
            var r := Route(s, Some(m), newId);
            && (key !in s.txMap ==> r == Raised(UnknownTransaction(key)))
            && (key in s.txMap ==> r == Raised(EmptyContinuation(key)))
  {
  }

  /** An `event` message for an entry with an Event continuation calls it
      and keeps the map, ids and outbox as they are, so the next event with
      the same transaction reaches the same entry again. */
  lemma EventKeepsEntry(s: State, m: Inbound, newId: FreshId, newId2: FreshId)
    requires m.janus == Some("event")
    requires LookupKey(m, "event") in s.txMap && s.txMap[LookupKey(m, "event")].kind.HasEvent()
    ensures var key := LookupKey(m, "event");
            var r := Route(s, Some(m), newId);
            && r == Done(s.(calls := s.calls + [Notified(key)]))
            && Route(r.state, Some(m), newId2) == Done(s.(calls := s.calls + [Notified(key), Notified(key)]))
  {
  }

  /** Text that does not parse, a missing or empty `janus`, and every
      discriminator other than success, error and event (ack, trickle,
      webrtcup, hangup, detached, media, slowlink and any unknown one) change
      nothing at all. */
  lemma OtherMessagesChangeNothing(s: State, message: Option<Inbound>, newId: FreshId)
    requires message.None? || message.value.janus.None? || message.value.janus.value !in Dispatched
    ensures Route(s, message, newId) == Done(s)
  {
  }

  /** What an issuer leaves behind: its transaction registered and one
      envelope sent, which reads back as exactly its request. */
  ghost predicate RegistersAndSends(before: State, after: State, newId: string, kind: TxKind, request: Request) {
    && Registers(before, after, newId, kind, request.Discriminator())
    && Decode(after.outbox[|before.outbox|]) == Some(request)
  }

  /** Each of the four issuers stores its transaction under the new id, leaves
      every other entry alone, and sends exactly one envelope, whose
      `transaction` is that id and which carries the stored session and
      handle ids, not any argument. */
  lemma IssuersRegisterAndSendOne(s: State, newId: FreshId, sdpType: string, sdp: string)
    ensures RegistersAndSends(s, IssueCreateSession(s, newId), newId, CreateSessionTx, Create(newId))
    ensures RegistersAndSends(s, IssueCreateHandle(s, newId), newId, CreateHandleTx,
                              Attach(newId, EchoTestPlugin, s.sessionId))
    ensures RegistersAndSends(s, IssueJoinRoom(s, newId), newId, JoinRoomTx,
                              Join(newId, s.sessionId, s.handleId))
    ensures RegistersAndSends(s, IssueSendOffer(s, newId, sdpType, sdp), newId, SendOfferTx,
                              Configure(newId, s.sessionId, s.handleId, sdpType, sdp))
  {
    DecodeInvertsEncode(Create(newId));
    DecodeInvertsEncode(Attach(newId, EchoTestPlugin, s.sessionId));
    DecodeInvertsEncode(Join(newId, s.sessionId, s.handleId));
    DecodeInvertsEncode(Configure(newId, s.sessionId, s.handleId, sdpType, sdp));
  }

  /** The session Success continuation stores `data.id` as the session id and
      then sends `attach` for the echo-test plugin with that session id; the
      handle one stores `data.id` as the handle id and then sends a `message`
      with both ids and the body {audio: true, video: true}. */
  lemma SuccessContinuationsChain(s: State, key: string, m: Inbound, newId: FreshId)
    requires ParseId(m.dataId).Some?
    ensures var id := m.dataId.value;
            var r := SuccessContinuation(s, CreateSessionTx, key, Some(m), newId);
            && r.Done? && r.state.sessionId == id && r.state.handleId == s.handleId
            && r.state.txMap[newId].kind == CreateHandleTx
            && |r.state.outbox| == |s.outbox| + 1
            && Decode(Last(r.state.outbox)) == Some(Attach(newId, EchoTestPlugin, id))
            && IntMember(Last(r.state.outbox), "session_id") == Some(id)
    ensures var id := m.dataId.value;
            var r := SuccessContinuation(s, CreateHandleTx, key, Some(m), newId);
            && r.Done? && r.state.handleId == id && r.state.sessionId == s.sessionId
            && r.state.txMap[newId].kind == JoinRoomTx
            && |r.state.outbox| == |s.outbox| + 1
            && Decode(Last(r.state.outbox)) == Some(Join(newId, s.sessionId, id))
            && IntMember(Last(r.state.outbox), "handle_id") == Some(id)
            && Member(Last(r.state.outbox), "body") == Some(JoinBody())
            && BoolMember(JoinBody(), "audio") == Some(true) && BoolMember(JoinBody(), "video") == Some(true)
  {
    var id := m.dataId.value;
    DecodeInvertsEncode(Attach(newId, EchoTestPlugin, id));
    DecodeInvertsEncode(Join(newId, s.sessionId, id));
  }

  function Last<T>(s: seq<T>): T
    requires s != []
  {
    s[|s| - 1]
  }

  /** When the continuation's own parse of the message fails, it returns at
      once: neither id, the map nor the outbox changes. */
  lemma UnparsedPayloadKeepsIds(s: State, kind: TxKind, key: string, newId: FreshId)
    ensures var r := SuccessContinuation(s, kind, key, None, newId);
            r.Done? ==> r.state == s.(calls := r.state.calls)
  {
  }

  /** The router keeps every entry stored under its own id, and the ids within
      64 bits. */
  lemma RoutePreservesValid(s: State, message: Option<Inbound>, newId: FreshId)
    requires Valid(s)
    ensures Route(s, message, newId).Done? ==> Valid(Route(s, message, newId).state)
  {
  }

  // ----- Runs of inputs -----

  /** What drives the conductor: the socket's connect callback (which starts
      CreateSession), an inbound message, and a local offer from the media
      engine (which starts SendOffer). Each may draw one new id. */
  datatype Input =
    | JanusConnected(newId: FreshId)
    | JanusMessage(message: Option<Inbound>, newId: FreshId)
    | LocalOffer(sdpType: string, sdp: string, newId: FreshId)

  function Apply(s: State, input: Input): Outcome {
    match input
    case JanusConnected(id) => Done(IssueCreateSession(s, id))
    case JanusMessage(message, id) => Route(s, message, id)
    case LocalOffer(sdpType, sdp, id) => Done(IssueSendOffer(s, id, sdpType, sdp))
  }

  /** Applies the inputs in order; a raised fault escapes the socket thread
      and ends the run. */
  function Run(s: State, inputs: seq<Input>): State
    decreases |inputs|
  {
    if inputs == [] then s
    else match Apply(s, inputs[0])
      case Raised(_) => s
      case Done(next) => Run(next, inputs[1..])
  }

  /** One input never calls a continuation for a key that is not in the map
      and is not the id that input draws, and does not put that key back. */
  lemma ApplyAvoidsAbsentKey(s: State, input: Input, key: string)
    requires key !in s.txMap && input.newId != key
    ensures var r := Apply(s, input);
            r.Done? ==> key !in r.state.txMap &&
                        (r.state.calls == s.calls ||
                         (|r.state.calls| == |s.calls| + 1 && r.state.calls[..|s.calls|] == s.calls &&
                          Last(r.state.calls).key != key))
  {
    var r := Apply(s, input);
    if r.Done? && r.state.calls != s.calls {
      assert r.state.calls[..|s.calls|] == s.calls;
    }
  }

  /** At most once, across a whole run: once a transaction has been removed
      (after its Success or Error ran), no continuation runs for it again
      unless a later input draws the same id anew. */
  lemma {:induction false} RemovedStaysRemoved(s: State, inputs: seq<Input>, key: string)
    requires key !in s.txMap
    requires forall i :: 0 <= i < |inputs| ==> inputs[i].newId != key
    ensures key !in Run(s, inputs).txMap
    ensures |s.calls| <= |Run(s, inputs).calls| && Run(s, inputs).calls[..|s.calls|] == s.calls
    ensures forall i :: |s.calls| <= i < |Run(s, inputs).calls| ==> Run(s, inputs).calls[i].key != key
    decreases |inputs|
  {
    if inputs != [] {
      ApplyAvoidsAbsentKey(s, inputs[0], key);
      var r := Apply(s, inputs[0]);
      if r.Done? {
        RemovedStaysRemoved(r.state, inputs[1..], key);
        var final := Run(r.state, inputs[1..]);
        assert final == Run(s, inputs);
        assert final.calls[..|r.state.calls|] == r.state.calls;
        assert final.calls[..|s.calls|] == s.calls;
        forall i | |s.calls| <= i < |final.calls|
          ensures final.calls[i].key != key
        {
          if i >= |r.state.calls| {
          } else {
            assert final.calls[i] == r.state.calls[i];
          }
        }
      }
    }
  }

  /** Every input keeps the state valid, so every run does. */
  lemma {:induction false} RunPreservesValid(s: State, inputs: seq<Input>)
    requires Valid(s)
    ensures Valid(Run(s, inputs))
    decreases |inputs|
  {
    if inputs != [] {
      var r := Apply(s, inputs[0]);
      if inputs[0].JanusMessage? {
        RoutePreservesValid(s, inputs[0].message, inputs[0].newId);
      }
      if r.Done? {
        RunPreservesValid(r.state, inputs[1..]);
      }
    }
  }

  /** A run goes on from the state its first input leaves. */
  lemma RunCons(s: State, inputs: seq<Input>, next: State)
    requires inputs != [] && Apply(s, inputs[0]) == Done(next)
    ensures Run(s, inputs) == Run(next, inputs[1..])
  {
  }

  /** The session's `success` after connecting: the handle request follows. */
  lemma SessionAnswered(id1: FreshId, id2: FreshId, session: int)
    requires id1 != id2 && IsInt64(session)
    ensures Route(IssueCreateSession(Initial(), id1), Some(Inbound(Some("success"), Some(id1), Some(session))), id2)
            == Done(State(map[id2 := Transaction(id2, CreateHandleTx)], session, 0,
                          [Encode(Create(id1)), Encode(Attach(id2, EchoTestPlugin, session))], [Succeeded(id1)]))
  {
    var s := IssueCreateSession(Initial(), id1);
    var next := IssueCreateHandle(s.(sessionId := session), id2);
    assert next.txMap - {id1} == map[id2 := Transaction(id2, CreateHandleTx)];
  }

  /** The handle's `success` after that: the join request follows. */
  lemma HandleAnswered(id1: FreshId, id2: FreshId, id3: FreshId, session: int, handle: int)
    requires id2 != id3 && IsInt64(handle)
    ensures Route(State(map[id2 := Transaction(id2, CreateHandleTx)], session, 0,
                        [Encode(Create(id1)), Encode(Attach(id2, EchoTestPlugin, session))], [Succeeded(id1)]),
                  Some(Inbound(Some("success"), Some(id2), Some(handle))), id3)
            == Done(State(map[id3 := Transaction(id3, JoinRoomTx)], session, handle,
                          [Encode(Create(id1)), Encode(Attach(id2, EchoTestPlugin, session)),
                           Encode(Join(id3, session, handle))],
                          [Succeeded(id1), Succeeded(id2)]))
  {
    var s := State(map[id2 := Transaction(id2, CreateHandleTx)], session, 0,
                   [Encode(Create(id1)), Encode(Attach(id2, EchoTestPlugin, session))], [Succeeded(id1)]);
    var next := IssueJoinRoom(s.(handleId := handle), id3);
    assert next.txMap - {id2} == map[id3 := Transaction(id3, JoinRoomTx)];
  }

  /** The handshake as the gateway answers it: connect, the session's
      `success` with its id, then the handle's `success` with its id, leave
      both ids stored, only the join transaction pending, and the three
      requests create, attach and message sent in that order. */
  lemma Handshake(id1: FreshId, id2: FreshId, id3: FreshId, session: int, handle: int)
    requires id1 != id2 && id2 != id3 && id1 != id3
    requires IsInt64(session) && IsInt64(handle)
    ensures var final := Run(Initial(), [
                JanusConnected(id1),
                JanusMessage(Some(Inbound(Some("success"), Some(id1), Some(session))), id2),
                JanusMessage(Some(Inbound(Some("success"), Some(id2), Some(handle))), id3)]);
            && final.sessionId == session && final.handleId == handle
            && final.txMap == map[id3 := Transaction(id3, JoinRoomTx)]
            && final.outbox == [Encode(Create(id1)), Encode(Attach(id2, EchoTestPlugin, session)),
                                Encode(Join(id3, session, handle))]
            && final.calls == [Succeeded(id1), Succeeded(id2)]
  {
    var inputs := [
      JanusConnected(id1),
      JanusMessage(Some(Inbound(Some("success"), Some(id1), Some(session))), id2),
      JanusMessage(Some(Inbound(Some("success"), Some(id2), Some(handle))), id3)];
    var s1 := IssueCreateSession(Initial(), id1);
    var s2 := State(map[id2 := Transaction(id2, CreateHandleTx)], session, 0,
                    [Encode(Create(id1)), Encode(Attach(id2, EchoTestPlugin, session))], [Succeeded(id1)]);
    var s3 := State(map[id3 := Transaction(id3, JoinRoomTx)], session, handle,
                    [Encode(Create(id1)), Encode(Attach(id2, EchoTestPlugin, session)),
                     Encode(Join(id3, session, handle))],
                    [Succeeded(id1), Succeeded(id2)]);
    RunCons(Initial(), inputs, s1);
    SessionAnswered(id1, id2, session);
    RunCons(s1, inputs[1..], s2);
    HandleAnswered(id1, id2, id3, session, handle);
    RunCons(s2, inputs[2..], s3);
    assert inputs[2..][1..] == [];
  }
}
