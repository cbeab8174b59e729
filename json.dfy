/**
 * The JSON documents the conductor builds and sends to the Janus gateway.
 * The real reader and writer (jsoncpp) are not modelled: a document is kept as
 * a value, an object as a map from member name to value (jsoncpp keeps object
 * members sorted by name, so the order in which they are assigned is not
 * observable either).
 */
module JanusJson {
  import opened Wrappers

  datatype Json =
    | Null
    | Bool(b: bool)
    | Int(n: int)
    | Str(s: string)
    | Object(members: map<string, Json>)

  /** The member `key` of an object, if there is one. */
  function Member(j: Json, key: string): Option<Json> {
    if j.Object? && key in j.members then Some(j.members[key]) else None
  }

  function StringMember(j: Json, key: string): Option<string> {
    match Member(j, key)
    case Some(Str(s)) => Some(s)
    case _ => None
  }

  function IntMember(j: Json, key: string): Option<int> {
    match Member(j, key)
    case Some(Int(n)) => Some(n)
    case _ => None
  }

  function BoolMember(j: Json, key: string): Option<bool> {
    match Member(j, key)
    case Some(Bool(b)) => Some(b)
    case _ => None
  }

  /** The requests the conductor sends straight to the gateway. */
  datatype Request =
    | Create(transaction: string)
    | Attach(transaction: string, plugin: string, sessionId: int)
    | Join(transaction: string, sessionId: int, handleId: int)
    | Configure(transaction: string, sessionId: int, handleId: int, sdpType: string, sdp: string)
      /** The candidate object of a trickle request carries only `sdpMid` and
          `sdpMLineIndex` (see TrickleEnvelope). */
    | Trickle(transaction: string, sessionId: int, handleId: int, sdpMLineIndex: int, sdpMid: string)
  {
    /** The value of the envelope's `janus` member. */
    function Discriminator(): string {
      match this
      case Create(_) => "create"
      case Attach(_, _, _) => "attach"
      case _ => "message"
    }
  }

  /** The media flags `{audio: true, video: true}` of a join request. */
  function JoinBody(): Json {
    Object(map[]["audio" := Bool(true)]["video" := Bool(true)])
  }

  /** The body `{request: "configure", audio: true, video: true}` of an offer. */
  function ConfigureBody(): Json {
    Object(map[]["request" := Str("configure")]["audio" := Bool(true)]["video" := Bool(true)])
  }

  /** The envelope of a request, member by member as the conductor assigns them. */
  function Encode(r: Request): (j: Json)
    ensures StringMember(j, "janus") == Some(r.Discriminator())
    ensures StringMember(j, "transaction") == Some(r.transaction)
  {
    match r
    case Create(tx) =>
      Object(map[]["janus" := Str("create")]["transaction" := Str(tx)])
    case Attach(tx, plugin, sid) =>
      Object(map[]["janus" := Str("attach")]["plugin" := Str(plugin)]
                  ["transaction" := Str(tx)]["session_id" := Int(sid)])
    case Join(tx, sid, hid) =>
      Object(map[]["body" := JoinBody()]["janus" := Str("message")]
                  ["transaction" := Str(tx)]["session_id" := Int(sid)]["handle_id" := Int(hid)])
    case Configure(tx, sid, hid, sdpType, sdp) =>
      Object(map[]["body" := ConfigureBody()]
                  ["jsep" := Object(map[]["type" := Str(sdpType)]["sdp" := Str(sdp)])]
                  ["janus" := Str("message")]["transaction" := Str(tx)]
                  ["session_id" := Int(sid)]["handle_id" := Int(hid)])
    case Trickle(tx, sid, hid, index, mid) =>
      Object(map[]["janus" := Str("message")]
                  ["candidate" := Object(map[]["sdpMid" := Str(mid)]["sdpMLineIndex" := Int(index)])]
                  ["transaction" := Str(tx)]["session_id" := Int(sid)]["handle_id" := Int(hid)])
  }

  /** Reads a request envelope back; the partner of Encode. A `message` is a
      trickle when it has a `candidate` member, an offer when it has `jsep`,
      and a join otherwise. */
  function Decode(j: Json): Option<Request> {
    match (StringMember(j, "janus"), StringMember(j, "transaction"))
    case (Some("create"), Some(tx)) => Some(Create(tx))
    case (Some("attach"), Some(tx)) =>
      (match (StringMember(j, "plugin"), IntMember(j, "session_id"))
       case (Some(plugin), Some(sid)) => Some(Attach(tx, plugin, sid))
       case _ => None)
    case (Some("message"), Some(tx)) =>
      (match (IntMember(j, "session_id"), IntMember(j, "handle_id"))
       case (Some(sid), Some(hid)) =>
         (match (Member(j, "candidate"), Member(j, "jsep"))
          case (Some(c), _) =>
            (match (IntMember(c, "sdpMLineIndex"), StringMember(c, "sdpMid"))
             case (Some(index), Some(mid)) => Some(Trickle(tx, sid, hid, index, mid))
             case _ => None)
          case (None, Some(jsep)) =>
            (match (StringMember(jsep, "type"), StringMember(jsep, "sdp"))
             case (Some(t), Some(sdp)) => Some(Configure(tx, sid, hid, t, sdp))
             case _ => None)
          case (None, None) =>
            if Member(j, "body") == Some(JoinBody()) then Some(Join(tx, sid, hid)) else None)
       case _ => None)
    case _ => None
  }

  /** Decode reads back exactly the request an envelope was built from. */
  lemma DecodeInvertsEncode(r: Request)
    ensures Decode(Encode(r)) == Some(r)
  {
    match r
    case Create(tx) => DecodesCreate(tx);
    case Attach(tx, plugin, sid) => DecodesAttach(tx, plugin, sid);
    case Join(tx, sid, hid) => DecodesJoin(tx, sid, hid);
    case Configure(tx, sid, hid, sdpType, sdp) => DecodesConfigure(tx, sid, hid, sdpType, sdp);
    case Trickle(tx, sid, hid, index, mid) => DecodesTrickle(tx, sid, hid, index, mid);
  }

  lemma DecodesCreate(tx: string)
    ensures Decode(Encode(Create(tx))) == Some(Create(tx))
  {
  }

  lemma DecodesAttach(tx: string, plugin: string, sid: int)
    ensures Decode(Encode(Attach(tx, plugin, sid))) == Some(Attach(tx, plugin, sid))
  {
  }

  lemma DecodesJoin(tx: string, sid: int, hid: int)
    ensures Decode(Encode(Join(tx, sid, hid))) == Some(Join(tx, sid, hid))
  {
    var j := Encode(Join(tx, sid, hid));
    assert Member(j, "candidate") == None && Member(j, "jsep") == None;
  }

  lemma DecodesConfigure(tx: string, sid: int, hid: int, sdpType: string, sdp: string)
    ensures Decode(Encode(Configure(tx, sid, hid, sdpType, sdp))) == Some(Configure(tx, sid, hid, sdpType, sdp))
  {
    assert Member(Encode(Configure(tx, sid, hid, sdpType, sdp)), "candidate") == None;
  }

  lemma DecodesTrickle(tx: string, sid: int, hid: int, index: int, mid: string)
    ensures Decode(Encode(Trickle(tx, sid, hid, index, mid))) == Some(Trickle(tx, sid, hid, index, mid))
  {
  }

  /** The trickle envelope as trickleCandidate assigns it: `sdpMid` is written
      twice, the second time with the candidate's text, and no `candidate`
      member is written inside the candidate object. The result is the
      canonical Trickle request, which does not depend on `mid` at all. */
  function TrickleEnvelope(tx: string, sid: int, hid: int, mid: string, index: int, text: string): (j: Json)
    ensures j == Encode(Trickle(tx, sid, hid, index, text))
  {
    var candidate := map[]["sdpMid" := Str(mid)]["sdpMLineIndex" := Int(index)]["sdpMid" := Str(text)];
    assert candidate == map[]["sdpMid" := Str(text)]["sdpMLineIndex" := Int(index)];
    Object(map[]["janus" := Str("message")]["candidate" := Object(candidate)]
                ["transaction" := Str(tx)]["session_id" := Int(sid)]["handle_id" := Int(hid)])
  }

  /** The text of a trickle envelope's candidate never mentions the media
      identifier: two candidates that differ only in it give one envelope,
      and the candidate object has no `candidate` member. */
  lemma TrickleLosesMid(tx: string, sid: int, hid: int, mid1: string, mid2: string, index: int, text: string)
    ensures TrickleEnvelope(tx, sid, hid, mid1, index, text) == TrickleEnvelope(tx, sid, hid, mid2, index, text)
    ensures var c := Member(TrickleEnvelope(tx, sid, hid, mid1, index, text), "candidate");
            c.Some? && StringMember(c.value, "sdpMid") == Some(text) && Member(c.value, "candidate") == None
  {
  }

  /** A connectivity candidate as the media engine reports it; `text` is None
      when the candidate cannot be written out as a string. */
  datatype IceCandidate = IceCandidate(sdpMid: string, sdpMLineIndex: int, text: Option<string>)

  /** The fields of a candidate record read back from JSON. */
  datatype CandidateFields = CandidateFields(sdpMid: string, sdpMLineIndex: int, candidate: string)

  /** The candidate record OnIceCandidate queues for the gateway. */
  function CandidateRecord(mid: string, index: int, text: string): (j: Json)
    ensures ParseCandidate(j) == Some(CandidateFields(mid, index, text))
  {
    Object(map[]["sdpMid" := Str(mid)]["sdpMLineIndex" := Int(index)]["candidate" := Str(text)])
  }

  function ParseCandidate(j: Json): Option<CandidateFields> {
    match (StringMember(j, "sdpMid"), IntMember(j, "sdpMLineIndex"), StringMember(j, "candidate"))
    case (Some(mid), Some(index), Some(text)) => Some(CandidateFields(mid, index, text))
    case _ => None
  }

  /** The session description record the conductor queues after creating an offer. */
  function DescriptionRecord(sdpType: string, sdp: string): (j: Json)
    ensures StringMember(j, "type") == Some(sdpType) && StringMember(j, "sdp") == Some(sdp)
    ensures Member(j, "janus") == None
  {
    Object(map[]["type" := Str(sdpType)]["sdp" := Str(sdp)])
  }
}
