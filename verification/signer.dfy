/** The response signer (`MediaServer._ack`) and the per-cycle fields it
    reads and clears. */
module Signer {
  import opened Wrappers
  import opened Json
  import opened Text
  import opened Auth

  /** A UDP peer as `recvfrom` reports it. */
  datatype Addr = Addr(host: string, port: int)

  /** The fields that change per cycle: `client`, the peer of the last
      datagram, and `action_id`, the pending correlation id. `JNull` in
      `actionId` is Python's `None`. */
  datatype Session = Session(client: Option<Addr>, actionId: Json)

  /** Both per-cycle fields cleared, as at start-up and after every ack. */
  const Idle := Session(None, JNull)

  /** One datagram handed to `sendto`. */
  datatype Packet = Packet(dest: Addr, payload: seq<byte>)

  /** A signed ack and the session left behind after sending it. */
  datatype Sent = Sent(session: Session, packet: Packet)

  /** The acknowledgement body `{"action", "time", "result", "message"}`;
      `message` is a diagnostic text or `None`. */
  function AckBody(action: Json, t: int, success: bool, response: Option<string>): Json {
    JObj(map[
      "action" := action,
      "time" := JNum(t),
      "result" := JBool(success),
      "message" := match response case None => JNull case Some(text) => JStr(text)])
  }

  /** `_ack(success, response)` at send time `t` (milliseconds): the body
      echoes the pending correlation id, is signed with the key
      `password + str(t)`, is wrapped as `{"hmac", "message"}`, goes to the
      current client, and both per-cycle fields are cleared. */
  function SignAck(env: Env, session: Session, success: bool, response: Option<string>, t: int): (r: Sent)
    requires session.client.Some?
    ensures r.session == Idle
    ensures r.packet.dest == session.client.value
  {
    var message := env.codec.dumps(AckBody(session.actionId, t, success, response));
    var h := env.digest(env.password + Decimal(t), message);
    var envelope := JObj(map["hmac" := JStr(h), "message" := JStr(message)]);
    Sent(Idle, Packet(session.client.value, WriteDocument(env.codec, envelope)))
  }

  /** What a client reads out of a response datagram: the envelope, then the
      acknowledgement body inside its `message`. */
  function ReadAck(c: Codec, payload: seq<byte>): Option<Json> {
    match ReadDocument(c, payload)
    case None => None
    case Some(envelope) =>
      match LookupStr(envelope, "message")
      case None => None
      case Some(message) => c.loads(message)
  }

  /** A response datagram that reads as an envelope the authenticator accepts:
      responses are signed exactly as requests are checked. */
  predicate Verifies(env: Env, payload: seq<byte>) {
    match ReadDocument(env.codec, payload)
    case None => false
    case Some(envelope) => Authentic(env, envelope)
  }

  /** The digest field of a response datagram, as a client reads it. */
  function ReadDigest(c: Codec, payload: seq<byte>): Option<string> {
    match ReadDocument(c, payload)
    case None => None
    case Some(envelope) => LookupStr(envelope, "hmac")
  }

  /** A signed ack reads back as the body built from the pending correlation
      id, the send time, the result and the diagnostic; its digest is the
      keyed digest of the printed body under `password + str(t)`; and it
      passes the very check the server applies to requests. */
  lemma SignedAckReadsBack(env: Env, session: Session, success: bool, response: Option<string>, t: int)
    requires Lawful(env.codec)
    requires session.client.Some?
    ensures ReadAck(env.codec, SignAck(env, session, success, response, t).packet.payload)
            == Some(AckBody(session.actionId, t, success, response))
    ensures ReadDigest(env.codec, SignAck(env, session, success, response, t).packet.payload)
            == Some(env.digest(env.password + Decimal(t), env.codec.dumps(AckBody(session.actionId, t, success, response))))
    ensures Verifies(env, SignAck(env, session, success, response, t).packet.payload)
  {
    var body := AckBody(session.actionId, t, success, response);
    var message := env.codec.dumps(body);
    var h := env.digest(env.password + Decimal(t), message);
    var envelope := JObj(map["hmac" := JStr(h), "message" := JStr(message)]);
    ReadWriteDocument(env.codec, envelope);
    assert env.codec.loads(message) == Some(body);
    assert MessageTime(env, message) == Some(JNum(t));
    assert KeyFor(env, JNum(t)) == env.password + Decimal(t);
  }
}
