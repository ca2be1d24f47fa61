/** The transport loop (`MediaServer._recv` driving `_serve`) as a state
    machine: one step takes the session, one received datagram, the send
    time and the controller's answers, and gives the new session, the
    datagrams sent and the controller calls made. */
module Server {
  import opened Wrappers
  import opened Json
  import opened Auth
  import opened Signer
  import opened Dispatch

  /** A datagram as `recvfrom` returns it. */
  datatype Datagram = Datagram(sender: Addr, payload: seq<byte>)

  /** One pass of the receive loop: either it keeps waiting (`continue`,
      possibly after a health ack) or it returns an authenticated command. */
  datatype Received =
    | Continue(session: Session, packets: seq<Packet>)
    | Accept(session: Session, cmd: map<string, Json>)

  /** The literal liveness probe. */
  const HealthToken: string := "health"

  /** The command inside an authenticated envelope, `json.loads(data["message"])`,
      when it is an object carrying `time`. */
  function Command(env: Env, data: Json): Option<map<string, Json>> {
    match LookupStr(data, "message")
    case None => None
    case Some(message) =>
      match env.codec.loads(message)
      case Some(JObj(fields)) => if "time" in fields then Some(fields) else None
      case _ => None
  }

  /** One pass of `_recv`'s loop body for datagram `d`, with send time `t` for
      a health ack. The sender becomes the client whatever happens next. */
  function Receive(env: Env, s: Session, d: Datagram, t: int): Received {
    var s1 := s.(client := Some(d.sender));
    match env.codec.decode(d.payload)
    case None => Continue(s1, [])
    case Some(text) =>
      if text == HealthToken then
        var sent := SignAck(env, s1, true, None, t);
        Continue(sent.session, [sent.packet])
      else
        match env.codec.loads(text)
        case None => Continue(s1, [])
        case Some(data) =>
          if !Authentic(env, data) then Continue(s1, [])
          else
            match Command(env, data)
            case None => Continue(s1, [])
            case Some(cmd) => Accept(s1.(actionId := cmd["time"]), cmd)
  }

  /** One protocol step: receive one datagram and, if it yields a command,
      serve it at once. */
  function Step(env: Env, s: Session, d: Datagram, t: int, ctl: Controller): (r: Outcome)
    ensures |r.packets| <= 1
    ensures r.calls != [] ==> r.packets != []
    ensures r.packets != [] ==> r.session == Idle && r.packets[0].dest == d.sender
    ensures r.packets == [] ==> r.session.client == Some(d.sender)
  {
    match Receive(env, s, d, t)
    case Continue(s', packets) => Outcome(s', packets, [])
    case Accept(s', cmd) => Serve(env, s', cmd, ctl, t)
  }

  /** Why a datagram other than the probe goes unanswered: it does not decode,
      does not parse, or does not authenticate. */
  predicate Rejected(env: Env, d: Datagram) {
    match env.codec.decode(d.payload)
    case None => true
    case Some(text) =>
      text != HealthToken &&
      match env.codec.loads(text)
      case None => true
      case Some(data) => !Authentic(env, data)
  }

  /** Health bypass: the probe is answered by one ack to its sender with
      result true and message `None`, echoing whatever correlation id is
      pending; no controller call is made, the session is cleared and the
      loop keeps waiting. */
  lemma HealthAcked(env: Env, s: Session, d: Datagram, t: int, ctl: Controller)
    requires Lawful(env.codec)
    requires env.codec.decode(d.payload) == Some(HealthToken)
    ensures Receive(env, s, d, t).Continue?
    ensures var r := Step(env, s, d, t, ctl);
      && r.calls == []
      && |r.packets| == 1
      && r.packets[0].dest == d.sender
      && r.session == Idle
      && ReadAck(env.codec, r.packets[0].payload) == Some(AckBody(s.actionId, t, true, None))
  {
    SignedAckReadsBack(env, s.(client := Some(d.sender)), true, None, t);
  }

  /** Silent drop: a datagram that fails to decode, parse or authenticate gets
      no response and no controller call; the loop keeps waiting with the
      pending correlation id unchanged. */
  lemma RejectedDropped(env: Env, s: Session, d: Datagram, t: int, ctl: Controller)
    requires Rejected(env, d)
    ensures Receive(env, s, d, t).Continue?
    ensures Step(env, s, d, t, ctl) == Outcome(Session(Some(d.sender), s.actionId), [], [])
  {
  }

  /** Acceptance: an authentic envelope yields its command, with the
      command's `time` recorded as the pending correlation id. */
  lemma AuthenticAccepted(env: Env, s: Session, d: Datagram, t: int)
    requires env.codec.decode(d.payload).Some?
    requires env.codec.decode(d.payload).value != HealthToken
    requires ReadDocument(env.codec, d.payload).Some?
    requires Authentic(env, ReadDocument(env.codec, d.payload).value)
    ensures var r := Receive(env, s, d, t);
      && r.Accept?
      && "time" in r.cmd
      && r.session == Session(Some(d.sender), r.cmd["time"])
      && Some(r.cmd) == Command(env, ReadDocument(env.codec, d.payload).value)
  {
  }

  /** The three paths are exhaustive: every datagram is the probe, is
      rejected, or is accepted. */
  lemma PathsExhaustive(env: Env, s: Session, d: Datagram, t: int)
    ensures || env.codec.decode(d.payload) == Some(HealthToken)
            || Rejected(env, d)
            || Receive(env, s, d, t).Accept?
  {
    if env.codec.decode(d.payload) != Some(HealthToken) && !Rejected(env, d) {
      AuthenticAccepted(env, s, d, t);
    }
  }

  /** The datagram a client sends for a command it signs. */
  function RequestDatagram(env: Env, sender: Addr, cmd: map<string, Json>): Datagram
    requires "time" in cmd
  {
    Datagram(sender, WriteDocument(env.codec, SignRequest(env, cmd)))
  }

  /** A command a client signs is accepted, with its `time` pending. */
  lemma SignedRequestAccepted(env: Env, s: Session, sender: Addr, cmd: map<string, Json>, t: int)
    requires Lawful(env.codec)
    requires "time" in cmd
    requires env.codec.dumps(SignRequest(env, cmd)) != HealthToken
    ensures Receive(env, s, RequestDatagram(env, sender, cmd), t) == Accept(Session(Some(sender), cmd["time"]), cmd)
  {
    var d := RequestDatagram(env, sender, cmd);
    ReadWriteDocument(env.codec, SignRequest(env, cmd));
    SignedRequestAuthentic(env, cmd, env.digest(KeyFor(env, cmd["time"]), env.codec.dumps(JObj(cmd))));
    assert env.codec.loads(env.codec.dumps(JObj(cmd))) == Some(JObj(cmd));
    AuthenticAccepted(env, s, d, t);
  }

  /** End to end: a command a client signs with the shared secret, naming a
      known operation with its field present, makes that row's controller
      call, and the one ack sent back to the client echoes the command's
      `time` as `action`, carries the controller's answer, and verifies. */
  lemma SignedCommandServed(env: Env, s: Session, sender: Addr, cmd: map<string, Json>, t: int, ctl: Controller, i: int)
    requires Lawful(env.codec)
    requires "time" in cmd
    requires env.codec.dumps(SignRequest(env, cmd)) != HealthToken
    requires 0 <= i < |Table|
    requires "command" in cmd && cmd["command"] == JStr(Table[i].name)
    requires Table[i].field.Some? ==> Table[i].field.value in cmd
    ensures var r := Step(env, s, RequestDatagram(env, sender, cmd), t, ctl);
      && r.calls == [RowCall(Table[i], cmd)]
      && |r.packets| == 1
      && r.packets[0].dest == sender
      && r.session == Idle
      && Verifies(env, r.packets[0].payload)
      && ReadAck(env.codec, r.packets[0].payload) == Some(
           match ctl(RowCall(Table[i], cmd))
           case Returned(ok) => AckBody(cmd["time"], t, ok, None)
           case Raised(f) => AckBody(cmd["time"], t, false, Some(Diagnostic(f))))
  {
    SignedRequestAccepted(env, s, sender, cmd, t);
    KnownCommandDispatched(env, Session(Some(sender), cmd["time"]), cmd, ctl, t, i);
  }

  /** Every datagram a step sends is a signed ack that verifies. */
  lemma StepPacketsVerify(env: Env, s: Session, d: Datagram, t: int, ctl: Controller)
    requires Lawful(env.codec)
    ensures forall p :: p in Step(env, s, d, t, ctl).packets ==> Verifies(env, p.payload)
  {
    match Receive(env, s, d, t)
    case Continue(_, _) =>
      SignedAckReadsBack(env, s.(client := Some(d.sender)), true, None, t);
    case Accept(s', cmd) =>
      ServePacketsVerify(env, s', cmd, ctl, t);
  }

  /** Events the loop consumes: a datagram, the send time of any ack it
      causes, and the controller's answers during that cycle. */
  datatype Event = Event(d: Datagram, t: int, ctl: Controller)

  /** The loop run over a sequence of events from session `s`. */
  function Run(env: Env, s: Session, events: seq<Event>): (r: Outcome)
    ensures |r.packets| <= |events|
    ensures |r.calls| <= |events|
    decreases |events|
  {
    if |events| == 0 then Outcome(s, [], [])
    else
      var e := events[0];
      var first := Step(env, s, e.d, e.t, e.ctl);
      var rest := Run(env, first.session, events[1..]);
      Outcome(rest.session, first.packets + rest.packets, first.calls + rest.calls)
  }

  /** Over any run, every datagram the server sends verifies under the
      shared secret: nothing unsigned ever leaves the loop. */
  lemma {:induction false} RunPacketsVerify(env: Env, s: Session, events: seq<Event>)
    requires Lawful(env.codec)
    ensures forall p :: p in Run(env, s, events).packets ==> Verifies(env, p.payload)
    decreases |events|
  {
    if |events| > 0 {
      var e := events[0];
      var first := Step(env, s, e.d, e.t, e.ctl);
      StepPacketsVerify(env, s, e.d, e.t, e.ctl);
      RunPacketsVerify(env, first.session, events[1..]);
    }
  }

  /** Replay: acceptance does not depend on the session, so a datagram
      accepted once is accepted again, with the same command, whenever it is
      received later. */
  lemma ReplayAccepted(env: Env, s: Session, s': Session, d: Datagram, t: int, t': int)
    requires Receive(env, s, d, t).Accept?
    ensures Receive(env, s', d, t').Accept?
    ensures Receive(env, s', d, t').cmd == Receive(env, s, d, t).cmd
  {
  }

  /** The stale correlation id: after an authentic command whose name no
      row knows, `action_id` survives, and a later health probe's ack echoes
      that command's `time` rather than `None`. */
  lemma StaleActionIdEchoed(env: Env, s: Session, client: Addr, prober: Addr, cmd: map<string, Json>,
                            probe: seq<byte>, t1: int, t2: int, ctl1: Controller, ctl2: Controller)
    requires Lawful(env.codec)
    requires "time" in cmd && "command" in cmd && !Known(cmd["command"])
    requires env.codec.dumps(SignRequest(env, cmd)) != HealthToken
    requires env.codec.decode(probe) == Some(HealthToken)
    ensures var first := Step(env, s, RequestDatagram(env, client, cmd), t1, ctl1);
      && first.packets == [] && first.calls == []
      && first.session == Session(Some(client), cmd["time"])
      && var second := Step(env, first.session, Datagram(prober, probe), t2, ctl2);
      ReadAck(env.codec, second.packets[0].payload) == Some(AckBody(cmd["time"], t2, true, None))
  {
    SignedRequestAccepted(env, s, client, cmd, t1);
    var s' := Session(Some(client), cmd["time"]);
    UnknownCommandIgnored(env, s', cmd, ctl1, t1);
    HealthAcked(env, s', Datagram(prober, probe), t2, ctl2);
  }
}
