/** The command dispatcher (`MediaServer._serve`): an `if/elif` chain over the
    command name that calls the playback controller and acknowledges its
    answer, under a two-level exception policy. */
module Dispatch {
  import opened Wrappers
  import opened Json
  import opened Auth
  import opened Signer

  /** The controller operations the server invokes. */
  datatype Op = Play | Pause | Stop | Seek | SetVolume | SetSubtitles | Fullscreen | Mute

  /** One controller invocation: the operation and its single argument
      (none for `stop`). */
  datatype Call = Call(op: Op, arg: Option<Json>)

  /** An exception out of a controller call or a dict lookup. `KeyError`
      carries `str(e)`; every other exception is alike to the server. */
  datatype Fault = KeyError(text: string) | OtherFault

  /** What a controller call does: return a success flag or raise. */
  datatype Reply = Returned(ok: bool) | Raised(fault: Fault)

  /** The playback controller, a collaborator seen only through its answers. */
  type Controller = Call -> Reply

  /** The effect of one cycle: the session left behind, the datagrams sent
      and the controller calls made, in order. */
  datatype Outcome = Outcome(session: Session, packets: seq<Packet>, calls: seq<Call>)

  /** `str(KeyError(key))` for a dict key without quotes: the key in single quotes. */
  function MissingKeyText(key: string): string {
    "'" + key + "'"
  }

  /** The diagnostic `_serve` sends for a caught exception. */
  function Diagnostic(f: Fault): string {
    match f
    case KeyError(text) => "Expection '" + text + "'"
    case OtherFault => "Not Implemented"
  }

  /** The diagnostic for a missing dict key, `"Expection '%s'" % str(KeyError(key))`:
      the key inside two pairs of single quotes. */
  function MissingKeyDiagnostic(key: string): (r: string)
    ensures r == "Expection ''" + key + "''"
  {
    var r := Diagnostic(KeyError(MissingKeyText(key)));
    assert r == "Expection ''" + key + "''" by {
      assert "Expection '" + ("'" + key + "'") + "'" == "Expection ''" + key + "''";
    }
    r
  }

  /** `_ack(False, diagnostic)` for a caught exception. */
  function AckFault(env: Env, s: Session, calls: seq<Call>, f: Fault, t: int): Outcome
    requires s.client.Some?
  {
    var sent := SignAck(env, s, false, Some(Diagnostic(f)), t);
    Outcome(sent.session, [sent.packet], calls)
  }

  /** One branch of the chain, `self._ack(self.controller.op(cmd[field]), None)`:
      the argument is looked up before the call, so a missing field raises
      KeyError without reaching the controller. */
  function Invoke(env: Env, s: Session, cmd: map<string, Json>, ctl: Controller, t: int, op: Op, field: Option<string>): Outcome
    requires s.client.Some?
  {
    if field.Some? && field.value !in cmd then
      AckFault(env, s, [], KeyError(MissingKeyText(field.value)), t)
    else
      var call := Call(op, if field.Some? then Some(cmd[field.value]) else None);
      match ctl(call)
      case Returned(ok) =>
        var sent := SignAck(env, s, ok, None, t);
        Outcome(sent.session, [sent.packet], [call])
      case Raised(f) => AckFault(env, s, [call], f, t)
  }

  /** `_serve(cmd)` at send time `t`. A name matching no branch falls off the
      chain: nothing is sent and the per-cycle fields stay set. */
  function Serve(env: Env, s: Session, cmd: map<string, Json>, ctl: Controller, t: int): (r: Outcome)
    requires s.client.Some?
    ensures |r.packets| <= 1 && |r.calls| <= 1
    ensures |r.packets| == 1 ==> r.session == Idle && r.packets[0].dest == s.client.value
    ensures r.packets == [] ==> r.session == s && r.calls == []
  {
    if "command" !in cmd then AckFault(env, s, [], KeyError(MissingKeyText("command")), t)
    else
      var command := cmd["command"];
      if command == JStr("play") then Invoke(env, s, cmd, ctl, t, Play, Some("path"))
      else if command == JStr("pause") then Invoke(env, s, cmd, ctl, t, Pause, Some("state"))
      else if command == JStr("stop") then Invoke(env, s, cmd, ctl, t, Stop, None)
      else if command == JStr("seek") then Invoke(env, s, cmd, ctl, t, Seek, Some("seconds"))
      else if command == JStr("set_volume") then Invoke(env, s, cmd, ctl, t, SetVolume, Some("volume"))
      else if command == JStr("set_subtitles") then Invoke(env, s, cmd, ctl, t, SetSubtitles, Some("track"))
      else if command == JStr("fullscreen") then Invoke(env, s, cmd, ctl, t, Fullscreen, Some("state"))
      else if command == JStr("mute") then Invoke(env, s, cmd, ctl, t, Mute, Some("state"))
      else Outcome(s, [], [])
  }

  /** One row of the operation table: command name, controller operation and
      the field holding its argument. */
  datatype Row = Row(name: string, op: Op, field: Option<string>)

  /** The operation table the chain implements, written independently of it. */
  const Table: seq<Row> := [
    Row("play", Play, Some("path")),
    Row("pause", Pause, Some("state")),
    Row("stop", Stop, None),
    Row("seek", Seek, Some("seconds")),
    Row("set_volume", SetVolume, Some("volume")),
    Row("set_subtitles", SetSubtitles, Some("track")),
    Row("fullscreen", Fullscreen, Some("state")),
    Row("mute", Mute, Some("state"))
  ]

  /** A command value some row of the table names. */
  predicate Known(command: Json) {
    exists i :: 0 <= i < |Table| && command == JStr(Table[i].name)
  }

  /** The call a row makes for a command that carries the row's field. */
  function RowCall(row: Row, cmd: map<string, Json>): Call
    requires row.field.Some? ==> row.field.value in cmd
  {
    Call(row.op, if row.field.Some? then Some(cmd[row.field.value]) else None)
  }

  /** The chain agrees with the table, row by row: for the `i`-th command name
      it makes the `i`-th row's controller call, or raises KeyError for its
      field without calling the controller. */
  lemma ServeFollowsTable(env: Env, s: Session, cmd: map<string, Json>, ctl: Controller, t: int, i: int)
    requires s.client.Some?
    requires 0 <= i < |Table|
    requires "command" in cmd && cmd["command"] == JStr(Table[i].name)
    ensures Serve(env, s, cmd, ctl, t) == Invoke(env, s, cmd, ctl, t, Table[i].op, Table[i].field)
  {
  }

  /** A known command whose field is present makes exactly the row's call,
      and sends one ack whose result is the controller's answer and whose
      message is `None`, or the diagnostic of the exception it raised. */
  lemma KnownCommandDispatched(env: Env, s: Session, cmd: map<string, Json>, ctl: Controller, t: int, i: int)
    requires Lawful(env.codec)
    requires s.client.Some?
    requires 0 <= i < |Table|
    requires "command" in cmd && cmd["command"] == JStr(Table[i].name)
    requires Table[i].field.Some? ==> Table[i].field.value in cmd
    ensures var r := Serve(env, s, cmd, ctl, t);
      && r.calls == [RowCall(Table[i], cmd)]
      && |r.packets| == 1
      && r.session == Idle
      && Verifies(env, r.packets[0].payload)
      && ReadAck(env.codec, r.packets[0].payload) == Some(
           match ctl(RowCall(Table[i], cmd))
           case Returned(ok) => AckBody(s.actionId, t, ok, None)
           case Raised(f) => AckBody(s.actionId, t, false, Some(Diagnostic(f))))
  {
    ServeFollowsTable(env, s, cmd, ctl, t, i);
    match ctl(RowCall(Table[i], cmd))
    case Returned(ok) => SignedAckReadsBack(env, s, ok, None, t);
    case Raised(f) => SignedAckReadsBack(env, s, false, Some(Diagnostic(f)), t);
  }

  /** A missing `command` raises KeyError before any branch: no call, and
      one ack with result false and the diagnostic naming the key. */
  lemma MissingCommandAcked(env: Env, s: Session, cmd: map<string, Json>, ctl: Controller, t: int)
    requires Lawful(env.codec)
    requires s.client.Some?
    requires "command" !in cmd
    ensures var r := Serve(env, s, cmd, ctl, t);
      && r.calls == []
      && |r.packets| == 1
      && r.session == Idle
      && ReadAck(env.codec, r.packets[0].payload)
         == Some(AckBody(s.actionId, t, false, Some(MissingKeyDiagnostic("command"))))
  {
    SignedAckReadsBack(env, s, false, Some(Diagnostic(KeyError(MissingKeyText("command")))), t);
  }

  /** A known command without its field raises KeyError while its argument
      is looked up, before the controller is reached: no call, and one ack
      with result false and the diagnostic naming the field. */
  lemma MissingFieldAcked(env: Env, s: Session, cmd: map<string, Json>, ctl: Controller, t: int, i: int)
    requires Lawful(env.codec)
    requires s.client.Some?
    requires 0 <= i < |Table|
    requires "command" in cmd && cmd["command"] == JStr(Table[i].name)
    requires Table[i].field.Some? && Table[i].field.value !in cmd
    ensures var r := Serve(env, s, cmd, ctl, t);
      && r.calls == []
      && |r.packets| == 1
      && r.session == Idle
      && ReadAck(env.codec, r.packets[0].payload)
         == Some(AckBody(s.actionId, t, false, Some(MissingKeyDiagnostic(Table[i].field.value))))
  {
    ServeFollowsTable(env, s, cmd, ctl, t, i);
    var key := Table[i].field.value;
    SignedAckReadsBack(env, s, false, Some(Diagnostic(KeyError(MissingKeyText(key)))), t);
  }

  /** Whatever the command, any datagram `_serve` sends verifies. */
  lemma ServePacketsVerify(env: Env, s: Session, cmd: map<string, Json>, ctl: Controller, t: int)
    requires Lawful(env.codec)
    requires s.client.Some?
    ensures forall p :: p in Serve(env, s, cmd, ctl, t).packets ==> Verifies(env, p.payload)
  {
    if "command" !in cmd {
      SignedAckReadsBack(env, s, false, Some(Diagnostic(KeyError(MissingKeyText("command")))), t);
    } else if Known(cmd["command"]) {
      var i :| 0 <= i < |Table| && cmd["command"] == JStr(Table[i].name);
      ServeFollowsTable(env, s, cmd, ctl, t, i);
      var field := Table[i].field;
      if field.Some? && field.value !in cmd {
        SignedAckReadsBack(env, s, false, Some(Diagnostic(KeyError(MissingKeyText(field.value)))), t);
      } else {
        match ctl(RowCall(Table[i], cmd))
        case Returned(ok) => SignedAckReadsBack(env, s, ok, None, t);
        case Raised(f) => SignedAckReadsBack(env, s, false, Some(Diagnostic(f)), t);
      }
    } else {
      UnknownCommandIgnored(env, s, cmd, ctl, t);
    }
  }

  /** A command value no row names falls off the chain: no call, no
      datagram, and `client` and `action_id` are left as they were. */
  lemma UnknownCommandIgnored(env: Env, s: Session, cmd: map<string, Json>, ctl: Controller, t: int)
    requires s.client.Some?
    requires "command" in cmd && !Known(cmd["command"])
    ensures Serve(env, s, cmd, ctl, t) == Outcome(s, [], [])
  {
    var c := cmd["command"];
    assert c != JStr(Table[0].name);
    assert c != JStr(Table[1].name);
    assert c != JStr(Table[2].name);
    assert c != JStr(Table[3].name);
    assert c != JStr(Table[4].name);
    assert c != JStr(Table[5].name);
    assert c != JStr(Table[6].name);
    assert c != JStr(Table[7].name);
  }
}
