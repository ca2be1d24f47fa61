# Media server remote-control protocol, modelled in Dafny

This project models the request/response core of `MediaServer`, the UDP
listener of a remote control for a media player. Each datagram the server
receives takes one of three paths:

- the bare text `health` is answered at once with a success
  acknowledgement, without authentication;
- anything that does not decode, does not parse as JSON, or does not
  authenticate is dropped without any reply;
- an authenticated command is dispatched to the playback controller and
  answered with a signed acknowledgement that echoes the command's `time`
  as its `action`.

The model is a pure state machine. `Server.Step` takes the per-cycle session
(`client`, `action_id`), one datagram, the send time and the controller's
answers. It returns the new session, the datagrams sent and the controller
calls made. `Server.Run` folds it over a sequence of such events.

Collaborators are parameters:

- `Auth.Env` holds the shared secret, the library codec and the keyed digest.
- The keyed digest `digest(key, data)` stands for
  `hmac.new(key.encode(), data.encode()).hexdigest()` and is uninterpreted.
- `Json.Codec` bundles UTF-8 decoding and encoding, `json.loads`,
  `json.dumps` and `str()` of lists and dicts. `Json.Lawful` states the two
  round-trip laws a correct library satisfies. Only lemmas assume it.
- The controller is an oracle `Call -> Reply`. A call returns a success
  flag, raises `KeyError`, or raises anything else.
- The send time `t` (milliseconds) is an input of each step.

Modules follow the components: `Json` (documents and codec), `Text`
(`str()` of values and `lower()`), `Auth` (`_auth`), `Signer` (`_ack` and
the session), `Dispatch` (`_serve`), `Server` (`_recv` and the loop).

Behaviours of the code that a reader might not expect, all modelled as
written:

- An unrecognised command name falls off the `if/elif` chain and is not
  answered at all, not even with a failure ack. `client` and `action_id`
  stay set (`Dispatch.UnknownCommandIgnored`).
- Because `action_id` survives such a command, a later `health` ack echoes
  that stale correlation id instead of `None`
  (`Server.StaleActionIdEchoed`).
- A missing key is reported as `Expection ''path''`, which is
  `"Expection '%s'" % str(KeyError('path'))`
  (`Dispatch.MissingKeyDiagnostic`).
- The digest comparison lower-cases both sides. Flipping the case bit of a
  hex letter in a valid digest is still accepted, so not every single-bit
  change of the digest is rejected (`Auth.CaseBitFlipAccepted`).
- The key material uses `str()` of `time`, so it does not bind the JSON type
  of `time`: the string `"5"` and the number `5` give the same key
  (`Auth.KeyIgnoresTimeType`).
- `client` is overwritten by every received datagram, including ones that
  are then dropped.

## Model

| member | source | states |
|---|---|---|
| Auth.Authentic | server/media_server.py:98-105 | Total: true exactly when the envelope is an object with string `message` and `hmac`, the message parses to an object with `time`, and `hmac` equals the digest of the message keyed by `password + str(time)` after lower-casing both; false in every other case, never an error |
| Auth.SignedRequestAuthentic | server/media_server.py:98-105 | Any command a client signs with the shared secret and its own `time` is accepted, also with its digest written in another letter case |
| Auth.TamperedDigestRejected | server/media_server.py:104 | Replacing the digest of an accepted envelope by one that differs other than in letter case makes it rejected |
| Auth.CaseBitFlipAccepted | server/media_server.py:104 | Flipping the case bit of one hex letter of an accepted digest, lower to upper or upper to lower, changes the digest and leaves the envelope accepted |
| Auth.MalformedRejected | server/media_server.py:100-105 | A missing or non-string `message` or `hmac`, or a message without an object `time`, is rejected |
| Auth.KeyIgnoresTimeType | server/media_server.py:102 | The key material for the string time `"5"` equals that for the number `5` |
| Auth.KeyDeterminesTime | server/media_server.py:102 | For one secret, the key material of two integer time stamps is equal only when the time stamps are equal |
| Text.DecimalRoundTrip | server/media_server.py:91 | `str(t)` of an integer parses back to `t`, so the printed send time identifies it |
| Text.Lower | server/media_server.py:104 | `lower()` keeps the length, leaves no upper-case letter, keeps every other character and maps each upper-case letter to its lower-case letter |
| Text.LowerIdempotent | server/media_server.py:104 | Lower-casing twice equals lower-casing once |
| Signer.SignAck | server/media_server.py:82-96 | The ack goes to the current client, and afterwards both `client` and `action_id` are cleared |
| Signer.SignedAckReadsBack | server/media_server.py:86-96 | A sent ack reads back as `{action: pending id, time: t, result, message}`; its digest is the keyed digest of that printed body under `password + str(t)`, the same `t` as in the body; and it passes the server's own request check |
| Dispatch.Serve | server/media_server.py:107-129 | At most one ack and one controller call; when an ack is sent it goes to the client and the session is cleared; when none is sent the session is unchanged and the controller was not called |
| Dispatch.ServeFollowsTable | server/media_server.py:109-125 | For each of the 8 command names the chain takes the branch of the matching operation with its named field (none for `stop`) |
| Dispatch.KnownCommandDispatched | server/media_server.py:109-129 | A known command with its field present makes exactly that controller call and sends one ack with the controller's answer as `result` and `None` as `message`; a fault it raises gives `result` false and that fault's diagnostic (`Not Implemented` for all but `KeyError`) |
| Dispatch.MissingCommandAcked | server/media_server.py:109-127 | Without a `command` key the controller is not called and one ack is sent with `result` false and the diagnostic naming `command` |
| Dispatch.MissingFieldAcked | server/media_server.py:110-127 | A known command lacking its field is acknowledged with `result` false and the diagnostic naming the field, before the controller is called |
| Dispatch.MissingKeyDiagnostic | server/media_server.py:127 | The KeyError diagnostic is `Expection ''<key>''` |
| Dispatch.UnknownCommandIgnored | server/media_server.py:110-125 | A command value that no table row names sends nothing, calls nothing, and leaves `client` and `action_id` set |
| Dispatch.ServePacketsVerify | server/media_server.py:107-129 | Every datagram `_serve` sends passes the request check under the shared secret |
| Server.Step | server/media_server.py:56-80 | At most one datagram per step, only to the datagram's sender; a controller call only together with an ack; after an ack the session is cleared, otherwise the sender is the current client |
| Server.HealthAcked | server/media_server.py:63-66 | The `health` probe gets one ack to its sender with `result` true and `message` `None`, echoing the pending id; no controller call, and the loop keeps waiting |
| Server.RejectedDropped | server/media_server.py:59-80 | A datagram that fails to decode, parse or authenticate gets no reply and no controller call; `action_id` is unchanged and the loop keeps waiting |
| Server.AuthenticAccepted | server/media_server.py:68-77 | An authentic envelope yields its inner command, and `action_id` becomes that command's `time` |
| Server.PathsExhaustive | server/media_server.py:56-80 | Every datagram is the probe, is rejected, or is accepted |
| Server.SignedRequestAccepted | server/media_server.py:68-77 | The datagram a client builds by signing a command is accepted with that command and its `time` pending |
| Server.SignedCommandServed | server/media_server.py:73-96 | End to end, a signed known command makes the matching call and gets one verifying ack to the client whose `action` equals the command's `time` |
| Server.StepPacketsVerify | server/media_server.py:82-96 | Every datagram a step sends verifies under the shared secret |
| Server.Run | server/media_server.py:38-41 | Over a run, no more datagrams are sent and no more controller calls made than datagrams received |
| Server.RunPacketsVerify | server/media_server.py:38-41 | Over any run, every datagram the server sends verifies under the shared secret |
| Server.ReplayAccepted | server/media_server.py:68-77 | Acceptance does not depend on the session: a datagram accepted once is accepted again, with the same command, whenever it is replayed |
| Server.StaleActionIdEchoed | server/media_server.py:63-96 | After an authentic command with an unknown name, the next `health` ack carries that command's `time` as `action` |

## Left out

- Socket creation, `recvfrom`, `sendto` and the 1024-byte receive buffer (server/media_server.py:20-21, 59, 92). Datagrams are the step's input and output; truncation of longer datagrams and send failures are not modelled.
- `run`, `stop` and `is_running` (fork, `os.kill`, `SIGTERM`, `KeyboardInterrupt`): process lifecycle. `Server.Run` models only the loop body `self._serve(self._recv())`.
- Logging calls, which have no behavioural effect.
- The wall clock: the send time `t` is an input of each step.
- The concrete HMAC. `hmac.new` is called without `digestmod`, which newer Python versions reject with a `TypeError`. The model assumes a version where the call succeeds.
- Real JSON and UTF-8 handling is abstract in `Json.Codec`. JSON numbers are integers only, so floats and their `str()` are not modelled. Duplicate keys and the key order `json.dumps` prints are the library's business. `str()` of a list or dict goes through the codec's `repr`.
- `.encode()` failures on strings with lone surrogates are not modelled.
- Text.Lower: does not model `lower()` on non-ASCII characters, because the model treats only ASCII letters. Digests are ASCII hex, and no non-ASCII character lower-cases to a hex digit.
- A missing controller (`controller=None`, the default) is not modelled. Python would raise `AttributeError` when it looks up the method, before the argument, so every known command name would get `Not Implemented`. A missing `command` and an unknown name would behave as modelled, because the name is looked up and compared before any controller method. A controller answer that is not a boolean is not modelled either.
- An exception raised inside `_ack` itself is not modelled. In `_serve` such an exception would be caught and answered again, and inside the handlers it would escape the loop.
- The unused fields `state`, `history_size`, `history`, `root`, `no_hidden` and `filetypes` (server/media_server.py:14-16, 23-25). Nothing reads them.
- The media controller's implementation: it is a foreign collaborator, seen only through its answers.
