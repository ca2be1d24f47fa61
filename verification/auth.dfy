/** The authenticator (`MediaServer._auth`): a request envelope
    `{"message": <text>, "hmac": <hex>}` is authentic when its digest matches
    the keyed digest of the message, keyed by the shared secret followed by
    `str()` of the `time` field inside the message. */
module Auth {
  import opened Wrappers
  import opened Json
  import opened Text

  /** What the protocol reads from the server: the shared secret, the library
      codec, and the keyed digest `digest(key, data)`, standing for
      `hmac.new(key.encode(), data.encode()).hexdigest()`. */
  datatype Env = Env(password: string, codec: Codec, digest: (string, string) -> string)

  /** Key material for a message stamped with `time`: `password + str(time)`. */
  function KeyFor(env: Env, time: Json): string {
    env.password + PyStr(env.codec, time)
  }

  /** `json.loads(data["message"])` followed by `m["time"]`: the inner
      document's `time`, or None where either step raises. */
  function MessageTime(env: Env, message: string): Option<Json> {
    match env.codec.loads(message)
    case None => None
    case Some(inner) => Lookup(inner, "time")
  }

  /** `_auth(data)`. Every exception the source catches is a `false` here, so
      the predicate is total. */
  predicate Authentic(env: Env, data: Json)
    ensures Authentic(env, data) <==>
      && data.JObj?
      && "message" in data.fields && data.fields["message"].JStr?
      && "hmac" in data.fields && data.fields["hmac"].JStr?
      && MessageTime(env, data.fields["message"].s).Some?
      && Lower(data.fields["hmac"].s)
         == Lower(env.digest(KeyFor(env, MessageTime(env, data.fields["message"].s).value), data.fields["message"].s))
  {
    match LookupStr(data, "message")
    case None => false
    case Some(message) =>
      match MessageTime(env, message)
      case None => false
      case Some(time) =>
        match LookupStr(data, "hmac")
        case None => false
        case Some(h) => Lower(h) == Lower(env.digest(KeyFor(env, time), message))
  }

  /** The envelope a client builds for a command: the command is printed,
      and the digest is taken over that text with the command's own time. */
  function SignRequest(env: Env, command: map<string, Json>): Json
    requires "time" in command
  {
    var message := env.codec.dumps(JObj(command));
    JObj(map["message" := JStr(message), "hmac" := JStr(env.digest(KeyFor(env, command["time"]), message))])
  }

  /** The same envelope with its digest field replaced. */
  function WithDigest(envelope: Json, h: string): Json
    requires envelope.JObj?
  {
    JObj(envelope.fields["hmac" := JStr(h)])
  }

  /** Completeness: whatever command a client signs with the shared secret is
      authentic, and so is the same envelope with its digest in another case. */
  lemma SignedRequestAuthentic(env: Env, command: map<string, Json>, h: string)
    requires Lawful(env.codec)
    requires "time" in command
    requires Lower(h) == Lower(env.digest(KeyFor(env, command["time"]), env.codec.dumps(JObj(command))))
    ensures Authentic(env, SignRequest(env, command))
    ensures Authentic(env, WithDigest(SignRequest(env, command), h))
  {
    var message := env.codec.dumps(JObj(command));
    assert env.codec.loads(message) == Some(JObj(command));
  }

  /** Soundness against tampering: once an envelope is authentic, any digest
      that differs from its own other than in letter case is rejected. */
  lemma TamperedDigestRejected(env: Env, envelope: Json, h: string)
    requires Authentic(env, envelope)
    requires Lower(h) != Lower(envelope.fields["hmac"].s)
    ensures !Authentic(env, WithDigest(envelope, h))
  {
  }

  /** A hex letter in either case. */
  predicate IsHexLetter(ch: char) {
    ('a' <= ch <= 'f') || ('A' <= ch <= 'F')
  }

  /** The character with its case bit (0x20) flipped: `a`..`f` and `A`..`F`
      swap case, and every other character stays put. */
  function FlipCaseBit(ch: char): char {
    if IsHexLetter(ch) then
      if ch <= 'F' then (ch as int + 32) as char else (ch as int - 32) as char
    else ch
  }

  /** Flipping the case bit of one hex letter of an accepted digest, in either
      direction, keeps the envelope accepted: the comparison ignores letter
      case, so not every single-bit change of the digest is rejected. */
  lemma CaseBitFlipAccepted(env: Env, envelope: Json, k: int)
    requires Authentic(env, envelope)
    requires 0 <= k < |envelope.fields["hmac"].s|
    requires IsHexLetter(envelope.fields["hmac"].s[k])
    ensures var h := envelope.fields["hmac"].s;
      && FlipCaseBit(h[k]) != h[k]
      && Authentic(env, WithDigest(envelope, h[k := FlipCaseBit(h[k])]))
  {
    var h := envelope.fields["hmac"].s;
    var h' := h[k := FlipCaseBit(h[k])];
    assert Lower(h') == Lower(h) by {
      assert forall i :: 0 <= i < |h| ==> Lower(h')[i] == Lower(h)[i];
    }
  }

  /** A missing or non-string `message` or `hmac`, or a message that does not
      parse to an object with a `time`, is rejected rather than raised. */
  lemma MalformedRejected(env: Env, data: Json)
    requires || LookupStr(data, "message").None?
             || LookupStr(data, "hmac").None?
             || MessageTime(env, LookupStr(data, "message").value).None?
    ensures !Authentic(env, data)
  {
  }

  /** Key material is bound to the time stamp: for one secret, two integer
      time stamps give the same key only when they are equal. The key does
      not bind the JSON type of `time`, though; see `KeyIgnoresTimeType`. */
  lemma KeyDeterminesTime(env: Env, a: int, b: int)
    requires KeyFor(env, JNum(a)) == KeyFor(env, JNum(b))
    ensures a == b
  {
    var p := env.password;
    assert Decimal(a) == KeyFor(env, JNum(a))[|p|..];
    assert Decimal(b) == KeyFor(env, JNum(b))[|p|..];
    DecimalInjective(a, b);
  }

  /** `str()` forgets the JSON type of `time`: the string `"5"` and the
      number `5` give the same key material. */
  lemma KeyIgnoresTimeType(env: Env)
    ensures KeyFor(env, JStr("5")) == KeyFor(env, JNum(5))
  {
    assert Decimal(5) == [DigitChar(5)];
  }
}
