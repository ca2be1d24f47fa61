/** JSON documents as Python's `json` module builds them, and the library
    behaviour (text encoding, JSON parsing and printing) the server relies on.
    The library itself is abstract: a `Codec` bundles its functions, and
    `Lawful` states the two round-trip laws a correct library satisfies. */
module Json {
  import opened Wrappers

  newtype byte = x: int | 0 <= x < 256

  /** A decoded JSON document. Objects are Python dicts keyed by string;
      numbers are integers. `JNull` is Python's `None`. */
  datatype Json =
    | JNull
    | JBool(b: bool)
    | JNum(n: int)
    | JStr(s: string)
    | JArr(items: seq<Json>)
    | JObj(fields: map<string, Json>)

  /** The library functions the server calls. */
  datatype Codec = Codec(
    decode: seq<byte> -> Option<string>,  // bytes.decode(), None on a UnicodeDecodeError
    encode: string -> seq<byte>,          // str.encode()
    loads: string -> Option<Json>,        // json.loads, None where it raises
    dumps: Json -> string,                // json.dumps
    repr: Json -> string)                 // str() of a list or a dict

  /** A correct library: decoding undoes encoding and parsing undoes printing. */
  ghost predicate Lawful(c: Codec) {
    && (forall s: string :: c.decode(c.encode(s)) == Some(s))
    && (forall j: Json :: c.loads(c.dumps(j)) == Some(j))
  }

  /** `doc[key]` as the server evaluates it: a missing key, or a document that
      is not an object, gives None where Python raises KeyError or TypeError. */
  function Lookup(doc: Json, key: string): Option<Json> {
    if doc.JObj? && key in doc.fields then Some(doc.fields[key]) else None
  }

  /** `doc[key]` when the value must be a string for the next step to succeed. */
  function LookupStr(doc: Json, key: string): Option<string> {
    match Lookup(doc, key)
    case Some(JStr(s)) => Some(s)
    case _ => None
  }

  /** Parse bytes off the wire into a document: `json.loads(data.decode())`. */
  function ReadDocument(c: Codec, payload: seq<byte>): Option<Json> {
    match c.decode(payload)
    case None => None
    case Some(text) => c.loads(text)
  }

  /** Print a document onto the wire: `json.dumps(doc).encode()`. */
  function WriteDocument(c: Codec, doc: Json): seq<byte> {
    c.encode(c.dumps(doc))
  }

  /** Under a lawful library, reading back a written document gives it back. */
  lemma ReadWriteDocument(c: Codec, doc: Json)
    requires Lawful(c)
    ensures ReadDocument(c, WriteDocument(c, doc)) == Some(doc)
  {
    assert c.decode(c.encode(c.dumps(doc))) == Some(c.dumps(doc));
  }
}
