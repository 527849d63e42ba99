/** Values shared by every hook: the opaque codec tokens of the query-state
    library, the decoded values they produce, and the tri-state a decoded
    field can be in. */
module QueryTypes {

  datatype Option<+T> = None | Some(value: T)

  /** A codec of the query-state library (`queryTypes.*`), kept as a token:
      the core only passes codecs around and never runs them. */
  datatype Codec =
    | StringCodec
    | IntegerCodec
    | FloatCodec
    | BooleanCodec
    | StringEnumCodec(values: seq<string>)
    | ArrayCodec(element: Codec)
    | SortEntryCodec
    | WithDefault(inner: Codec, default: Value)

  /** A decoded value, as opaque to the core as the codec that produced it. */
  datatype Value =
    | Text(s: string)
    | Number(n: int)
    | Flag(b: bool)
    | List(items: seq<Value>)

  /** What a state snapshot holds for one key: JavaScript `undefined`
      (`Missing`), `null` (`Null`), or a decoded value. */
  datatype StateValue = Missing | Null | Present(v: Value)

  /** A key-to-codec map handed to the store. */
  type Schema = map<string, Codec>

  /** The object the store returns for a schema; a key it lacks reads as `undefined`. */
  type Snapshot = map<string, StateValue>

  /** `states[key]`: the value at `key`, or `Missing` when the key is absent. */
  function Lookup(states: Snapshot, key: string): StateValue {
    if key in states then states[key] else Missing
  }
}
