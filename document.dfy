/** The decoded document and the decoder underneath the library.

    The library never parses bytes itself: it calls Foundation's decoding
    containers. This module stands in for them. A document is a tree value, a
    keyed container is the dictionary of one object node, and each primitive
    below gives the outcome the JSON decoder gives for that call. Foundation's
    localized error texts are not modelled: the errors thrown here carry a
    kind and no description. */
module Document {
  import opened Wrappers
  import opened Errors

  /** A JSON value. `Number` carries Swift's `Double` as a real; nothing here
      computes with it. */
  datatype Node =
    | Null
    | Boolean(b: bool)
    | Number(x: real)
    | Text(s: string)
    | List(items: seq<Node>)
    | Object(fields: map<string, Node>)

  /** The storage of a keyed decoding container: the fields of one object. */
  type KeyedStore = map<string, Node>

  /** A `Decodable` type `T` as a value: its name (`String(describing: T.self)`)
      and its `init(from:)`, which may itself call the logger. */
  datatype DecodableType<T> = DecodableType(name: string, decode: Node -> Decoded<T>)

  /** A `DecodingError` of `kind` thrown by the JSON decoder. */
  function Raise(kind: ErrorKind): Thrown {
    Decoding(DecodingError(kind, None))
  }

  /** `decoder.container(keyedBy:)` */
  function KeyedContainer(n: Node): Result<KeyedStore, Thrown> {
    match n
    case Object(fields) => Success(fields)
    case Null => Failure(Raise(ValueNotFound))
    case _ => Failure(Raise(TypeMismatch))
  }

  /** `container.decode(T.self, forKey:)`: a missing key is `keyNotFound`; a
      present value, null included, is handed to `T`'s decode. */
  function KeyedDecode<T>(store: KeyedStore, key: string, t: DecodableType<T>): Decoded<T> {
    if key in store then t.decode(store[key])
    else Decoded(Failure(Raise(KeyNotFound)), [])
  }

  /** `container.decodeIfPresent(T.self, forKey:)`: nil for a missing key or a
      null value, otherwise `decode`. */
  function KeyedDecodeIfPresent<T>(store: KeyedStore, key: string, t: DecodableType<T>): Decoded<Option<T>> {
    if key !in store || store[key].Null? then Decoded(Success(None), [])
    else
      var d := t.decode(store[key]);
      match d.result
      case Success(v) => Decoded(Success(Some(v)), d.logs)
      case Failure(e) => Decoded(Failure(e), d.logs)
  }

  /** `container.decodeNil(forKey:)` */
  function KeyedDecodeNil(store: KeyedStore, key: string): Result<bool, Thrown> {
    if key in store then Success(store[key].Null?)
    else Failure(Raise(KeyNotFound))
  }

  /** `container.nestedContainer(keyedBy:forKey:)` */
  function NestedKeyed(store: KeyedStore, key: string): Result<KeyedStore, Thrown> {
    if key !in store then Failure(Raise(KeyNotFound))
    else match store[key]
      case Object(fields) => Success(fields)
      case _ => Failure(Raise(TypeMismatch))
  }

  /** `container.nestedUnkeyedContainer(forKey:)`: the elements of the array at
      `key`, to be read from the first one on. */
  function NestedUnkeyed(store: KeyedStore, key: string): Result<seq<Node>, Thrown> {
    if key !in store then Failure(Raise(KeyNotFound))
    else match store[key]
      case List(items) => Success(items)
      case _ => Failure(Raise(TypeMismatch))
  }

  /** `container.superDecoder(forKey:)`: a decoder over the value at `key`, or
      over null when there is none; it does not throw. */
  function SuperNode(store: KeyedStore, key: string): Node {
    if key in store then store[key] else Null
  }

  /** `String`'s `init(from:)` on a single value. */
  function DecodeString(n: Node): Decoded<string> {
    match n
    case Text(s) => Decoded(Success(s), [])
    case Null => Decoded(Failure(Raise(ValueNotFound)), [])
    case _ => Decoded(Failure(Raise(TypeMismatch)), [])
  }

  /** `Double`'s `init(from:)` on a single value. */
  function DecodeDouble(n: Node): Decoded<real> {
    match n
    case Number(x) => Decoded(Success(x), [])
    case Null => Decoded(Failure(Raise(ValueNotFound)), [])
    case _ => Decoded(Failure(Raise(TypeMismatch)), [])
  }

  /** `Bool`'s `init(from:)` on a single value. */
  function DecodeBool(n: Node): Decoded<bool> {
    match n
    case Boolean(b) => Decoded(Success(b), [])
    case Null => Decoded(Failure(Raise(ValueNotFound)), [])
    case _ => Decoded(Failure(Raise(TypeMismatch)), [])
  }

  const StringType := DecodableType("String", DecodeString)
  const DoubleType := DecodableType("Double", DecodeDouble)
  const BoolType := DecodableType("Bool", DecodeBool)
}
