/** `KeyedDecodingSafeContainer`: a keyed container whose `decodeSafe` family
    records a `DecodingError` and returns nil instead of throwing it, and
    `Decoder.safeContainer`, which makes one. */
module SafeKeyed {
  import opened Wrappers
  import opened Errors
  import opened Document
  import opened Diagnostics
  import opened KeyedArrays

  /** `do { return try f() } catch let error as DecodingError { ...; return nil }`:
      what such a call returns. A `DecodingError` becomes nil; any other error
      is thrown on. */
  function Caught<T>(r: Result<T, Thrown>): (c: Result<Option<T>, Thrown>)
    ensures c.Failure? ==> !c.error.Decoding?
    ensures c.Failure? <==> r.Failure? && !r.error.Decoding?
    ensures c.Success? && c.value.Some? <==> r.Success?
    ensures r.Success? ==> c.value.value == r.value
  {
    match r
    case Success(v) => Success(Some(v))
    case Failure(Decoding(_)) => Success(None)
    case Failure(e) => Failure(e)
  }

  /** The same catch around a call that already returns an optional. */
  function CaughtIfPresent<T>(r: Result<Option<T>, Thrown>): (c: Result<Option<T>, Thrown>)
    ensures c.Failure? ==> !c.error.Decoding?
    ensures c.Failure? <==> r.Failure? && !r.error.Decoding?
    ensures r.Success? ==> c == r
    ensures r.Failure? && r.error.Decoding? ==> c == Success(None)
    ensures r.Failure? && !r.error.Decoding? ==> c == r
  {
    match r
    case Success(v) => Success(v)
    case Failure(Decoding(_)) => Success(None)
    case Failure(e) => Failure(e)
  }

  /** The entry such a call appends to `errors`: `(key, error)` for a caught
      `DecodingError`, nothing otherwise. */
  function Recorded<T>(key: string, r: Result<T, Thrown>): (entries: seq<(string, DecodingError)>)
    ensures |entries| <= 1
    ensures |entries| == 1 <==> r.Failure? && r.error.Decoding?
    ensures |entries| == 1 ==> entries[0] == (key, r.error.decodingError)
  {
    match r
    case Failure(Decoding(e)) => [(key, e)]
    case _ => []
  }

  /** Of a call with the catch: it returns a value and records nothing, or
      returns nil and records exactly one entry, or throws a non-`DecodingError`
      and records nothing. */
  lemma CatchPartition<T>(key: string, r: Result<T, Thrown>)
    ensures Caught(r).Success? && Caught(r).value.Some? ==> Recorded(key, r) == []
    ensures Caught(r).Success? && Caught(r).value.None? ==> |Recorded(key, r)| == 1
    ensures Caught(r).Failure? ==> Recorded(key, r) == [] && Caught(r) == r.PropagateFailure()
  {
  }

  class KeyedDecodingSafeContainer {
    /** The wrapped keyed container. */
    const inner: KeyedStore
    /** The failures caught so far, in the order they were caught. */
    var errors: seq<(string, DecodingError)>

    /** `init(_ container:)`: wraps `container` with no recorded errors. */
    constructor (container: KeyedStore)
      ensures inner == container && errors == []
    {
      inner := container;
      errors := [];
    }

    /** `getErrors(modelType:reference:doLog:)`: the recorded failures as the
        `structErrors` of `modelType`, in insertion order. The logger is called
        once whatever `doLog` says; `errors` stays as it is. */
    method GetErrors(modelType: string, reference: Option<string>, doLog: bool, logger: Logger)
      returns (e: DecodingSafeError)
      modifies logger
      ensures e == StructErrors(modelType, reference, errors)
      ensures logger.calls == old(logger.calls) + [LogEntry(Aggregated(e), modelType)]
    {
      e := StructErrors(modelType, reference, errors);
      logger.Log(Aggregated(e), modelType);
    }

    /** `decodeSafe(T.self, forKey:)` */
    method DecodeSafe<T>(t: DecodableType<T>, key: string, logger: Logger) returns (r: Result<Option<T>, Thrown>)
      modifies this, logger
      ensures var d := KeyedDecode(inner, key, t);
              && r == Caught(d.result)
              && errors == old(errors) + Recorded(key, d.result)
              && logger.calls == old(logger.calls) + d.logs
    {
      var d := KeyedDecode(inner, key, t);
      logger.LogAll(d.logs);
      match d.result {
        case Success(v) =>
          r := Success(Some(v));
        case Failure(e) =>
          if e.Decoding? {
            errors := errors + [(key, e.decodingError)];
            r := Success(None);
          } else {
            r := Failure(e);
          }
      }
    }

    /** `decodeSafeIfPresent(T.self, forKey:)` */
    method DecodeSafeIfPresent<T>(t: DecodableType<T>, key: string, logger: Logger) returns (r: Result<Option<T>, Thrown>)
      modifies this, logger
      ensures var d := KeyedDecodeIfPresent(inner, key, t);
              && r == CaughtIfPresent(d.result)
              && errors == old(errors) + Recorded(key, d.result)
              && logger.calls == old(logger.calls) + d.logs
    {
      var d := KeyedDecodeIfPresent(inner, key, t);
      logger.LogAll(d.logs);
      match d.result {
        case Success(v) =>
          r := Success(v);
        case Failure(e) =>
          if e.Decoding? {
            errors := errors + [(key, e.decodingError)];
            r := Success(None);
          } else {
            r := Failure(e);
          }
      }
    }

    /** `decodeArraySafe(T.self, forKey:, doLog:)` */
    method DecodeArraySafe<T>(t: DecodableType<T>, key: string, skip: Node -> Outcome<Thrown>, doLog: bool, logger: Logger)
      returns (r: Result<Option<seq<T>>, Thrown>)
      modifies this, logger
      ensures var d := DecodeArrayForKey(inner, key, t, skip, doLog);
              && r == Caught(d.result)
              && errors == old(errors) + Recorded(key, d.result)
              && logger.calls == old(logger.calls) + d.logs
    {
      var d := DecodeArrayForKey(inner, key, t, skip, doLog);
      logger.LogAll(d.logs);
      match d.result {
        case Success(v) =>
          r := Success(Some(v));
        case Failure(e) =>
          if e.Decoding? {
            errors := errors + [(key, e.decodingError)];
            r := Success(None);
          } else {
            r := Failure(e);
          }
      }
    }

    /** `decodeArraySafeIfPresent(T.self, forKey:, doLog:)`: the wrapped call
        never throws, so nothing is ever recorded. */
    method DecodeArraySafeIfPresent<T>(t: DecodableType<T>, key: string, skip: Node -> Outcome<Thrown>, doLog: bool, logger: Logger)
      returns (r: Result<Option<seq<T>>, Thrown>)
      modifies this, logger
      ensures var d := DecodeArrayIfPresentForKey(inner, key, t, skip, doLog);
              && r == d.result && r.Success?
              && errors == old(errors)
              && logger.calls == old(logger.calls) + d.logs
    {
      var d := DecodeArrayIfPresentForKey(inner, key, t, skip, doLog);
      logger.LogAll(d.logs);
      // The wrapped call turns every error into nil, so the `catch` clause
      // around it never runs.
      r := d.result;
    }

    // The pass-through members: each delegates to the wrapped container and
    // leaves `errors` alone. The typed `decode`/`decodeIfPresent` overloads
    // are all instances of the two generic methods.

    /** `decode(T.self, forKey:)` */
    method Decode<T>(t: DecodableType<T>, key: string, logger: Logger) returns (r: Result<T, Thrown>)
      modifies logger
      ensures r == KeyedDecode(inner, key, t).result
      ensures logger.calls == old(logger.calls) + KeyedDecode(inner, key, t).logs
      ensures errors == old(errors)
    {
      var d := KeyedDecode(inner, key, t);
      logger.LogAll(d.logs);
      r := d.result;
    }

    /** `decodeIfPresent(T.self, forKey:)` */
    method DecodeIfPresent<T>(t: DecodableType<T>, key: string, logger: Logger) returns (r: Result<Option<T>, Thrown>)
      modifies logger
      ensures r == KeyedDecodeIfPresent(inner, key, t).result
      ensures logger.calls == old(logger.calls) + KeyedDecodeIfPresent(inner, key, t).logs
      ensures errors == old(errors)
    {
      var d := KeyedDecodeIfPresent(inner, key, t);
      logger.LogAll(d.logs);
      r := d.result;
    }

    /** `contains(_:)`: whether the wrapped container has a value, null
        included, for `key`. */
    function Contains(key: string): (b: bool)
      ensures b <==> key in inner
      ensures forall isKey: string -> bool ::
                isKey(key) ==> (b <==> key in AllKeys(isKey))
    {
      key in inner
    }

    /** `allKeys` (as a set: the order of a JSON object's keys is unspecified).
        `isKey` is the key type's `init(stringValue:)` succeeding: the decoder
        lists only the object's keys that the key type accepts. */
    function AllKeys(isKey: string -> bool): (keys: set<string>)
      ensures forall k :: k in keys <==> k in inner && isKey(k)
      ensures keys <= inner.Keys
      ensures (forall k :: k in inner ==> isKey(k)) ==> keys == inner.Keys && |keys| == |inner|
    {
      set k | k in inner && isKey(k)
    }

    /** `decodeNil(forKey:)`: whether the value for `key` is null; a missing
        key throws `keyNotFound`. */
    function DecodeNil(key: string): (r: Result<bool, Thrown>)
      ensures r.Success? <==> key in inner
      ensures r.Success? ==> (r.value <==> inner[key].Null?)
      ensures r.Failure? ==> r.error == Raise(KeyNotFound)
    {
      KeyedDecodeNil(inner, key)
    }

    /** `nestedContainer(keyedBy:forKey:)`: the fields of the object at `key`;
        `keyNotFound` for a missing key, `typeMismatch` for any other value. */
    function NestedContainer(key: string): (r: Result<KeyedStore, Thrown>)
      ensures r.Success? <==> key in inner && inner[key].Object?
      ensures r.Success? ==> r.value == inner[key].fields
      ensures r.Failure? ==> r.error == Raise(if key in inner then TypeMismatch else KeyNotFound)
    {
      NestedKeyed(inner, key)
    }

    /** `nestedUnkeyedContainer(forKey:)`: the elements of the array at `key`,
        for a fresh cursor; `keyNotFound` for a missing key, `typeMismatch` for
        any other value. */
    function NestedUnkeyedContainer(key: string): (r: Result<seq<Node>, Thrown>)
      ensures r.Success? <==> key in inner && inner[key].List?
      ensures r.Success? ==> r.value == inner[key].items
      ensures r.Failure? ==> r.error == Raise(if key in inner then TypeMismatch else KeyNotFound)
    {
      NestedUnkeyed(inner, key)
    }

    /** `superDecoder()`: the decoder for the conventional key "super". */
    function SuperDecoder(): (r: Result<Node, Thrown>)
      ensures r.Success?
      ensures r.value == if "super" in inner then inner["super"] else Null
    {
      Success(SuperNode(inner, "super"))
    }

    /** `superDecoder(forKey:)`: never throws; a decoder over the value at
        `key`, or over null when the key is missing. */
    function SuperDecoderForKey(key: string): (r: Result<Node, Thrown>)
      ensures r.Success?
      ensures key in inner ==> r.value == inner[key]
      ensures key !in inner ==> r.value == Null
    {
      Success(SuperNode(inner, key))
    }
  }

  /** The read-only pass-throughs agree with each other about the wrapped
      store: `decodeNil` answers exactly for the keys `contains` reports,
      `allKeys` lists exactly those keys, a nested container is only found
      under a present key holding an object or an array, and a super decoder
      for a missing key reads null. */
  lemma PassThroughsAgree(c: KeyedDecodingSafeContainer, key: string, isKey: string -> bool)
    requires isKey(key)
    ensures c.Contains(key) <==> c.DecodeNil(key).Success?
    ensures c.Contains(key) <==> key in c.AllKeys(isKey)
    ensures c.DecodeNil(key).Success? ==> (c.DecodeNil(key).value <==> c.SuperDecoderForKey(key).value.Null?)
    ensures c.NestedContainer(key).Success? <==> c.Contains(key) && c.inner[key].Object?
    ensures c.NestedUnkeyedContainer(key).Success? <==> c.Contains(key) && c.inner[key].List?
    ensures !c.Contains(key) ==> c.SuperDecoderForKey(key) == Success(Null)
    ensures c.SuperDecoder() == c.SuperDecoderForKey("super")
  {
  }

  /** `decodeSafeIfPresent` on a missing key or a null value: nil, nothing
      recorded, no logger call. */
  lemma DecodeSafeIfPresentAbsent<T>(store: KeyedStore, key: string, t: DecodableType<T>)
    requires key !in store || store[key].Null?
    ensures CaughtIfPresent(KeyedDecodeIfPresent(store, key, t).result) == Success(None)
    ensures Recorded(key, KeyedDecodeIfPresent(store, key, t).result) == []
    ensures KeyedDecodeIfPresent(store, key, t).logs == []
  {
  }

  /** `decodeSafeIfPresent` records an entry only when the value is present,
      not null, and its decode throws a `DecodingError`. */
  lemma DecodeSafeIfPresentRecords<T>(store: KeyedStore, key: string, t: DecodableType<T>)
    ensures |Recorded(key, KeyedDecodeIfPresent(store, key, t).result)| == 1 <==>
              key in store && !store[key].Null? &&
              t.decode(store[key]).result.Failure? && t.decode(store[key]).result.error.Decoding?
  {
  }

  /** A nested model whose own decode throws its `DecodingSafeError` is not
      recorded by `decodeSafe`: the error escapes to the caller. */
  lemma NestedFailureEscapes<T>(store: KeyedStore, key: string, t: DecodableType<T>)
    requires key in store && t.decode(store[key]).result.Failure?
    requires t.decode(store[key]).result.error.Aggregated?
    ensures Caught(KeyedDecode(store, key, t).result) == Failure(t.decode(store[key]).result.error)
    ensures Recorded(key, KeyedDecode(store, key, t).result) == []
  {
  }

  /** `decoder.safeContainer(keyedBy:)`: throws what `container(keyedBy:)`
      throws; otherwise a new safe container over it, with no errors. */
  method SafeContainer(decoder: Node) returns (r: Result<KeyedDecodingSafeContainer, Thrown>)
    ensures KeyedContainer(decoder).Failure? ==> r == Failure(KeyedContainer(decoder).error)
    ensures KeyedContainer(decoder).Success? ==>
              r.Success? && fresh(r.value) && r.value.inner == KeyedContainer(decoder).value && r.value.errors == []
  {
    var container :- KeyedContainer(decoder);
    var safe := new KeyedDecodingSafeContainer(container);
    r := Success(safe);
  }
}
