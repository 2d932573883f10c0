/** `KeyedDecodingContainerProtocol.decodeArray` and `decodeArrayIfPresent`:
    the tolerant array decoder reached through a key. */
module KeyedArrays {
  import opened Wrappers
  import opened Errors
  import opened Document
  import opened Diagnostics
  import opened Unkeyed

  /** `decodeArray(T.self, forKey:, doLog:)`: throws when there is no array at
      `key`, otherwise runs the unkeyed `decodeArray` over its elements. */
  function DecodeArrayForKey<T>(store: KeyedStore, key: string, t: DecodableType<T>,
                                skip: Node -> Outcome<Thrown>, doLog: bool): (d: Decoded<seq<T>>)
    ensures d.result.Success? ==> key in store && store[key].List? && |d.result.value| <= |store[key].items|
    ensures !(key in store && store[key].List?) ==> d.result.Failure? && d.logs == []
  {
    match NestedUnkeyed(store, key)
    case Failure(e) => Decoded(Failure(e), [])
    case Success(items) => Drain(items, t, skip, doLog)
  }

  /** `decodeArray(T.self, forKey:, doLog:)` run on a cursor: opens the nested
      unkeyed container at `key` and runs its loop. */
  method DecodeArrayAt<T>(store: KeyedStore, key: string, t: DecodableType<T>,
                          skip: Node -> Outcome<Thrown>, doLog: bool, logger: Logger)
    returns (r: Result<seq<T>, Thrown>)
    modifies logger
    ensures r == DecodeArrayForKey(store, key, t, skip, doLog).result
    ensures logger.calls == old(logger.calls) + DecodeArrayForKey(store, key, t, skip, doLog).logs
  {
    var items :- NestedUnkeyed(store, key);
    var cursor := new UnkeyedCursor(items);
    assert cursor.Remaining() == items;
    r := cursor.DecodeArray(t, skip, doLog, logger);
  }

  /** `decodeArrayIfPresent(T.self, forKey:, doLog:)`: `decodeArray`, with every
      thrown error turned into nil. The logger calls made before the error stay made. */
  function DecodeArrayIfPresentForKey<T>(store: KeyedStore, key: string, t: DecodableType<T>,
                                         skip: Node -> Outcome<Thrown>, doLog: bool): (d: Decoded<Option<seq<T>>>)
    ensures d.result.Success?
    ensures var plain := DecodeArrayForKey(store, key, t, skip, doLog);
            && (d.result.value.Some? <==> plain.result.Success?)
            && (plain.result.Success? ==> d.result.value.value == plain.result.value)
            && d.logs == plain.logs
  {
    var plain := DecodeArrayForKey(store, key, t, skip, doLog);
    Decoded(Success(plain.result.ToOption()), plain.logs)
  }

  /** `decodeArray` succeeds exactly when `key` holds an array whose failing
      elements can all be stepped over, and then returns the elements that
      decoded, in order, with one logger call per failure when `doLog`. */
  lemma DecodeArrayForKeySucceedsIff<T>(store: KeyedStore, key: string, t: DecodableType<T>,
                                        skip: Node -> Outcome<Thrown>, doLog: bool)
    ensures DecodeArrayForKey(store, key, t, skip, doLog).result.Success? <==>
              key in store && store[key].List? && Skippable(store[key].items, t, skip)
    ensures DecodeArrayForKey(store, key, t, skip, doLog).result.Success? ==>
              && DecodeArrayForKey(store, key, t, skip, doLog).result.value == Successes(store[key].items, t)
              && DecodeArrayForKey(store, key, t, skip, doLog).logs == ElementLogs(store[key].items, t, doLog)
  {
    if key in store && store[key].List? {
      DrainSucceedsIff(store[key].items, t, skip, doLog);
      if Skippable(store[key].items, t, skip) {
        DrainKeepsSuccesses(store[key].items, t, skip, doLog);
      }
    }
  }

  /** No array at `key` (missing, null or another kind of value): `decodeArray`
      throws the nested-container error and calls no logger. */
  lemma DecodeArrayForKeyNeedsArray<T>(store: KeyedStore, key: string, t: DecodableType<T>,
                                       skip: Node -> Outcome<Thrown>, doLog: bool)
    requires key !in store || !store[key].List?
    ensures DecodeArrayForKey(store, key, t, skip, doLog) == Decoded(Failure(NestedUnkeyed(store, key).error), [])
    ensures key !in store ==> NestedUnkeyed(store, key).error.decodingError.kind == KeyNotFound
    ensures key in store ==> NestedUnkeyed(store, key).error.decodingError.kind == TypeMismatch
  {
  }
}
