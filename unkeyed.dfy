/** `UnkeyedDecodingContainer.decodeArray`: decode every element of an array,
    dropping the ones that fail instead of failing the whole array. */
module Unkeyed {
  import opened Wrappers
  import opened Errors
  import opened Document
  import opened Diagnostics

  /** The logger call made for a failed element: one when `doLog`, none otherwise. */
  function FailureLog(e: Thrown, doLog: bool, typeName: string): seq<LogEntry> {
    if doLog then [LogEntry(e, typeName)] else []
  }

  /** `decode(DummyCodable.self)` on the element under the cursor, ASSUMING
      that the compiler-generated `init(from:)` of the empty struct asks for a
      keyed container, so that it decodes from any object and from nothing
      else. Its source is not part of this model; if it never asks for a
      container, every step-over succeeds and `AdvanceSkip` is the behaviour. */
  function DummySkip(n: Node): (o: Outcome<Thrown>)
    ensures o.Pass? <==> n.Object?
    ensures o.Fail? ==> o.error == KeyedContainer(n).error
  {
    match KeyedContainer(n)
    case Success(_) => Pass
    case Failure(e) => Fail(e)
  }

  /** A step-over that moves past any element, as the comment "hack to
      increment currentIndex" intends. */
  function AdvanceSkip(n: Node): (o: Outcome<Thrown>)
    ensures o.Pass?
  {
    Pass
  }

  /** One iteration of the loop, on the element under the cursor, after the
      earlier iterations produced `run`. The element decode may throw anything;
      every error is caught. After a failure the element is stepped over by
      `skip` (the discarded `decode(DummyCodable.self)`); if that throws, the
      whole array throws. */
  function Step<T>(run: Decoded<seq<T>>, item: Node, t: DecodableType<T>,
                   skip: Node -> Outcome<Thrown>, doLog: bool): Decoded<seq<T>>
    requires run.result.Success?
  {
    var d := t.decode(item);
    match d.result
    case Success(v) => Decoded(Success(run.result.value + [v]), run.logs + d.logs)
    case Failure(e) =>
      var logs := run.logs + d.logs + FailureLog(e, doLog, t.name);
      match skip(item)
      case Pass => Decoded(Success(run.result.value), logs)
      case Fail(e') => Decoded(Failure(e'), logs)
  }

  /** What `decodeArray` returns, and the logger calls it makes, when its loop
      runs over `items`: the loop read as a left fold that stops at the first
      element it cannot step over. */
  function Drain<T>(items: seq<Node>, t: DecodableType<T>, skip: Node -> Outcome<Thrown>, doLog: bool): (r: Decoded<seq<T>>)
    ensures r.result.Success? ==> |r.result.value| <= |items|
    decreases |items|
  {
    if items == [] then Decoded(Success([]), [])
    else
      var prev := Drain(items[..|items| - 1], t, skip, doLog);
      if prev.result.Failure? then prev
      else Step(prev, items[|items| - 1], t, skip, doLog)
  }

  // Reference definitions, written element by element from the front.

  /** The values of the elements that decode, in source order. */
  function Successes<T>(items: seq<Node>, t: DecodableType<T>): (r: seq<T>)
    ensures |r| + FailureCount(items, t) == |items|
  {
    if items == [] then []
    else
      (match t.decode(items[0]).result
       case Success(v) => [v]
       case Failure(_) => []) + Successes(items[1..], t)
  }

  /** The number of elements that fail to decode. */
  function FailureCount<T>(items: seq<Node>, t: DecodableType<T>): nat {
    if items == [] then 0
    else (if t.decode(items[0]).result.Failure? then 1 else 0) + FailureCount(items[1..], t)
  }

  /** Every element that fails to decode can be stepped over. */
  predicate Skippable<T>(items: seq<Node>, t: DecodableType<T>, skip: Node -> Outcome<Thrown>) {
    forall i :: 0 <= i < |items| && t.decode(items[i]).result.Failure? ==> skip(items[i]).Pass?
  }

  /** The logger calls the elements cause: each element's own, then one for a
      failed element when `doLog`. */
  function ElementLogs<T>(items: seq<Node>, t: DecodableType<T>, doLog: bool): seq<LogEntry> {
    if items == [] then []
    else
      var d := t.decode(items[0]);
      d.logs + (if d.result.Failure? then FailureLog(d.result.error, doLog, t.name) else [])
      + ElementLogs(items[1..], t, doLog)
  }

  lemma {:induction false} SuccessesAppend<T>(s: seq<Node>, x: Node, t: DecodableType<T>)
    ensures Successes(s + [x], t) == Successes(s, t) + Successes([x], t)
    ensures FailureCount(s + [x], t) == FailureCount(s, t) + FailureCount([x], t)
    ensures ElementLogs(s + [x], t, true) == ElementLogs(s, t, true) + ElementLogs([x], t, true)
    ensures ElementLogs(s + [x], t, false) == ElementLogs(s, t, false) + ElementLogs([x], t, false)
  {
    if s != [] {
      assert (s + [x])[1..] == s[1..] + [x];
      SuccessesAppend(s[1..], x, t);
    } else {
      assert s + [x] == [x];
    }
  }

  /** The loop fails exactly when some failed element cannot be stepped over. */
  lemma {:induction false} DrainSucceedsIff<T>(items: seq<Node>, t: DecodableType<T>, skip: Node -> Outcome<Thrown>, doLog: bool)
    ensures Drain(items, t, skip, doLog).result.Success? <==> Skippable(items, t, skip)
  {
    if items != [] {
      var init := items[..|items| - 1];
      DrainSucceedsIff(init, t, skip, doLog);
      assert forall i :: 0 <= i < |init| ==> init[i] == items[i];
      if Skippable(init, t, skip) && !Skippable(items, t, skip) {
        var i :| 0 <= i < |items| && t.decode(items[i]).result.Failure? && !skip(items[i]).Pass?;
        assert i == |items| - 1;
      }
    }
  }

  /** When the loop completes, its array is exactly the elements that decoded,
      in source order, and its logger calls are those of `ElementLogs`. */
  lemma {:induction false} DrainKeepsSuccesses<T>(items: seq<Node>, t: DecodableType<T>, skip: Node -> Outcome<Thrown>, doLog: bool)
    requires Drain(items, t, skip, doLog).result.Success?
    ensures Drain(items, t, skip, doLog).result.value == Successes(items, t)
    ensures Drain(items, t, skip, doLog).logs == ElementLogs(items, t, doLog)
  {
    if items != [] {
      var init := items[..|items| - 1];
      var x := items[|items| - 1];
      assert items == init + [x];
      var prev := Drain(init, t, skip, doLog);
      assert prev.result.Success?;
      DrainKeepsSuccesses(init, t, skip, doLog);
      SuccessesAppend(init, x, t);
      assert Drain(items, t, skip, doLog) == Step(prev, x, t, skip, doLog);
      StepMatchesOne(prev, x, t, skip, doLog);
    }
  }

  /** A `Step` that does not throw adds what the one-element reference
      definitions give for its element. */
  lemma StepMatchesOne<T>(run: Decoded<seq<T>>, x: Node, t: DecodableType<T>, skip: Node -> Outcome<Thrown>, doLog: bool)
    requires run.result.Success? && Step(run, x, t, skip, doLog).result.Success?
    ensures Step(run, x, t, skip, doLog).result.value == run.result.value + Successes([x], t)
    ensures Step(run, x, t, skip, doLog).logs == run.logs + ElementLogs([x], t, doLog)
  {
    assert [x][1..] == [];
  }

  /** One more element read by a loop that has not thrown is one more `Step`. */
  lemma DrainSnoc<T>(s: seq<Node>, x: Node, t: DecodableType<T>, skip: Node -> Outcome<Thrown>, doLog: bool)
    requires Drain(s, t, skip, doLog).result.Success?
    ensures Drain(s + [x], t, skip, doLog) == Step(Drain(s, t, skip, doLog), x, t, skip, doLog)
  {
    assert (s + [x])[..|s|] == s;
  }

  /** What one iteration of the loop does to the run over `items[start..i]`;
      when it throws, the whole run is over. */
  lemma DrainAdvance<T>(items: seq<Node>, start: nat, i: nat, t: DecodableType<T>, skip: Node -> Outcome<Thrown>, doLog: bool)
    requires start <= i < |items|
    requires Drain(items[start..i], t, skip, doLog).result.Success?
    ensures Drain(items[start..i + 1], t, skip, doLog) == Step(Drain(items[start..i], t, skip, doLog), items[i], t, skip, doLog)
    ensures Drain(items[start..i + 1], t, skip, doLog).result.Failure? ==>
              Drain(items[start..], t, skip, doLog) == Drain(items[start..i + 1], t, skip, doLog)
  {
    assert items[start..i + 1] == items[start..i] + [items[i]];
    DrainSnoc(items[start..i], items[i], t, skip, doLog);
    if Drain(items[start..i + 1], t, skip, doLog).result.Failure? {
      assert items[start..][..i + 1 - start] == items[start..i + 1];
      DrainSticks(items[start..], i + 1 - start, t, skip, doLog);
    }
  }

  /** Once the loop has thrown on a prefix, reading further elements changes nothing. */
  lemma {:induction false} DrainSticks<T>(items: seq<Node>, n: nat, t: DecodableType<T>, skip: Node -> Outcome<Thrown>, doLog: bool)
    requires n <= |items|
    requires Drain(items[..n], t, skip, doLog).result.Failure?
    ensures Drain(items, t, skip, doLog) == Drain(items[..n], t, skip, doLog)
  {
    if n < |items| {
      var init := items[..|items| - 1];
      assert init[..n] == items[..n];
      DrainSticks(init, n, t, skip, doLog);
    } else {
      assert items[..n] == items;
    }
  }

  /** The array throws the error of the first failed element it cannot step over. */
  lemma {:induction false} DrainThrowsFirstUnskippable<T>(items: seq<Node>, k: nat, t: DecodableType<T>, skip: Node -> Outcome<Thrown>, doLog: bool)
    requires k < |items|
    requires t.decode(items[k]).result.Failure? && skip(items[k]).Fail?
    requires Skippable(items[..k], t, skip)
    ensures Drain(items, t, skip, doLog).result == Failure(skip(items[k]).error)
  {
    var pre := items[..k + 1];
    assert pre[..k] == items[..k];
    DrainSucceedsIff(items[..k], t, skip, doLog);
    DrainSticks(items, k + 1, t, skip, doLog);
  }

  /** An array with no elements gives an empty result and no logger calls. */
  lemma DrainOfNothing<T>(t: DecodableType<T>, skip: Node -> Outcome<Thrown>, doLog: bool)
    ensures Drain([], t, skip, doLog) == Decoded(Success([]), [])
  {
  }

  /** The element count minus the failures: never longer than the source. */
  lemma DrainLength<T>(items: seq<Node>, t: DecodableType<T>, skip: Node -> Outcome<Thrown>, doLog: bool)
    requires Drain(items, t, skip, doLog).result.Success?
    ensures |Drain(items, t, skip, doLog).result.value| == |items| - FailureCount(items, t)
  {
    DrainKeepsSuccesses(items, t, skip, doLog);
  }

  /** As written, a failed element that is not an object cannot be stepped
      over: the first one makes the whole array throw. */
  lemma DummySkipRethrows<T>(items: seq<Node>, k: nat, t: DecodableType<T>, doLog: bool)
    requires k < |items| && !items[k].Object? && t.decode(items[k]).result.Failure?
    requires Skippable(items[..k], t, DummySkip)
    ensures Drain(items, t, DummySkip, doLog).result == Failure(KeyedContainer(items[k]).error)
  {
    DrainThrowsFirstUnskippable(items, k, t, DummySkip, doLog);
  }

  /** With a step-over that always advances, the loop never throws and keeps
      exactly the elements that decode. */
  lemma AdvanceSkipNeverThrows<T>(items: seq<Node>, t: DecodableType<T>, doLog: bool)
    ensures Drain(items, t, AdvanceSkip, doLog) == Decoded(Success(Successes(items, t)), ElementLogs(items, t, doLog))
  {
    DrainSucceedsIff(items, t, AdvanceSkip, doLog);
    DrainKeepsSuccesses(items, t, AdvanceSkip, doLog);
  }

  /** With element decodes that never log themselves, the loop logs exactly once
      per failed element when `doLog`, and never otherwise. */
  lemma {:induction false} ElementLogsOfSilent<T>(items: seq<Node>, t: DecodableType<T>, doLog: bool)
    requires forall n :: t.decode(n).logs == []
    ensures |ElementLogs(items, t, doLog)| == if doLog then FailureCount(items, t) else 0
    ensures forall i :: 0 <= i < |ElementLogs(items, t, doLog)| ==> ElementLogs(items, t, doLog)[i].typeName == t.name
  {
    if items != [] {
      ElementLogsOfSilent(items[1..], t, doLog);
    }
  }

  /** The cursor of an `UnkeyedDecodingContainer` over the elements of one array. */
  class UnkeyedCursor {
    const items: seq<Node>
    var currentIndex: nat

    constructor (items: seq<Node>)
      ensures this.items == items && currentIndex == 0
    {
      this.items := items;
      currentIndex := 0;
    }

    ghost predicate Valid()
      reads this
    {
      currentIndex <= |items|
    }

    predicate IsAtEnd()
      reads this
    {
      currentIndex >= |items|
    }

    /** The elements not read yet. */
    ghost function Remaining(): seq<Node>
      reads this
      requires Valid()
    {
      items[currentIndex..]
    }

    /** `decode(T.self)`: decodes the element under the cursor and moves past it
        only when that succeeds; at the end it throws `valueNotFound`. */
    method Decode<T>(t: DecodableType<T>) returns (d: Decoded<T>)
      requires Valid()
      modifies this
      ensures Valid()
      ensures old(IsAtEnd()) ==> d == Decoded(Failure(AtEnd()), []) && currentIndex == old(currentIndex)
      ensures !old(IsAtEnd()) ==> d == t.decode(items[old(currentIndex)])
      ensures !old(IsAtEnd()) ==> currentIndex == old(currentIndex) + if d.result.Success? then 1 else 0
    {
      if IsAtEnd() {
        d := Decoded(Failure(AtEnd()), []);
      } else {
        d := t.decode(items[currentIndex]);
        if d.result.Success? {
          currentIndex := currentIndex + 1;
        }
      }
    }

    /** `_ = decode(DummyCodable.self)`: steps over the element under the cursor
        when the decoder can; at the end it throws `valueNotFound`. */
    method Skip(skip: Node -> Outcome<Thrown>) returns (o: Outcome<Thrown>)
      requires Valid()
      modifies this
      ensures Valid()
      ensures old(IsAtEnd()) ==> o == Fail(AtEnd()) && currentIndex == old(currentIndex)
      ensures !old(IsAtEnd()) ==> o == skip(items[old(currentIndex)])
      ensures !old(IsAtEnd()) ==> currentIndex == old(currentIndex) + if o.Pass? then 1 else 0
    {
      if IsAtEnd() {
        o := Fail(AtEnd());
      } else {
        o := skip(items[currentIndex]);
        if o.Pass? {
          currentIndex := currentIndex + 1;
        }
      }
    }

    /** `decodeArray(T.self, doLog:)`: runs the loop `while !isAtEnd` from the
        current position, as `Drain` describes. */
    method DecodeArray<T>(t: DecodableType<T>, skip: Node -> Outcome<Thrown>, doLog: bool, logger: Logger)
      returns (r: Result<seq<T>, Thrown>)
      requires Valid()
      modifies this, logger
      ensures Valid()
      ensures r == Drain(old(Remaining()), t, skip, doLog).result
      ensures logger.calls == old(logger.calls) + Drain(old(Remaining()), t, skip, doLog).logs
      ensures r.Success? ==> IsAtEnd()
      ensures r.Failure? ==> currentIndex < |items| && skip(items[currentIndex]) == Fail(r.error)
    {
      ghost var start := currentIndex;
      ghost var logs: seq<LogEntry> := [];
      var decoded: seq<T> := [];
      while !IsAtEnd()
        invariant Valid() && start <= currentIndex
        invariant Drain(items[start..currentIndex], t, skip, doLog) == Decoded(Success(decoded), logs)
        invariant logger.calls == old(logger.calls) + logs
        decreases |items| - currentIndex
      {
        ghost var i := currentIndex;
        ghost var next := Step(Decoded(Success(decoded), logs), items[i], t, skip, doLog);
        DrainAdvance(items, start, i, t, skip, doLog);
        var d := Decode(t);
        logger.LogAll(d.logs);
        Assoc(old(logger.calls), logs, d.logs);
        logs := logs + d.logs;
        if d.result.Success? {
          decoded := decoded + [d.result.value];
        } else {
          if doLog {
            logger.Log(d.result.error, t.name);
          }
          Assoc(old(logger.calls), logs, FailureLog(d.result.error, doLog, t.name));
          logs := logs + FailureLog(d.result.error, doLog, t.name);
          var s := Skip(skip);
          if s.Fail? {
            r := Failure(s.error);
            assert next == Decoded(r, logs);
            return;
          }
        }
        assert next == Decoded(Success(decoded), logs);
      }
      assert items[start..currentIndex] == items[start..];
      r := Success(decoded);
    }
  }

  // Regroups the logger trace as the loop appends to it.
  lemma Assoc<X>(a: seq<X>, b: seq<X>, c: seq<X>)
    ensures (a + b) + c == a + (b + c)
  {}

  // What the JSON decoder throws when an unkeyed container is read past its end.
  function AtEnd(): Thrown {
    Raise(ValueNotFound)
  }
}
