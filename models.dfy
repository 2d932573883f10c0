/** The sample models: `Planet`, decoded through a safe container so that all
    of its field failures are reported together, and `SolarSystem`, whose
    planets are decoded with the tolerant `decodeArray`. */
module Models {
  import opened Wrappers
  import opened Errors
  import opened Document
  import opened Diagnostics
  import opened Unkeyed
  import opened KeyedArrays
  import opened SafeKeyed

  datatype Planet = Planet(name: string, diameter: real, daysForRotation: real, isHabitable: bool)

  // The expected shape of each field, as a reference for what decodes.

  datatype Scalar = Str | Dbl | Bol

  predicate Fits(n: Node, s: Scalar) {
    match s
    case Str => n.Text?
    case Dbl => n.Number?
    case Bol => n.Boolean?
  }

  /** What is wrong with field `key` for a scalar of shape `s`, if anything:
      missing, null, or of another shape. */
  function Fault(store: KeyedStore, key: string, s: Scalar): Option<ErrorKind> {
    if key !in store then Some(KeyNotFound)
    else if Fits(store[key], s) then None
    else if store[key].Null? then Some(ValueNotFound)
    else Some(TypeMismatch)
  }

  function FaultEntry(store: KeyedStore, key: string, s: Scalar): seq<(string, ErrorKind)> {
    match Fault(store, key, s)
    case Some(k) => [(key, k)]
    case None => []
  }

  /** The faults of a planet object, in the order its fields are declared. */
  function PlanetFaults(store: KeyedStore): seq<(string, ErrorKind)> {
    FaultEntry(store, "name", Str) + FaultEntry(store, "diameter", Dbl)
    + FaultEntry(store, "daysForRotation", Dbl) + FaultEntry(store, "isHabitable", Bol)
  }

  /** The keys and kinds of recorded failures, without the error texts. */
  function Summary(es: seq<(string, DecodingError)>): (r: seq<(string, ErrorKind)>)
    ensures |r| == |es|
    ensures forall i :: 0 <= i < |es| ==> r[i] == (es[i].0, es[i].1.kind)
  {
    if es == [] then [] else [(es[0].0, es[0].1.kind)] + Summary(es[1..])
  }

  lemma {:induction false} SummaryAppend(a: seq<(string, DecodingError)>, b: seq<(string, DecodingError)>)
    ensures Summary(a + b) == Summary(a) + Summary(b)
  {
    if a != [] {
      assert (a + b)[1..] == a[1..] + b;
      SummaryAppend(a[1..], b);
    }
  }

  // The scalar field decodes: silent, and failing exactly as `Fault` says.

  lemma StringField(store: KeyedStore, key: string)
    ensures var d := KeyedDecode(store, key, StringType);
            && d.logs == []
            && (d.result.Success? <==> Fault(store, key, Str).None?)
            && (d.result.Success? ==> d.result.value == store[key].s)
            && Summary(Recorded(key, d.result)) == FaultEntry(store, key, Str)
            && (d.result.Failure? ==> d.result.error.Decoding?)
  {
  }

  lemma DoubleField(store: KeyedStore, key: string)
    ensures var d := KeyedDecode(store, key, DoubleType);
            && d.logs == []
            && (d.result.Success? <==> Fault(store, key, Dbl).None?)
            && (d.result.Success? ==> d.result.value == store[key].x)
            && Summary(Recorded(key, d.result)) == FaultEntry(store, key, Dbl)
            && (d.result.Failure? ==> d.result.error.Decoding?)
  {
  }

  lemma BoolField(store: KeyedStore, key: string)
    ensures var d := KeyedDecode(store, key, BoolType);
            && d.logs == []
            && (d.result.Success? <==> Fault(store, key, Bol).None?)
            && (d.result.Success? ==> d.result.value == store[key].b)
            && Summary(Recorded(key, d.result)) == FaultEntry(store, key, Bol)
            && (d.result.Failure? ==> d.result.error.Decoding?)
  {
  }

  /** The `structErrors` a planet object throws: the failures its safe
      container caught, in field order, with the name as the reference when
      the name decoded. */
  function PlanetReport(store: KeyedStore): (r: DecodingSafeError)
    ensures r.StructErrors? && r.typeName == "Planet"
    ensures |r.errors| <= 4
    ensures r.reference.Some? <==> KeyedDecode(store, "name", StringType).result.Success?
  {
    var name := KeyedDecode(store, "name", StringType).result;
    StructErrors("Planet", name.ToOption(),
      Recorded("name", name)
      + Recorded("diameter", KeyedDecode(store, "diameter", DoubleType).result)
      + Recorded("daysForRotation", KeyedDecode(store, "daysForRotation", DoubleType).result)
      + Recorded("isHabitable", KeyedDecode(store, "isHabitable", BoolType).result))
  }

  /** The four planet fields decode without logging and fail only with a
      `DecodingError`, which `decodeSafe` catches. */
  lemma PlanetFieldsCaught(store: KeyedStore)
    ensures KeyedDecode(store, "name", StringType).logs == []
    ensures KeyedDecode(store, "diameter", DoubleType).logs == []
    ensures KeyedDecode(store, "daysForRotation", DoubleType).logs == []
    ensures KeyedDecode(store, "isHabitable", BoolType).logs == []
    ensures Caught(KeyedDecode(store, "name", StringType).result).Success?
    ensures Caught(KeyedDecode(store, "diameter", DoubleType).result).Success?
    ensures Caught(KeyedDecode(store, "daysForRotation", DoubleType).result).Success?
    ensures Caught(KeyedDecode(store, "isHabitable", BoolType).result).Success?
  {
    StringField(store, "name");
    DoubleField(store, "diameter");
    DoubleField(store, "daysForRotation");
    BoolField(store, "isHabitable");
  }

  /** What `Planet.init(from:)` returns or throws, with its logger calls, once
      its safe container holds `store`. */
  function PlanetFromStore(store: KeyedStore): (d: Decoded<Planet>)
    ensures d.result.Failure? ==> d.logs == [LogEntry(d.result.error, "Planet")]
    ensures d.result.Success? ==> d.logs == []
  {
    var name := KeyedDecode(store, "name", StringType).result;
    var diameter := KeyedDecode(store, "diameter", DoubleType).result;
    var days := KeyedDecode(store, "daysForRotation", DoubleType).result;
    var habitable := KeyedDecode(store, "isHabitable", BoolType).result;
    if name.Success? && diameter.Success? && days.Success? && habitable.Success? then
      Decoded(Success(Planet(name.value, diameter.value, days.value, habitable.value)), [])
    else
      var e := Aggregated(PlanetReport(store));
      Decoded(Failure(e), [LogEntry(e, "Planet")])
  }

  /** What `Planet.init(from:)` returns or throws, with its logger calls. */
  function PlanetFromNode(n: Node): (d: Decoded<Planet>)
    ensures n.Object? && d.result.Failure? ==> d.logs == [LogEntry(d.result.error, "Planet")]
    ensures !(n.Object? && d.result.Failure?) ==> d.logs == []
  {
    match KeyedContainer(n)
    case Failure(e) => Decoded(Failure(e), [])
    case Success(store) => PlanetFromStore(store)
  }

  const PlanetType := DecodableType("Planet", PlanetFromNode)

  /** `Planet.init(from:)` */
  method DecodePlanet(decoder: Node, logger: Logger) returns (r: Result<Planet, Thrown>)
    modifies logger
    ensures r == PlanetFromNode(decoder).result
    ensures logger.calls == old(logger.calls) + PlanetFromNode(decoder).logs
  {
    var container :- SafeContainer(decoder);
    r := DecodePlanetFields(container, logger);
  }

  /** The part of `Planet.init(from:)` after `safeContainer`: the four
      `decodeSafe` calls, then the guard that throws the collected report. */
  method DecodePlanetFields(container: KeyedDecodingSafeContainer, logger: Logger) returns (r: Result<Planet, Thrown>)
    requires container.errors == []
    modifies container, logger
    ensures r == PlanetFromStore(container.inner).result
    ensures logger.calls == old(logger.calls) + PlanetFromStore(container.inner).logs
  {
    var store := container.inner;
    ghost var dn := KeyedDecode(store, "name", StringType).result;
    ghost var dd := KeyedDecode(store, "diameter", DoubleType).result;
    ghost var dr := KeyedDecode(store, "daysForRotation", DoubleType).result;
    ghost var dh := KeyedDecode(store, "isHabitable", BoolType).result;
    PlanetFieldsCaught(store);
    var name := container.DecodeSafe(StringType, "name", logger);
    var diameter := container.DecodeSafe(DoubleType, "diameter", logger);
    var days := container.DecodeSafe(DoubleType, "daysForRotation", logger);
    var habitable := container.DecodeSafe(BoolType, "isHabitable", logger);
    assert logger.calls == old(logger.calls);
    assert container.errors == Recorded("name", dn) + Recorded("diameter", dd) + Recorded("daysForRotation", dr) + Recorded("isHabitable", dh);
    // A scalar decode throws only a `DecodingError`, which `decodeSafe`
    // catches, so none of the four `try`s rethrows.
    assert name.Success? && diameter.Success? && days.Success? && habitable.Success?;
    if name.value.None? || diameter.value.None? || days.value.None? || habitable.value.None? {
      var e := container.GetErrors("Planet", name.value, true, logger);
      return Failure(Aggregated(e));
    }
    r := Success(Planet(name.value.value, diameter.value.value, days.value.value, habitable.value.value));
  }

  /** A planet decodes exactly when it is an object whose four fields have
      their shapes, and then holds their values. */
  lemma PlanetSucceedsIff(n: Node)
    ensures PlanetFromNode(n).result.Success? <==> n.Object? && PlanetFaults(n.fields) == []
    ensures PlanetFromNode(n).result.Success? ==>
              var f := n.fields;
              PlanetFromNode(n).result.value == Planet(f["name"].s, f["diameter"].x, f["daysForRotation"].x, f["isHabitable"].b)
  {
    if n.Object? {
      StringField(n.fields, "name");
      DoubleField(n.fields, "diameter");
      DoubleField(n.fields, "daysForRotation");
      BoolField(n.fields, "isHabitable");
    }
  }

  /** A planet object that does not decode throws one `structErrors` of
      "Planet" listing every faulty field, in field order, with its kind; the
      reference is the name when the name decoded. One logger call reports it. */
  lemma PlanetReportsEveryFault(n: Node)
    requires n.Object? && PlanetFromNode(n).result.Failure?
    ensures PlanetFromNode(n).result.error == Aggregated(PlanetReport(n.fields))
    ensures Summary(PlanetReport(n.fields).errors) == PlanetFaults(n.fields) != []
    ensures PlanetReport(n.fields).typeName == "Planet"
    ensures PlanetReport(n.fields).reference ==
              if "name" in n.fields && n.fields["name"].Text? then Some(n.fields["name"].s) else None
    ensures PlanetFromNode(n).logs == [LogEntry(Aggregated(PlanetReport(n.fields)), "Planet")]
  {
    var f := n.fields;
    StringField(f, "name");
    DoubleField(f, "diameter");
    DoubleField(f, "daysForRotation");
    BoolField(f, "isHabitable");
    PlanetSucceedsIff(n);
    var a := Recorded("name", KeyedDecode(f, "name", StringType).result);
    var b := Recorded("diameter", KeyedDecode(f, "diameter", DoubleType).result);
    var c := Recorded("daysForRotation", KeyedDecode(f, "daysForRotation", DoubleType).result);
    var d := Recorded("isHabitable", KeyedDecode(f, "isHabitable", BoolType).result);
    SummaryAppend(a, b);
    SummaryAppend(a + b, c);
    SummaryAppend(a + b + c, d);
  }

  /** A planet that is not an object fails at `safeContainer`: that error is
      thrown and nothing is logged. */
  lemma PlanetNeedsObject(n: Node)
    requires !n.Object?
    ensures PlanetFromNode(n) == Decoded(Failure(KeyedContainer(n).error), [])
  {
  }

  datatype SolarSystem = SolarSystem(name: string, planets: seq<Planet>)

  /** What `SolarSystem.init(from:)` returns or throws, with its logger calls,
      for the step-over `skip` that `decodeArray` uses after a failed planet. */
  function SolarSystemFromNode(n: Node, skip: Node -> Outcome<Thrown>): (d: Decoded<SolarSystem>)
    ensures !n.Object? ==> d == Decoded(Failure(KeyedContainer(n).error), [])
    ensures d.result.Success? ==>
              && n.Object? && "name" in n.fields && n.fields["name"].Text?
              && d.result.value.name == n.fields["name"].s
              && "planets" in n.fields && n.fields["planets"].List?
              && |d.result.value.planets| <= |n.fields["planets"].items|
  {
    match KeyedContainer(n)
    case Failure(e) => Decoded(Failure(e), [])
    case Success(store) =>
      var name := KeyedDecode(store, "name", StringType);
      match name.result
      case Failure(e) => Decoded(Failure(e), name.logs)
      case Success(s) =>
        var planets := DecodeArrayForKey(store, "planets", PlanetType, skip, true);
        match planets.result
        case Failure(e) => Decoded(Failure(e), name.logs + planets.logs)
        case Success(ps) => Decoded(Success(SolarSystem(s, ps)), name.logs + planets.logs)
  }

  /** `SolarSystem.init(from:)`, with the planets read by the cursor's loop. */
  method DecodeSolarSystem(decoder: Node, skip: Node -> Outcome<Thrown>, logger: Logger)
    returns (r: Result<SolarSystem, Thrown>)
    modifies logger
    ensures r == SolarSystemFromNode(decoder, skip).result
    ensures logger.calls == old(logger.calls) + SolarSystemFromNode(decoder, skip).logs
  {
    var store :- KeyedContainer(decoder);
    StringField(store, "name");
    var name :- KeyedDecode(store, "name", StringType).result;
    ghost var planetsRead := DecodeArrayForKey(store, "planets", PlanetType, skip, true);
    assert SolarSystemFromNode(decoder, skip) ==
      match planetsRead.result
      case Failure(e) => Decoded(Failure(e), planetsRead.logs)
      case Success(ps) => Decoded(Success(SolarSystem(name, ps)), planetsRead.logs);
    var planets :- DecodeArrayAt(store, "planets", PlanetType, skip, true, logger);
    r := Success(SolarSystem(name, planets));
  }

  /** The name is read first: when it does not decode, its error is thrown and
      the planets are never looked at. */
  lemma SolarSystemNameFirst(n: Node, skip: Node -> Outcome<Thrown>)
    requires n.Object? && Fault(n.fields, "name", Str).Some?
    ensures SolarSystemFromNode(n, skip).result == KeyedDecode(n.fields, "name", StringType).result.PropagateFailure()
    ensures SolarSystemFromNode(n, skip).result.error.decodingError.kind == Fault(n.fields, "name", Str).value
    ensures SolarSystemFromNode(n, skip).logs == []
  {
    StringField(n.fields, "name");
  }

  /** A solar system decodes exactly when it is an object with a string name
      and an array of planets whose failing elements can all be stepped over.
      It then holds the planets that decoded, in order, and its logger calls
      are those of the planet elements. */
  lemma SolarSystemSucceedsIff(n: Node, skip: Node -> Outcome<Thrown>)
    ensures SolarSystemFromNode(n, skip).result.Success? <==>
              && n.Object? && "name" in n.fields && n.fields["name"].Text?
              && "planets" in n.fields && n.fields["planets"].List?
              && Skippable(n.fields["planets"].items, PlanetType, skip)
    ensures SolarSystemFromNode(n, skip).result.Success? ==>
              && SolarSystemFromNode(n, skip).result.value ==
                   SolarSystem(n.fields["name"].s, Successes(n.fields["planets"].items, PlanetType))
              && SolarSystemFromNode(n, skip).logs == ElementLogs(n.fields["planets"].items, PlanetType, true)
  {
    if n.Object? {
      var f := n.fields;
      StringField(f, "name");
      var name := KeyedDecode(f, "name", StringType);
      if name.result.Success? {
        var planets := DecodeArrayForKey(f, "planets", PlanetType, skip, true);
        DecodeArrayForKeySucceedsIff(f, "planets", PlanetType, skip, true);
        assert SolarSystemFromNode(n, skip).logs == [] + planets.logs == planets.logs;
      }
    }
  }

  /** The logger calls of the planet elements: two for a failed object (its
      own report, then `decodeArray`'s), one for any other failed element. */
  function DroppedLogCount(items: seq<Node>): nat {
    if items == [] then 0
    else
      (if PlanetFromNode(items[0]).result.Failure? then (if items[0].Object? then 2 else 1) else 0)
      + DroppedLogCount(items[1..])
  }

  lemma {:induction false} PlanetElementLogs(items: seq<Node>)
    ensures |ElementLogs(items, PlanetType, true)| == DroppedLogCount(items)
    ensures forall i :: 0 <= i < |ElementLogs(items, PlanetType, true)| ==>
              ElementLogs(items, PlanetType, true)[i].typeName == "Planet"
  {
    if items != [] {
      PlanetElementLogs(items[1..]);
      var d := PlanetFromNode(items[0]);
      var head := d.logs + (if d.result.Failure? then FailureLog(d.result.error, true, "Planet") else []);
      assert ElementLogs(items, PlanetType, true) == head + ElementLogs(items[1..], PlanetType, true);
    }
  }

  /** The logger calls of a decoded solar system: one per dropped non-object
      planet, two per dropped planet object, all for type "Planet". */
  lemma SolarSystemLogs(n: Node, skip: Node -> Outcome<Thrown>)
    requires SolarSystemFromNode(n, skip).result.Success?
    ensures |SolarSystemFromNode(n, skip).logs| == DroppedLogCount(n.fields["planets"].items)
    ensures forall i :: 0 <= i < |SolarSystemFromNode(n, skip).logs| ==> SolarSystemFromNode(n, skip).logs[i].typeName == "Planet"
  {
    SolarSystemSucceedsIff(n, skip);
    PlanetElementLogs(n.fields["planets"].items);
  }

  /** Every element that is not an object fails to decode as a planet. */
  lemma NonObjectPlanetFails(items: seq<Node>)
    ensures forall i :: 0 <= i < |items| && !items[i].Object? ==> PlanetFromNode(items[i]).result.Failure?
  {
  }

  /** As written (`DummyCodable` as the step-over), a solar system decodes only
      when every element of its planets array is an object: a single null or
      string among them makes the whole decode throw. */
  lemma SolarSystemDummySkipIff(n: Node)
    ensures SolarSystemFromNode(n, DummySkip).result.Success? <==>
              && n.Object? && "name" in n.fields && n.fields["name"].Text?
              && "planets" in n.fields && n.fields["planets"].List?
              && forall i :: 0 <= i < |n.fields["planets"].items| ==> n.fields["planets"].items[i].Object?
  {
    SolarSystemSucceedsIff(n, DummySkip);
    if n.Object? && "planets" in n.fields && n.fields["planets"].List? {
      NonObjectPlanetFails(n.fields["planets"].items);
    }
  }

  /** As written, every planet a decoded solar system dropped was an object,
      so each one cost exactly two logger calls. */
  lemma SolarSystemDummySkipLogs(n: Node)
    requires SolarSystemFromNode(n, DummySkip).result.Success?
    ensures |SolarSystemFromNode(n, DummySkip).logs| == 2 * FailureCount(n.fields["planets"].items, PlanetType)
  {
    SolarSystemDummySkipIff(n);
    SolarSystemLogs(n, DummySkip);
    DroppedObjectsLogTwice(n.fields["planets"].items);
  }

  lemma {:induction false} DroppedObjectsLogTwice(items: seq<Node>)
    requires forall i :: 0 <= i < |items| ==> items[i].Object?
    ensures DroppedLogCount(items) == 2 * FailureCount(items, PlanetType)
  {
    if items != [] {
      DroppedObjectsLogTwice(items[1..]);
    }
  }

  /** With a step-over that always advances, the planets array never makes a
      solar system throw: it decodes exactly when it is an object with a
      string name and an array of planets, and drops the planets that fail. */
  lemma SolarSystemAdvanceSkipIff(n: Node)
    ensures SolarSystemFromNode(n, AdvanceSkip).result.Success? <==>
              && n.Object? && "name" in n.fields && n.fields["name"].Text?
              && "planets" in n.fields && n.fields["planets"].List?
    ensures SolarSystemFromNode(n, AdvanceSkip).result.Success? ==>
              SolarSystemFromNode(n, AdvanceSkip).result.value.planets == Successes(n.fields["planets"].items, PlanetType)
  {
    SolarSystemSucceedsIff(n, AdvanceSkip);
  }

  // A worked example: one planet with a malformed field among good ones.

  const Mercury := Object(map["name" := Text("Mercury"), "diameter" := Text("4879"),
                              "daysForRotation" := Number(58.6), "isHabitable" := Boolean(false)])
  const Earth := Object(map["name" := Text("Earth"), "diameter" := Number(12742.0),
                            "daysForRotation" := Number(1.0), "isHabitable" := Boolean(true)])
  const Sol := Object(map["name" := Text("Sol"), "planets" := List([Mercury, Earth])])

  function MercuryReport(): Thrown {
    Aggregated(StructErrors("Planet", Some("Mercury"), [("diameter", DecodingError(TypeMismatch, None))]))
  }

  /** Mercury fails on its diameter alone, with its name as the reference. */
  lemma MercuryFails()
    ensures PlanetFromNode(Mercury) == Decoded(Failure(MercuryReport()), [LogEntry(MercuryReport(), "Planet")])
  {
    var f := Mercury.fields;
    assert KeyedDecode(f, "diameter", DoubleType).result == Failure(Decoding(DecodingError(TypeMismatch, None)));
    assert PlanetReport(f).errors == [("diameter", DecodingError(TypeMismatch, None))];
  }

  lemma EarthDecodes()
    ensures PlanetFromNode(Earth) == Decoded(Success(Planet("Earth", 12742.0, 1.0, true)), [])
  {
  }

  /** Mercury's diameter is a string: Mercury is dropped, Earth is kept, and
      the logger sees Mercury's report twice, first from its own `getErrors`
      and then from `decodeArray`. */
  lemma MercuryDropped()
    ensures SolarSystemFromNode(Sol, DummySkip) ==
              Decoded(Success(SolarSystem("Sol", [Planet("Earth", 12742.0, 1.0, true)])),
                      [LogEntry(MercuryReport(), "Planet"), LogEntry(MercuryReport(), "Planet")])
  {
    var items := [Mercury, Earth];
    assert Sol.fields["name"] == Text("Sol") && Sol.fields["planets"] == List(items);
    assert forall i :: 0 <= i < |items| ==> items[i].Object?;
    SolarSystemDummySkipIff(Sol);
    SolarSystemSucceedsIff(Sol, DummySkip);
    SolPlanets();
  }

  /** Of Sol's two planets only Earth is kept, and Mercury's report is logged twice. */
  lemma SolPlanets()
    ensures Successes([Mercury, Earth], PlanetType) == [Planet("Earth", 12742.0, 1.0, true)]
    ensures ElementLogs([Mercury, Earth], PlanetType, true) ==
              [LogEntry(MercuryReport(), "Planet"), LogEntry(MercuryReport(), "Planet")]
  {
    MercuryFails();
    EarthDecodes();
    var items := [Mercury, Earth];
    assert items[1..] == [Earth] && [Earth][1..] == [];
    assert ElementLogs([Earth], PlanetType, true) == [];
    assert ElementLogs(items, PlanetType, true) == [LogEntry(MercuryReport(), "Planet")] + [LogEntry(MercuryReport(), "Planet")] + [];
  }
}
