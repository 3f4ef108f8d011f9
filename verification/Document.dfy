/** A CAD-IR document, as far as the engine's control flow reads it. Coordinates, which only
    the geometry kernel reads, travel in the `detail` fields. */
module CadDocument {
  import opened Prelude

  datatype Scalar =
    | Number(value: real)
    | Reference(parameter: string)
    | Quotient(divide: string, divisor: real)
    | Negation(negate: Scalar)

  datatype ResultKind = SolidBody | PlaneResult | OtherResult

  datatype Produced = Produced(id: string, kind: ResultKind)

  datatype SelectorKind = FaceKind | EdgeKind

  datatype Selector = Selector(id: string, kind: SelectorKind, fromResult: string, convexity: bool, detail: string)

  datatype SketchPlane = OnBase(name: string) | OnDatum(result: string) | OnFace(face: Selector) | OnPathStart

  datatype Segment = LineSegment | ArcSegment

  datatype Contour = PathContour(segments: seq<Segment>) | Circle | Rectangle | Slot | RegularPolygon

  datatype Sketch = Sketch(
    id: string,
    plane: SketchPlane,
    outer: Contour,
    inner: seq<Contour>,
    construction: seq<string>,
    constraints: seq<string>,
    dimensions: seq<string>,
    detail: string)

  datatype SweepPath = PlanarPath(base: string) | SpatialPath(base: string) | HelicalPath(base: string, cone: Scalar)

  datatype PatternSpec = Linear(count: nat) | Circular(count: nat) | Mirror

  datatype BooleanOp = Union | Subtract | Intersect

  datatype Inputs =
    | Extrude(cut: bool, sketch: Sketch, throughAll: bool, untilFace: Option<Selector>, both: bool, taper: Scalar,
              sourceBody: Option<string>, newBody: bool)
    | Revolve(cut: bool, sketch: Sketch, axisEntity: Option<string>, both: bool, sourceBody: Option<string>,
              newBody: bool)
    | Sweep(cut: bool, sketch: Sketch, path: SweepPath, sourceBody: Option<string>, newBody: bool)
    | Loft(cut: bool, sections: seq<Sketch>, sourceBody: Option<string>, newBody: bool)
    | Datum(base: string, offset: Scalar, flip: bool)
    | Pattern(of: string, spec: PatternSpec, skip: set<nat>)
    | Fillet(edges: Selector)
    | Chamfer(edges: Selector, second: Option<Scalar>, angle: Option<Scalar>, measuredFrom: Option<Selector>)
    | Shell(faces: Selector, inward: bool)
    | Draft(faces: Selector, neutral: Selector)
    | Boolean(op: BooleanOp, target: string, tools: seq<string>, keepTools: bool)
  {
    predicate MakesTool() { Extrude? || Revolve? || Sweep? || Loft? }

    /** Adds material of its own: what the boss rule counts. */
    predicate IsAdditive() { MakesTool() && !cut }

    /** `getattr(inputs, "new_body", False)`: only a revolve's cut carries the field. */
    predicate StartsBody() { MakesTool() && newBody && (cut ==> Revolve?) }

    /** `getattr(inputs, "source_body", None)`. */
    function Source(): Option<string> { if MakesTool() then sourceBody else None }

    /** Fillets, chamfers, shells and drafts: they rewrite the body their selector names. */
    predicate Rewrites() { Fillet? || Chamfer? || Shell? || Draft? }

    function RewrittenBody(): string
      requires Rewrites()
    {
      if Fillet? || Chamfer? then edges.fromResult else faces.fromResult
    }

    /** The profiles the operation draws: one sketch, or a loft's sections. */
    function Sketches(): seq<Sketch> {
      if Loft? then sections else if MakesTool() then [sketch] else []
    }
  }

  datatype Feature = Feature(id: string, enabled: bool, produces: seq<Produced>, inputs: Inputs, detail: string)

  datatype Expectation = BodyCount | BoundingBox | ThroughHoleCount | SurfaceFaceCount

  datatype ParameterValue = Stated(value: real) | DefinedAs(parameter: string) | Unstated

  datatype Parameter = Parameter(id: string, value: ParameterValue)

  datatype Document = Document(features: seq<Feature>, parameters: seq<Parameter>, expectations: seq<Expectation>)

  /** The dictionary `{feature.id: feature}`: the last feature of an id wins. */
  function Sources(features: seq<Feature>): map<string, Feature> {
    if features == [] then map[]
    else Sources(features[..|features| - 1])[features[|features| - 1].id := features[|features| - 1]]
  }

  lemma {:induction false} SourcesAreFeatures(features: seq<Feature>, name: string)
    ensures name in Sources(features) ==> Sources(features)[name] in features && Sources(features)[name].id == name
    ensures forall f :: f in features && f.id == name ==> name in Sources(features)
  {
    if features != [] {
      assert features == features[..|features| - 1] + [features[|features| - 1]];
      SourcesAreFeatures(features[..|features| - 1], name);
    }
  }

  /** No later feature has its id. */
  predicate LastOfId(features: seq<Feature>, i: nat) {
    i < |features| && forall j :: i < j < |features| ==> features[j].id != features[i].id
  }

  lemma {:induction false} SourceIsLast(features: seq<Feature>, i: nat)
    requires LastOfId(features, i)
    ensures features[i].id in Sources(features) && Sources(features)[features[i].id] == features[i]
  {
    var n := |features| - 1;
    if i < n {
      assert features[..n][i] == features[i] && LastOfId(features[..n], i);
      SourceIsLast(features[..n], i);
    }
  }

  /** Every solid-body result a feature declares. */
  function BodyNames(f: Feature): set<string> {
    set p | p in f.produces && p.kind.SolidBody? :: p.id
  }

  predicate ResultsApart(d: Document, i: nat, j: nat)
    requires i < |d.features| && j < |d.features|
  {
    BodyNames(d.features[i]) !! BodyNames(d.features[j])
  }

  /** No two features declare a result of the same name: the canonical validator's rule. */
  predicate UniqueResults(d: Document) {
    forall i, j :: 0 <= i < j < |d.features| ==> ResultsApart(d, i, j)
  }

  /** Every solid-body result the first `n` features declare. */
  function Declared(d: Document, n: nat): set<string>
    requires n <= |d.features|
  {
    if n == 0 then {} else Declared(d, n - 1) + BodyNames(d.features[n - 1])
  }

  lemma {:induction false} NotYetDeclared(d: Document, n: nat, i: nat)
    requires UniqueResults(d) && n <= i < |d.features|
    ensures BodyNames(d.features[i]) !! Declared(d, n)
  {
    if n > 0 {
      NotYetDeclared(d, n - 1, i);
      assert ResultsApart(d, n - 1, i);
    }
  }

  /** The parameters by id, the last of an id winning: each must have a number of its own. */
  function ParametersOf(parameters: seq<Parameter>): Result<map<string, real>, Failure> {
    if parameters == [] then Ok(map[])
    else match ParametersOf(parameters[..|parameters| - 1])
      case Err(e) => Err(e)
      case Ok(values) =>
        var last := parameters[|parameters| - 1];
        match last.value
        case DefinedAs(_) => Err(Refused("CAD_IR_INVALID"))
        case Unstated => Err(Refused("PARAMETER_UNRESOLVED"))
        case Stated(value) => Ok(values[last.id := value])
  }

  /** What the features of a document resolve their numbers against. */
  function Values(d: Document): map<string, real> {
    match ParametersOf(d.parameters) case Ok(values) => values case Err(_) => map[]
  }

  lemma {:induction false} ParametersStop(parameters: seq<Parameter>, i: nat)
    requires i <= |parameters| && ParametersOf(parameters[..i]).Err?
    ensures ParametersOf(parameters) == ParametersOf(parameters[..i])
    decreases |parameters| - i
  {
    if i < |parameters| {
      assert parameters[..i + 1][..i] == parameters[..i];
      ParametersStop(parameters, i + 1);
    } else {
      assert parameters[..i] == parameters;
    }
  }

  method CollectParameters(parameters: seq<Parameter>) returns (r: Result<map<string, real>, Failure>)
    ensures r == ParametersOf(parameters)
  {
    var values: map<string, real> := map[];
    for i := 0 to |parameters|
      invariant ParametersOf(parameters[..i]) == Ok(values)
    {
      assert parameters[..i + 1][..i] == parameters[..i];
      match parameters[i].value {
        case DefinedAs(_) =>
          ParametersStop(parameters, i + 1);
          return Err(Refused("CAD_IR_INVALID"));
        case Unstated =>
          ParametersStop(parameters, i + 1);
          return Err(Refused("PARAMETER_UNRESOLVED"));
        case Stated(value) =>
          values := values[parameters[i].id := value];
      }
    }
    assert parameters[..|parameters|] == parameters;
    r := Ok(values);
  }

  function Resolve(s: Scalar, parameters: map<string, real>): Result<real, Failure> {
    match s
    case Number(v) => Ok(v)
    case Reference(name) =>
      if name in parameters then Ok(parameters[name]) else Err(Refused("PARAMETER_UNRESOLVED"))
    case Quotient(name, divisor) =>
      if name !in parameters then Err(Refused("PARAMETER_UNRESOLVED"))
      else if divisor == 0.0 then Err(Crashed("ZeroDivisionError"))
      else Ok(parameters[name] / divisor)
    case Negation(inner) =>
      match Resolve(inner, parameters) case Ok(v) => Ok(-v) case Err(e) => Err(e)
  }
}
