/** The planes a document builds, over a whole run. */
module DatumPlanes {
  import opened Prelude
  import opened Solids
  import opened CadDocument
  import opened KernelModel
  import opened BodyTable
  import A = Adapter
  import T = ThroughAll

  predicate PlanesFaceAxes(m: A.Machine) { forall name :: name in m.planes ==> T.FacesAxis(m.planes[name]) }

  lemma OffsetFacesAxis(d: Document, f: Feature, m: A.Machine)
    requires f.inputs.Datum? && PlanesFaceAxes(m) && A.OffsetPlane(d, f, m.planes).Ok?
    ensures T.FacesAxis(A.OffsetPlane(d, f, m.planes).value)
  {
  }

  lemma StepKeepsPlanes(k: Kernel, d: Document, m: A.Machine, f: Feature)
    requires ActiveOk(m.table) && PlanesFaceAxes(m) && A.Step(k, d, m, f).Ok?
    ensures PlanesFaceAxes(A.Step(k, d, m, f).value)
  {
    if f.enabled && f.inputs.Datum? { OffsetFacesAxis(d, f, m); }
  }

  /** However datum planes are stacked and flipped, every plane built faces along an axis, so no
      sketch on one can put the body out of a through-all cut's reach. */
  lemma {:induction false} PlanesAlwaysFaceAxes(k: Kernel, d: Document, n: nat)
    requires n <= |d.features| && A.RunTo(k, d, n).Ok?
    ensures PlanesFaceAxes(A.RunTo(k, d, n).value)
  {
    if n > 0 {
      PlanesAlwaysFaceAxes(k, d, n - 1);
      StepKeepsPlanes(k, d, A.RunTo(k, d, n - 1).value, d.features[n - 1]);
    }
  }

  lemma DatumCutsThrough(k: Kernel, d: Document, n: nat, name: string, box: T.Box)
    requires n <= |d.features| && A.RunTo(k, d, n).Ok? && name in A.RunTo(k, d, n).value.planes
    requires T.Meets(A.RunTo(k, d, n).value.planes[name], box)
    ensures T.CutsThrough(box, A.RunTo(k, d, n).value.planes[name])
  {
    PlanesAlwaysFaceAxes(k, d, n);
    T.AxisPlaneCutsThrough(box, A.RunTo(k, d, n).value.planes[name]);
  }

  // ----- where a datum plane is ----------------------------------------------------------

  /** What a name stands for: the number of the last parameter that has it. */
  predicate Names(parameters: seq<Parameter>, name: string, v: real) {
    exists i :: 0 <= i < |parameters| && LastOf(parameters, i) && parameters[i].id == name
                && parameters[i].value == Stated(v)
  }

  predicate LastOf(parameters: seq<Parameter>, i: nat)
    requires i < |parameters|
  {
    forall j :: i < j < |parameters| ==> parameters[j].id != parameters[i].id
  }

  lemma {:induction false} ParametersMean(parameters: seq<Parameter>, name: string, v: real)
    requires ParametersOf(parameters).Ok?
    ensures var values := ParametersOf(parameters).value;
            name in values && values[name] == v <==> Names(parameters, name, v)
  {
    if parameters != [] {
      var n := |parameters| - 1;
      var front, last := parameters[..n], parameters[n];
      ParametersMean(front, name, v);
      if last.id == name {
        assert LastOf(parameters, n);
      } else if Names(front, name, v) {
        var i :| 0 <= i < n && LastOf(front, i) && front[i].id == name && front[i].value == Stated(v);
        assert parameters[i] == front[i] && LastOf(parameters, i);
      } else if i :| 0 <= i <= n && LastOf(parameters, i) && parameters[i].id == name
                     && parameters[i].value == Stated(v) {
        assert front[i] == parameters[i] && LastOf(front, i);
      }
    }
  }

  /** The number a scalar is written for; a quotient's is the one that times the divisor gives what is
      divided. */
  predicate StandsFor(s: Scalar, parameters: seq<Parameter>, v: real) {
    match s
    case Number(n) => v == n
    case Reference(name) => Names(parameters, name, v)
    case Quotient(name, divisor) => divisor != 0.0 && Names(parameters, name, v * divisor)
    case Negation(inner) => StandsFor(inner, parameters, -v)
  }

  lemma {:induction false} ScalarMeans(d: Document, s: Scalar, v: real)
    requires ParametersOf(d.parameters).Ok?
    ensures Resolve(s, Values(d)) == Ok(v) <==> StandsFor(s, d.parameters, v)
  {
    match s {
      case Number(_) =>
      case Reference(name) => ParametersMean(d.parameters, name, v);
      case Quotient(name, divisor) =>
        ParametersMean(d.parameters, name, v * divisor);
        if divisor != 0.0 && name in Values(d) { Divides(Values(d)[name], divisor, v); }
      case Negation(inner) => ScalarMeans(d, inner, -v);
    }
  }

  lemma Divides(a: real, b: real, q: real)
    requires b != 0.0
    ensures a / b == q <==> a == q * b
  {
  }

  /** A plane parallel to another with the same frame, so far along its normal and not a bit aside. */
  predicate Displaced(base: Plane, distance: real, plane: Plane) {
    && plane.normal == base.normal && plane.frame == base.frame
    && plane.origin.x - base.origin.x == distance * base.normal.x
    && plane.origin.y - base.origin.y == distance * base.normal.y
    && plane.origin.z - base.origin.z == distance * base.normal.z
  }

  /** The plane a datum is offset from: a base plane before any plane of that name. */
  predicate OffsetFrom(name: string, planes: map<string, Plane>, base: Plane) {
    if BasePlane(name).Some? then BasePlane(name) == Some(base) else name in planes && planes[name] == base
  }

  /** What a datum feature is written for: its offset one way, or the other way when flipped. */
  ghost predicate DatumAt(d: Document, f: Feature, planes: map<string, Plane>, plane: Plane)
    requires f.inputs.Datum?
  {
    exists base, offset ::
      OffsetFrom(f.inputs.base, planes, base) && StandsFor(f.inputs.offset, d.parameters, offset)
      && Displaced(base, if f.inputs.flip then 0.0 - offset else offset, plane)
  }

  lemma OnePlane(base: Plane, distance: real, plane: Plane)
    ensures Displaced(base, distance, plane) <==> plane == Along(base, distance)
  {
  }

  /** The plane of a datum is the one meant, and there is none exactly when nothing is. */
  lemma OffsetMeans(d: Document, f: Feature, planes: map<string, Plane>, plane: Plane)
    requires f.inputs.Datum? && ParametersOf(d.parameters).Ok?
    ensures A.OffsetPlane(d, f, planes) == Ok(plane) <==> DatumAt(d, f, planes, plane)
  {
    if DatumAt(d, f, planes, plane) {
      var base, offset :|
        OffsetFrom(f.inputs.base, planes, base) && StandsFor(f.inputs.offset, d.parameters, offset)
        && Displaced(base, if f.inputs.flip then 0.0 - offset else offset, plane);
      ScalarMeans(d, f.inputs.offset, offset);
      OnePlane(base, if f.inputs.flip then 0.0 - offset else offset, plane);
    }
    if A.OffsetPlane(d, f, planes) == Ok(plane) {
      var base := if BasePlane(f.inputs.base).Some? then BasePlane(f.inputs.base).value else planes[f.inputs.base];
      var offset := Resolve(f.inputs.offset, Values(d)).value;
      ScalarMeans(d, f.inputs.offset, offset);
      OnePlane(base, if f.inputs.flip then 0.0 - offset else offset, plane);
      assert OffsetFrom(f.inputs.base, planes, base);
    }
  }

  /** On every run: after an enabled datum its first result names exactly the plane meant, every other
      name and every body is as it was, and the run stops there exactly when no plane is meant or
      nothing names it. */
  lemma DatumMeans(k: Kernel, d: Document, n: nat)
    requires 0 < n <= |d.features| && d.features[n - 1].enabled && d.features[n - 1].inputs.Datum?
    requires ParametersOf(d.parameters).Ok? && A.RunTo(k, d, n - 1).Ok?
    ensures var f, m, after := d.features[n - 1], A.RunTo(k, d, n - 1).value, A.RunTo(k, d, n);
            && (after.Ok? <==> f.produces != [] && exists plane :: DatumAt(d, f, m.planes, plane))
            && (after.Ok? ==> after.value.table == m.table && f.produces[0].id in after.value.planes
                              && DatumAt(d, f, m.planes, after.value.planes[f.produces[0].id])
                              && after.value.planes - {f.produces[0].id} == m.planes - {f.produces[0].id})
  {
    var f, m := d.features[n - 1], A.RunTo(k, d, n - 1).value;
    if plane :| DatumAt(d, f, m.planes, plane) { OffsetMeans(d, f, m.planes, plane); }
    if A.OffsetPlane(d, f, m.planes).Ok? { OffsetMeans(d, f, m.planes, A.OffsetPlane(d, f, m.planes).value); }
  }

  /** Eight along each base plane is eight up, eight towards the front and eight to the right; flipped,
      eight the other way. */
  lemma EightFromEachBase(d: Document, f: Feature)
    requires f.inputs.Datum? && f.inputs.offset == Number(8.0) && f.inputs.base in {"XY", "XZ", "YZ"}
    ensures var way := if f.inputs.flip then 0.0 - 8.0 else 8.0;
            A.OffsetPlane(d, f, map[]).Ok? && A.OffsetPlane(d, f, map[]).value.origin ==
              match f.inputs.base
              case "XY" => Point(0.0, 0.0, way)
              case "XZ" => Point(0.0, 0.0 - way, 0.0)
              case _ => Point(way, 0.0, 0.0)
  {
  }
}
