/** The geometry kernel as the engine sees it: total functions whose insides are not modelled.
    Anything may be refused, and nothing here depends on where a body stands in the table. */
module KernelModel {
  import opened Prelude
  import opened Solids
  import opened CadDocument

  datatype Kernel = Kernel(
    // sketches: the checks made on their statements, the face they bound, the planes they may need
    assertions: Sketch -> Option<Failure>,
    face: (Inputs, Sketch) -> Option<Failure>,
    facePlane: (Selector, Solid) -> Result<Plane, Failure>,
    pathPlane: Feature -> Result<Plane, Failure>,
    // operations: what is checked before a cut is asked what it cuts, and the solid itself
    profile: (Feature, seq<Plane>) -> Option<Failure>,
    solid: (Feature, seq<Plane>, Option<Solid>) -> Result<Solid, Failure>,
    // blends, shells and drafts rewrite one body
    rewrite: (Feature, Solid) -> Result<Solid, Failure>,
    // patterns: whether the stated step makes sense, and where instance `n` goes
    spacing: Feature -> Option<Failure>,
    place: (Feature, nat, Solid) -> Solid,
    // booleans between bodies
    refuses: (BooleanOp, Solid, Solid) -> bool,
    hasVolume: Solid -> bool)
}
