# Verification of the drawing-to-CAD service

The service turns a drawing into a solid model. A worker asks a language model to read the
drawing and to write a CAD-IR document, an engine builds the document's features one by one into a table of named
bodies, and the worker uploads what was built and files what it cost. This project models the parts
of that path in which something can quietly go wrong and proves, for every document, every answer of
the language model and every behaviour of the network, what they do.

A solid is the set of points it occupies, so joining, cutting and intersecting are set operations.
The geometry kernel, the language model, the engine as a process and the network are functions of
what they are asked, or of everything that happened before; nothing is assumed of them unless a
`requires` says so. Exceptions are values: `Refused(code)` for a typed refusal, `Crashed(exception)`
for one the host language raises.

## Modules

- Documents and solids: `Prelude`, `Solids`, `CadDocument`, `KernelModel`, `Texts`.
- The table of bodies: `BodyTable` (the `Bodies` class and its value), `Booleans`, `BooleanTheorems`,
  `NameSets`, `RibLost`, `Outlines` (what a table does whatever its bodies are made of).
- The interpreter: `Adapter` (one feature as a function of the machine), `AdapterWalk` (the loops and
  the updates in place, proved equal to it), `PatternTheorems`, `SingleSolid`.
- What it does over whole runs: `BodyPlan` (what the document alone says of the table), `ActiveBody`,
  `NameTheorems`, `Material` and `FeatureMaterial` (what the active body, names and material do); `ToolVerdict`
  and `PatternVerdict` (what features and patterns are refused for).
- Its meaning without indices: `NamedWorld`, `NamedBodies`, `TableShowsWorld` and `Refinement` (when the
  two agree).
- The gate: `Capabilities` (the one pass), `CapabilityMeaning` (what it collects), `GateSoundness` (the
  calls it covers), `GateVerdict` (which documents it refuses), `GateIndependence` (no other call matters
  to a build), `BodyCounting` and `GateStructure` (the switches no call shows).
- Planes: `ThroughAll`, `DatumPlanes`.
- The worker: `RepairMachine` (an attempt as a function), `RepairWorker` (its loops), `RepairTheorems`,
  `RepairReading`, `RepairSpending`, `RepairOutcomes`, `RepairContext`, `RepairWitnesses`.
- Around it: `CodexEvents`, `TokenUsage` and `UsageReading`, `CommandLine`, `CommandLineParse`, `CommandLineTheorems`,
  `MountParsing`, `EngineArtifacts`, `EngineReport`, `EngineReportTheorems`, `ResourceLedger`, `LedgerKeys`,
  `Shipping`, `ShippingTheorems`, `LedgerTheorems`, `LabelledBox`.

`dafny verify dfyconfig.toml` checks everything.

## Where the code and its documentation differ

The model follows the code. Each of these is a lemma, with the condition under which the stated
behaviour does hold.

- A build failure is said to be repaired twice before it is reported
  (`apps/local-worker/BuildFeedback.cs:264-274`, `apps/local-worker/Pipeline.cs:374-378`). Compile
  repairs and build repairs share one budget of three
  (`packages/codex-runner/CodexRouting.cs:19-36`), so after two compile repairs such an order
  ends as an exhausted budget, which is reported as a pause:
  `RepairOutcomes.RefusedDocumentIsPausedNotFailed`, `RepairOutcomes.ShippedPolicyLeaves`; a whole such
  attempt is `RepairWitnesses.TwiceRefusedIsPaused`.
- The uploaded `output/cad-ir.json` is not the document that was built when the engine refuses what the
  compile loop left: `RepairOutcomes.UploadedIsBuiltExactly`, `RepairWitnesses.UploadMayBeStale`.
- Shipping the ledger "never throws" (`apps/local-worker/ResourceLedger.cs:297-302`); a time-out of
  the HTTP client is not an `HttpRequestException` and escapes: `ShippingTheorems.ShipThrows`.
- Event keys are to be unique in a batch; `cad:session:1` and the operation keys are used again by
  every build of an attempt, and the API refuses the whole batch: `LedgerKeys.AttemptKeysDistinct`,
  `LedgerTheorems.RepairedOrderLosesItsLedger`.
- The cached engine report is said to change with the flags alone; the flags copied beside an answer
  are those at the end of the call, not those it was asked under:
  `EngineReportTheorems.AnswersAreCurrentExactly`, `EngineReportTheorems.WholeResumptionsExactly`,
  `EngineReportTheorems.OverlapGivesTheOther`.
- A build repair is checked against the claim the reading stated; a reading that states none leaves the
  claim of an earlier attempt in force: `RepairContext.ClaimOfAnEarlierAttempt`,
  `RepairWitnesses.EarlierClaimIsChecked`.
- A through-all tool is to leave the body on both sides; from a slanted face it may not:
  `ThroughAll.SlantedFaceFallsShort`.
- A pattern is to go into its source's body; it goes into the body its source's reference means by
  then. A source that named no body leaves the choice to what is active; a revolve may start a body
  and name another; a union may have taken the named body: `PatternTheorems.PatternFollowsItsSource`,
  `PatternTheorems.PatternLandsInAnotherBody`, `PatternTheorems.RevolvePatternLandsInThePlate`,
  `RibLost.PatternOnTheRibIsRefused`.
- Deleting from the highest index down moves no other tool, unless an index is repeated:
  `BooleanTheorems.RemovesExactlyItsTools`, `Material.UnionConserves`, `Refinement.BuildMeansNames`,
  `RibLost.RibIsLost`.
- The result a cut declares is never a name of any body: `NameTheorems.OnlyAddedNamesResolve`.

## Model

| member | source | states |
|---|---|---|
| BodyTable.Bodies.FirstIndex | packages/build123d-adapter/cad_engine_build123d/bodies.py:61-78 | a name means the first body that carries it |
| BodyTable.Bodies.FindSolid | packages/build123d-adapter/cad_engine_build123d/bodies.py:54-59 | the same lookup, for a face selector: no name, no solid |
| BodyTable.Bodies.LocateBody | packages/build123d-adapter/cad_engine_build123d/bodies.py:61-78 | no name means the active body; an unknown one is refused |
| BodyTable.Bodies.CreateBody | packages/build123d-adapter/cad_engine_build123d/bodies.py:88-98 | refused, with the table as it was, when any name is taken; otherwise one body more, and it is active |
| BodyTable.Bodies.ReplaceSolid | packages/build123d-adapter/cad_engine_build123d/bodies.py:100-102 | one solid changes, its body becomes active, everything else stays |
| BodyTable.Bodies.AddNames | packages/build123d-adapter/cad_engine_build123d/bodies.py:104-111 | the names are added to one body, unchecked; the active body stays |
| BodyTable.Bodies.DropBody | packages/build123d-adapter/cad_engine_build123d/bodies.py:113-116 | one body leaves; the active index moves only when it points past the end |
| BodyTable.Bodies.Result | packages/build123d-adapter/cad_engine_build123d/bodies.py:120-136 | every remaining solid in order; an empty table is refused |
| NameSets.NameSetsDisjoint | packages/build123d-adapter/cad_engine_build123d/bodies.py:54-116 | over every run of the table, repeated tools included: when no two features declare one result, no name is on two bodies, no undeclared name is on any, and the active index is valid exactly when there is a body |
| NameSets.AliasMayShare | packages/build123d-adapter/cad_engine_build123d/bodies.py:104-111 | the rule on results is needed: without it a name can be left on two bodies |
| Booleans.Descending | packages/build123d-adapter/cad_engine_build123d/booleans.py:38-41 | the same indices, never increasing |
| Booleans.LocateAll | packages/build123d-adapter/cad_engine_build123d/booleans.py:32-32 | every tool is found or the boolean is refused |
| Booleans.FoldTools | packages/build123d-adapter/cad_engine_build123d/booleans.py:34-36 | the loop computes the fold of the tools, the first refusal ending it |
| Booleans.DropTools | packages/build123d-adapter/cad_engine_build123d/booleans.py:38-41 | deleting in place, index by index, is `DropAll`; an index past the end is an exception |
| Booleans.CombineBodies | packages/build123d-adapter/cad_engine_build123d/booleans.py:21-44 | the whole method on the shared table; a refusal before the first write leaves the table untouched |
| BooleanTheorems.KeepWithout | packages/build123d-adapter/cad_engine_build123d/booleans.py:38-41 | deleting one index above all the others, then the others, is filtering them all |
| BooleanTheorems.DropAllKeeps | packages/build123d-adapter/cad_engine_build123d/booleans.py:38-41 | distinct indices deleted from the highest down leave exactly the other bodies, in order |
| BooleanTheorems.TargetFoundAgain | packages/build123d-adapter/cad_engine_build123d/booleans.py:42-44 | the target is found again by name, at its new index, with its new solid |
| BooleanTheorems.RemovesExactlyItsTools | packages/build123d-adapter/cad_engine_build123d/booleans.py:38-44 | without `keep_tools`: the old table with the tools filtered out, the target holding the answer and active, if and only if the tools are pairwise distinct bodies |
| BooleanTheorems.ConsumedTargetIsRefused | packages/build123d-adapter/cad_engine_build123d/booleans.py:42-44 | a target that is one of its own tools is refused after the deletion |
| BooleanTheorems.InnocentBodyLost | packages/build123d-adapter/cad_engine_build123d/booleans.py:21-44 | a whole boolean that lists one body under two of its names takes an unnamed body with it |
| RibLost.RibIsLost | packages/build123d-adapter/cad_engine_build123d/adapter.py:125-224 | a whole document that does so: plate, stud, a boss on the stud, rib, union; one body is left, and what only the rib held is held by none |
| RibLost.NamesKeepTheRib | packages/build123d-adapter/cad_engine_build123d/adapter.py:125-224 | by the meaning of its names the same document keeps two bodies |
| Material.FoldMeans | packages/build123d-adapter/cad_engine_build123d/booleans.py:34-36 | point by point: the fold is union, difference with all, or intersection with all of the tools |
| Material.AnswerExactly | packages/build123d-adapter/cad_engine_build123d/booleans.py:32-80 | a boolean whose bodies are found has an answer if and only if, tool by tool, the kernel takes the partial answer and the next has volume; the first tool that fails says which of the two codes the whole boolean is refused with |
| Material.InnocentsExactly | packages/build123d-adapter/cad_engine_build123d/booleans.py:38-41 | where no name is shared: a boolean that consumes its tools takes a body it names in no way if and only if it lists one body twice |
| Material.BooleanMeans | packages/build123d-adapter/cad_engine_build123d/booleans.py:21-44 | every boolean of every document with unique results, on the table: the target is point by point the answer, under its names and active; every other body is as it was and the tools are gone with their names, if and only if the tools that go are pairwise distinct bodies |
| Material.UnionConserves | packages/build123d-adapter/cad_engine_build123d/booleans.py:21-82 | on the table: a union loses no material and makes none if and only if whatever it takes unnamed is covered by the rest; so whenever no body is listed twice, and where bodies lie apart only then |
| AdapterWalk.FindChainSource | packages/build123d-adapter/cad_engine_build123d/adapter.py:273-293 | the loop down a chain of patterns ends on any source map, cyclic ones included, and finds the source the chain names |
| AdapterWalk.TargetPattern | packages/build123d-adapter/cad_engine_build123d/adapter.py:273-300 | the body a pattern goes into, or a refusal |
| AdapterWalk.ApplySolidFeature | packages/build123d-adapter/cad_engine_build123d/adapter.py:227-261 | one extrusion, revolve, sweep or loft: created, joined and named, or cut |
| AdapterWalk.ApplyPatternFeature | packages/build123d-adapter/cad_engine_build123d/adapter.py:181-192 | a pattern replaces its target with the part that has the rest of the instances |
| AdapterWalk.ApplyFeature | packages/build123d-adapter/cad_engine_build123d/adapter.py:151-222 | the dispatch on one feature, on the mutable table and the dictionary of planes |
| CadDocument.CollectParameters | packages/build123d-adapter/cad_engine_build123d/parameters.py:30-54 | every parameter must have a number of its own; the first that has none, or is another parameter, ends the build before any feature |
| AdapterWalk.BuildPart | packages/build123d-adapter/cad_engine_build123d/adapter.py:125-224 | gate first, then the parameters, then every feature in order, the first failure ending the build |
| TableShowsWorld.DropAllShows | packages/build123d-adapter/cad_engine_build123d/booleans.py:38-41 | deleting by index, highest first, is the departure of the bodies first found there |
| TableShowsWorld.ToolsLeave | packages/build123d-adapter/cad_engine_build123d/booleans.py:38-41 | the consumed tools leave with their names and nothing else moves |
| Refinement.CombineShowsExactly | packages/build123d-adapter/cad_engine_build123d/booleans.py:21-44 | a boolean on a table that shows a world of named bodies shows the world it means, if and only if no body is consumed under two of its names |
| Refinement.BuildMeansNames | packages/build123d-adapter/cad_engine_build123d/adapter.py:125-224 | for every document with unique results: the index table builds what the index-free meaning builds, or fails alike, when no boolean consumes one body under two names; where the index-free meaning can be built, only then |
| NamedBodies.StepKeepsWorldOk | packages/build123d-adapter/cad_engine_build123d/adapter.py:151-222 | names are bound to living bodies, and one is active whenever there is one |
| Material.ToolsOnlyAddOrRemove | packages/build123d-adapter/cad_engine_build123d/adapter.py:227-261 | on the table: adding takes nothing away, cutting adds nothing, and neither touches any body but the one left active or moves any |
| FeatureMaterial.ToolStepMeans | packages/build123d-adapter/cad_engine_build123d/adapter.py:227-261 | one enabled feature that makes a tool, point by point: the body made is the tool, the body added to has gained all of it, the body cut has lost all of it |
| FeatureMaterial.ToolMeans | packages/build123d-adapter/cad_engine_build123d/adapter.py:635-639 | the same at every step of every run |
| FeatureMaterial.ToolIsDrawn | packages/build123d-adapter/cad_engine_build123d/adapter.py:702-752 | the tool is what the kernel draws on planes that every sketch passed its checks for: a base plane, a datum built before, or the face of the body its selector names, else of the part |
| ToolVerdict.ToolExactly | packages/build123d-adapter/cad_engine_build123d/adapter.py:308-327 | a tool is refused for the first sketch anything is wrong with, its statements before its plane before its face; then for its profile; then for cutting where nothing is; otherwise it is what the kernel makes of the planes |
| ToolVerdict.ToolStepExactly | packages/build123d-adapter/cad_engine_build123d/adapter.py:227-261 | the feature is refused when the body it names is gone, when its tool is, or when it starts a body under a taken name, each with its code, and for nothing else |
| BodyPlan.PlanIsTheRun | packages/build123d-adapter/cad_engine_build123d/adapter.py:125-224 | whatever the kernel answers and whatever booleans delete: the names of the bodies on the table, their order and the active index are those planned from the document alone |
| ActiveBody.StepWritesOne | packages/build123d-adapter/cad_engine_build123d/bodies.py:88-116 | on the table of any run, repeated tools included: a feature that builds something writes one body and leaves it active; every other body that is left is as it was |
| ActiveBody.OwnerIsTarget | packages/build123d-adapter/cad_engine_build123d/adapter.py:227-300 | where results are unique that body is the one the feature means, or a new one |
| ActiveBody.ActiveIsLastTouched | packages/build123d-adapter/cad_engine_build123d/bodies.py:88-116 | over every run of the table the active body is the one the last enabled feature that is not a plane went to, and every other body is as before that feature |
| NameTheorems.NamesNeverMove | packages/build123d-adapter/cad_engine_build123d/bodies.py:54-116 | over every run of the table, whatever booleans delete: a name that resolves means the body it meant before; one that stops resolving does so because its body has left the table, for good |
| NameTheorems.OnlyAddedNamesResolve | packages/build123d-adapter/cad_engine_build123d/adapter.py:251-261 | only names declared by enabled additive features ever resolve on the table; a cut's declared result never does |
| NameTheorems.AddedNamesResolve | packages/build123d-adapter/cad_engine_build123d/adapter.py:251-261 | such a name resolves from then on, to the body its feature went to, exactly as long as that body is on the table |
| SingleSolid.BuildsTheRunningSolid | packages/build123d-adapter/cad_engine_build123d/bodies.py:10-13 | without new bodies and booleans, and with references only to bodies built before, the document builds the old single running solid, whatever aliases are declared |
| SingleSolid.UnbuiltNameIsRefused | packages/build123d-adapter/cad_engine_build123d/bodies.py:61-78 | where the two part: a reference to a body nothing built is refused |
| PatternTheorems.ChainsReachASource | packages/cad-ir/cad_ir/canonical_validator.py:185-256 | in a validated document every chain of patterns ends at an earlier feature that is none |
| CadDocument.SourceIsLast | packages/build123d-adapter/cad_engine_build123d/adapter.py:150-150 | of features with one id a pattern finds the last |
| PatternTheorems.PatternFollowsItsSource | packages/build123d-adapter/cad_engine_build123d/adapter.py:273-300 | every pattern of every document, on the table: it goes where its source went if and only if, in the plan of the document, the reference the source gives still means that body |
| PatternTheorems.UnnamedSourceIsFollowedWhenActive | packages/build123d-adapter/cad_engine_build123d/adapter.py:273-300 | a source that names no body, one of its own included, is followed if and only if the same body is active before the pattern as after the source |
| PatternTheorems.NamedSourceIsFollowedWhileAlive | packages/build123d-adapter/cad_engine_build123d/adapter.py:273-300 | a source that names the body it goes to is followed if and only if that body is on the table, however it may have left it; otherwise the pattern is refused |
| RibLost.PatternOnTheRibIsRefused | packages/build123d-adapter/cad_engine_build123d/adapter.py:273-300 | a document in which no feature takes the body a pattern's source named, and the pattern is refused: a union that lists another body twice took it |
| PatternTheorems.NewBodyThatNamesAnother | packages/cad-ir/cad_ir/revolve.py:74-119 | a source that starts a body and names another, which a revolve may, is never followed |
| PatternTheorems.RevolvePatternLandsInThePlate | packages/cad-ir/cad_ir/revolve.py:74-119 | such a document: the revolve is a body of its own, its repetitions go into the plate |
| PatternTheorems.PatternLandsInAnotherBody | packages/build123d-adapter/cad_engine_build123d/adapter.py:290-293 | plate, hole, stud, pattern of the hole: the repetitions go into the stud |
| PatternTheorems.RepeatsChainEnd | packages/build123d-adapter/cad_engine_build123d/patterns.py:96-130 | the walk that makes the tool ends at the feature the walk for the body ends at: that feature is enabled, and its tool is joined or cut as it was |
| PatternTheorems.StampIsTogether | packages/build123d-adapter/cad_engine_build123d/patterns.py:58-77 | instances combined one by one are all instances combined at once |
| PatternTheorems.PatternAddsTheRest | packages/build123d-adapter/cad_engine_build123d/patterns.py:58-77 | the original stands already: the part ends with every instance joined or cut, the original included |
| FeatureMaterial.OrdinalsExact | packages/build123d-adapter/cad_engine_build123d/patterns.py:133-186 | the ordinals placed are exactly those kept, each once, in order; a mirror keeps both |
| FeatureMaterial.RepeatedMeans | packages/build123d-adapter/cad_engine_build123d/patterns.py:80-130 | down any chain of patterns: what is repeated is the tool of the plain source at its end, spread by every pattern between, each over all the ordinals it keeps |
| FeatureMaterial.PatternStepMeans | packages/build123d-adapter/cad_engine_build123d/patterns.py:58-77 | a pattern on the table, point by point: the body it goes to has gained, or lost, exactly the placed instances of what it repeats but the first kept |
| FeatureMaterial.PatternMeans | packages/build123d-adapter/cad_engine_build123d/patterns.py:58-77 | the same at every step of every run |
| PatternVerdict.PatternBuiltExactly | packages/build123d-adapter/cad_engine_build123d/patterns.py:58-130 | a pattern with a body to go to is built if and only if its step makes sense, and so do the steps of all patterns down to a feature whose tool can be made again |
| PatternVerdict.StepRefused | packages/build123d-adapter/cad_engine_build123d/patterns.py:80-130 | otherwise it is refused for the innermost step that makes none |
| FeatureMaterial.GridHasBothRows | packages/build123d-adapter/cad_engine_build123d/patterns.py:80-130 | a pattern of two of a pattern of three of a hole: the grid takes from the part exactly the second row, all three holes of it |
| Capabilities.CollectRequirements | packages/build123d-adapter/cad_engine_build123d/capabilities.py:323-483 | the single pass: one dictionary, first reason kept, one counter of solids so far |
| CapabilityMeaning.FirstReasonsExact | packages/build123d-adapter/cad_engine_build123d/capabilities.py:335-340 | a key is in the dictionary exactly when something asked, with the reason of the first that did |
| CapabilityMeaning.WalkFindsEverySelector | packages/build123d-adapter/cad_engine_build123d/capabilities.py:486-500 | the recursive walk finds a selector exactly when one stands at some path, at any depth |
| CapabilityMeaning.SketchNeedsExact | packages/build123d-adapter/cad_engine_build123d/capabilities.py:503-529 | what one sketch needs, key by key |
| CapabilityMeaning.FeatureNeedsExact | packages/build123d-adapter/cad_engine_build123d/capabilities.py:354-480 | what one feature needs, key by key |
| CapabilityMeaning.CounterCountsAdditive | packages/build123d-adapter/cad_engine_build123d/capabilities.py:353-434 | the counter is positive exactly after an enabled additive feature |
| CapabilityMeaning.RequirementsExact | packages/build123d-adapter/cad_engine_build123d/capabilities.py:323-483 | the pass collects a key exactly when the build, an expectation or an enabled feature needs it, and keeps the first reason met |
| CapabilityMeaning.BossKeyExact | packages/build123d-adapter/cad_engine_build123d/capabilities.py:411-434 | the boss key exactly when an enabled additive extrusion that starts no body follows an enabled additive feature |
| BodyCounting.BodiesComeFromAdditive | packages/build123d-adapter/cad_engine_build123d/adapter.py:125-224 | in every run there is a body exactly when an enabled additive feature has run |
| GateSoundness.SketchFaceFound | packages/build123d-adapter/cad_engine_build123d/capabilities.py:486-500 | the face a sketch stands on is found by the walk, in a loft's sections too |
| GateSoundness.CallAsked | packages/build123d-adapter/cad_engine_build123d/capabilities.py:354-529 | whatever a call on the kernel is part of, the feature that causes the call asks for the switch that stops it |
| GateSoundness.EnabledCallsAllowed | packages/build123d-adapter/cad_engine_build123d/capabilities.py:295-313 | in a document the gate lets through, no call an enabled feature causes is one a switch should have stopped |
| GateVerdict.RefusedExactlyWhenNeeded | packages/build123d-adapter/cad_engine_build123d/capabilities.py:295-313 | a document is refused by the gate if and only if some switch that is off is asked for by the build or by an enabled feature; otherwise it is built as if every switch were on |
| GateVerdict.PlateNeedsNoMirror | packages/build123d-adapter/cad_engine_build123d/capabilities.py:295-313 | one plate with mirroring turned off is not refused |
| GateIndependence.SameRepeated | packages/build123d-adapter/cad_engine_build123d/patterns.py:96-130 | two kernels that agree on every call no switch stops make the same tool down a chain of patterns, disabled sources being refused |
| GateIndependence.NothingDisabledMatters | packages/build123d-adapter/cad_engine_build123d/capabilities.py:295-483 | the interpreter's own build is the same on any two kernels that agree on every call no switch stops: nothing switched off is ever performed to effect |
| GateStructure.BossMeansFusing | packages/build123d-adapter/cad_engine_build123d/capabilities.py:411-419 | when a feature succeeds it fused an extrusion into a body exactly when the pass asked for the boss key |
| GateStructure.NothingJoinedWithoutItsKey | packages/build123d-adapter/cad_engine_build123d/capabilities.py:411-419 | over every run without the boss key, each extrusion added is a body of its own and no body there is touched |
| GateStructure.OneBodyWithoutItsKey | packages/build123d-adapter/cad_engine_build123d/capabilities.py:405-409 | over every run without the new-body key there is never a second body |
| GateStructure.NoPlaneWithoutItsKey | packages/build123d-adapter/cad_engine_build123d/capabilities.py:359-361 | over every run without the datum key no plane is built |
| ThroughAll.TravelsAsNamed | packages/build123d-adapter/cad_engine_build123d/adapter.py:662-687 | on base and datum planes an extrusion travels exactly the world direction named, or is refused exactly when that lies in the plane |
| ThroughAll.NeverAgainst | packages/build123d-adapter/cad_engine_build123d/adapter.py:662-687 | on any plane it never travels against it |
| ThroughAll.PrismIsEndless | packages/build123d-adapter/cad_engine_build123d/adapter.py:690-699 | what is to be cut out goes on in both directions along the plane's normal |
| ThroughAll.PartCutsThroughExactly | packages/build123d-adapter/cad_engine_build123d/adapter.py:690-699 | for any body: a through-all cut equals the endless prism of the same profile, for every profile, if and only if all of the body is within reach of the plane |
| ThroughAll.CutsThroughExactly | packages/build123d-adapter/cad_engine_build123d/adapter.py:690-699 | for a box: every body whose own box it is is cut through if and only if both extreme corners are within reach |
| ThroughAll.AxisPlaneCutsThrough | packages/build123d-adapter/cad_engine_build123d/adapter.py:690-699 | on an axis-facing plane, meeting the box is enough |
| ThroughAll.BevelIsAFace | packages/build123d-adapter/cad_engine_build123d/adapter.py:690-699 | the cube with a bevelled edge has the bevel for a face: it lies behind the plane, and holds the whole strip on it |
| ThroughAll.SlantedFaceFallsShort | packages/build123d-adapter/cad_engine_build123d/adapter.py:690-699 | on a slanted face meeting the body is not enough: a cut from the bevel goes through the bevelled cube if and only if four tenths of its side are at most one more than the bevel is deep |
| DatumPlanes.PlanesAlwaysFaceAxes | packages/build123d-adapter/cad_engine_build123d/adapter.py:756-780 | however datum planes are stacked and flipped, every plane built faces an axis |
| DatumPlanes.DatumCutsThrough | packages/build123d-adapter/cad_engine_build123d/adapter.py:690-780 | so a cut sketched on any datum plane that meets the body goes through it |
| DatumPlanes.ScalarMeans | packages/build123d-adapter/cad_engine_build123d/parameters.py:56-92 | a scalar resolves to a number exactly when it is written for it: a number, the number of the last parameter of that name, a quotient that times its divisor is that, or the negative of such |
| DatumPlanes.DatumMeans | packages/build123d-adapter/cad_engine_build123d/adapter.py:756-783 | at every step of every run an enabled datum builds exactly the plane meant: so far along the base's normal, the other way when flipped, no further aside, and under its first result; it stops the run exactly when none is meant |
| DatumPlanes.EightFromEachBase | packages/build123d-adapter/cad_engine_build123d/adapter.py:756-780 | eight from each base plane is eight up, eight to the front and eight to the right |
| LabelledBox.Disagreements | scripts/run_labelled_orders.py:191-228 | each disagreement is named exactly when it is one |
| LabelledBox.SortedDecidesFit | scripts/run_labelled_orders.py:216-220 | comparing sorted sizes pairwise succeeds exactly when some way of pairing the axes fits |
| LabelledBox.AxesMayBeTurned | scripts/run_labelled_orders.py:216-220 | the verdict does not depend on which axis is which |
| LabelledBox.MissingSidesAreNotMissed | scripts/run_labelled_orders.py:218-219 | `zip` stops early: a box of one side is compared with the smallest side only |
| RepairWorker.Worker.ReserveRun | packages/codex-runner/CodexRouting.cs:19-36 | a run is reserved or refused; a repair counts against both limits |
| RepairWorker.Worker.Validate | apps/local-worker/DrawingPipeline.cs:803-822 | the gate is asked about the candidate as it is on disk |
| RepairWorker.Worker.CompileAndRepair | apps/local-worker/DrawingPipeline.cs:344-406 | the unbounded `for` with its filtered catch ends, and is the specified loop |
| RepairWorker.Worker.CompileReading | apps/local-worker/DrawingPipeline.cs:273-326 | ask the customer, or compile what was read and check it |
| RepairWorker.Worker.ReadDrawing | apps/local-worker/DrawingPipeline.cs:140-229 | the reading is reused or made, then compiled |
| RepairWorker.Worker.RepairRefusedBuild | apps/local-worker/DrawingPipeline.cs:433-496 | one repair after a build, checked before it goes back |
| RepairWorker.Worker.BuildWithRepairs | apps/local-worker/Pipeline.cs:793-826 | the build loop ends, and is the specified loop |
| RepairWorker.Worker.AttemptOrder | apps/local-worker/Pipeline.cs:631-647 | one attempt at an order |
| RepairTheorems.OnlyAcceptedIsBuilt | apps/local-worker/Pipeline.cs:793-826 | whatever the language model and the engine answer: what is built is exactly what the gate has just accepted; the language model repairs exactly the document just refused, for a repairable code; nothing else that fails is survived; the last failure surfaces |
| RepairSpending.CompileLoopSpends | apps/local-worker/DrawingPipeline.cs:373-404 | at most three compile repairs, and never more than the budget holds |
| RepairSpending.AttemptIsBounded | apps/local-worker/Pipeline.cs:793-826 | at most one reading, one compilation and as many repairs as the loops and the shared budget both allow; at most three builds; one run fewer when the reading is reused |
| RepairReading.ReadsExactlyWhenNeeded | apps/local-worker/DrawingPipeline.cs:140-229 | over a whole attempt, from the files it began with: the first thing asked is a reading with the operator's note, unless answers and a carried reading that settles the shape are there and no note says anything; then no reading is ever asked for |
| RepairReading.ReadingIsCompiled | apps/local-worker/DrawingPipeline.cs:199-229 | a reading that fails ends the attempt and leaves what it wrote; one that does not is what is compiled |
| RepairReading.CompileStarts | apps/local-worker/DrawingPipeline.cs:273-326 | what a compilation begins with: exactly when the analysis and the answers can be read and a run is left, the model is asked with exactly those texts |
| RepairReading.HandedBackThrice | apps/local-worker/DrawingPipeline.cs:373-404 | a document the gate never accepts is handed back exactly three times, budget allowing |
| RepairOutcomes.RefusalSurfacesLast | apps/local-worker/Pipeline.cs:814-823 | a repairable refusal of the build surfaces only if the budget held every repair the loop allows |
| RepairOutcomes.CompileRepairsCostBuildRepairs | packages/codex-runner/CodexRouting.cs:19-36 | compile repairs and build repairs come out of one budget |
| RepairOutcomes.StubbornBuildEnds | apps/local-worker/Pipeline.cs:793-826 | from any desk with a budget: a document no rewrite can save ends as its own refusal exactly when the budget holds the remaining repairs, and as an exhausted budget otherwise |
| RepairOutcomes.RefusedDocumentIsPausedNotFailed | apps/local-worker/Pipeline.cs:404-440 | over a whole attempt, whatever gate and model did before the first build: reported final exactly when the compile loop left two repairs, else paused |
| RepairOutcomes.SaidExactly | apps/local-worker/Pipeline.cs:411-425 | when the API is told nothing, a pause or the end, for every failure and attempt |
| RepairOutcomes.ShippedPolicyLeaves | packages/codex-runner/CodexRouting.cs:19-36 | with ten runs and three repairs, two repairs are left exactly when the compile loop made at most one |
| RepairWitnesses.TwiceRefusedIsPaused | apps/local-worker/Pipeline.cs:631-647 | a whole attempt under the shipped policy, refused twice before its build and always by it, ends as paused |
| RepairOutcomes.UploadedDocument | apps/local-worker/WorkerEngine.cs:34-40 | the uploaded CAD-IR is the compiled one; it is the built one whenever no build was repaired |
| RepairOutcomes.UploadedIsBuiltExactly | apps/local-worker/WorkerEngine.cs:34-40 | for an engine that judges a document by its text, an attempt that ends well uploads what it built if and only if the engine accepts what the compile loop left |
| RepairWitnesses.UploadMayBeStale | apps/local-worker/Pipeline.cs:803-823 | a whole attempt under the shipped policy that builds one document and uploads another |
| RepairContext.OneReadingPerAttempt | apps/local-worker/DrawingPipeline.cs:424-450 | every compilation, repair and check of an attempt is made against one reading, one set of answers and one claim, however the attempt ends |
| RepairContext.ClaimOfAnEarlierAttempt | apps/local-worker/DrawingPipeline.cs:451-453 | the claim condition is exact: otherwise the claim a build repair will be checked against is one an earlier attempt left |
| RepairWitnesses.EarlierClaimIsChecked | apps/local-worker/DrawingPipeline.cs:451-453 | a whole attempt, of a reading that states no claim, whose build repair is checked against the claim an earlier attempt left |
| RepairContext.WaitsOnceForAnswers | apps/local-worker/DrawingPipeline.cs:288-290 | an order waits only without answers, having paid for one reading |
| CodexEvents.EventParser.AcceptLine | packages/codex-runner/CodexRunner.cs:504-549 | one line: the tail, the completions, the thread, the model, the usage, the failure and the tool flag, and what is updated before an exception |
| TokenUsage.ParseStructured | packages/codex-runner/CodexUsageParser.cs:67-92 | the descending loop finds the last line that reports |
| TokenUsage.WindowExact | packages/codex-runner/CodexRunner.cs:474-507 | the candidates are exactly every completion and then the last twenty lines |
| TokenUsage.WindowReadsTheWholeStream | packages/codex-runner/CodexRunner.cs:502-502 | the bounded candidates read what the whole stream read backwards does, for every accepted stream |
| TokenUsage.RunningUsageAgrees | packages/codex-runner/CodexRunner.cs:534-541 | the running total and the reading agree: absent counts are zeros in one and absent in the other |
| UsageReading.StreamAccepted | packages/codex-runner/CodexRunner.cs:504-549 | a stream is accepted exactly when every line is fit: an object with text where text is read and an object for its usage |
| UsageReading.AcceptedExactly | packages/codex-runner/CodexRunner.cs:508-515 | an unfit line is a protocol error when it is no JSON, and an exception of the JSON library otherwise |
| UsageReading.WindowCounts | packages/codex-runner/CodexUsageParser.cs:67-103 | read from the bounded window: the counts are those of the last completion of the whole stream that reports usage, by name, integers and not negative, the reasoning by either name; no reading exactly when none reports |
| UsageReading.RunningCounts | packages/codex-runner/CodexRunner.cs:534-541 | the running total is that of the last completion that reported usage, by name, what is no integer counted as zero; there is none exactly when none did |
| UsageReading.FirstThatCounts | packages/codex-runner/CodexUsageParser.cs:174-187 | the first parser that counts anything is believed, cached tokens alone counting nothing; a warning exactly when none does or the version is unknown |
| UsageReading.ObservedIsFirst | packages/codex-runner/CodexRunner.cs:520-526 | the model and the effort are what the first line that states one says |
| UsageReading.ThreadIsLast | packages/codex-runner/CodexRunner.cs:518-519 | the thread is the one the last line that starts one names |
| TokenUsage.WindowResolvesAlike | packages/codex-runner/CodexUsageParser.cs:174-187 | on the window the registry settles for the structured parser exactly when the last report of the whole stream has tokens, and then resolves as on the whole stream |
| TokenUsage.FlagsExact | packages/codex-runner/CodexRunner.cs:526-547 | failed, its text, and tool use, exactly as the lines say |
| CommandLine.RequireFlagsWereApplied | packages/build123d-launcher/Build123dProcessEngine.cs:200-215 | an engine is believed exactly when it disabled the keys it was given, no fewer and no more |
| CommandLineParse.JobTokensParse | apps/cad-worker/cad_worker/__main__.py:67-101 | the engine's parser gives back the command, the job, the claim and the keys |
| CommandLineParse.DescribeTokensParse | apps/cad-worker/cad_worker/__main__.py:67-101 | the same for `describe` |
| CommandLineTheorems.ProcessValidateUnderstood | packages/build123d-launcher/EngineLaunch.cs:140-152 | through a local interpreter: the same job and claim, and exactly the disabled keys |
| CommandLineTheorems.ProcessBuildUnderstood | packages/build123d-launcher/EngineLaunch.cs:126-130 | the same for a build |
| CommandLineTheorems.ProcessDescribeUnderstood | packages/build123d-launcher/EngineLaunch.cs:115-124 | and for describing |
| CommandLineTheorems.SameKeys | packages/build123d-launcher/Build123dProcessEngine.cs:200-215 | an engine that disables what it understood is believed; one that drops or adds a key is refused |
| CommandLineTheorems.ContainerJobUnderstood | packages/build123d-launcher/EngineLaunch.cs:166-217 | through a container thrown away afterwards, with nothing writable but a scratch directory, no network, the user named, and of the host only the job; the image, and the command with exactly those keys |
| CommandLineTheorems.ContainerDescribeUnderstood | packages/build123d-launcher/EngineLaunch.cs:115-124 | describing is as shut in and mounts nothing |
| CommandLineTheorems.ContainerValidateUnderstood | packages/build123d-launcher/EngineLaunch.cs:140-164 | the claim is mounted and named exactly when the image's name equals no earlier argument |
| CommandLineTheorems.RefusedUnlessRooted | packages/build123d-launcher/EngineLaunch.cs:228-243 | nothing is started exactly when a path is not rooted, with one code |
| CommandLineTheorems.StartsTheEngine | packages/build123d-launcher/EngineLaunch.cs:115-195 | the program started is the container runtime, or the interpreter with the engine's package |
| CommandLineTheorems.SameKeysSameFlags | packages/build123d-launcher/EngineLaunch.cs:219-220 | keys go out in ordinal order, each as often as given: one set of keys, one command line |
| MountParsing.MountedAsGiven | packages/build123d-launcher/EngineLaunch.cs:207-212 | the runtime mounts the path it was given exactly when that has no comma, quote or line end |
| EngineArtifacts.ReadArtifacts | packages/build123d-launcher/Build123dProcessEngine.cs:143-188 | artifacts are returned exactly when every one reported is a bare name on disk with the bytes reported and every kind required is among them; otherwise the first that is not says why |
| ResourceLedger.Ledger.RecordOperations | apps/local-worker/Pipeline.cs:209-244 | the steps are appended in order, laid out from their total before now |
| ResourceLedger.StepsTile | apps/local-worker/Pipeline.cs:215-243 | each step starts where the one before finished and lasts as long as it took; the last ends at the end of the build |
| ResourceLedger.StepOutcomes | apps/local-worker/Pipeline.cs:215-243 | each is recorded with its step's code and outcome, saving and exporting as exports and all else as work on the model |
| ResourceLedger.StepsWellFormed | apps/api/app/contracts.py:742-781 | the API's rules on single events hold of the recorded steps exactly when no step ran backwards or failed while succeeding, its codes are short enough and its key is of the allowed form |
| ResourceLedger.Scope.Dispose | apps/local-worker/ResourceLedger.cs:240-265 | a span is recorded once |
| ResourceLedger.SpanMeasures | apps/local-worker/ResourceLedger.cs:240-265 | exactly one event measures a span: its name and kind, from its start to now, what was last said of it, and a failure of its own when nothing was |
| ResourceLedger.SpanIsWellFormed | apps/local-worker/ResourceLedger.cs:246-249 | a recorded span is a success with no code or a failure with one, and follows the API's rules on single events exactly when its key and codes fit |
| LedgerKeys.KeyInjective | apps/local-worker/ResourceLedger.cs:139-140 | without separators a key tells its job, its attempt and its parts |
| LedgerKeys.KeySpelled | apps/local-worker/ResourceLedger.cs:139-140 | how a key is spelled |
| LedgerKeys.SeparatorMerges | apps/local-worker/ResourceLedger.cs:139-140 | with one, two measurements share a key |
| LedgerKeys.AttemptsNeverCollide | apps/local-worker/ResourceLedger.cs:134-140 | keys of different attempts differ |
| LedgerKeys.AttemptKeysDistinct | apps/local-worker/Pipeline.cs:106-107 | all keys of one attempt are distinct exactly when no file kind repeats, at most one build ran, and it named no operation twice |
| Shipping.Shipper.SendBatch | apps/local-worker/ResourceLedger.cs:325-369 | the bounded retry loop of one batch |
| Shipping.Shipper.ShipAll | apps/local-worker/ResourceLedger.cs:309-323 | all batches in order |
| ShippingTheorems.BatchesPartition | apps/local-worker/ResourceLedger.cs:317-319 | batches are the ledger in order, each within the API's limit |
| ShippingTheorems.ShipOnlyAdds | apps/api/app/ledger/service.py:52-90 | over any link: rows are added and never changed, only this ledger's events, and no key twice |
| ShippingTheorems.ShippedOnce | apps/local-worker/ResourceLedger.cs:309-323 | a ledger reported as shipped is recorded, every event exactly once |
| ShippingTheorems.ShipThrows | apps/local-worker/ResourceLedger.cs:297-302 | whatever it ships, the shipper throws exactly when the link lets some batch time out before it answers it |
| ShippingTheorems.ReplayIsAccepted | apps/api/app/ledger/service.py:55-82 | a resend of a recorded batch is accepted and changes nothing |
| ShippingTheorems.DeliveredExactly | apps/local-worker/ResourceLedger.cs:325-369 | a batch is delivered exactly when the API would take it and one of the sends left is answered after nothing worse than broken connections |
| ShippingTheorems.RecordedExactly | apps/api/app/ledger/service.py:52-90 | a batch is recorded exactly when it may be and some send of it reaches the store, whatever becomes of the replies |
| ShippingTheorems.ShipsExactly | apps/local-worker/ResourceLedger.cs:309-369 | over any link a whole ledger is shipped if and only if the store can take its events one after the other, of two with one key the later a copy of the earlier in a later batch of two hundred, and every batch is answered within three sends |
| LedgerTheorems.RepairedBuildLosesTheLedger | apps/api/app/contracts.py:789-794 | two builds in an attempt name two sessions alike, and a ledger of one batch is refused whole |
| LedgerTheorems.RepairedLedgerIsNotShipped | apps/api/app/contracts.py:789-794 | however long such a ledger, over any link it is never reported as shipped, unless two measurements of one name are the same to the letter |
| LedgerTheorems.RepairedOrderLosesItsLedger | apps/local-worker/Pipeline.cs:793-826 | so an order delivered after a repaired build never files its costs |
| LedgerTheorems.OneBatchArrivesExactly | apps/local-worker/ResourceLedger.cs:309-369 | a first shipment arrives exactly when no name repeats, every event is well formed, and one of three sends is answered |
| EngineReport.EngineSelection.Begin | apps/local-worker/WorkerEngine.cs:105-111 | a cached answer when the cache is for the flags this call's object holds now, or a question under them |
| EngineReport.EngineSelection.Settle | apps/local-worker/WorkerEngine.cs:111-111 | the cache takes the answer for the flags the call asked under |
| EngineReport.EngineSelection.End | apps/local-worker/WorkerEngine.cs:112-113 | the copy beside the cache is of this call's own flags as they are after the wait; its caller is given the cache |
| EngineReportTheorems.AnswersAreCurrentExactly | apps/local-worker/WorkerEngine.cs:105-114 | any interleaving of calls under any flag objects, failures and changes: every answer is current if and only if every call that ends reads the flags the last stored answer was asked under |
| EngineReportTheorems.WholeResumptionsExactly | apps/local-worker/WorkerEngine.cs:105-114 | when no other call comes between storing and copying: every answer is current if and only if each call ends with the flags it asked under |
| EngineReportTheorems.OverlapGivesTheOther | apps/local-worker/WorkerEngine.cs:109-113 | two calls under different flags whose answers arrive together: one caller is given the other's answer |

## Left out

- The geometry kernel: sketching, extruding, revolving, sweeping, lofting, blends, shells, drafts,
  placing and exporting are uninterpreted; each may be refused.
- Reaching to a face, the section a draft leaves, and the `clean` after a combination, which changes
  faces and not material.
- Names of world axes and coordinates inside a sketch: they travel in `detail` fields that only the
  kernel reads. `ThroughAll.Sense` stands for the direction of an extrusion; it is not part of the
  machine's step.
- Refinement.BuildMeansNames: says nothing of a document that consumes one body under two of its names and
  that even by its names cannot be built; both may then fail alike or not.
- NameTheorems.NamesNeverMove: assumes that no two features declare one result, the canonical
  validator's rule; `NameSets.AliasMayShare` shows what happens without it.
- A sketch's spatial sweep path and a revolve's axis are read by the kernel; only the switches they
  need are modelled.
- The canonical validator, the selectors' resolution and the verification of exported files: their
  promises on unique results and on patterns looking back are preconditions where they are needed.
- Fault injection into the first candidate, which no customer's order can reach, and a pipeline
  without an engine, which no real path builds.
- The prompts, the schemas, the routing of models and the bounds on a prompt's length.
- The codes that are repairable and unchanging are parameters of the loops, not tables.
- Engine builds write `output/model.step`, `output/model.stl` and `output/validation-report.json`;
  none of the files modelled is among them.
- The insides of the usage parser for human summaries, which is lossy on the bounded window on
  purpose; it is a parameter of `TokenUsage.Resolve`.
- GateIndependence.NothingDisabledMatters: two keys stop things no call on the kernel shows, a plane
  being built and an extrusion being joined; `GateStructure` states those of the table itself.
- CommandLineParse.JobTokensParse: a value that begins with a dash is refused outright; the engine's
  argument parser accepts a few such values, and none is ever printed, since paths are rooted and
  keys begin with a letter.
- The container runtime's own command line is modelled as far as the options printed here: switches,
  settings that take the next token, the image, and the rest for the engine.
- LedgerKeys.AttemptKeysDistinct: measurements are grouped by what they measure; their order in time
  is not modelled, and no identity depends on it.
- ResourceLedger.SpanMeasures: the length of a span comes from a clock that never runs backwards and its
  ends from the wall clock; here the two are one clock.
- Measurements other than keys, times and outcomes: token counts, processor time, prices, and the model an
  AI run requested, which the API asks of a batch.
- ShippingTheorems.DeliveredExactly: two deliveries of one batch at the same moment are not modelled;
  the store records one batch at a time.
- Leases, heartbeats, quotas, accounts and the web application.
