/** A drawing order from reading to build, as the worker runs it: two bounded repair loops over a
    model and an engine nobody here can see into, with documents kept in files. */
module RepairMachine {
  import opened Prelude

  /** The exceptions that carry a code, and everything else. */
  datatype Thrown = ByEngine(code: string) | ByWorker(code: string) | ByModelRunner(code: string) | Untyped

  /** Files of a job, below its directory. Their texts are read byte by byte. */
  datatype Path =
    | JobDocument                // cad-ir.json, what the engine builds
    | Compiled                   // output/cad-ir.json, what is uploaded
    | Rewrite(n: nat)            // output/cad-ir-repair-n.json
    | BuildRewrite(n: nat)       // output/cad-ir-build-repair-n.json
    | Analysis | ShapeClaim      // output/drawing-analysis.json, output/shape-claim.json
    | Answers | Carried | Note   // context/user-answers.json, drawing-analysis.json, operator-note.json

  /** What the model is asked for. */
  datatype Question =
    | Reading(note: Option<string>)
    | Compiling(analysis: string, answers: string)
    | Repairing(refused: string, code: string, analysis: string, answers: string)

  /** Everything done outside the worker, in order, with what came of it. */
  datatype Event =
    | Asked(question: Question, failure: Option<Thrown>)
    | Checked(text: string, claim: Option<string>, failure: Option<Thrown>)
    | Built(text: string, failure: Option<Thrown>)

  datatype Reply = Reply(written: Option<string>, failure: Option<Thrown>)

  /** The world outside: any answer may depend on all that happened before. A model run may leave
      a file behind, or none, whether or not it fails. */
  datatype Outside = Outside(
    model: (seq<Event>, Question) -> Reply,
    check: (seq<Event>, string, Option<string>) -> Option<Thrown>,
    build: (seq<Event>, string) -> Option<Thrown>,
    // how the worker reads the files it is given
    questions: string -> Option<nat>,
    shapeSettled: string -> bool,
    claimOf: string -> Option<string>,
    noteOf: string -> Option<string>)

  datatype Rules = Rules(repairable: set<string>, unchanging: set<string>, maxRuns: nat, maxRepairRuns: nat)

  const MAX_COMPILE_REPAIRS: nat := 3
  const MAX_BUILD_REPAIRS: nat := 2
  const BUDGET_EXHAUSTED := "CODEX_BUDGET_EXHAUSTED"
  const CONTEXT_INVALID := "DRAWING_CONTEXT_INVALID"
  const NO_ANSWERS := "{\"schema_version\":\"0.1.0\",\"answers\":[]}"

  /** The order's files, what it has reserved of its budget, and what has happened. */
  datatype Desk = Desk(files: map<Path, string>, runs: nat, repairs: nat, log: seq<Event>)

  datatype End = Ready | Waiting | Stopped(why: Thrown)

  datatype Outcome = Outcome(desk: Desk, end: End)

  function Ended(failure: Option<Thrown>): End {
    match failure case None => Ready case Some(e) => Stopped(e)
  }

  // ----- one call ------------------------------------------------------------------------

  /** One run of the model is reserved before anything is read for it. */
  function Reserve(rules: Rules, d: Desk, repair: bool): Outcome {
    if d.runs >= rules.maxRuns || (repair && d.repairs >= rules.maxRepairRuns)
    then Outcome(d, Stopped(ByModelRunner(BUDGET_EXHAUSTED)))
    else Outcome(d.(runs := d.runs + 1, repairs := if repair then d.repairs + 1 else d.repairs), Ready)
  }

  /** A file the model is shown must be there, not empty and not too large. */
  predicate Readable(d: Desk, path: Path, bytes: nat) {
    path in d.files && 0 < |d.files[path]| <= bytes
  }

  function Ask(o: Outside, d: Desk, into: Path, question: Question): Outcome {
    var reply := o.model(d.log, question);
    var files := if reply.written.Some? then d.files[into := reply.written.value] else d.files;
    Outcome(d.(files := files, log := d.log + [Asked(question, reply.failure)]), Ended(reply.failure))
  }

  /** The trusted gate, asked about a copy of the candidate. */
  function Check(o: Outside, d: Desk, candidate: Path, claim: Option<string>): Outcome {
    if candidate !in d.files then Outcome(d, Stopped(Untyped))
    else
      var text := d.files[candidate];
      var failure := o.check(d.log, text, claim);
      Outcome(d.(log := d.log + [Checked(text, claim, failure)]), Ended(failure))
  }

  /** The job handler turns the engine's refusal into the worker's own. */
  function Handled(failure: Option<Thrown>): Option<Thrown> {
    match failure case Some(ByEngine(code)) => Some(ByWorker(code)) case other => other
  }

  function BuildOnce(o: Outside, d: Desk, document: Path): Outcome {
    if document !in d.files then Outcome(d, Stopped(Untyped))
    else
      var text := d.files[document];
      var failure := Handled(o.build(d.log, text));
      Outcome(d.(files := d.files[JobDocument := text], log := d.log + [Built(text, failure)]), Ended(failure))
  }

  /** Hand a refused document back to the model. */
  function Repair(o: Outside, rules: Rules, d: Desk, refused: Path, into: Path, code: string,
                  analysis: string, answers: string): Outcome
  {
    var reserved := Reserve(rules, d, true);
    if reserved.end.Stopped? then reserved
    else if !Readable(d, refused, 1_000_000) then Outcome(reserved.desk, Stopped(ByWorker(CONTEXT_INVALID)))
    else Ask(o, reserved.desk, into, Repairing(d.files[refused], code, analysis, answers))
  }

  // ----- the compile loop ----------------------------------------------------------------

  predicate CompileMayRepair(rules: Rules, end: End, attempt: nat) {
    end.Stopped? && end.why.ByEngine? && attempt < MAX_COMPILE_REPAIRS && end.why.code in rules.repairable
  }

  function Accept(d: Desk, candidate: Path): Desk {
    if candidate != Compiled && candidate in d.files then d.(files := d.files[Compiled := d.files[candidate]]) else d
  }

  /** One turn: the gate, and when it refuses the document, the rewrite that goes round again. */
  function CompileTurn(o: Outside, rules: Rules, d: Desk, candidate: Path, claim: Option<string>,
                       analysis: string, answers: string, attempt: nat): (r: (Outcome, bool))
    ensures r.1 ==> attempt < MAX_COMPILE_REPAIRS
  {
    var checked := Check(o, d, candidate, claim);
    if checked.end.Ready? then (Outcome(Accept(checked.desk, candidate), Ready), false)
    else if !CompileMayRepair(rules, checked.end, attempt) then (checked, false)
    else
      var asked := Repair(o, rules, checked.desk, candidate, Rewrite(attempt + 1), checked.end.why.code, analysis,
                          answers);
      (asked, asked.end.Ready?)
  }

  function CompileLoop(o: Outside, rules: Rules, d: Desk, candidate: Path, claim: Option<string>,
                       analysis: string, answers: string, attempt: nat): Outcome
    decreases MAX_COMPILE_REPAIRS - attempt
  {
    var (turn, again) := CompileTurn(o, rules, d, candidate, claim, analysis, answers, attempt);
    if again then CompileLoop(o, rules, turn.desk, Rewrite(attempt + 1), claim, analysis, answers, attempt + 1)
    else turn
  }

  function AnswersOf(d: Desk): string {
    if Answers in d.files then d.files[Answers] else NO_ANSWERS
  }

  function WithClaim(d: Desk, claim: Option<string>): Desk {
    if claim.Some? then d.(files := d.files[ShapeClaim := claim.value]) else d
  }

  /** Ask the customer, or compile what was read and check it. */
  function Compile(o: Outside, rules: Rules, d: Desk): Outcome {
    if Analysis !in d.files || o.questions(d.files[Analysis]).None? then Outcome(d, Stopped(Untyped))
    else if o.questions(d.files[Analysis]).value > 0 && Answers !in d.files then Outcome(d, Waiting)
    else if (Answers in d.files && !Readable(d, Answers, 256_000)) || !Readable(d, Analysis, 1_000_000)
    then Outcome(d, Stopped(ByWorker(CONTEXT_INVALID)))
    else
      var analysis, answers, claim := d.files[Analysis], AnswersOf(d), o.claimOf(d.files[Analysis]);
      var reserved := Reserve(rules, WithClaim(d, claim), false);
      if reserved.end.Stopped? then reserved
      else
        var asked := Ask(o, reserved.desk, Compiled, Compiling(analysis, answers));
        if asked.end.Ready? then CompileLoop(o, rules, asked.desk, Compiled, claim, analysis, answers, 0)
        else asked
  }

  // ----- the reading ---------------------------------------------------------------------

  function OperatorNote(o: Outside, d: Desk): Option<string> {
    if Note in d.files then o.noteOf(d.files[Note]) else None
  }

  /** The reading that asked the questions serves the round that answers them, unless it could not
      say what the part is or an operator said it was wrong. */
  predicate ReusesReading(o: Outside, d: Desk) {
    && Answers in d.files && Carried in d.files
    && o.shapeSettled(d.files[Carried])
    && OperatorNote(o, d).None?
  }

  function Draw(o: Outside, rules: Rules, d: Desk, pages: nat): Outcome {
    if !(1 <= pages <= 10) then Outcome(d, Stopped(ByWorker("DRAWING_INPUT_INVALID")))
    else if Note in d.files && !Readable(d, Note, 64_000) then Outcome(d, Stopped(ByWorker(CONTEXT_INVALID)))
    else if ReusesReading(o, d) then Compile(o, rules, d.(files := d.files[Analysis := d.files[Carried]]))
    else
      var reserved := Reserve(rules, d, false);
      if reserved.end.Stopped? then reserved
      else
        var read := Ask(o, reserved.desk, Analysis, Reading(OperatorNote(o, d)));
        if read.end.Ready? then Compile(o, rules, read.desk) else read
  }

  // ----- the build loop ------------------------------------------------------------------

  predicate BuildMayRepair(rules: Rules, end: End, attempt: nat) {
    end.Stopped? && end.why.ByWorker? && attempt < MAX_BUILD_REPAIRS && end.why.code in rules.repairable
  }

  /** What a repair after a build shows the model is read again from the job's files. */
  predicate ContextReadable(d: Desk) {
    (Analysis in d.files ==> Readable(d, Analysis, 1_000_000)) && (Answers in d.files ==> Readable(d, Answers, 256_000))
  }

  function AnalysisOf(d: Desk): string {
    if Analysis in d.files then d.files[Analysis] else "{}"
  }

  function ClaimFile(d: Desk): Option<string> {
    if ShapeClaim in d.files then Some(d.files[ShapeClaim]) else None
  }

  function RepairAfterBuild(o: Outside, rules: Rules, d: Desk, refused: Path, attempt: nat, code: string): Outcome {
    if !ContextReadable(d) then Outcome(d, Stopped(ByWorker(CONTEXT_INVALID)))
    else
      var asked := Repair(o, rules, d, refused, BuildRewrite(attempt), code, AnalysisOf(d), AnswersOf(d));
      if asked.end.Ready? then Check(o, asked.desk, BuildRewrite(attempt), ClaimFile(d)) else asked
  }

  function BuildTurn(o: Outside, rules: Rules, d: Desk, document: Path, attempt: nat): (r: (Outcome, bool))
    ensures r.1 ==> attempt < MAX_BUILD_REPAIRS
  {
    var built := BuildOnce(o, d, document);
    if !BuildMayRepair(rules, built.end, attempt) then (built, false)
    else
      var repaired := RepairAfterBuild(o, rules, built.desk, document, attempt + 1, built.end.why.code);
      (repaired, repaired.end.Ready?)
  }

  function BuildLoop(o: Outside, rules: Rules, d: Desk, document: Path, attempt: nat): Outcome
    decreases MAX_BUILD_REPAIRS - attempt
  {
    var (turn, again) := BuildTurn(o, rules, d, document, attempt);
    if again then BuildLoop(o, rules, turn.desk, BuildRewrite(attempt + 1), attempt + 1) else turn
  }

  /** One attempt at an order. */
  function Attempt(o: Outside, rules: Rules, d: Desk, pages: nat): Outcome {
    var drawn := Draw(o, rules, d, pages);
    if drawn.end.Ready? then BuildLoop(o, rules, drawn.desk, Compiled, 0) else drawn
  }

  // ----- what the API is told ------------------------------------------------------------

  function CodeOf(e: Thrown): Option<string> {
    match e
    case ByEngine(code) => Some(code)
    case ByWorker(code) => Some(code)
    case ByModelRunner(code) => Some(code)
    case Untyped => None
  }

  datatype Report = Silent | Final(code: string) | Paused(code: string)

  /** Nothing is said of a failure without a code, nor of one that another attempt may not meet. */
  function ReportOf(rules: Rules, e: Thrown, attempt: nat, maxAttempts: nat): Report {
    match CodeOf(e)
    case None => Silent
    case Some(code) =>
      if code in rules.unchanging then Paused(code)
      else if code in rules.repairable || attempt >= maxAttempts then Final(code)
      else Silent
  }
}
