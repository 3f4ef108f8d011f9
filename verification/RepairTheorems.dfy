/** What holds over a whole attempt at an order, whatever the model and the engine answer. */
module RepairTheorems {
  import opened Prelude
  import opened RepairMachine

  // ----- nothing unchecked is built, nothing is repaired without cause -------------------

  predicate Accepts(before: Option<Event>, text: string) {
    before.Some? && before.value.Checked? && before.value.text == text && before.value.failure.None?
  }

  /** The document was refused, by the gate or by the build, with this code. */
  predicate Refuses(before: Option<Event>, text: string, code: string) {
    before.Some? &&
    (match before.value
     case Checked(t, _, failure) => t == text && failure == Some(ByEngine(code))
     case Built(t, failure) => t == text && failure == Some(ByWorker(code))
     case Asked(_, _) => false)
  }

  /** What must have happened immediately before an event: nothing is survived but a refusal that
      the model is then asked to repair. */
  predicate Follows(rules: Rules, before: Option<Event>, e: Event) {
    match e
    case Built(text, _) => Accepts(before, text)
    case Asked(Repairing(refused, code, _, _), _) => code in rules.repairable && Refuses(before, refused, code)
    case _ => before.Some? ==> before.value.failure.None?
  }

  function Before(log: seq<Event>, i: nat): Option<Event>
    requires i <= |log|
  {
    if i == 0 then None else Some(log[i - 1])
  }

  function Last(d: Desk): Option<Event> { Before(d.log, |d.log|) }

  predicate Lawful(rules: Rules, log: seq<Event>) {
    forall i :: 0 <= i < |log| ==> Follows(rules, Before(log, i), log[i])
  }

  /** Nothing has gone wrong, or what went wrong has been answered. */
  predicate Calm(d: Desk) { Last(d).Some? ==> Last(d).value.failure.None? }

  /** Failures the worker raises itself: nothing left to spend, or nothing fit to read. */
  predicate RaisedByWorker(e: Thrown) {
    e in {ByModelRunner(BUDGET_EXHAUSTED), ByWorker(CONTEXT_INVALID), ByWorker("DRAWING_INPUT_INVALID"), Untyped}
  }

  /** The failure that ends an attempt is the last one raised. */
  predicate Surfaced(out: Outcome) {
    match out.end
    case Stopped(e) => RaisedByWorker(e) || (Last(out.desk).Some? && Last(out.desk).value.failure == Some(e))
    case _ => Calm(out.desk)
  }

  predicate Proper(rules: Rules, out: Outcome) { Lawful(rules, out.desk.log) && Surfaced(out) }

  lemma LawfulNext(rules: Rules, d: Desk, e: Event)
    requires Lawful(rules, d.log) && Follows(rules, Last(d), e)
    ensures Lawful(rules, d.log + [e])
  {
    var log := d.log + [e];
    forall i | 0 <= i < |log| ensures Follows(rules, Before(log, i), log[i]) {
      assert Before(log, i) == Before(d.log, i);
    }
  }

  predicate AcceptedAt(d: Desk, path: Path) {
    path in d.files && Accepts(Last(d), d.files[path])
  }

  lemma AskLawful(o: Outside, rules: Rules, d: Desk, into: Path, question: Question)
    requires Lawful(rules, d.log)
    requires if question.Repairing?
             then question.code in rules.repairable && Refuses(Last(d), question.refused, question.code)
             else Calm(d)
    ensures Proper(rules, Ask(o, d, into, question))
  {
    LawfulNext(rules, d, Asked(question, o.model(d.log, question).failure));
  }

  lemma CheckLawful(o: Outside, rules: Rules, d: Desk, candidate: Path, claim: Option<string>)
    requires Lawful(rules, d.log) && Calm(d)
    ensures Proper(rules, Check(o, d, candidate, claim))
    ensures Check(o, d, candidate, claim).end.Ready? ==> AcceptedAt(Check(o, d, candidate, claim).desk, candidate)
  {
    if candidate in d.files {
      LawfulNext(rules, d, Checked(d.files[candidate], claim, o.check(d.log, d.files[candidate], claim)));
    }
  }

  lemma RepairLawful(o: Outside, rules: Rules, d: Desk, refused: Path, into: Path, code: string,
                     analysis: string, answers: string)
    requires Lawful(rules, d.log) && code in rules.repairable
    requires refused in d.files && Refuses(Last(d), d.files[refused], code)
    ensures Proper(rules, Repair(o, rules, d, refused, into, code, analysis, answers))
  {
    var reserved := Reserve(rules, d, true);
    if !reserved.end.Stopped? && Readable(d, refused, 1_000_000) {
      AskLawful(o, rules, reserved.desk, into, Repairing(d.files[refused], code, analysis, answers));
    }
  }

  lemma CompileTurnLawful(o: Outside, rules: Rules, d: Desk, candidate: Path, claim: Option<string>,
                          analysis: string, answers: string, attempt: nat)
    requires Lawful(rules, d.log) && Calm(d)
    ensures var (turn, again) := CompileTurn(o, rules, d, candidate, claim, analysis, answers, attempt);
            Proper(rules, turn) && (!again && turn.end.Ready? ==> AcceptedAt(turn.desk, Compiled))
  {
    CheckLawful(o, rules, d, candidate, claim);
    var checked := Check(o, d, candidate, claim);
    if !checked.end.Ready? && CompileMayRepair(rules, checked.end, attempt) && candidate in d.files {
      RepairLawful(o, rules, checked.desk, candidate, Rewrite(attempt + 1), checked.end.why.code, analysis, answers);
    }
  }

  lemma {:induction false} CompileLoopLawful(o: Outside, rules: Rules, d: Desk, candidate: Path, claim: Option<string>,
                                             analysis: string, answers: string, attempt: nat)
    requires Lawful(rules, d.log) && Calm(d)
    ensures var out := CompileLoop(o, rules, d, candidate, claim, analysis, answers, attempt);
            Proper(rules, out) && !out.end.Waiting? && (out.end.Ready? ==> AcceptedAt(out.desk, Compiled))
    decreases MAX_COMPILE_REPAIRS - attempt
  {
    CompileTurnLawful(o, rules, d, candidate, claim, analysis, answers, attempt);
    var (turn, again) := CompileTurn(o, rules, d, candidate, claim, analysis, answers, attempt);
    if again {
      CompileLoopLawful(o, rules, turn.desk, Rewrite(attempt + 1), claim, analysis, answers, attempt + 1);
    }
  }

  lemma CompileLawful(o: Outside, rules: Rules, d: Desk)
    requires Lawful(rules, d.log) && Calm(d)
    ensures Proper(rules, Compile(o, rules, d))
    ensures Compile(o, rules, d).end.Ready? ==> AcceptedAt(Compile(o, rules, d).desk, Compiled)
  {
    if Analysis in d.files {
      var analysis, answers, claim := d.files[Analysis], AnswersOf(d), o.claimOf(d.files[Analysis]);
      var reserved := Reserve(rules, WithClaim(d, claim), false).desk;
      AskLawful(o, rules, reserved, Compiled, Compiling(analysis, answers));
      var asked := Ask(o, reserved, Compiled, Compiling(analysis, answers));
      if asked.end.Ready? { CompileLoopLawful(o, rules, asked.desk, Compiled, claim, analysis, answers, 0); }
    }
  }

  lemma DrawLawful(o: Outside, rules: Rules, d: Desk, pages: nat)
    requires Lawful(rules, d.log) && Calm(d)
    ensures Proper(rules, Draw(o, rules, d, pages))
    ensures Draw(o, rules, d, pages).end.Ready? ==> AcceptedAt(Draw(o, rules, d, pages).desk, Compiled)
  {
    if ReusesReading(o, d) {
      CompileLawful(o, rules, d.(files := d.files[Analysis := d.files[Carried]]));
    } else {
      var reserved := Reserve(rules, d, false).desk;
      AskLawful(o, rules, reserved, Analysis, Reading(OperatorNote(o, d)));
      var read := Ask(o, reserved, Analysis, Reading(OperatorNote(o, d)));
      if read.end.Ready? { CompileLawful(o, rules, read.desk); }
    }
  }

  lemma BuildOnceLawful(o: Outside, rules: Rules, d: Desk, document: Path)
    requires Lawful(rules, d.log) && AcceptedAt(d, document)
    ensures Proper(rules, BuildOnce(o, d, document))
  {
    LawfulNext(rules, d, Built(d.files[document], Handled(o.build(d.log, d.files[document]))));
  }

  lemma RepairAfterBuildLawful(o: Outside, rules: Rules, d: Desk, refused: Path, attempt: nat, code: string)
    requires Lawful(rules, d.log) && code in rules.repairable
    requires refused in d.files && Refuses(Last(d), d.files[refused], code)
    ensures var out := RepairAfterBuild(o, rules, d, refused, attempt, code);
            Proper(rules, out) && (out.end.Ready? ==> AcceptedAt(out.desk, BuildRewrite(attempt)))
  {
    if ContextReadable(d) {
      RepairLawful(o, rules, d, refused, BuildRewrite(attempt), code, AnalysisOf(d), AnswersOf(d));
      var asked := Repair(o, rules, d, refused, BuildRewrite(attempt), code, AnalysisOf(d), AnswersOf(d));
      if asked.end.Ready? { CheckLawful(o, rules, asked.desk, BuildRewrite(attempt), ClaimFile(d)); }
    }
  }

  lemma BuildTurnLawful(o: Outside, rules: Rules, d: Desk, document: Path, attempt: nat)
    requires Lawful(rules, d.log) && AcceptedAt(d, document) && document != JobDocument
    ensures var (turn, again) := BuildTurn(o, rules, d, document, attempt);
            Proper(rules, turn) && (again ==> AcceptedAt(turn.desk, BuildRewrite(attempt + 1)))
  {
    BuildOnceLawful(o, rules, d, document);
    var built := BuildOnce(o, d, document);
    if BuildMayRepair(rules, built.end, attempt) {
      RepairAfterBuildLawful(o, rules, built.desk, document, attempt + 1, built.end.why.code);
    }
  }

  lemma {:induction false} BuildLoopLawful(o: Outside, rules: Rules, d: Desk, document: Path, attempt: nat)
    requires Lawful(rules, d.log) && AcceptedAt(d, document) && document != JobDocument
    ensures Proper(rules, BuildLoop(o, rules, d, document, attempt))
    decreases MAX_BUILD_REPAIRS - attempt
  {
    BuildTurnLawful(o, rules, d, document, attempt);
    var (turn, again) := BuildTurn(o, rules, d, document, attempt);
    if again {
      BuildLoopLawful(o, rules, turn.desk, BuildRewrite(attempt + 1), attempt + 1);
    }
  }

  /** Over a whole attempt: what is built is exactly what the gate has just accepted, with nothing
      written in between; the model repairs exactly the document that has just been refused, for a
      repairable code; nothing else that fails is survived; and the last failure is the one that
      surfaces. */
  lemma OnlyAcceptedIsBuilt(o: Outside, rules: Rules, d: Desk, pages: nat)
    requires d.log == []
    ensures Proper(rules, Attempt(o, rules, d, pages))
  {
    DrawLawful(o, rules, d, pages);
    var drawn := Draw(o, rules, d, pages);
    if drawn.end.Ready? { BuildLoopLawful(o, rules, drawn.desk, Compiled, 0); }
  }
}
