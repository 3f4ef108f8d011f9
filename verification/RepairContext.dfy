/** The reading an attempt works from: one, or the one that asked the questions, to the end. */
module RepairContext {
  import opened Prelude
  import opened RepairMachine

  /** Everything asked after the reading shows the model one analysis and one set of answers, and
      every check is made against one claim. */
  predicate OneContext(log: seq<Event>, analysis: string, answers: string, claim: Option<string>) {
    forall e :: e in log ==> ContextOf(e, analysis, answers, claim)
  }

  predicate ContextOf(e: Event, analysis: string, answers: string, claim: Option<string>) {
    match e
    case Asked(Reading(_), _) => true
    case Asked(Compiling(a, w), _) => a == analysis && w == answers
    case Asked(Repairing(_, _, a, w), _) => a == analysis && w == answers
    case Checked(_, c, _) => c == claim
    case Built(_, _) => true
  }

  /** The files a job reads from stand as they were. */
  predicate SameInputs(d: Desk, e: Desk) {
    forall path :: path in {Analysis, Answers, ShapeClaim} ==>
      ((path in d.files <==> path in e.files) && (path in d.files ==> e.files[path] == d.files[path]))
  }

  predicate Continues(d: Desk, e: Desk, analysis: string, answers: string, claim: Option<string>) {
    SameInputs(d, e) && (OneContext(d.log, analysis, answers, claim) ==> OneContext(e.log, analysis, answers, claim))
  }

  lemma RepairContinues(o: Outside, rules: Rules, d: Desk, refused: Path, into: Path, code: string,
                        analysis: string, answers: string, claim: Option<string>)
    requires into.Rewrite? || into.BuildRewrite?
    ensures Continues(d, Repair(o, rules, d, refused, into, code, analysis, answers).desk, analysis, answers, claim)
  {
  }

  lemma CheckContinues(o: Outside, d: Desk, candidate: Path, analysis: string, answers: string, claim: Option<string>)
    ensures Continues(d, Check(o, d, candidate, claim).desk, analysis, answers, claim)
  {
  }

  lemma CompileTurnContinues(o: Outside, rules: Rules, d: Desk, candidate: Path, claim: Option<string>,
                             analysis: string, answers: string, attempt: nat)
    ensures Continues(d, CompileTurn(o, rules, d, candidate, claim, analysis, answers, attempt).0.desk,
                      analysis, answers, claim)
  {
    CheckContinues(o, d, candidate, analysis, answers, claim);
    var checked := Check(o, d, candidate, claim);
    if !checked.end.Ready? && CompileMayRepair(rules, checked.end, attempt) {
      RepairContinues(o, rules, checked.desk, candidate, Rewrite(attempt + 1), checked.end.why.code, analysis,
                      answers, claim);
    }
  }

  lemma {:induction false} CompileLoopContinues(o: Outside, rules: Rules, d: Desk, candidate: Path,
                                                claim: Option<string>,
                                                analysis: string, answers: string, attempt: nat)
    ensures Continues(d, CompileLoop(o, rules, d, candidate, claim, analysis, answers, attempt).desk,
                      analysis, answers, claim)
    decreases MAX_COMPILE_REPAIRS - attempt
  {
    CompileTurnContinues(o, rules, d, candidate, claim, analysis, answers, attempt);
    var (turn, again) := CompileTurn(o, rules, d, candidate, claim, analysis, answers, attempt);
    if again {
      CompileLoopContinues(o, rules, turn.desk, Rewrite(attempt + 1), claim, analysis, answers, attempt + 1);
    }
  }

  lemma AnalysisStays(d: Desk, e: Desk)
    requires SameInputs(d, e)
    ensures AnalysisOf(e) == AnalysisOf(d) && AnswersOf(e) == AnswersOf(d) && ClaimFile(e) == ClaimFile(d)
  {
    assert Analysis in {Analysis, Answers, ShapeClaim} && Answers in {Analysis, Answers, ShapeClaim};
    assert ShapeClaim in {Analysis, Answers, ShapeClaim};
  }

  /** Before the compilation the log holds at most the reading. However the compilation ends. */
  lemma CompileKeepsContext(o: Outside, rules: Rules, d: Desk)
    requires forall e :: e in d.log ==> e.Asked? && e.question.Reading?
    ensures var out := Compile(o, rules, d);
            && AnalysisOf(out.desk) == AnalysisOf(d) && AnswersOf(out.desk) == AnswersOf(d)
            && OneContext(out.desk.log, AnalysisOf(d), AnswersOf(d), o.claimOf(AnalysisOf(d)))
            && (out.end.Ready? ==>
                  ClaimFile(out.desk)
                  == if o.claimOf(AnalysisOf(d)).Some? then o.claimOf(AnalysisOf(d)) else ClaimFile(d))
  {
    if Analysis in d.files {
      var analysis, answers, claim := d.files[Analysis], AnswersOf(d), o.claimOf(d.files[Analysis]);
      var reserved := Reserve(rules, WithClaim(d, claim), false).desk;
      var asked := Ask(o, reserved, Compiled, Compiling(analysis, answers));
      var out := CompileLoop(o, rules, asked.desk, Compiled, claim, analysis, answers, 0);
      assert OneContext(asked.desk.log, analysis, answers, claim);
      CompileLoopContinues(o, rules, asked.desk, Compiled, claim, analysis, answers, 0);
      AnalysisStays(asked.desk, out.desk);
    }
  }

  lemma BuildOnceContinues(o: Outside, d: Desk, document: Path, analysis: string, answers: string,
                           claim: Option<string>)
    ensures Continues(d, BuildOnce(o, d, document).desk, analysis, answers, claim)
  {
  }

  lemma Continued(d: Desk, e: Desk, f: Desk, analysis: string, answers: string, claim: Option<string>)
    requires Continues(d, e, analysis, answers, claim) && Continues(e, f, analysis, answers, claim)
    ensures Continues(d, f, analysis, answers, claim)
  {
  }

  lemma RepairAfterBuildContinues(o: Outside, rules: Rules, d: Desk, refused: Path, attempt: nat, code: string)
    ensures Continues(d, RepairAfterBuild(o, rules, d, refused, attempt, code).desk, AnalysisOf(d), AnswersOf(d),
                      ClaimFile(d))
  {
    if ContextReadable(d) {
      var asked := Repair(o, rules, d, refused, BuildRewrite(attempt), code, AnalysisOf(d), AnswersOf(d)).desk;
      RepairContinues(o, rules, d, refused, BuildRewrite(attempt), code, AnalysisOf(d), AnswersOf(d), ClaimFile(d));
      CheckContinues(o, asked, BuildRewrite(attempt), AnalysisOf(d), AnswersOf(d), ClaimFile(d));
      Continued(d, asked, Check(o, asked, BuildRewrite(attempt), ClaimFile(d)).desk, AnalysisOf(d), AnswersOf(d),
                ClaimFile(d));
    }
  }

  lemma BuildTurnContinues(o: Outside, rules: Rules, d: Desk, document: Path, attempt: nat)
    ensures Continues(d, BuildTurn(o, rules, d, document, attempt).0.desk, AnalysisOf(d), AnswersOf(d), ClaimFile(d))
  {
    var built := BuildOnce(o, d, document);
    BuildOnceContinues(o, d, document, AnalysisOf(d), AnswersOf(d), ClaimFile(d));
    if BuildMayRepair(rules, built.end, attempt) {
      RepairAfterBuildContinues(o, rules, built.desk, document, attempt + 1, built.end.why.code);
      Continued(d, built.desk, RepairAfterBuild(o, rules, built.desk, document, attempt + 1, built.end.why.code).desk,
                AnalysisOf(d), AnswersOf(d), ClaimFile(d));
    }
  }

  lemma {:induction false} BuildLoopContinues(o: Outside, rules: Rules, d: Desk, document: Path, attempt: nat)
    ensures Continues(d, BuildLoop(o, rules, d, document, attempt).desk, AnalysisOf(d), AnswersOf(d), ClaimFile(d))
    decreases MAX_BUILD_REPAIRS - attempt
  {
    BuildTurnContinues(o, rules, d, document, attempt);
    var (turn, again) := BuildTurn(o, rules, d, document, attempt);
    if again {
      BuildLoopContinues(o, rules, turn.desk, BuildRewrite(attempt + 1), attempt + 1);
    }
  }

  lemma DrawKeepsContext(o: Outside, rules: Rules, d: Desk, pages: nat)
    requires d.log == []
    ensures var out := Draw(o, rules, d, pages);
            && AnswersOf(out.desk) == AnswersOf(d)
            && OneContext(out.desk.log, AnalysisOf(out.desk), AnswersOf(d), o.claimOf(AnalysisOf(out.desk)))
            && (out.end.Ready? ==>
                  (ReusesReading(o, d) ==> AnalysisOf(out.desk) == d.files[Carried])
                  && ClaimFile(out.desk) == if o.claimOf(AnalysisOf(out.desk)).Some?
                                            then o.claimOf(AnalysisOf(out.desk)) else ClaimFile(d))
  {
    if ReusesReading(o, d) {
      CompileKeepsContext(o, rules, d.(files := d.files[Analysis := d.files[Carried]]));
    } else {
      var reserved := Reserve(rules, d, false).desk;
      CompileKeepsContext(o, rules, Ask(o, reserved, Analysis, Reading(OperatorNote(o, d))).desk);
    }
  }

  lemma CompiledContextReadable(o: Outside, rules: Rules, d: Desk)
    requires Compile(o, rules, d).end.Ready?
    ensures ContextReadable(Compile(o, rules, d).desk)
  {
    var analysis, answers, claim := d.files[Analysis], AnswersOf(d), o.claimOf(d.files[Analysis]);
    var reserved := Reserve(rules, WithClaim(d, claim), false).desk;
    var asked := Ask(o, reserved, Compiled, Compiling(analysis, answers));
    CompileLoopContinues(o, rules, asked.desk, Compiled, claim, analysis, answers, 0);
  }

  /** What a build repair will have to read was read before, and is as it was. */
  lemma DrawnContextReadable(o: Outside, rules: Rules, d: Desk, pages: nat)
    requires Draw(o, rules, d, pages).end.Ready?
    ensures ContextReadable(Draw(o, rules, d, pages).desk)
  {
    if ReusesReading(o, d) {
      CompiledContextReadable(o, rules, d.(files := d.files[Analysis := d.files[Carried]]));
    } else {
      var reserved := Reserve(rules, d, false).desk;
      CompiledContextReadable(o, rules, Ask(o, reserved, Analysis, Reading(OperatorNote(o, d))).desk);
    }
  }

  /** However an attempt ends: every compilation, repair and check of it is made against one reading, one
      set of answers and one claim, provided the reading states a claim, the directory held none from an
      earlier attempt, or nothing was built. The reading is the carried one whenever that is reused. */
  lemma OneReadingPerAttempt(o: Outside, rules: Rules, d: Desk, pages: nat)
    requires d.log == []
    ensures var drawn, e := Draw(o, rules, d, pages), Attempt(o, rules, d, pages).desk;
            && (drawn.end.Ready? && ReusesReading(o, d) ==> AnalysisOf(e) == d.files[Carried])
            && (!drawn.end.Ready? || o.claimOf(AnalysisOf(e)).Some? || ShapeClaim !in d.files ==>
                  OneContext(e.log, AnalysisOf(e), AnswersOf(d), o.claimOf(AnalysisOf(e))))
  {
    DrawKeepsContext(o, rules, d, pages);
    var drawn := Draw(o, rules, d, pages);
    if drawn.end.Ready? {
      BuildLoopContinues(o, rules, drawn.desk, Compiled, 0);
      AnalysisStays(drawn.desk, BuildLoop(o, rules, drawn.desk, Compiled, 0).desk);
    }
  }

  /** The condition is exact: otherwise what a build repair is checked against is the claim an
      earlier attempt left, and the compilation was checked against none. */
  lemma ClaimOfAnEarlierAttempt(o: Outside, rules: Rules, d: Desk, pages: nat)
    requires d.log == [] && Draw(o, rules, d, pages).end.Ready?
    ensures var drawn := Draw(o, rules, d, pages).desk;
            ClaimFile(drawn) == o.claimOf(AnalysisOf(drawn)) <==>
            o.claimOf(AnalysisOf(drawn)).Some? || ShapeClaim !in d.files
  {
    DrawKeepsContext(o, rules, d, pages);
  }

  lemma CompileWaits(o: Outside, rules: Rules, d: Desk)
    ensures Compile(o, rules, d).end.Waiting? <==>
            Analysis in d.files && o.questions(d.files[Analysis]).Some? && o.questions(d.files[Analysis]).value > 0
            && Answers !in d.files
    ensures Compile(o, rules, d).end.Waiting? ==> Compile(o, rules, d).desk == d
  {
    if Analysis in d.files {
      var analysis, answers, claim := d.files[Analysis], AnswersOf(d), o.claimOf(d.files[Analysis]);
      var reserved := Reserve(rules, WithClaim(d, claim), false).desk;
      var asked := Ask(o, reserved, Compiled, Compiling(analysis, answers));
      NeverWaits(o, rules, asked.desk, Compiled, claim, analysis, answers, 0);
    }
  }

  lemma {:induction false} NeverWaits(o: Outside, rules: Rules, d: Desk, candidate: Path, claim: Option<string>,
                                      analysis: string, answers: string, attempt: nat)
    ensures !CompileLoop(o, rules, d, candidate, claim, analysis, answers, attempt).end.Waiting?
    decreases MAX_COMPILE_REPAIRS - attempt
  {
    var (turn, again) := CompileTurn(o, rules, d, candidate, claim, analysis, answers, attempt);
    if again { NeverWaits(o, rules, turn.desk, Rewrite(attempt + 1), claim, analysis, answers, attempt + 1); }
  }

  /** An order waits for its customer only without answers, having paid for the reading alone, and
      a round that brings answers never waits again. */
  lemma WaitsOnceForAnswers(o: Outside, rules: Rules, d: Desk, pages: nat)
    requires d.log == [] && Draw(o, rules, d, pages).end.Waiting?
    ensures Answers !in d.files
    ensures var log := Draw(o, rules, d, pages).desk.log;
            |log| == 1 && log[0] == Asked(Reading(OperatorNote(o, d)), None)
  {
    if ReusesReading(o, d) {
      CompileWaits(o, rules, d.(files := d.files[Analysis := d.files[Carried]]));
    } else {
      var reserved := Reserve(rules, d, false);
      if reserved.end.Ready? {
        CompileWaits(o, rules, Ask(o, reserved.desk, Analysis, Reading(OperatorNote(o, d))).desk);
      }
    }
  }
}
