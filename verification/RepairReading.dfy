/** How an attempt begins: whether the drawing is read again, and what the model is then asked. */
module RepairReading {
  import opened Prelude
  import opened RepairMachine

  /** Asks for a reading or a first compilation. */
  predicate Early(e: Event) { e.Asked? && !e.question.Repairing? }

  /** What has been added to the log since is repairs, checks and builds. */
  predicate AddsRepairs(d: Desk, e: Desk) {
    d.log <= e.log && forall i :: |d.log| <= i < |e.log| ==> !Early(e.log[i])
  }

  lemma AddsOn(d: Desk, e: Desk, f: Desk)
    requires AddsRepairs(d, e) && AddsRepairs(e, f)
    ensures AddsRepairs(d, f)
  {
    forall i | |d.log| <= i < |f.log| ensures !Early(f.log[i]) {
      if i < |e.log| { assert f.log[i] == e.log[i]; }
    }
  }

  lemma RepairAdds(o: Outside, rules: Rules, d: Desk, refused: Path, into: Path, code: string,
                   analysis: string, answers: string)
    ensures AddsRepairs(d, Repair(o, rules, d, refused, into, code, analysis, answers).desk)
  {
  }

  lemma CheckAdds(o: Outside, d: Desk, candidate: Path, claim: Option<string>)
    ensures AddsRepairs(d, Check(o, d, candidate, claim).desk)
  {
  }

  lemma CompileTurnAdds(o: Outside, rules: Rules, d: Desk, candidate: Path, claim: Option<string>,
                        analysis: string, answers: string, attempt: nat)
    ensures AddsRepairs(d, CompileTurn(o, rules, d, candidate, claim, analysis, answers, attempt).0.desk)
  {
    hide Repair, Check;
    var checked := Check(o, d, candidate, claim);
    CheckAdds(o, d, candidate, claim);
    if !checked.end.Ready? && CompileMayRepair(rules, checked.end, attempt) {
      var into, code := Rewrite(attempt + 1), checked.end.why.code;
      RepairAdds(o, rules, checked.desk, candidate, into, code, analysis, answers);
      AddsOn(d, checked.desk, Repair(o, rules, checked.desk, candidate, into, code, analysis, answers).desk);
    }
  }

  lemma {:induction false} CompileLoopAdds(o: Outside, rules: Rules, d: Desk, candidate: Path, claim: Option<string>,
                                           analysis: string, answers: string, attempt: nat)
    ensures AddsRepairs(d, CompileLoop(o, rules, d, candidate, claim, analysis, answers, attempt).desk)
    decreases MAX_COMPILE_REPAIRS - attempt
  {
    hide CompileTurn;
    CompileTurnAdds(o, rules, d, candidate, claim, analysis, answers, attempt);
    var (turn, again) := CompileTurn(o, rules, d, candidate, claim, analysis, answers, attempt);
    if again {
      var into := Rewrite(attempt + 1);
      CompileLoopAdds(o, rules, turn.desk, into, claim, analysis, answers, attempt + 1);
      AddsOn(d, turn.desk, CompileLoop(o, rules, turn.desk, into, claim, analysis, answers, attempt + 1).desk);
    }
  }

  /** The answers there are, or a file that says there are none. */
  function AnswersThere(d: Desk): string {
    if Answers in d.files then d.files[Answers] else "{\"schema_version\":\"0.1.0\",\"answers\":[]}"
  }

  /** The document is compiled from what was read when that parses, leaves no question open, fits, and a
      run is left: with empty files and files too long refused. */
  predicate MayCompile(o: Outside, rules: Rules, d: Desk) {
    && Analysis in d.files && o.questions(d.files[Analysis]).Some?
    && (o.questions(d.files[Analysis]).value == 0 || Answers in d.files)
    && 0 < |d.files[Analysis]| <= 1_000_000 && (Answers in d.files ==> 0 < |d.files[Answers]| <= 256_000)
    && d.runs < rules.maxRuns
  }

  /** Exactly then the model is asked, first of all, to compile it with the answers there are; otherwise
      nothing is asked or checked. */
  lemma CompileStarts(o: Outside, rules: Rules, d: Desk)
    ensures !MayCompile(o, rules, d) ==> Compile(o, rules, d).desk.log == d.log
    ensures MayCompile(o, rules, d) ==>
              var log := Compile(o, rules, d).desk.log;
              && d.log <= log && |log| > |d.log| && log[|d.log|].Asked?
              && log[|d.log|].question == Compiling(d.files[Analysis], AnswersThere(d))
              && forall i :: |d.log| < i < |log| ==> !Early(log[i])
  {
    hide CompileLoop, CompileTurn;
    if MayCompile(o, rules, d) {
      var analysis, answers, claim := d.files[Analysis], AnswersOf(d), o.claimOf(d.files[Analysis]);
      var reserved := Reserve(rules, WithClaim(d, claim), false).desk;
      var asked := Ask(o, reserved, Compiled, Compiling(analysis, answers));
      CompileLoopAdds(o, rules, asked.desk, Compiled, claim, analysis, answers, 0);
    }
  }

  lemma BuildOnceAdds(o: Outside, d: Desk, document: Path)
    ensures AddsRepairs(d, BuildOnce(o, d, document).desk)
  {
  }

  lemma RepairAfterBuildAdds(o: Outside, rules: Rules, d: Desk, refused: Path, attempt: nat, code: string)
    ensures AddsRepairs(d, RepairAfterBuild(o, rules, d, refused, attempt, code).desk)
  {
    hide Repair, Check;
    if ContextReadable(d) {
      var into := BuildRewrite(attempt);
      var asked := Repair(o, rules, d, refused, into, code, AnalysisOf(d), AnswersOf(d)).desk;
      RepairAdds(o, rules, d, refused, into, code, AnalysisOf(d), AnswersOf(d));
      CheckAdds(o, asked, into, ClaimFile(d));
      AddsOn(d, asked, Check(o, asked, into, ClaimFile(d)).desk);
    }
  }

  lemma {:induction false} BuildLoopAdds(o: Outside, rules: Rules, d: Desk, document: Path, attempt: nat)
    ensures AddsRepairs(d, BuildLoop(o, rules, d, document, attempt).desk)
    decreases MAX_BUILD_REPAIRS - attempt
  {
    hide BuildTurn;
    BuildTurnAdds(o, rules, d, document, attempt);
    var (turn, again) := BuildTurn(o, rules, d, document, attempt);
    if again {
      BuildLoopAdds(o, rules, turn.desk, BuildRewrite(attempt + 1), attempt + 1);
      AddsOn(d, turn.desk, BuildLoop(o, rules, turn.desk, BuildRewrite(attempt + 1), attempt + 1).desk);
    }
  }

  lemma BuildTurnAdds(o: Outside, rules: Rules, d: Desk, document: Path, attempt: nat)
    ensures AddsRepairs(d, BuildTurn(o, rules, d, document, attempt).0.desk)
  {
    hide BuildOnce, RepairAfterBuild;
    var built := BuildOnce(o, d, document);
    BuildOnceAdds(o, d, document);
    if BuildMayRepair(rules, built.end, attempt) {
      var code := built.end.why.code;
      RepairAfterBuildAdds(o, rules, built.desk, document, attempt + 1, code);
      AddsOn(d, built.desk, RepairAfterBuild(o, rules, built.desk, document, attempt + 1, code).desk);
    }
  }

  // ----- whether the drawing is read -----------------------------------------------------

  /** What an operator said of the last attempt, if anything. */
  function Said(o: Outside, d: Desk): Option<string> { if Note in d.files then o.noteOf(d.files[Note]) else None }

  /** The reading at hand serves: answers came with it, it says what the part is, and nobody said it
      was wrong. */
  predicate Serves(o: Outside, d: Desk) {
    Answers in d.files && Carried in d.files && o.shapeSettled(d.files[Carried]) && Said(o, d).None?
  }

  predicate Acceptable(d: Desk, pages: nat) {
    1 <= pages <= 10 && (Note in d.files ==> 0 < |d.files[Note]| <= 64_000)
  }

  lemma AttemptAdds(o: Outside, rules: Rules, d: Desk, pages: nat)
    ensures AddsRepairs(Draw(o, rules, d, pages).desk, Attempt(o, rules, d, pages).desk)
  {
    BuildLoopAdds(o, rules, Draw(o, rules, d, pages).desk, Compiled, 0);
  }

  /** An order is refused before anything is asked when it has no page or too many, or a note that is empty
      or too long. Otherwise the drawing is read first of all, once, with what the operator said, unless the
      reading at hand serves; then it is never read, and what is compiled is that reading. */
  lemma ReadsExactlyWhenNeeded(o: Outside, rules: Rules, d: Desk, pages: nat)
    requires d.log == []
    ensures var out := Attempt(o, rules, d, pages); var log := out.desk.log;
            && (!(1 <= pages <= 10) ==> out == Outcome(d, Stopped(ByWorker("DRAWING_INPUT_INVALID"))))
            && (1 <= pages <= 10 && !Acceptable(d, pages) ==>
                  out == Outcome(d, Stopped(ByWorker("DRAWING_CONTEXT_INVALID"))))
            && (Acceptable(d, pages) && !Serves(o, d) && d.runs >= rules.maxRuns ==>
                  out == Outcome(d, Stopped(ByModelRunner("CODEX_BUDGET_EXHAUSTED"))))
            && (Acceptable(d, pages) && !Serves(o, d) && d.runs < rules.maxRuns ==> ReadOnceFirst(log, Said(o, d)))
            && (Acceptable(d, pages) && Serves(o, d) ==> NeverRead(log, d.files[Carried]))
  {
    if Acceptable(d, pages) && Serves(o, d) {
      ServedDraws(o, rules, d, pages);
      AttemptAdds(o, rules, d, pages);
    } else if Acceptable(d, pages) {
      ReadDraws(o, rules, d, pages);
      AttemptAdds(o, rules, d, pages);
    }
  }

  predicate ReadOnceFirst(log: seq<Event>, note: Option<string>) {
    && |log| > 0 && log[0].Asked? && log[0].question == Reading(note)
    && forall i :: 0 < i < |log| && log[i].Asked? ==> !log[i].question.Reading?
  }

  predicate NeverRead(log: seq<Event>, carried: string) {
    forall i :: 0 <= i < |log| && log[i].Asked? ==>
      !log[i].question.Reading? && (log[i].question.Compiling? ==> log[i].question.analysis == carried)
  }

  lemma ServedDraws(o: Outside, rules: Rules, d: Desk, pages: nat)
    requires d.log == [] && Acceptable(d, pages) && Serves(o, d)
    ensures NeverRead(Draw(o, rules, d, pages).desk.log, d.files[Carried])
  {
    var copied := d.(files := d.files[Analysis := d.files[Carried]]);
    CompileStarts(o, rules, copied);
    assert Draw(o, rules, d, pages) == Compile(o, rules, copied);
  }

  lemma ReadDraws(o: Outside, rules: Rules, d: Desk, pages: nat)
    requires d.log == [] && Acceptable(d, pages) && !Serves(o, d)
    ensures d.runs >= rules.maxRuns ==>
              Draw(o, rules, d, pages) == Outcome(d, Stopped(ByModelRunner("CODEX_BUDGET_EXHAUSTED")))
    ensures d.runs < rules.maxRuns ==> ReadOnceFirst(Draw(o, rules, d, pages).desk.log, Said(o, d))
  {
    var reserved := Reserve(rules, d, false).desk;
    CompileStarts(o, rules, Ask(o, reserved, Analysis, Reading(Said(o, d))).desk);
  }

  predicate CompilesOnly(log: seq<Event>, analysis: Option<string>) {
    forall i :: 0 <= i < |log| && log[i].Asked? && log[i].question.Compiling? ==>
      Some(log[i].question.analysis) == analysis
  }

  lemma FirstRead(o: Outside, rules: Rules, d: Desk, pages: nat) returns (read: Outcome)
    requires d.log == [] && Acceptable(d, pages) && !Serves(o, d) && d.runs < rules.maxRuns
    ensures var reply := o.model([], Reading(Said(o, d)));
            && read.desk.log == [Asked(Reading(Said(o, d)), reply.failure)]
            && read.desk.files == (if reply.written.Some? then d.files[Analysis := reply.written.value] else d.files)
            && read.end == Ended(reply.failure)
    ensures Draw(o, rules, d, pages) == if read.end.Ready? then Compile(o, rules, read.desk) else read
  {
    hide Compile;
    read := Ask(o, Reserve(rules, d, false).desk, Analysis, Reading(Said(o, d)));
  }

  lemma CompilesWhatIsThere(o: Outside, rules: Rules, d: Desk)
    requires |d.log| == 1 && d.log[0].Asked? && d.log[0].question.Reading?
    ensures CompilesOnly(Compile(o, rules, d).desk.log, if Analysis in d.files then Some(d.files[Analysis]) else None)
  {
    hide Compile;
    CompileStarts(o, rules, d);
  }

  lemma StillOnly(d: Desk, e: Desk, analysis: Option<string>)
    requires AddsRepairs(d, e) && CompilesOnly(d.log, analysis)
    ensures CompilesOnly(e.log, analysis)
  {
  }

  /** What a reading wrote stays, whether or not it failed. One that fails ends the attempt; otherwise
      what is compiled is what it wrote, or what was there when it wrote nothing. */
  lemma ReadingIsCompiled(o: Outside, rules: Rules, d: Desk, pages: nat)
    requires d.log == [] && Acceptable(d, pages) && !Serves(o, d) && d.runs < rules.maxRuns
    ensures var reply, out := o.model([], Reading(Said(o, d))), Attempt(o, rules, d, pages);
            var files := if reply.written.Some? then d.files[Analysis := reply.written.value] else d.files;
            && (reply.failure.Some? ==> out.end == Stopped(reply.failure.value) && out.desk.files == files)
            && CompilesOnly(out.desk.log, if Analysis in files then Some(files[Analysis]) else None)
  {
    hide Draw, Compile, BuildLoop, AddsRepairs, CompilesOnly;
    var read := FirstRead(o, rules, d, pages);
    var analysis := if Analysis in read.desk.files then Some(read.desk.files[Analysis]) else None;
    CompilesWhatIsThere(o, rules, read.desk);
    assert CompilesOnly(Draw(o, rules, d, pages).desk.log, analysis) by { OnlyRead(read.desk.log, analysis); }
    AttemptAdds(o, rules, d, pages);
    StillOnly(Draw(o, rules, d, pages).desk, Attempt(o, rules, d, pages).desk, analysis);
  }

  lemma OnlyRead(log: seq<Event>, analysis: Option<string>)
    requires |log| == 1 && log[0].Asked? && log[0].question.Reading?
    ensures CompilesOnly(log, analysis)
  {
  }

  // ----- how often it is repaired --------------------------------------------------------

  /** A gate that refuses everything for one repairable reason, and a model that always rewrites. */
  ghost predicate NeverContent(o: Outside, code: string) {
    && (forall log, text, claim :: o.check(log, text, claim) == Some(ByEngine(code)))
    && (forall log, q :: o.model(log, q).failure.None? && o.model(log, q).written.Some?
                         && 0 < |o.model(log, q).written.value| <= 1_000_000)
  }

  lemma RefusedTurn(o: Outside, rules: Rules, d: Desk, candidate: Path, claim: Option<string>, analysis: string,
                    answers: string, attempt: nat, code: string)
    requires NeverContent(o, code) && code in rules.repairable && Readable(d, candidate, 1_000_000)
    requires attempt < 3 && d.repairs < rules.maxRepairRuns && d.runs < rules.maxRuns
    ensures var (turn, again) := CompileTurn(o, rules, d, candidate, claim, analysis, answers, attempt);
            && again && turn.desk.repairs == d.repairs + 1 && turn.desk.runs == d.runs + 1
            && Readable(turn.desk, Rewrite(attempt + 1), 1_000_000)
  {
    var text := d.files[candidate];
    assert o.check(d.log, text, claim) == Some(ByEngine(code));
    var checked := Check(o, d, candidate, claim).desk;
    assert o.model(checked.log, Repairing(text, code, analysis, answers)).written.Some?;
  }

  /** Such a document is handed back three times, and then its refusal stands. */
  lemma {:induction false} HandedBackThrice(o: Outside, rules: Rules, d: Desk, candidate: Path, claim: Option<string>,
                                            analysis: string, answers: string, attempt: nat, code: string)
    requires NeverContent(o, code) && code in rules.repairable && Readable(d, candidate, 1_000_000)
    requires attempt <= 3 && d.repairs + (3 - attempt) <= rules.maxRepairRuns
    requires d.runs + (3 - attempt) <= rules.maxRuns
    ensures var out := CompileLoop(o, rules, d, candidate, claim, analysis, answers, attempt);
            out.end == Stopped(ByEngine(code)) && out.desk.repairs == d.repairs + (3 - attempt)
    decreases 3 - attempt
  {
    assert o.check(d.log, d.files[candidate], claim) == Some(ByEngine(code));
    if attempt < 3 {
      RefusedTurn(o, rules, d, candidate, claim, analysis, answers, attempt, code);
      var (turn, again) := CompileTurn(o, rules, d, candidate, claim, analysis, answers, attempt);
      HandedBackThrice(o, rules, turn.desk, Rewrite(attempt + 1), claim, analysis, answers, attempt + 1, code);
    }
  }
}
