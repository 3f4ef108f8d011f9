/** The loops as the worker runs them: one object whose files, budget and log they overwrite. */
module RepairWorker {
  import opened Prelude
  import opened RepairMachine

  class Worker {
    const outside: Outside
    const rules: Rules
    var files: map<Path, string>
    var totalRuns: nat
    var repairRuns: nat
    var log: seq<Event>

    constructor (outside: Outside, rules: Rules, files: map<Path, string>)
      ensures this.outside == outside && this.rules == rules
      ensures Now() == Desk(files, 0, 0, [])
    {
      this.outside, this.rules, this.files := outside, rules, files;
      totalRuns, repairRuns, log := 0, 0, [];
    }

    function Now(): Desk
      reads this
    {
      Desk(files, totalRuns, repairRuns, log)
    }

    method ReserveRun(repair: bool) returns (end: End)
      modifies this
      ensures Outcome(Now(), end) == Reserve(rules, old(Now()), repair)
    {
      if totalRuns >= rules.maxRuns || (repair && repairRuns >= rules.maxRepairRuns) {
        return Stopped(ByModelRunner(BUDGET_EXHAUSTED));
      }
      totalRuns := totalRuns + 1;
      if repair {
        repairRuns := repairRuns + 1;
      }
      end := Ready;
    }

    method RunStage(into: Path, question: Question) returns (end: End)
      modifies this
      ensures Outcome(Now(), end) == Ask(outside, old(Now()), into, question)
    {
      var reply := outside.model(log, question);
      if reply.written.Some? {
        files := files[into := reply.written.value];
      }
      log := log + [Asked(question, reply.failure)];
      end := Ended(reply.failure);
    }

    method Validate(candidate: Path, claim: Option<string>) returns (end: End)
      modifies this
      ensures Outcome(Now(), end) == Check(outside, old(Now()), candidate, claim)
    {
      if candidate !in files {
        return Stopped(Untyped);
      }
      var failure := outside.check(log, files[candidate], claim);
      log := log + [Checked(files[candidate], claim, failure)];
      end := Ended(failure);
    }

    method AskForRepair(refused: Path, into: Path, code: string, analysis: string, answers: string)
        returns (end: End)
      modifies this
      ensures Outcome(Now(), end) == Repair(outside, rules, old(Now()), refused, into, code, analysis, answers)
    {
      end := ReserveRun(true);
      if end.Stopped? {
        return;
      }
      if !Readable(Now(), refused, 1_000_000) {
        return Stopped(ByWorker(CONTEXT_INVALID));
      }
      end := RunStage(into, Repairing(files[refused], code, analysis, answers));
    }

    method ValidateOrRepair(candidate: Path, claim: Option<string>, analysis: string, answers: string, attempt: nat)
        returns (end: End, again: bool)
      modifies this
      ensures (Outcome(Now(), end), again)
           == CompileTurn(outside, rules, old(Now()), candidate, claim, analysis, answers, attempt)
    {
      end := Validate(candidate, claim);
      again := false;
      if end.Ready? {
        if candidate != Compiled {
          files := files[Compiled := files[candidate]];
        }
      } else if CompileMayRepair(rules, end, attempt) {
        end := AskForRepair(candidate, Rewrite(attempt + 1), end.why.code, analysis, answers);
        again := end.Ready?;
      }
    }

    method CompileAndRepair(claim: Option<string>, analysis: string, answers: string) returns (end: End)
      modifies this
      ensures Outcome(Now(), end) == CompileLoop(outside, rules, old(Now()), Compiled, claim, analysis, answers, 0)
    {
      var candidate, attempt := Compiled, 0;
      while true
        invariant attempt <= MAX_COMPILE_REPAIRS
        invariant CompileLoop(outside, rules, old(Now()), Compiled, claim, analysis, answers, 0)
               == CompileLoop(outside, rules, Now(), candidate, claim, analysis, answers, attempt)
        decreases MAX_COMPILE_REPAIRS - attempt
      {
        var again;
        end, again := ValidateOrRepair(candidate, claim, analysis, answers, attempt);
        if !again {
          return;
        }
        candidate, attempt := Rewrite(attempt + 1), attempt + 1;
      }
    }

    method CompileReading() returns (end: End)
      modifies this
      ensures Outcome(Now(), end) == Compile(outside, rules, old(Now()))
    {
      if Analysis !in files || outside.questions(files[Analysis]).None? {
        return Stopped(Untyped);
      }
      if outside.questions(files[Analysis]).value > 0 && Answers !in files {
        return Waiting;
      }
      if (Answers in files && !Readable(Now(), Answers, 256_000)) || !Readable(Now(), Analysis, 1_000_000) {
        return Stopped(ByWorker(CONTEXT_INVALID));
      }
      var analysis, answers := files[Analysis], AnswersOf(Now());
      var claim := outside.claimOf(analysis);
      if claim.Some? {
        files := files[ShapeClaim := claim.value];
      }
      end := ReserveRun(false);
      if end.Stopped? {
        return;
      }
      end := RunStage(Compiled, Compiling(analysis, answers));
      if end.Ready? {
        end := CompileAndRepair(claim, analysis, answers);
      }
    }

    method ReadDrawing(pages: nat) returns (end: End)
      modifies this
      ensures Outcome(Now(), end) == Draw(outside, rules, old(Now()), pages)
    {
      if !(1 <= pages <= 10) {
        return Stopped(ByWorker("DRAWING_INPUT_INVALID"));
      }
      if Note in files && !Readable(Now(), Note, 64_000) {
        return Stopped(ByWorker(CONTEXT_INVALID));
      }
      var note := OperatorNote(outside, Now());
      if ReusesReading(outside, Now()) {
        files := files[Analysis := files[Carried]];
      } else {
        end := ReserveRun(false);
        if end.Stopped? {
          return;
        }
        end := RunStage(Analysis, Reading(note));
        if !end.Ready? {
          return;
        }
      }
      end := CompileReading();
    }

    method RepairRefusedBuild(refused: Path, attempt: nat, code: string) returns (end: End)
      modifies this
      ensures Outcome(Now(), end) == RepairAfterBuild(outside, rules, old(Now()), refused, attempt, code)
    {
      if !ContextReadable(Now()) {
        return Stopped(ByWorker(CONTEXT_INVALID));
      }
      var analysis, answers, claim := AnalysisOf(Now()), AnswersOf(Now()), ClaimFile(Now());
      end := AskForRepair(refused, BuildRewrite(attempt), code, analysis, answers);
      if end.Ready? {
        end := Validate(BuildRewrite(attempt), claim);
      }
    }

    method RunBuild(document: Path) returns (end: End)
      modifies this
      ensures Outcome(Now(), end) == BuildOnce(outside, old(Now()), document)
    {
      if document !in files {
        return Stopped(Untyped);
      }
      var failure := Handled(outside.build(log, files[document]));
      log := log + [Built(files[document], failure)];
      files := files[JobDocument := files[document]];
      end := Ended(failure);
    }

    method BuildOrRepair(document: Path, attempt: nat) returns (end: End, again: bool)
      modifies this
      ensures (Outcome(Now(), end), again) == BuildTurn(outside, rules, old(Now()), document, attempt)
    {
      end := RunBuild(document);
      again := false;
      if BuildMayRepair(rules, end, attempt) {
        end := RepairRefusedBuild(document, attempt + 1, end.why.code);
        again := end.Ready?;
      }
    }

    method BuildWithRepairs() returns (end: End)
      modifies this
      ensures Outcome(Now(), end) == BuildLoop(outside, rules, old(Now()), Compiled, 0)
    {
      var document, attempt := Compiled, 0;
      while true
        invariant attempt <= MAX_BUILD_REPAIRS
        invariant BuildLoop(outside, rules, old(Now()), Compiled, 0)
               == BuildLoop(outside, rules, Now(), document, attempt)
        decreases MAX_BUILD_REPAIRS - attempt
      {
        var again;
        end, again := BuildOrRepair(document, attempt);
        if !again {
          return;
        }
        document, attempt := BuildRewrite(attempt + 1), attempt + 1;
      }
    }

    method AttemptOrder(pages: nat) returns (end: End)
      modifies this
      ensures Outcome(Now(), end) == Attempt(outside, rules, old(Now()), pages)
    {
      end := ReadDrawing(pages);
      if end.Ready? {
        end := BuildWithRepairs();
      }
    }
  }
}
