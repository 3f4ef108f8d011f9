/** How often the model and the engine are called, and which failure an attempt ends with. */
module RepairSpending {
  import opened Prelude
  import opened RepairMachine

  function ModelRuns(log: seq<Event>): nat {
    if log == [] then 0 else ModelRuns(log[..|log| - 1]) + if log[|log| - 1].Asked? then 1 else 0
  }

  function Builds(log: seq<Event>): nat {
    if log == [] then 0 else Builds(log[..|log| - 1]) + if log[|log| - 1].Built? then 1 else 0
  }

  lemma CountNext(log: seq<Event>, e: Event)
    ensures ModelRuns(log + [e]) == ModelRuns(log) + if e.Asked? then 1 else 0
    ensures Builds(log + [e]) == Builds(log) + if e.Built? then 1 else 0
  {
    assert (log + [e])[..|log|] == log;
  }

  /** From `d` to `e` the order reserved `repairs` repairs and `others` other runs, and built
      `builds` times; no run of the model went unreserved. */
  predicate Spent(d: Desk, e: Desk, others: nat, repairs: nat, builds: nat) {
    && e.repairs == d.repairs + repairs
    && e.runs == d.runs + others + repairs
    && Builds(e.log) == Builds(d.log) + builds
    && ModelRuns(e.log) - ModelRuns(d.log) <= others + repairs
  }

  predicate InBudget(rules: Rules, d: Desk) {
    d.repairs <= rules.maxRepairRuns && d.runs <= rules.maxRuns
  }

  lemma AskSpends(o: Outside, d: Desk, into: Path, question: Question)
    ensures ModelRuns(Ask(o, d, into, question).desk.log) == ModelRuns(d.log) + 1
    ensures Builds(Ask(o, d, into, question).desk.log) == Builds(d.log)
  {
    CountNext(d.log, Asked(question, o.model(d.log, question).failure));
  }

  lemma CheckSpends(o: Outside, d: Desk, candidate: Path, claim: Option<string>)
    ensures Spent(d, Check(o, d, candidate, claim).desk, 0, 0, 0)
  {
    if candidate in d.files {
      CountNext(d.log, Checked(d.files[candidate], claim, o.check(d.log, d.files[candidate], claim)));
    }
  }

  lemma RepairSpends(o: Outside, rules: Rules, d: Desk, refused: Path, into: Path, code: string,
                     analysis: string, answers: string)
    requires InBudget(rules, d)
    ensures var out := Repair(o, rules, d, refused, into, code, analysis, answers);
            && InBudget(rules, out.desk)
            && (Spent(d, out.desk, 0, 1, 0)
                || (Spent(d, out.desk, 0, 0, 0) && out.end == Stopped(ByModelRunner(BUDGET_EXHAUSTED))))
  {
    var reserved := Reserve(rules, d, true).desk;
    if Readable(d, refused, 1_000_000) {
      AskSpends(o, reserved, into, Repairing(d.files[refused], code, analysis, answers));
    }
  }

  lemma CompileTurnSpends(o: Outside, rules: Rules, d: Desk, candidate: Path, claim: Option<string>,
                          analysis: string, answers: string, attempt: nat)
    requires InBudget(rules, d)
    ensures var (turn, again) := CompileTurn(o, rules, d, candidate, claim, analysis, answers, attempt);
            && InBudget(rules, turn.desk)
            && (Spent(d, turn.desk, 0, 0, 0) || (Spent(d, turn.desk, 0, 1, 0) && attempt < MAX_COMPILE_REPAIRS))
            && (again ==> Spent(d, turn.desk, 0, 1, 0))
  {
    CheckSpends(o, d, candidate, claim);
    var checked := Check(o, d, candidate, claim);
    if !checked.end.Ready? && CompileMayRepair(rules, checked.end, attempt) {
      RepairSpends(o, rules, checked.desk, candidate, Rewrite(attempt + 1), checked.end.why.code, analysis, answers);
    }
  }

  predicate Repaired(rules: Rules, d: Desk, e: Desk, left: nat) {
    && InBudget(rules, e) && d.repairs <= e.repairs <= d.repairs + left
    && Spent(d, e, 0, e.repairs - d.repairs, 0)
  }

  lemma RepairedMore(rules: Rules, d: Desk, turn: Desk, e: Desk, left: nat)
    requires left > 0 && Spent(d, turn, 0, 1, 0) && Repaired(rules, turn, e, left - 1)
    ensures Repaired(rules, d, e, left)
  {
  }

  /** The compile loop repairs at most three times, and never more than the budget has left. */
  lemma {:induction false} CompileLoopSpends(o: Outside, rules: Rules, d: Desk, candidate: Path, claim: Option<string>,
                                             analysis: string, answers: string, attempt: nat)
    requires InBudget(rules, d) && attempt <= MAX_COMPILE_REPAIRS
    ensures Repaired(rules, d, CompileLoop(o, rules, d, candidate, claim, analysis, answers, attempt).desk,
                     MAX_COMPILE_REPAIRS - attempt)
    decreases MAX_COMPILE_REPAIRS - attempt
  {
    CompileTurnSpends(o, rules, d, candidate, claim, analysis, answers, attempt);
    var (turn, again) := CompileTurn(o, rules, d, candidate, claim, analysis, answers, attempt);
    if again {
      CompileLoopSpends(o, rules, turn.desk, Rewrite(attempt + 1), claim, analysis, answers, attempt + 1);
      RepairedMore(rules, d, turn.desk,
                   CompileLoop(o, rules, turn.desk, Rewrite(attempt + 1), claim, analysis, answers, attempt + 1).desk,
                   MAX_COMPILE_REPAIRS - attempt);
    }
  }

  predicate DrawSpent(rules: Rules, d: Desk, e: Desk, others: nat) {
    && InBudget(rules, e) && d.repairs <= e.repairs <= d.repairs + 3
    && d.runs + (e.repairs - d.repairs) <= e.runs <= d.runs + (e.repairs - d.repairs) + others
    && Spent(d, e, e.runs - d.runs - (e.repairs - d.repairs), e.repairs - d.repairs, 0)
  }

  lemma CompileSpends(o: Outside, rules: Rules, d: Desk)
    requires InBudget(rules, d)
    ensures DrawSpent(rules, d, Compile(o, rules, d).desk, 1)
  {
    if Analysis in d.files {
      var analysis, answers, claim := d.files[Analysis], AnswersOf(d), o.claimOf(d.files[Analysis]);
      var reserved := Reserve(rules, WithClaim(d, claim), false);
      if reserved.end.Ready? {
        AskSpends(o, reserved.desk, Compiled, Compiling(analysis, answers));
        CompileLoopSpends(o, rules, Ask(o, reserved.desk, Compiled, Compiling(analysis, answers)).desk, Compiled, claim,
                          analysis, answers, 0);
      }
    }
  }

  lemma DrawSpends(o: Outside, rules: Rules, d: Desk, pages: nat)
    requires InBudget(rules, d)
    ensures DrawSpent(rules, d, Draw(o, rules, d, pages).desk, if ReusesReading(o, d) then 1 else 2)
  {
    if ReusesReading(o, d) {
      CompileSpends(o, rules, d.(files := d.files[Analysis := d.files[Carried]]));
    } else {
      var reserved := Reserve(rules, d, false);
      if reserved.end.Ready? {
        AskSpends(o, reserved.desk, Analysis, Reading(OperatorNote(o, d)));
        CompileSpends(o, rules, Ask(o, reserved.desk, Analysis, Reading(OperatorNote(o, d))).desk);
      }
    }
  }

  lemma BuildOnceSpends(o: Outside, d: Desk, document: Path)
    ensures document in d.files ==> Spent(d, BuildOnce(o, d, document).desk, 0, 0, 1)
    ensures document !in d.files ==> BuildOnce(o, d, document) == Outcome(d, Stopped(Untyped))
  {
    if document in d.files {
      CountNext(d.log, Built(d.files[document], Handled(o.build(d.log, d.files[document]))));
    }
  }

  lemma CheckAfterRepair(o: Outside, rules: Rules, d: Desk, asked: Desk, candidate: Path, claim: Option<string>)
    requires InBudget(rules, asked) && Spent(d, asked, 0, 1, 0)
    ensures var out := Check(o, asked, candidate, claim);
            InBudget(rules, out.desk) && Spent(d, out.desk, 0, 1, 0) && (out.end.Ready? ==> candidate in out.desk.files)
  {
    CheckSpends(o, asked, candidate, claim);
  }

  lemma RepairAfterBuildSpends(o: Outside, rules: Rules, d: Desk, refused: Path, attempt: nat, code: string)
    requires InBudget(rules, d)
    ensures var out := RepairAfterBuild(o, rules, d, refused, attempt, code);
            && InBudget(rules, out.desk)
            && (Spent(d, out.desk, 0, 1, 0) || (Spent(d, out.desk, 0, 0, 0) && !out.end.Ready?))
            && (out.end.Ready? ==> BuildRewrite(attempt) in out.desk.files)
  {
    hide Ask, Repair, Check;
    if ContextReadable(d) {
      RepairSpends(o, rules, d, refused, BuildRewrite(attempt), code, AnalysisOf(d), AnswersOf(d));
      var asked := Repair(o, rules, d, refused, BuildRewrite(attempt), code, AnalysisOf(d), AnswersOf(d));
      if asked.end.Ready? { CheckAfterRepair(o, rules, d, asked.desk, BuildRewrite(attempt), ClaimFile(d)); }
    }
  }

  /** What one turn spends, and what the rest does when it goes round again. */
  predicate TurnSpent(rules: Rules, d: Desk, turn: Desk, again: bool, left: nat) {
    && InBudget(rules, turn)
    && (Spent(d, turn, 0, 0, 1) || (Spent(d, turn, 0, 1, 1) && left > 0))
    && (again ==> left > 0 && Spent(d, turn, 0, 1, 1))
  }

  lemma BuildTurnSpends(o: Outside, rules: Rules, d: Desk, document: Path, attempt: nat)
    requires InBudget(rules, d) && document in d.files && attempt <= MAX_BUILD_REPAIRS
    ensures var (turn, again) := BuildTurn(o, rules, d, document, attempt);
            && TurnSpent(rules, d, turn.desk, again, MAX_BUILD_REPAIRS - attempt)
            && (again ==> BuildRewrite(attempt + 1) in turn.desk.files)
  {
    BuildOnceSpends(o, d, document);
    var built := BuildOnce(o, d, document);
    if BuildMayRepair(rules, built.end, attempt) {
      RepairAfterBuildSpends(o, rules, built.desk, document, attempt + 1, built.end.why.code);
    }
  }

  predicate BuildSpent(rules: Rules, d: Desk, e: Desk, left: nat) {
    && InBudget(rules, e) && d.repairs <= e.repairs <= d.repairs + left
    && Builds(d.log) < Builds(e.log) <= Builds(d.log) + 1 + (e.repairs - d.repairs)
    && Spent(d, e, 0, e.repairs - d.repairs, Builds(e.log) - Builds(d.log))
  }

  lemma SpentOnce(rules: Rules, d: Desk, turn: Desk, left: nat)
    requires TurnSpent(rules, d, turn, false, left)
    ensures BuildSpent(rules, d, turn, left)
  {
  }

  lemma SpentMore(rules: Rules, d: Desk, turn: Desk, e: Desk, left: nat)
    requires TurnSpent(rules, d, turn, true, left) && BuildSpent(rules, turn, e, left - 1)
    ensures BuildSpent(rules, d, e, left)
  {
  }

  lemma BuildLoopUnfolds(o: Outside, rules: Rules, d: Desk, document: Path, attempt: nat)
    requires InBudget(rules, d) && document in d.files && attempt <= MAX_BUILD_REPAIRS
    ensures var (turn, again) := BuildTurn(o, rules, d, document, attempt);
            BuildLoop(o, rules, d, document, attempt)
            == if again then BuildLoop(o, rules, turn.desk, BuildRewrite(attempt + 1), attempt + 1) else turn
  {
  }

  lemma {:induction false} BuildLoopTo(o: Outside, rules: Rules, d: Desk, document: Path, attempt: nat, e: Desk)
    requires InBudget(rules, d) && document in d.files && attempt <= MAX_BUILD_REPAIRS
    requires e == BuildLoop(o, rules, d, document, attempt).desk
    ensures BuildSpent(rules, d, e, MAX_BUILD_REPAIRS - attempt)
    decreases MAX_BUILD_REPAIRS - attempt
  {
    BuildLoopUnfolds(o, rules, d, document, attempt);
    BuildTurnSpends(o, rules, d, document, attempt);
    var (turn, again) := BuildTurn(o, rules, d, document, attempt);
    if again {
      BuildLoopTo(o, rules, turn.desk, BuildRewrite(attempt + 1), attempt + 1, e);
      SpentMore(rules, d, turn.desk, e, MAX_BUILD_REPAIRS - attempt);
    } else {
      SpentOnce(rules, d, e, MAX_BUILD_REPAIRS - attempt);
    }
  }

  lemma BuildLoopSpends(o: Outside, rules: Rules, d: Desk, document: Path, attempt: nat)
    requires InBudget(rules, d) && document in d.files && attempt <= MAX_BUILD_REPAIRS
    ensures BuildSpent(rules, d, BuildLoop(o, rules, d, document, attempt).desk, MAX_BUILD_REPAIRS - attempt)
  {
    BuildLoopTo(o, rules, d, document, attempt, BuildLoop(o, rules, d, document, attempt).desk);
  }

  /** A build that ends well was repaired as often as it was built before the last time. */
  lemma {:induction false} GoodBuildCounts(o: Outside, rules: Rules, d: Desk, document: Path, attempt: nat)
    requires InBudget(rules, d) && document in d.files && attempt <= MAX_BUILD_REPAIRS
    requires BuildLoop(o, rules, d, document, attempt).end.Ready?
    ensures var e := BuildLoop(o, rules, d, document, attempt).desk;
            Builds(e.log) == Builds(d.log) + 1 + (e.repairs - d.repairs)
    decreases MAX_BUILD_REPAIRS - attempt
  {
    BuildTurnSpends(o, rules, d, document, attempt);
    BuildOnceSpends(o, d, document);
    var (turn, again) := BuildTurn(o, rules, d, document, attempt);
    if again {
      GoodBuildCounts(o, rules, turn.desk, BuildRewrite(attempt + 1), attempt + 1);
    }
  }

  predicate Fresh(d: Desk) { d.runs == 0 && d.repairs == 0 && d.log == [] }

  function Min(a: nat, b: nat): nat { if a <= b then a else b }

  /** What the two loops and the shared budget all allow. */
  function MostRepairs(rules: Rules): nat { Min(5, rules.maxRepairRuns) }

  /** A whole attempt: at most one reading, one compilation and as many repairs as the loops and
      the shared budget both allow; at most three builds. */
  lemma AttemptIsBounded(o: Outside, rules: Rules, d: Desk, pages: nat)
    requires Fresh(d)
    ensures var log := Attempt(o, rules, d, pages).desk.log;
            && ModelRuns(log) <= Min(rules.maxRuns, 2 + MostRepairs(rules))
            && Builds(log) <= 3
            && (ReusesReading(o, d) ==> ModelRuns(log) <= 1 + MostRepairs(rules))
  {
    DrawSpends(o, rules, d, pages);
    var drawn := Draw(o, rules, d, pages);
    if drawn.end.Ready? {
      if Compiled in drawn.desk.files { BuildLoopSpends(o, rules, drawn.desk, Compiled, 0); }
      else { BuildOnceSpends(o, drawn.desk, Compiled); }
    }
  }
}
