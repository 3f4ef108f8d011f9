/** What an attempt leaves behind: the failure it is reported with and the document it uploads. */
module RepairOutcomes {
  import opened Prelude
  import opened RepairMachine
  import opened RepairSpending
  import RepairContext
  import RepairTheorems

  // ----- the shared budget ---------------------------------------------------------------

  /** Each collaborator raises failures of its own kind only. */
  ghost predicate RaiseTheirOwn(o: Outside) {
    && (forall log, q :: o.model(log, q).failure.Some? ==>
          o.model(log, q).failure.value.ByModelRunner? || o.model(log, q).failure.value.Untyped?)
    && (forall log, text, claim :: o.check(log, text, claim).Some? ==>
          o.check(log, text, claim).value.ByEngine? || o.check(log, text, claim).value.Untyped?)
  }

  lemma RepairAfterBuildRaises(o: Outside, rules: Rules, d: Desk, refused: Path, attempt: nat, code: string)
    requires RaiseTheirOwn(o)
    ensures var out := RepairAfterBuild(o, rules, d, refused, attempt, code);
            out.end.Stopped? && out.end.why.ByWorker? ==> out.end.why.code == CONTEXT_INVALID
  {
    if ContextReadable(d) {
      var asked := Repair(o, rules, d, refused, BuildRewrite(attempt), code, AnalysisOf(d), AnswersOf(d));
      assert asked.end.Stopped? && asked.end.why.ByWorker? ==> asked.end.why.code == CONTEXT_INVALID;
      var checked := Check(o, asked.desk, BuildRewrite(attempt), ClaimFile(d));
      assert checked.end.Stopped? ==> !checked.end.why.ByWorker?;
    }
  }

  /** A repairable refusal surfaces from the build only after every repair the loop allows. */
  lemma {:induction false} RefusalSurfacesLast(o: Outside, rules: Rules, d: Desk, document: Path, attempt: nat,
                                               code: string)
    requires RaiseTheirOwn(o) && InBudget(rules, d) && document in d.files && attempt <= 2
    requires code in rules.repairable && code != CONTEXT_INVALID
    requires BuildLoop(o, rules, d, document, attempt).end == Stopped(ByWorker(code))
    ensures d.repairs + (2 - attempt) <= rules.maxRepairRuns
    ensures d.runs + (2 - attempt) <= rules.maxRuns
    decreases MAX_BUILD_REPAIRS - attempt
  {
    BuildTurnSpends(o, rules, d, document, attempt);
    var built := BuildOnce(o, d, document);
    var (turn, again) := BuildTurn(o, rules, d, document, attempt);
    if again {
      RefusalSurfacesLast(o, rules, turn.desk, BuildRewrite(attempt + 1), attempt + 1, code);
    } else if BuildMayRepair(rules, built.end, attempt) {
      RepairAfterBuildRaises(o, rules, built.desk, document, attempt + 1, built.end.why.code);
    }
  }

  /** Every repair the compile loop makes is one the build loop may lack: the customer is told why
      the document cannot be built only if the budget still held both build repairs. */
  lemma CompileRepairsCostBuildRepairs(o: Outside, rules: Rules, d: Desk, pages: nat, code: string)
    requires Fresh(d) && RaiseTheirOwn(o)
    requires code in rules.repairable && code != CONTEXT_INVALID
    requires Draw(o, rules, d, pages).end.Ready?
    requires Attempt(o, rules, d, pages).end == Stopped(ByWorker(code))
    ensures Draw(o, rules, d, pages).desk.repairs + 2 <= rules.maxRepairRuns
  {
    DrawSpends(o, rules, d, pages);
    RepairTheorems.DrawLawful(o, rules, d, pages);
    RefusalSurfacesLast(o, rules, Draw(o, rules, d, pages).desk, Compiled, 0, code);
  }

  predicate HasBuilt(log: seq<Event>) { exists i :: 0 <= i < |log| && log[i].Built? }

  /** An engine that refuses every document for the same repairable reason, beside a model that, once
      there was a build, always answers and a gate that, once there was one, always accepts. What
      both do before that is up to them. */
  ghost predicate Stubborn(o: Outside, code: string) {
    && (forall log, text :: o.build(log, text) == Some(ByEngine(code)))
    && (forall log, q :: HasBuilt(log) ==>
          o.model(log, q).failure.None? && o.model(log, q).written.Some?
          && 0 < |o.model(log, q).written.value| <= 1_000_000)
    && (forall log, text, claim :: HasBuilt(log) ==> o.check(log, text, claim).None?)
  }

  predicate HasBudget(rules: Rules, d: Desk, repairs: nat) {
    d.repairs + repairs <= rules.maxRepairRuns && d.runs + repairs <= rules.maxRuns
  }

  lemma StillBuilt(log: seq<Event>, e: Event)
    requires HasBuilt(log) || e.Built?
    ensures HasBuilt(log + [e])
  {
    if i :| 0 <= i < |log| && log[i].Built? { assert (log + [e])[i].Built?; } else { assert (log + [e])[|log|].Built?; }
  }

  lemma StubbornRepair(o: Outside, rules: Rules, d: Desk, refused: Path, attempt: nat, code: string)
    requires Stubborn(o, code) && InBudget(rules, d) && HasBuilt(d.log)
    requires ContextReadable(d) && Readable(d, refused, 1_000_000)
    ensures var out := RepairAfterBuild(o, rules, d, refused, attempt, code);
            if HasBudget(rules, d, 1)
            then out.end.Ready? && InBudget(rules, out.desk) && out.desk.repairs == d.repairs + 1
                 && out.desk.runs == d.runs + 1 && ContextReadable(out.desk) && HasBuilt(out.desk.log)
                 && Readable(out.desk, BuildRewrite(attempt), 1_000_000)
            else out.end == Stopped(ByModelRunner(BUDGET_EXHAUSTED))
  {
    var reserved := Reserve(rules, d, true);
    if reserved.end.Ready? {
      var question := Repairing(d.files[refused], code, AnalysisOf(d), AnswersOf(d));
      var asked := Ask(o, reserved.desk, BuildRewrite(attempt), question);
      assert o.model(d.log, question).written.Some?;
      StillBuilt(d.log, Asked(question, None));
      assert asked.end.Ready? && Readable(asked.desk, BuildRewrite(attempt), 1_000_000);
      var text := asked.desk.files[BuildRewrite(attempt)];
      assert o.check(asked.desk.log, text, ClaimFile(d)).None?;
      StillBuilt(asked.desk.log, Checked(text, ClaimFile(d), None));
    }
  }

  lemma StubbornBuild(o: Outside, d: Desk, document: Path, code: string)
    requires Stubborn(o, code) && document in d.files && document != JobDocument
    ensures var built := BuildOnce(o, d, document);
            && built.end == Stopped(ByWorker(code)) && HasBuilt(built.desk.log)
            && built.desk.runs == d.runs && built.desk.repairs == d.repairs
            && (ContextReadable(d) ==> ContextReadable(built.desk))
            && document in built.desk.files && built.desk.files[document] == d.files[document]
  {
    StillBuilt(d.log, Built(d.files[document], Some(ByWorker(code))));
  }

  /** Exactly when the build's own refusal surfaces: the budget must hold all the repairs the build
      loop would make. With less, the order ends as an exhausted budget instead. */
  lemma {:induction false} StubbornBuildEnds(o: Outside, rules: Rules, d: Desk, document: Path, attempt: nat,
                                             code: string)
    requires Stubborn(o, code) && InBudget(rules, d) && code in rules.repairable
    requires attempt <= 2 && document != JobDocument
    requires ContextReadable(d) && Readable(d, document, 1_000_000)
    ensures BuildLoop(o, rules, d, document, attempt).end
         == if HasBudget(rules, d, 2 - attempt) then Stopped(ByWorker(code))
            else Stopped(ByModelRunner(BUDGET_EXHAUSTED))
    decreases MAX_BUILD_REPAIRS - attempt
  {
    hide BuildOnce, RepairAfterBuild;
    StubbornBuild(o, d, document, code);
    if attempt < MAX_BUILD_REPAIRS {
      StubbornRepair(o, rules, BuildOnce(o, d, document).desk, document, attempt + 1, code);
      var (turn, again) := BuildTurn(o, rules, d, document, attempt);
      if again { StubbornBuildEnds(o, rules, turn.desk, BuildRewrite(attempt + 1), attempt + 1, code); }
    }
  }

  /** A compiled document too long to be shown to the model again cannot be repaired at all. */
  lemma UnreadableBuildEnds(o: Outside, rules: Rules, d: Desk, code: string)
    requires Stubborn(o, code) && code in rules.repairable && Compiled in d.files
    requires ContextReadable(d) && !Readable(d, Compiled, 1_000_000)
    ensures BuildLoop(o, rules, d, Compiled, 0).end
         == if HasBudget(rules, d, 1) then Stopped(ByWorker(CONTEXT_INVALID))
           else Stopped(ByModelRunner(BUDGET_EXHAUSTED))
  {
    StubbornBuild(o, d, Compiled, code);
    var (turn, again) := BuildTurn(o, rules, d, Compiled, 0);
    assert !again;
  }

  /** How a whole attempt at a document no rewrite can save is reported: as final exactly when the
      compile loop left the budget two more repairs, and otherwise as paused, with a date to try
      again; a document too long to be shown again ends as that, if there is a repair left. */
  lemma RefusedDocumentIsPausedNotFailed(o: Outside, rules: Rules, d: Desk, pages: nat, code: string,
                                         attempt: nat, maxAttempts: nat)
    requires Stubborn(o, code) && Fresh(d) && code in rules.repairable
    requires BUDGET_EXHAUSTED in rules.unchanging && code !in rules.unchanging
    requires Draw(o, rules, d, pages).end.Ready?
    ensures var drawn, end := Draw(o, rules, d, pages).desk, Attempt(o, rules, d, pages).end;
            && end.Stopped?
            && ReportOf(rules, end.why, attempt, maxAttempts)
               == if !HasBudget(rules, drawn, 1) then Paused(BUDGET_EXHAUSTED)
                  else if !Readable(drawn, Compiled, 1_000_000)
                  then ReportOf(rules, ByWorker(CONTEXT_INVALID), attempt, maxAttempts)
                  else if HasBudget(rules, drawn, 2) then Final(code)
                  else Paused(BUDGET_EXHAUSTED)
  {
    var drawn := Draw(o, rules, d, pages).desk;
    DrawSpends(o, rules, d, pages);
    RepairTheorems.DrawLawful(o, rules, d, pages);
    RepairContext.DrawnContextReadable(o, rules, d, pages);
    if Readable(drawn, Compiled, 1_000_000) {
      StubbornBuildEnds(o, rules, drawn, Compiled, 0, code);
    } else {
      UnreadableBuildEnds(o, rules, drawn, code);
    }
  }

  /** Nothing is said exactly when there is no code, or an attempt is left and the code is neither
      repairable nor one that no further attempt changes; over the latter, and only those, the order is
      paused; and what is said is the code itself. */
  lemma SaidExactly(rules: Rules, e: Thrown, attempt: nat, maxAttempts: nat)
    ensures var report := ReportOf(rules, e, attempt, maxAttempts);
            && (report.Silent? <==>
                  e.Untyped? || (e.code !in rules.unchanging + rules.repairable && attempt < maxAttempts))
            && (report.Paused? <==> !e.Untyped? && e.code in rules.unchanging)
            && (report.Paused? || report.Final? ==> report.code == e.code)
  {
  }

  /** Under the shipped policy, ten runs and three repairs, two repairs are left exactly when the
      compile loop made at most one, and one exactly when it made at most two. */
  lemma ShippedPolicyLeaves(o: Outside, rules: Rules, d: Desk, pages: nat)
    requires Fresh(d) && rules.maxRuns == 10 && rules.maxRepairRuns == 3
    ensures var drawn := Draw(o, rules, d, pages).desk;
            && (HasBudget(rules, drawn, 2) <==> drawn.repairs <= 1)
            && (HasBudget(rules, drawn, 1) <==> drawn.repairs <= 2)
  {
    DrawSpends(o, rules, d, pages);
  }

  // ----- what is uploaded ----------------------------------------------------------------

  /** The text of the last build. */
  function LastBuilt(d: Desk): Option<string> {
    if d.log != [] && d.log[|d.log| - 1].Built? then Some(d.log[|d.log| - 1].text) else None
  }

  lemma RepairAfterBuildLeaves(o: Outside, rules: Rules, d: Desk, refused: Path, attempt: nat, code: string)
    ensures var e := RepairAfterBuild(o, rules, d, refused, attempt, code).desk;
            forall path :: path in d.files && path != BuildRewrite(attempt) ==>
              path in e.files && e.files[path] == d.files[path]
  {
  }

  lemma BuildTurnLeaves(o: Outside, rules: Rules, d: Desk, document: Path, attempt: nat)
    requires Compiled in d.files && document in d.files
    ensures var (turn, again) := BuildTurn(o, rules, d, document, attempt);
            && Compiled in turn.desk.files && turn.desk.files[Compiled] == d.files[Compiled]
            && (turn.end.Ready? && !again ==>
                  LastBuilt(turn.desk) == Some(d.files[document]) && JobDocument in turn.desk.files
                  && turn.desk.files[JobDocument] == d.files[document])
  {
    var built := BuildOnce(o, d, document);
    if BuildMayRepair(rules, built.end, attempt) {
      RepairAfterBuildLeaves(o, rules, built.desk, document, attempt + 1, built.end.why.code);
    }
  }

  predicate Uploads(d: Desk, out: Outcome) {
    && Compiled in d.files && Compiled in out.desk.files && out.desk.files[Compiled] == d.files[Compiled]
    && (out.end.Ready? ==> JobDocument in out.desk.files && LastBuilt(out.desk) == Some(out.desk.files[JobDocument]))
  }

  lemma {:induction false} BuildLoopUploads(o: Outside, rules: Rules, d: Desk, document: Path, attempt: nat,
                                            out: Outcome)
    requires InBudget(rules, d) && Compiled in d.files && document in d.files && attempt <= 2
    requires out == BuildLoop(o, rules, d, document, attempt)
    ensures Uploads(d, out)
    decreases MAX_BUILD_REPAIRS - attempt
  {
    BuildTurnSpends(o, rules, d, document, attempt);
    BuildTurnLeaves(o, rules, d, document, attempt);
    var (turn, again) := BuildTurn(o, rules, d, document, attempt);
    if again {
      BuildLoopUploads(o, rules, turn.desk, BuildRewrite(attempt + 1), attempt + 1, out);
    }
  }

  lemma UnrepairedBuild(o: Outside, rules: Rules, d: Desk)
    requires InBudget(rules, d) && Compiled in d.files
    requires BuildLoop(o, rules, d, Compiled, 0).end.Ready?
    requires BuildLoop(o, rules, d, Compiled, 0).desk.repairs == d.repairs
    ensures LastBuilt(BuildLoop(o, rules, d, Compiled, 0).desk) == Some(d.files[Compiled])
  {
    BuildTurnSpends(o, rules, d, Compiled, 0);
    BuildTurnLeaves(o, rules, d, Compiled, 0);
    var (turn, again) := BuildTurn(o, rules, d, Compiled, 0);
    if again { BuildLoopSpends(o, rules, turn.desk, BuildRewrite(1), 1); }
  }

  /** The CAD-IR an order uploads is the one the compile loop accepted; the part was built from the
      job's own copy, the last rewrite. They are one document when no build was repaired. */
  lemma UploadedDocument(o: Outside, rules: Rules, d: Desk, pages: nat)
    requires Fresh(d) && Attempt(o, rules, d, pages).end.Ready?
    ensures var drawn, e := Draw(o, rules, d, pages).desk, Attempt(o, rules, d, pages).desk;
            && Compiled in drawn.files && Compiled in e.files && e.files[Compiled] == drawn.files[Compiled]
            && JobDocument in e.files && LastBuilt(e) == Some(e.files[JobDocument])
            && (e.repairs == drawn.repairs ==> e.files[JobDocument] == e.files[Compiled])
  {
    var drawn := Draw(o, rules, d, pages).desk;
    DrawSpends(o, rules, d, pages);
    RepairTheorems.DrawLawful(o, rules, d, pages);
    BuildLoopUploads(o, rules, drawn, Compiled, 0, BuildLoop(o, rules, drawn, Compiled, 0));
    if Attempt(o, rules, d, pages).desk.repairs == drawn.repairs { UnrepairedBuild(o, rules, drawn); }
  }

  /** An engine that judges a document by what it says. */
  ghost predicate JudgesTheText(o: Outside) {
    forall log, log', text :: o.build(log, text) == o.build(log', text)
  }

  predicate BuiltAccepted(o: Outside, out: Outcome) {
    out.end.Ready? ==> JobDocument in out.desk.files && o.build([], out.desk.files[JobDocument]).None?
  }

  lemma TurnAccepted(o: Outside, rules: Rules, d: Desk, document: Path, attempt: nat)
    requires JudgesTheText(o) && !BuildTurn(o, rules, d, document, attempt).1
    ensures BuiltAccepted(o, BuildTurn(o, rules, d, document, attempt).0)
  {
    if document in d.files { assert o.build(d.log, d.files[document]) == o.build([], d.files[document]); }
  }

  lemma {:induction false} LoopAccepted(o: Outside, rules: Rules, d: Desk, document: Path, attempt: nat, out: Outcome)
    requires JudgesTheText(o) && out == BuildLoop(o, rules, d, document, attempt)
    ensures BuiltAccepted(o, out)
    decreases MAX_BUILD_REPAIRS - attempt
  {
    var (turn, again) := BuildTurn(o, rules, d, document, attempt);
    if again {
      LoopAccepted(o, rules, turn.desk, BuildRewrite(attempt + 1), attempt + 1, out);
    } else {
      TurnAccepted(o, rules, d, document, attempt);
    }
  }

  /** An order whose build ends well uploads the document it was built from exactly when the engine
      accepts the document the compile loop left. */
  lemma UploadedIsBuiltExactly(o: Outside, rules: Rules, d: Desk, pages: nat)
    requires Fresh(d) && JudgesTheText(o) && Attempt(o, rules, d, pages).end.Ready?
    ensures var drawn, e := Draw(o, rules, d, pages).desk, Attempt(o, rules, d, pages).desk;
            && Compiled in drawn.files && Compiled in e.files && JobDocument in e.files
            && (e.files[Compiled] == e.files[JobDocument] <==> o.build([], drawn.files[Compiled]).None?)
  {
    var drawn := Draw(o, rules, d, pages).desk;
    UploadedDocument(o, rules, d, pages);
    LoopAccepted(o, rules, drawn, Compiled, 0, BuildLoop(o, rules, drawn, Compiled, 0));
    if o.build([], drawn.files[Compiled]).None? {
      assert o.build(drawn.log, drawn.files[Compiled]).None?;
      var (turn, again) := BuildTurn(o, rules, drawn, Compiled, 0);
      assert !again && turn.desk.files[JobDocument] == drawn.files[Compiled];
    }
  }
}
