/** Two whole attempts at an order, from an empty budget: one whose compile repairs leave too few for
    its build, one whose repaired build is not what it uploads. */
module RepairWitnesses {
  import opened Prelude
  import opened RepairMachine
  import opened RepairSpending
  import opened RepairOutcomes

  /** The shipped policy, and the codes the two attempts meet. */
  const SHIPPED := Rules({"CAD_IR_INVALID", "SHELL_NO_CAVITY"}, {BUDGET_EXHAUSTED}, 10, 3)

  // ----- refused twice before the build --------------------------------------------------

  /** A gate that refuses the first two candidates; an engine that then refuses every document. */
  function TwiceRefused(): Outside {
    Outside((log, q) => Reply(Some("x"), None),
            (log, text, claim) => if !HasBuilt(log) && |log| < 6 then Some(ByEngine("CAD_IR_INVALID")) else None,
            (log, text) => Some(ByEngine("SHELL_NO_CAVITY")),
            text => Some(0), text => false, text => None, text => None)
  }

  lemma TwiceRefusedIsStubborn()
    ensures Stubborn(TwiceRefused(), "SHELL_NO_CAVITY")
  {
  }

  predicate Unbuilt(log: seq<Event>) { forall i :: 0 <= i < |log| ==> !log[i].Built? }

  /** One refused candidate, rewritten. */
  lemma RefusedTurn(d: Desk, candidate: Path, attempt: nat)
    requires Readable(d, candidate, 1_000_000) && Unbuilt(d.log) && |d.log| < 6
    requires attempt < MAX_COMPILE_REPAIRS && d.repairs < 3 && d.runs < 10
    ensures var (turn, again) := CompileTurn(TwiceRefused(), SHIPPED, d, candidate, None, "x", NO_ANSWERS, attempt);
            && again && |turn.desk.log| == |d.log| + 2 && Unbuilt(turn.desk.log)
            && turn.desk.repairs == d.repairs + 1 && turn.desk.runs == d.runs + 1
            && Readable(turn.desk, Rewrite(attempt + 1), 1_000_000)
  {
    assert !HasBuilt(d.log);
    var checked := Check(TwiceRefused(), d, candidate, None);
    assert checked.end == Stopped(ByEngine("CAD_IR_INVALID")) && Readable(checked.desk, candidate, 1_000_000);
  }

  lemma AcceptedTurn(d: Desk, candidate: Path, attempt: nat)
    requires Readable(d, candidate, 1_000_000) && |d.log| >= 6
    ensures var (turn, again) := CompileTurn(TwiceRefused(), SHIPPED, d, candidate, None, "x", NO_ANSWERS, attempt);
            && !again && turn.end.Ready? && turn.desk.repairs == d.repairs
            && Readable(turn.desk, Compiled, 1_000_000)
  {
  }

  lemma TwiceRefusedCompiles(d: Desk)
    requires Readable(d, Compiled, 1_000_000) && Unbuilt(d.log) && |d.log| == 2 && d.runs == 2 && d.repairs == 0
    ensures var out := CompileLoop(TwiceRefused(), SHIPPED, d, Compiled, None, "x", NO_ANSWERS, 0);
            out.end.Ready? && out.desk.repairs == 2 && Readable(out.desk, Compiled, 1_000_000)
  {
    RefusedTurn(d, Compiled, 0);
    var first := CompileTurn(TwiceRefused(), SHIPPED, d, Compiled, None, "x", NO_ANSWERS, 0).0.desk;
    RefusedTurn(first, Rewrite(1), 1);
    var second := CompileTurn(TwiceRefused(), SHIPPED, first, Rewrite(1), None, "x", NO_ANSWERS, 1).0.desk;
    AcceptedTurn(second, Rewrite(2), 2);
    assert CompileLoop(TwiceRefused(), SHIPPED, second, Rewrite(2), None, "x", NO_ANSWERS, 2).end.Ready?;
    assert CompileLoop(TwiceRefused(), SHIPPED, first, Rewrite(1), None, "x", NO_ANSWERS, 1)
        == CompileLoop(TwiceRefused(), SHIPPED, second, Rewrite(2), None, "x", NO_ANSWERS, 2);
  }

  lemma TwiceRefusedDraws()
    ensures var out := Draw(TwiceRefused(), SHIPPED, Desk(map[], 0, 0, []), 1);
            out.end.Ready? && out.desk.repairs == 2 && Readable(out.desk, Compiled, 1_000_000)
  {
    var o := TwiceRefused();
    var read := Desk(map[Analysis := "x"], 1, 0, [Asked(Reading(None), None)]);
    var asked := Desk(map[Analysis := "x", Compiled := "x"], 2, 0,
                      [Asked(Reading(None), None), Asked(Compiling("x", NO_ANSWERS), None)]);
    assert Ask(o, Desk(map[], 1, 0, []), Analysis, Reading(None)) == Outcome(read, Ready);
    assert Ask(o, read.(runs := 2), Compiled, Compiling("x", NO_ANSWERS)) == Outcome(asked, Ready);
    TwiceRefusedCompiles(asked);
    assert Compile(o, SHIPPED, read) == CompileLoop(o, SHIPPED, asked, Compiled, None, "x", NO_ANSWERS, 0);
    assert Draw(o, SHIPPED, Desk(map[], 0, 0, []), 1) == Compile(o, SHIPPED, read);
  }

  /** The engine's refusal is one a rewrite could answer, two rewrites are allowed, and the customer is
      told that the order is paused. */
  lemma TwiceRefusedIsPaused(attempt: nat, maxAttempts: nat)
    ensures var end := Attempt(TwiceRefused(), SHIPPED, Desk(map[], 0, 0, []), 1).end;
            end.Stopped? && ReportOf(SHIPPED, end.why, attempt, maxAttempts) == Paused(BUDGET_EXHAUSTED)
  {
    TwiceRefusedIsStubborn();
    TwiceRefusedDraws();
    RefusedDocumentIsPausedNotFailed(TwiceRefused(), SHIPPED, Desk(map[], 0, 0, []), 1, "SHELL_NO_CAVITY",
                                     attempt, maxAttempts);
  }

  // ----- a repaired build ----------------------------------------------------------------

  /** The model compiles "a" and rewrites it to "b"; the gate accepts both, the engine only "b". The
      reading states no claim. */
  function RewrittenOnce(): Outside {
    Outside((log, q: Question) => Reply(Some(if q.Repairing? then "b" else "a"), None),
            (log, text, claim) => None,
            (log, text) => if text == "a" then Some(ByEngine("SHELL_NO_CAVITY")) else None,
            text => Some(0), text => false, text => None, text => None)
  }

  /** A job directory in which an earlier attempt left a claim. */
  const LEFTOVER := Desk(map[ShapeClaim := "old"], 0, 0, [])

  const DRAWN := Desk(map[ShapeClaim := "old", Analysis := "a", Compiled := "a"], 2, 0,
                      [Asked(Reading(None), None), Asked(Compiling("a", NO_ANSWERS), None), Checked("a", None, None)])

  lemma RewrittenOnceDraws()
    ensures Draw(RewrittenOnce(), SHIPPED, LEFTOVER, 1) == Outcome(DRAWN, Ready)
  {
    var o := RewrittenOnce();
    var read := Desk(map[ShapeClaim := "old", Analysis := "a"], 1, 0, [Asked(Reading(None), None)]);
    var asked := Desk(map[ShapeClaim := "old", Analysis := "a", Compiled := "a"], 2, 0,
                      [Asked(Reading(None), None), Asked(Compiling("a", NO_ANSWERS), None)]);
    assert Ask(o, LEFTOVER.(runs := 1), Analysis, Reading(None)) == Outcome(read, Ready);
    assert Ask(o, read.(runs := 2), Compiled, Compiling("a", NO_ANSWERS)) == Outcome(asked, Ready);
    assert Check(o, asked, Compiled, None) == Outcome(DRAWN, Ready);
    assert CompileTurn(o, SHIPPED, asked, Compiled, None, "a", NO_ANSWERS, 0) == (Outcome(DRAWN, Ready), false);
    assert Compile(o, SHIPPED, read) == Outcome(DRAWN, Ready);
  }

  lemma RewrittenOnceRepairs() returns (built: Desk, repaired: Desk)
    ensures BuildOnce(RewrittenOnce(), DRAWN, Compiled) == Outcome(built, Stopped(ByWorker("SHELL_NO_CAVITY")))
    ensures RepairAfterBuild(RewrittenOnce(), SHIPPED, built, Compiled, 1, "SHELL_NO_CAVITY")
         == Outcome(repaired, Ready)
    ensures BuildRewrite(1) in repaired.files && repaired.files[BuildRewrite(1)] == "b"
    ensures Compiled in repaired.files && repaired.files[Compiled] == "a"
    ensures repaired.log == built.log + [Asked(Repairing("a", "SHELL_NO_CAVITY", "a", NO_ANSWERS), None)]
                            + [Checked("b", Some("old"), None)]
  {
    built := BuildOnce(RewrittenOnce(), DRAWN, Compiled).desk;
    repaired := RepairAfterBuild(RewrittenOnce(), SHIPPED, built, Compiled, 1, "SHELL_NO_CAVITY").desk;
    assert ContextReadable(built) && Readable(built, Compiled, 1_000_000);
  }

  lemma RewrittenOnceAttempt() returns (e: Desk)
    ensures Attempt(RewrittenOnce(), SHIPPED, LEFTOVER, 1) == Outcome(e, Ready)
    ensures JobDocument in e.files && e.files[JobDocument] == "b" && Compiled in e.files && e.files[Compiled] == "a"
    ensures Checked("b", Some("old"), None) in e.log
  {
    RewrittenOnceDraws();
    var built, repaired := RewrittenOnceRepairs();
    assert BuildTurn(RewrittenOnce(), SHIPPED, DRAWN, Compiled, 0) == (Outcome(repaired, Ready), true);
    e := BuildOnce(RewrittenOnce(), repaired, BuildRewrite(1)).desk;
    assert BuildTurn(RewrittenOnce(), SHIPPED, repaired, BuildRewrite(1), 1) == (Outcome(e, Ready), false);
    assert BuildLoop(RewrittenOnce(), SHIPPED, repaired, BuildRewrite(1), 1) == Outcome(e, Ready);
    assert repaired.log[|repaired.log| - 1] == Checked("b", Some("old"), None);
    assert e.log[|repaired.log| - 1] == repaired.log[|repaired.log| - 1];
  }

  /** A whole order that builds "b" and uploads "a". */
  lemma UploadMayBeStale()
    ensures var out := Attempt(RewrittenOnce(), SHIPPED, LEFTOVER, 1);
            && out.end.Ready? && JobDocument in out.desk.files && Compiled in out.desk.files
            && out.desk.files[JobDocument] == "b" && out.desk.files[Compiled] == "a"
  {
    var e := RewrittenOnceAttempt();
  }

  /** And that is checked, after its build repair, against the claim of an earlier attempt, when its own
      reading states none. */
  lemma EarlierClaimIsChecked()
    ensures var e := Attempt(RewrittenOnce(), SHIPPED, LEFTOVER, 1).desk;
            && RewrittenOnce().claimOf(AnalysisOf(DRAWN)).None?
            && Checked("a", None, None) in DRAWN.log && Checked("b", Some("old"), None) in e.log
  {
    var e := RewrittenOnceAttempt();
    assert DRAWN.log[2] == Checked("a", None, None);
  }
}
