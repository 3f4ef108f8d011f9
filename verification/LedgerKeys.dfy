/** The identity of a measurement, and which measurements of one attempt share one. */
module LedgerKeys {
  import opened Prelude
  import opened Texts

  const SEPARATOR := ':'

  function Key(job: string, attempt: nat, parts: seq<string>): string {
    Join(["job", job, "attempt", Decimal(attempt)] + parts, SEPARATOR)
  }

  /** How a key of two parts is spelled. */
  lemma KeySpelled(job: string, attempt: nat, a: string, b: string)
    ensures Key(job, attempt, [a, b])
         == "job" + ":" + (job + ":" + ("attempt" + ":" + (Decimal(attempt) + ":" + (a + ":" + b))))
  {
    var fourth, third := [Decimal(attempt), a, b], ["attempt", Decimal(attempt), a, b];
    var second, parts := [job] + third, ["job", job] + third;
    assert Join([a, b], ':') == a + ":" + b by { assert [a, b][1..] == [b]; }
    assert Join(fourth, ':') == Decimal(attempt) + ":" + (a + ":" + b) by { assert fourth[1..] == [a, b]; }
    assert third[1..] == fourth && second[1..] == third && parts[1..] == second;
    assert Join(third, ':') == "attempt" + ":" + Join(fourth, ':');
    assert Join(second, ':') == job + ":" + Join(third, ':');
    assert Join(parts, ':') == "job" + ":" + Join(second, ':');
    assert ["job", job, "attempt", Decimal(attempt)] + [a, b] == parts;
  }

  predicate Clean(parts: seq<string>) { forall i :: 0 <= i < |parts| ==> SEPARATOR !in parts[i] }

  /** Without separators in the parts, a key tells its job, its attempt and its parts. */
  lemma KeyInjective(job: string, attempt: nat, parts: seq<string>, job': string, attempt': nat, parts': seq<string>)
    requires SEPARATOR !in job && SEPARATOR !in job' && Clean(parts) && Clean(parts')
    requires Key(job, attempt, parts) == Key(job', attempt', parts')
    ensures job == job' && attempt == attempt' && parts == parts'
  {
    var whole := ["job", job, "attempt", Decimal(attempt)] + parts;
    var whole' := ["job", job', "attempt", Decimal(attempt')] + parts';
    DecimalDigits(attempt);
    DecimalDigits(attempt');
    SplitJoin(whole, SEPARATOR);
    SplitJoin(whole', SEPARATOR);
    assert whole == whole';
    assert whole[1] == job && whole[3] == Decimal(attempt) && whole[4..] == parts;
    assert whole'[1] == job' && whole'[3] == Decimal(attempt') && whole'[4..] == parts';
    DecimalInjective(attempt, attempt');
  }

  /** With one, two measurements may share a key. */
  lemma SeparatorMerges(job: string, attempt: nat, a: string, b: string)
    ensures Key(job, attempt, [a + [SEPARATOR] + b]) == Key(job, attempt, [a, b])
  {
    var front := ["job", job, "attempt", Decimal(attempt)];
    JoinAppend(front, [a + [SEPARATOR] + b]);
    JoinAppend(front, [a, b]);
    assert [a, b][1..] == [b];
  }

  lemma {:induction false} JoinAppend(a: seq<string>, b: seq<string>)
    requires a != [] && b != []
    ensures Join(a + b, SEPARATOR) == Join(a, SEPARATOR) + [SEPARATOR] + Join(b, SEPARATOR)
    decreases |a|
  {
    if |a| == 1 {
      assert (a + b)[1..] == b;
    } else {
      assert (a + b)[1..] == a[1..] + b;
      JoinAppend(a[1..], b);
    }
  }

  // ----- what one attempt measures -------------------------------------------------------

  datatype Measure =
    | InputTransfer | ArtifactTransfer | ReadingRun | CompilationRun | RepairRun | BuildRepairRun
    | Validation | RepairIteration | BuildRepair | BuildTrigger | CadSession | CadOperation

  function Tag(m: Measure): (string, string) {
    match m
    case InputTransfer => ("transfer", "input")
    case ArtifactTransfer => ("transfer", "artifact")
    case ReadingRun => ("ai", "drawing_analysis")
    case CompilationRun => ("ai", "cad_ir_compilation")
    case RepairRun => ("ai", "repair")
    case BuildRepairRun => ("ai", "build_repair")
    case Validation => ("validate", "cad_ir")
    case RepairIteration => ("repair", "iteration")
    case BuildRepair => ("repair", "build")
    case BuildTrigger => ("repair", "build_trigger")
    case CadSession => ("cad", "session")
    case CadOperation => ("cad", "operation")
  }

  /** The warnings a model run may add to its key: the model answered is another, the usage unread. */
  datatype Warnings = Warnings(mismatch: bool, unread: bool)

  /** How an attempt went, as far as its measurements are named after it. */
  datatype Story = Story(
    inputs: seq<string>,          // kinds of the files downloaded
    readings: nat, compilations: nat, repairs: nat, buildRepairs: nat,
    validations: nat, triggers: nat,
    builds: seq<seq<string>>,     // operation codes of each build
    artifacts: seq<string>,       // kinds uploaded
    warnings: (Measure, nat) -> Warnings)

  function Ones(s: seq<string>): seq<seq<string>> {
    if s == [] then [] else Ones(s[..|s| - 1]) + [[s[|s| - 1]]]
  }

  function Numbered(n: nat): seq<seq<string>> {
    if n == 0 then [] else Numbered(n - 1) + [[Decimal(n)]]
  }

  function Run(n: nat, w: Warnings): seq<seq<string>> {
    [[Decimal(n)]] + (if w.mismatch then [[Decimal(n), "model-mismatch"]] else [])
    + (if w.unread then [[Decimal(n), "usage-warning"]] else [])
  }

  function Runs(m: Measure, n: nat, warnings: (Measure, nat) -> Warnings): seq<seq<string>> {
    if n == 0 then [] else Runs(m, n - 1, warnings) + Run(n, warnings(m, n))
  }

  function Flat(builds: seq<seq<string>>): seq<string> {
    if builds == [] then [] else Flat(builds[..|builds| - 1]) + builds[|builds| - 1]
  }

  /** Every build names its session the first. */
  function Sessions(n: nat): seq<seq<string>> {
    if n == 0 then [] else Sessions(n - 1) + [["1"]]
  }

  function Details(s: Story, m: Measure): seq<seq<string>> {
    match m
    case InputTransfer => Ones(s.inputs)
    case ArtifactTransfer => Ones(s.artifacts)
    case ReadingRun => Runs(m, s.readings, s.warnings)
    case CompilationRun => Runs(m, s.compilations, s.warnings)
    case RepairRun => Runs(m, s.repairs, s.warnings)
    case BuildRepairRun => Runs(m, s.buildRepairs, s.warnings)
    case Validation => Numbered(s.validations)
    case RepairIteration => Numbered(s.repairs)
    case BuildRepair => Numbered(s.buildRepairs)
    case BuildTrigger => Numbered(s.triggers)
    case CadSession => Sessions(|s.builds|)
    case CadOperation => Ones(Flat(s.builds))
  }

  const MEASURES := [InputTransfer, ReadingRun, CompilationRun, Validation, RepairIteration, RepairRun, CadSession,
                     CadOperation, BuildTrigger, BuildRepair, BuildRepairRun, ArtifactTransfer]

  function Parts(m: Measure, details: seq<seq<string>>): seq<seq<string>> {
    if details == [] then []
    else Parts(m, details[..|details| - 1]) + [[Tag(m).0, Tag(m).1] + details[|details| - 1]]
  }

  /** Everything measured, by kind: the order within an attempt does not matter to identities. */
  function Measured(s: Story, measures: seq<Measure>): seq<seq<string>> {
    if measures == [] then []
    else Measured(s, measures[..|measures| - 1]) + Parts(measures[|measures| - 1], Details(s, measures[|measures| - 1]))
  }

  function Keys(job: string, attempt: nat, parts: seq<seq<string>>): (k: seq<string>)
    ensures |k| == |parts| && forall i :: 0 <= i < |k| ==> k[i] == Key(job, attempt, parts[i])
  {
    if parts == [] then [] else Keys(job, attempt, parts[..|parts| - 1]) + [Key(job, attempt, parts[|parts| - 1])]
  }

  // ----- when they are told apart --------------------------------------------------------

  lemma DistinctSum<T>(a: seq<T>, b: seq<T>)
    ensures Distinct(a + b) <==> Distinct(a) && Distinct(b) && forall x :: x in a ==> x !in b
  {
    var s := a + b;
    assert forall i :: 0 <= i < |a| ==> s[i] == a[i];
    assert forall j :: 0 <= j < |b| ==> s[|a| + j] == b[j];
    if Distinct(s) {
      assert forall j :: 0 <= j < |b| ==> b[j] == s[|a| + j];
      forall x | x in a ensures x !in b {
        var i :| 0 <= i < |a| && s[i] == x;
      }
    } else {
      var i, j :| 0 <= i < j < |s| && s[i] == s[j];
      if i < |a| <= j { assert a[i] in a && b[j - |a|] in b; }
      if |a| <= i { assert b[i - |a|] == b[j - |a|]; }
    }
  }

  lemma DistinctOne<T>(a: seq<T>, x: T)
    ensures Distinct(a + [x]) <==> Distinct(a) && x !in a
  {
    DistinctSum(a, [x]);
    if x !in a { assert forall y :: y in a ==> y !in [x]; }
  }

  lemma {:induction false} OnesDistinct(s: seq<string>)
    ensures Distinct(Ones(s)) <==> Distinct(s)
    ensures forall x :: [x] in Ones(s) <==> x in s
  {
    if s != [] {
      var front, last := s[..|s| - 1], s[|s| - 1];
      OnesDistinct(front);
      DistinctOne(Ones(front), [last]);
      DistinctOne(front, last);
      assert front + [last] == s;
      forall x ensures [x] in Ones(s) <==> x in s { assert [x] == [last] <==> x == last by { assert [x][0] == x; } }
    }
  }

  /** The first part is a number up to `n`. */
  ghost predicate StartsWithin(d: seq<string>, n: nat) {
    d != [] && exists k :: 1 <= k <= n && d[0] == Decimal(k)
  }

  lemma NotYet(d: seq<string>, n: nat)
    requires n > 0 && StartsWithin(d, n - 1)
    ensures d[0] != Decimal(n) && StartsWithin(d, n)
  {
    var k :| 1 <= k <= n - 1 && d[0] == Decimal(k);
    if d[0] == Decimal(n) { DecimalInjective(k, n); }
  }

  lemma {:induction false} NumberedDistinct(n: nat)
    ensures Distinct(Numbered(n))
    ensures forall d :: d in Numbered(n) ==> StartsWithin(d, n)
  {
    if n > 0 {
      NumberedDistinct(n - 1);
      DistinctOne(Numbered(n - 1), [Decimal(n)]);
      forall d | d in Numbered(n - 1) ensures d[0] != Decimal(n) && StartsWithin(d, n) { NotYet(d, n); }
      assert StartsWithin([Decimal(n)], n);
    }
  }

  lemma RunDistinct(n: nat, w: Warnings)
    ensures Distinct(Run(n, w))
    ensures forall d :: d in Run(n, w) ==> d != [] && d[0] == Decimal(n)
  {
  }

  lemma {:induction false} RunsDistinct(m: Measure, n: nat, warnings: (Measure, nat) -> Warnings)
    ensures Distinct(Runs(m, n, warnings))
    ensures forall d :: d in Runs(m, n, warnings) ==> StartsWithin(d, n)
  {
    if n > 0 {
      var before, own := Runs(m, n - 1, warnings), Run(n, warnings(m, n));
      RunsDistinct(m, n - 1, warnings);
      RunDistinct(n, warnings(m, n));
      DistinctSum(before, own);
      forall d | d in before ensures d[0] != Decimal(n) && StartsWithin(d, n) { NotYet(d, n); }
      forall d | d in own ensures StartsWithin(d, n) { assert d[0] == Decimal(n); }
    }
  }

  lemma SessionsDistinct(n: nat)
    ensures Distinct(Sessions(n)) <==> n <= 1
  {
    if n >= 2 {
      var before := Sessions(n - 2);
      assert Sessions(n) == before + [["1"]] + [["1"]];
      assert Sessions(n)[|before|] == Sessions(n)[|before| + 1];
    }
  }

  /** Session and operation names start over with every build. */
  predicate NamesOnce(s: Story) {
    Distinct(s.inputs) && Distinct(s.artifacts) && |s.builds| <= 1 && Distinct(Flat(s.builds))
  }

  lemma DetailsDistinct(s: Story, m: Measure)
    ensures m == InputTransfer ==> (Distinct(Details(s, m)) <==> Distinct(s.inputs))
    ensures m == ArtifactTransfer ==> (Distinct(Details(s, m)) <==> Distinct(s.artifacts))
    ensures m == CadSession ==> (Distinct(Details(s, m)) <==> |s.builds| <= 1)
    ensures m == CadOperation ==> (Distinct(Details(s, m)) <==> Distinct(Flat(s.builds)))
    ensures m !in {InputTransfer, ArtifactTransfer, CadSession, CadOperation} ==> Distinct(Details(s, m))
  {
    match m
    case InputTransfer => OnesDistinct(s.inputs);
    case ArtifactTransfer => OnesDistinct(s.artifacts);
    case ReadingRun => RunsDistinct(m, s.readings, s.warnings);
    case CompilationRun => RunsDistinct(m, s.compilations, s.warnings);
    case RepairRun => RunsDistinct(m, s.repairs, s.warnings);
    case BuildRepairRun => RunsDistinct(m, s.buildRepairs, s.warnings);
    case Validation => NumberedDistinct(s.validations);
    case RepairIteration => NumberedDistinct(s.repairs);
    case BuildRepair => NumberedDistinct(s.buildRepairs);
    case BuildTrigger => NumberedDistinct(s.triggers);
    case CadSession => SessionsDistinct(|s.builds|);
    case CadOperation => OnesDistinct(Flat(s.builds));
  }

  lemma TagsDiffer(m: Measure, m': Measure)
    requires Tag(m) == Tag(m')
    ensures m == m'
  {
  }

  lemma {:induction false} PartsDistinct(m: Measure, details: seq<seq<string>>)
    ensures Distinct(Parts(m, details)) <==> Distinct(details)
    ensures forall p :: p in Parts(m, details) ==> |p| >= 2 && (p[0], p[1]) == Tag(m)
    ensures forall d :: [Tag(m).0, Tag(m).1] + d in Parts(m, details) <==> d in details
  {
    if details != [] {
      var front, last := details[..|details| - 1], details[|details| - 1];
      var tag := [Tag(m).0, Tag(m).1];
      PartsDistinct(m, front);
      DistinctOne(front, last);
      DistinctOne(Parts(m, front), tag + last);
      assert front + [last] == details;
      forall d ensures tag + d == tag + last <==> d == last { assert (tag + d)[2..] == d && (tag + last)[2..] == last; }
    }
  }

  lemma {:induction false} MeasuredDistinct(s: Story, measures: seq<Measure>)
    requires Distinct(measures)
    ensures Distinct(Measured(s, measures)) <==> forall m :: m in measures ==> Distinct(Details(s, m))
    ensures forall p :: p in Measured(s, measures) ==> |p| >= 2 && exists m :: m in measures && (p[0], p[1]) == Tag(m)
  {
    if measures != [] {
      var front, last := measures[..|measures| - 1], measures[|measures| - 1];
      MeasuredDistinct(s, front);
      PartsDistinct(last, Details(s, last));
      DistinctOne(front, last);
      assert front + [last] == measures;
      var before, own := Measured(s, front), Parts(last, Details(s, last));
      DistinctSum(before, own);
      forall p | p in before ensures p !in own {
        var m :| m in front && (p[0], p[1]) == Tag(m);
        if p in own { TagsDiffer(m, last); }
      }
    }
  }

  lemma KeysDistinct(job: string, attempt: nat, parts: seq<seq<string>>)
    requires SEPARATOR !in job && forall p :: p in parts ==> Clean(p)
    ensures Distinct(Keys(job, attempt, parts)) <==> Distinct(parts)
  {
    var keys := Keys(job, attempt, parts);
    forall i, j | 0 <= i < j < |parts| ensures keys[i] == keys[j] <==> parts[i] == parts[j] {
      assert Clean(parts[i]) && Clean(parts[j]);
      if keys[i] == keys[j] { KeyInjective(job, attempt, parts[i], job, attempt, parts[j]); }
    }
  }

  lemma MeasuresDistinct()
    ensures Distinct(MEASURES)
  {
  }

  lemma AllDetailsDistinct(s: Story)
    ensures (forall m :: m in MEASURES ==> Distinct(Details(s, m))) <==> NamesOnce(s)
  {
    EveryMeasure(InputTransfer);
    EveryMeasure(ArtifactTransfer);
    EveryMeasure(CadSession);
    EveryMeasure(CadOperation);
    DetailsDistinct(s, InputTransfer);
    DetailsDistinct(s, ArtifactTransfer);
    DetailsDistinct(s, CadSession);
    DetailsDistinct(s, CadOperation);
    if NamesOnce(s) {
      forall m | m in MEASURES ensures Distinct(Details(s, m)) { DetailsDistinct(s, m); }
    }
  }

  /** All measurements of an attempt are told apart exactly when no file kind was sent twice either
      way, at most one build ran, and that build named no operation twice. */
  lemma AttemptKeysDistinct(job: string, attempt: nat, s: Story)
    requires SEPARATOR !in job && forall p :: p in Measured(s, MEASURES) ==> Clean(p)
    ensures Distinct(Keys(job, attempt, Measured(s, MEASURES))) <==> NamesOnce(s)
  {
    KeysDistinct(job, attempt, Measured(s, MEASURES));
    MeasuresDistinct();
    MeasuredDistinct(s, MEASURES);
    AllDetailsDistinct(s);
  }

  lemma EveryMeasure(m: Measure)
    ensures m in MEASURES
  {
    assert MEASURES[0] == InputTransfer && MEASURES[1] == ReadingRun && MEASURES[2] == CompilationRun
           && MEASURES[3] == Validation && MEASURES[4] == RepairIteration && MEASURES[5] == RepairRun
           && MEASURES[6] == CadSession && MEASURES[7] == CadOperation && MEASURES[8] == BuildTrigger
           && MEASURES[9] == BuildRepair && MEASURES[10] == BuildRepairRun && MEASURES[11] == ArtifactTransfer;
  }

  /** Measurements of different attempts at a job are always told apart. */
  lemma AttemptsNeverCollide(job: string, attempt: nat, attempt': nat, p: seq<string>, p': seq<string>)
    requires SEPARATOR !in job && Clean(p) && Clean(p') && attempt != attempt'
    ensures Key(job, attempt, p) != Key(job, attempt', p')
  {
    if Key(job, attempt, p) == Key(job, attempt', p') { KeyInjective(job, attempt, p, job, attempt', p'); }
  }
}
