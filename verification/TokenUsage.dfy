/** Token usage: scanning back for the last completion that reports it. */
module TokenUsage {
  import opened Prelude
  import opened CodexEvents

  /** Every count stays absent unless it was reported. */
  datatype Reading = Reading(input: Option<int>, cached: Option<int>, output: Option<int>, reasoning: Option<int>,
                             total: Option<int>)
  {
    predicate HasTokens() { input.Some? || output.Some? || reasoning.Some? || total.Some? }
  }

  function Reported(usage: Json, name: string): Option<int> {
    match Property(usage, name) case Some(Num(Some(n))) => if n >= 0 then Some(n) else None case _ => None
  }

  function ReadingOf(usage: Json): Reading {
    Reading(Reported(usage, "input_tokens"), Reported(usage, "cached_input_tokens"), Reported(usage, "output_tokens"),
            if Reported(usage, "reasoning_output_tokens").Some? then Reported(usage, "reasoning_output_tokens")
            else Reported(usage, "reasoning_tokens"),
            Reported(usage, "total_tokens"))
  }

  /** What scanning back finds at a line: the usage a completion reports, or a type that is no
      string, which throws. */
  function Report(read: Reader, line: string): Option<Result<Json, Failure>> {
    match read(line)
    case None => None
    case Some(event) =>
      if !event.Object? then None
      else if !Stringlike(Property(event, "type")) then Some(Err(Crashed("InvalidOperationException")))
      else if TypeOf(event) == Some("turn.completed")
              && Property(event, "usage").Some? && Property(event, "usage").value.Object?
      then Some(Ok(Property(event, "usage").value)) else None
  }

  /** The last line at which anything is found. */
  function LastReport(read: Reader, output: seq<string>): Option<Result<Json, Failure>> {
    if output == [] then None
    else if Report(read, output[|output| - 1]).Some? then Report(read, output[|output| - 1])
    else LastReport(read, output[..|output| - 1])
  }

  /** No reading is the unknown reading. */
  function Parse(read: Reader, output: seq<string>): Result<Option<Reading>, Failure> {
    match LastReport(read, output)
    case None => Ok(None)
    case Some(Err(e)) => Err(e)
    case Some(Ok(usage)) => Ok(Some(ReadingOf(usage)))
  }

  method ParseStructured(read: Reader, output: seq<string>) returns (reading: Result<Option<Reading>, Failure>)
    ensures reading == Parse(read, output)
  {
    var index := |output|;
    assert output[..index] == output;
    while index > 0
      invariant 0 <= index <= |output|
      invariant LastReport(read, output) == LastReport(read, output[..index])
    {
      index := index - 1;
      assert output[..index + 1][..index] == output[..index];
      var found := Report(read, output[index]);
      if found.Some? {
        return match found.value case Ok(usage) => Ok(Some(ReadingOf(usage))) case Err(e) => Err(e);
      }
    }
    reading := Ok(None);
  }

  // ----- the bounded window against the whole stream -------------------------------------

  predicate IsCompletion(read: Reader, line: string) {
    read(line).Some? && TypeOf(read(line).value) == Some("turn.completed")
  }

  function Completions(read: Reader, lines: seq<string>): seq<string> {
    if lines == [] then []
    else Completions(read, lines[..|lines| - 1])
         + (if IsCompletion(read, lines[|lines| - 1]) then [lines[|lines| - 1]] else [])
  }

  function LastLines(lines: seq<string>): seq<string> {
    if |lines| <= TAIL_LINES then lines else lines[|lines| - TAIL_LINES..]
  }

  lemma {:induction false} LastReportAppend(read: Reader, a: seq<string>, b: seq<string>)
    ensures LastReport(read, a + b) == if LastReport(read, b).Some? then LastReport(read, b) else LastReport(read, a)
  {
    if b == [] {
      assert a + b == a;
    } else {
      assert (a + b)[..|a + b| - 1] == a + b[..|b| - 1];
      LastReportAppend(read, a, b[..|b| - 1]);
    }
  }

  lemma LastReportOne(read: Reader, line: string)
    ensures LastReport(read, [line]) == Report(read, line)
  {
    assert [line][..0] == [];
  }

  /** Whatever the scan finds in these lines, it finds at a completion and can read. */
  predicate Readable(read: Reader, lines: seq<string>) {
    forall line :: line in lines && Report(read, line).Some? ==>
      IsCompletion(read, line) && Report(read, line).value.Ok?
  }

  lemma {:induction false} CompletionsReportTheSame(read: Reader, lines: seq<string>)
    requires Readable(read, lines)
    ensures LastReport(read, Completions(read, lines)) == LastReport(read, lines)
    ensures LastReport(read, lines).Some? ==> LastReport(read, lines).value.Ok?
  {
    if lines != [] {
      var front, last := lines[..|lines| - 1], lines[|lines| - 1];
      CompletionsReportTheSame(read, front);
      if IsCompletion(read, last) {
        assert Completions(read, lines) == Completions(read, front) + [last];
        LastReportAppend(read, Completions(read, front), [last]);
        LastReportOne(read, last);
      } else {
        assert Completions(read, lines) == Completions(read, front);
      }
    }
  }

  lemma {:induction false} AcceptedIsReadable(read: Reader, lines: seq<string>)
    requires After(read, lines).Some?
    ensures Readable(read, lines)
  {
    if lines != [] {
      AcceptedIsReadable(read, lines[..|lines| - 1]);
      AcceptedLine(read, After(read, lines[..|lines| - 1]).value, lines[|lines| - 1]);
    }
  }

  /** What accepting a line keeps of it. An accepted line is one the scan can read. */
  lemma AcceptedLine(read: Reader, s: State, line: string)
    requires Accept(read, s, line).1.None?
    ensures Accept(read, s, line).0.tail == Enqueued(s.tail, line)
    ensures Accept(read, s, line).0.completions == s.completions + if IsCompletion(read, line) then [line] else []
    ensures Report(read, line).Some? ==> IsCompletion(read, line) && Report(read, line).value.Ok?
  {
  }

  lemma NextTail(lines: seq<string>)
    requires lines != []
    ensures LastLines(lines) == Enqueued(LastLines(lines[..|lines| - 1]), lines[|lines| - 1])
  {
  }

  /** The parser has kept exactly every completion, and the last twenty lines. */
  lemma {:induction false} WindowExact(read: Reader, lines: seq<string>)
    requires After(read, lines).Some?
    ensures After(read, lines).value.completions == Completions(read, lines)
    ensures After(read, lines).value.tail == LastLines(lines)
    ensures Candidates(After(read, lines).value)
         == Completions(read, lines) + if |lines| <= 20 then lines else lines[|lines| - 20..]
  {
    if lines != [] {
      var front, last := lines[..|lines| - 1], lines[|lines| - 1];
      WindowExact(read, front);
      AcceptedLine(read, After(read, front).value, last);
      NextTail(lines);
    }
  }

  /** The bounded window reads what scanning the whole stream backwards reads, although lines of
      the tail may stand among the completions too. */
  lemma WindowReadsTheWholeStream(read: Reader, lines: seq<string>)
    requires After(read, lines).Some?
    ensures Parse(read, Candidates(After(read, lines).value)) == Parse(read, lines)
  {
    var tail := LastLines(lines);
    var front := lines[..|lines| - |tail|];
    WindowExact(read, lines);
    AcceptedIsReadable(read, lines);
    CompletionsReportTheSame(read, lines);
    LastReportAppend(read, Completions(read, lines), tail);
    assert front + tail == lines;
    LastReportAppend(read, front, tail);
  }

  // ----- the running total against the reading -------------------------------------------

  /** A positive running count is the count read; a count read is the running one. */
  predicate Agrees(running: int, reading: Option<int>) {
    (running > 0 ==> reading == Some(running)) && (reading.Some? ==> running == reading.value)
  }

  predicate UsageAgrees(u: Usage, r: Reading) {
    && Agrees(u.input, r.input) && Agrees(u.cached, r.cached) && Agrees(u.output, r.output)
    && (u.reasoning > 0 ==> r.reasoning == Some(u.reasoning))
  }

  lemma OneReportAgrees(usage: Json)
    ensures UsageAgrees(UsageOf(usage), ReadingOf(usage))
  {
  }

  /** The running total is that of the last completion that reported one. */
  lemma {:induction false} RunningUsageIsTheLast(read: Reader, lines: seq<string>)
    requires After(read, lines).Some?
    ensures After(read, lines).value.usage
         == match LastReport(read, lines) case Some(Ok(usage)) => Some(UsageOf(usage)) case _ => None
  {
    if lines != [] {
      var front, last := lines[..|lines| - 1], lines[|lines| - 1];
      RunningUsageIsTheLast(read, front);
      var s := After(read, front).value;
      assert After(read, lines).value == Accept(read, s, last).0;
    }
  }

  /** Both ways of learning the usage agree on every accepted stream. */
  lemma RunningUsageAgrees(read: Reader, lines: seq<string>)
    requires After(read, lines).Some?
    ensures var s := After(read, lines).value;
            && Parse(read, Candidates(s)).Ok?
            && (s.usage.Some? <==> Parse(read, Candidates(s)).value.Some?)
            && (s.usage.Some? ==> UsageAgrees(s.usage.value, Parse(read, Candidates(s)).value.value))
  {
    AcceptedIsReadable(read, lines);
    CompletionsReportTheSame(read, lines);
    WindowReadsTheWholeStream(read, lines);
    RunningUsageIsTheLast(read, lines);
    if LastReport(read, lines).Some? { OneReportAgrees(LastReport(read, lines).value.value); }
  }

  // ----- the registry --------------------------------------------------------------------

  /** What an order's ledger is told: the reading, the parser it came from, and whether this build
      knows the version of the CLI. */
  datatype Resolution = Resolution(reading: Option<Reading>, parser: Option<string>, known: bool)
  {
    predicate RequiresWarning() { !known || reading.None? }
  }

  /** The structured parser, for a stream of JSON lines; then the parser of human summaries, whose
      insides are not modelled. A parser that finds no tokens gives way to the next. */
  function Resolve(read: Reader, summary: seq<string> -> Option<Reading>, jsonl: bool, known: bool,
                   output: seq<string>): Result<Resolution, Failure>
  {
    match if jsonl then Parse(read, output) else Ok(None)
    case Err(e) => Err(e)
    case Ok(found) =>
      if found.Some? && found.value.HasTokens() then Ok(Resolution(found, Some("structured-jsonl"), known))
      else if summary(output).Some? && summary(output).value.HasTokens()
      then Ok(Resolution(summary(output), Some("summary-text"), known))
      else Ok(Resolution(None, None, known))
  }

  predicate ReportsTokens(read: Reader, lines: seq<string>) {
    Parse(read, lines).Ok? && Parse(read, lines).value.Some? && Parse(read, lines).value.value.HasTokens()
  }

  /** On an accepted stream the window settles for the structured parser exactly when the last completion
      of the whole stream that reports usage reports tokens, and then the two resolve alike, with a
      warning only for an unknown version. */
  lemma WindowResolvesAlike(read: Reader, summary: seq<string> -> Option<Reading>, known: bool, lines: seq<string>)
    requires After(read, lines).Some?
    ensures var window := Candidates(After(read, lines).value);
            && Resolve(read, summary, true, known, window).Ok?
            && (Resolve(read, summary, true, known, window).value.parser == Some("structured-jsonl")
                <==> ReportsTokens(read, lines))
            && (ReportsTokens(read, lines) ==>
                  Resolve(read, summary, true, known, window) == Resolve(read, summary, true, known, lines)
                  && Resolve(read, summary, true, known, window).value.RequiresWarning() == !known)
  {
    WindowReadsTheWholeStream(read, lines);
    AcceptedIsReadable(read, lines);
    CompletionsReportTheSame(read, lines);
  }

  // ----- failures and tools --------------------------------------------------------------

  predicate Fails(read: Reader, line: string) {
    read(line).Some? && (TypeOf(read(line).value) == Some("turn.failed") || TypeOf(read(line).value) == Some("error"))
  }

  function ErrorsOf(read: Reader, lines: seq<string>): string {
    if lines == [] then ""
    else ErrorsOf(read, lines[..|lines| - 1]) + if Fails(read, lines[|lines| - 1]) then lines[|lines| - 1] else ""
  }

  predicate UsesTool(read: Reader, line: string) {
    && read(line).Some?
    && (TypeOf(read(line).value) == Some("item.started") || TypeOf(read(line).value) == Some("item.completed"))
    && Property(read(line).value, "item").Some?
    && TypeOf(Property(read(line).value, "item").value).Some?
    && TypeOf(Property(read(line).value, "item").value).value
       in {"command_execution", "file_change", "mcp_tool_call", "web_search"}
  }

  lemma LineFlags(read: Reader, s: State, line: string)
    requires Accept(read, s, line).1.None?
    ensures var e := Accept(read, s, line).0;
            && e.failed == (s.failed || Fails(read, line))
            && e.errorText == s.errorText + (if Fails(read, line) then line else "")
            && e.toolUse == (s.toolUse || UsesTool(read, line))
  {
  }

  /** A run is a failure exactly when a line says so, its text is those lines in order, and a tool
      was used exactly when some item names one. */
  lemma {:induction false} FlagsExact(read: Reader, lines: seq<string>)
    requires After(read, lines).Some?
    ensures var s := After(read, lines).value;
            && (s.failed <==> exists i :: 0 <= i < |lines| && Fails(read, lines[i]))
            && s.errorText == ErrorsOf(read, lines)
            && (s.toolUse <==> exists i :: 0 <= i < |lines| && UsesTool(read, lines[i]))
  {
    hide Accept, Fails, UsesTool;
    if lines != [] {
      var n := |lines| - 1;
      var front, last := lines[..n], lines[n];
      FlagsExact(read, front);
      LineFlags(read, After(read, front).value, last);
      if i :| 0 <= i < n && Fails(read, front[i]) { assert lines[i] == front[i]; }
      if i :| 0 <= i < n && UsesTool(read, front[i]) { assert lines[i] == front[i]; }
      if i :| 0 <= i <= n && Fails(read, lines[i]) { if i < n { assert lines[i] == front[i]; } }
      if i :| 0 <= i <= n && UsesTool(read, lines[i]) { if i < n { assert lines[i] == front[i]; } }
    }
  }
}
