/** What an accepted stream says, line by line, and what is read from it. */
module UsageReading {
  import opened Prelude
  import opened CodexEvents
  import opened TokenUsage

  // ----- which streams are accepted ------------------------------------------------------

  /** A line the parser can take: an object whose type, and whose thread's or item's, is text when it
      is there, and whose usage is an object. */
  predicate Fit(read: Reader, line: string) {
    match read(line)
    case Some(Object(fields)) =>
      var kind := StringOf(Get(fields, "type"));
      && Stringlike(Get(fields, "type"))
      && (kind == Some("thread.started") ==> Stringlike(Get(fields, "thread_id")))
      && (kind == Some("turn.completed") && Get(fields, "usage").Some? ==> Get(fields, "usage").value.Object?)
      && (kind in {Some("item.started"), Some("item.completed")} && Get(fields, "item").Some? ==>
            Get(fields, "item").value.Object? && Stringlike(Get(Get(fields, "item").value.fields, "type")))
    case _ => false
  }

  /** A line that is no JSON is a protocol error, an unfit one an exception of the JSON library. */
  lemma AcceptedExactly(read: Reader, s: State, line: string)
    ensures var failure := Accept(read, s, line).1;
            && (failure.None? <==> Fit(read, line))
            && (failure == Some(Refused("CODEX_PROTOCOL_INVALID")) <==> read(line).None?)
            && (failure.Some? && read(line).Some? ==> failure.value == Crashed("InvalidOperationException"))
  {
    hide ModelOf, EffortOf, OrElse, UsageOf;
  }

  lemma {:induction false} StreamAccepted(read: Reader, lines: seq<string>)
    ensures After(read, lines).Some? <==> forall i :: 0 <= i < |lines| ==> Fit(read, lines[i])
  {
    hide Fit, Accept;
    if lines != [] {
      var n := |lines| - 1;
      StreamAccepted(read, lines[..n]);
      assert forall i :: 0 <= i < n ==> lines[..n][i] == lines[i];
      if After(read, lines[..n]).Some? { AcceptedExactly(read, After(read, lines[..n]).value, lines[n]); }
    }
  }

  // ----- the counts ----------------------------------------------------------------------

  /** A count that is a 64-bit integer and not negative, or none. */
  ghost predicate Said(usage: Json, name: string, count: Option<int>) {
    match count
    case Some(n) => n >= 0 && Property(usage, name) == Some(Num(Some(n)))
    case None => forall n :: n >= 0 ==> Property(usage, name) != Some(Num(Some(n)))
  }

  /** A reading of what one report of usage says; the reasoning may go by either of two names. */
  ghost predicate Reads(usage: Json, r: Reading) {
    && Said(usage, "input_tokens", r.input) && Said(usage, "cached_input_tokens", r.cached)
    && Said(usage, "output_tokens", r.output) && Said(usage, "total_tokens", r.total)
    && (Said(usage, "reasoning_output_tokens", r.reasoning)
        || (Said(usage, "reasoning_output_tokens", None) && Said(usage, "reasoning_tokens", r.reasoning)))
    && (r.reasoning.None? ==> Said(usage, "reasoning_tokens", None))
  }

  lemma SaidOnce(usage: Json, name: string, count: Option<int>)
    ensures Said(usage, name, count) <==> count == Reported(usage, name)
  {
  }

  lemma OneReading(usage: Json, r: Reading)
    ensures Reads(usage, r) <==> r == ReadingOf(usage)
  {
    hide Reported, Said;
    SaidOnce(usage, "input_tokens", r.input);
    SaidOnce(usage, "cached_input_tokens", r.cached);
    SaidOnce(usage, "output_tokens", r.output);
    SaidOnce(usage, "total_tokens", r.total);
    SaidOnce(usage, "reasoning_output_tokens", r.reasoning);
    SaidOnce(usage, "reasoning_tokens", r.reasoning);
    SaidOnce(usage, "reasoning_output_tokens", None);
    SaidOnce(usage, "reasoning_tokens", None);
  }

  /** A completion that reports this usage. */
  predicate Reporting(read: Reader, line: string, usage: Json) {
    match read(line)
    case Some(Object(fields)) =>
      Get(fields, "type") == Some(Text("turn.completed")) && Get(fields, "usage") == Some(usage) && usage.Object?
    case _ => false
  }

  ghost predicate Silent(read: Reader, lines: seq<string>) {
    forall i, usage :: 0 <= i < |lines| ==> !Reporting(read, lines[i], usage)
  }

  /** No later line reports any. */
  ghost predicate LastReporting(read: Reader, lines: seq<string>, i: nat, usage: Json) {
    i < |lines| && Reporting(read, lines[i], usage) && Silent(read, lines[i + 1..])
  }

  lemma ReportOfLine(read: Reader, line: string, usage: Json)
    requires Report(read, line).Some? ==> Report(read, line).value.Ok?
    ensures Report(read, line) == Some(Ok(usage)) <==> Reporting(read, line, usage)
  {
  }

  lemma SilentMore(read: Reader, front: seq<string>, last: string)
    requires Silent(read, front) && forall usage :: !Reporting(read, last, usage)
    ensures Silent(read, front + [last])
  {
  }

  /** Nothing found where nothing reports, or the usage of the last that does. */
  ghost predicate LastFound(read: Reader, lines: seq<string>, found: Option<Result<Json, Failure>>) {
    if found.None? then Silent(read, lines)
    else found.value.Ok? && exists i: nat :: LastReporting(read, lines, i, found.value.value)
  }

  lemma FoundOnLine(read: Reader, front: seq<string>, last: string, usage: Json)
    requires Report(read, last) == Some(Ok(usage))
    ensures LastReporting(read, front + [last], |front|, usage)
  {
    ReportOfLine(read, last, usage);
    assert (front + [last])[|front| + 1..] == [];
  }

  lemma FoundBefore(read: Reader, front: seq<string>, last: string, found: Option<Result<Json, Failure>>)
    requires LastFound(read, front, found) && Report(read, last).None?
    ensures LastFound(read, front + [last], found)
  {
    hide Report, Reporting;
    var lines := front + [last];
    forall usage ensures !Reporting(read, last, usage) { ReportOfLine(read, last, usage); }
    if found.Some? {
      var usage := found.value.value;
      var i: nat :| LastReporting(read, front, i, usage);
      SilentMore(read, front[i + 1..], last);
      assert lines[i] == front[i] && lines[i + 1..] == front[i + 1..] + [last];
      assert LastReporting(read, lines, i, usage);
    } else {
      SilentMore(read, front, last);
    }
  }

  lemma {:induction false} LastReportIs(read: Reader, lines: seq<string>)
    requires forall line :: line in lines && Report(read, line).Some? ==> Report(read, line).value.Ok?
    ensures LastFound(read, lines, LastReport(read, lines))
  {
    hide Report;
    if lines != [] {
      var front, last := lines[..|lines| - 1], lines[|lines| - 1];
      LastReportIs(read, front);
      assert front + [last] == lines && last in lines;
      if Report(read, last).Some? {
        FoundOnLine(read, front, last, Report(read, last).value.value);
      } else {
        FoundBefore(read, front, last, LastReport(read, front));
      }
    }
  }

  /** From the bounded window the counts are those of the last completion in the whole stream that
      reports usage, by the names it gives them, and there is no reading exactly when none reports. */
  lemma WindowCounts(read: Reader, lines: seq<string>)
    requires After(read, lines).Some?
    ensures var reading := Parse(read, Candidates(After(read, lines).value));
            && reading.Ok?
            && (reading.value.None? ==> Silent(read, lines))
            && (reading.value.Some? ==>
                  exists i: nat, usage :: LastReporting(read, lines, i, usage) && Reads(usage, reading.value.value))
  {
    WindowReadsTheWholeStream(read, lines);
    AcceptedIsReadable(read, lines);
    LastReportIs(read, lines);
    if LastReport(read, lines).Some? {
      var usage := LastReport(read, lines).value.value;
      OneReading(usage, ReadingOf(usage));
    }
  }

  /** A count as the running total has it: what is not an integer is a zero. */
  ghost predicate CountedAs(usage: Json, name: string, n: int) {
    Property(usage, name) == Some(Num(Some(n)))
    || (n == 0 && forall m :: Property(usage, name) != Some(Num(Some(m))))
  }

  lemma CountsAs(usage: Json, name: string)
    ensures CountedAs(usage, name, Count(usage, name))
  {
  }

  /** The running total is that of the last completion that reported usage, and is there exactly when one
      did. */
  lemma RunningCounts(read: Reader, lines: seq<string>)
    requires After(read, lines).Some?
    ensures match After(read, lines).value.usage
            case None => Silent(read, lines)
            case Some(Usage(input, cached, output, reasoning)) =>
              exists i: nat, usage :: LastReporting(read, lines, i, usage)
                && CountedAs(usage, "input_tokens", input) && CountedAs(usage, "cached_input_tokens", cached)
                && CountedAs(usage, "output_tokens", output)
                && CountedAs(usage, "reasoning_output_tokens", reasoning)
  {
    hide LastReporting, CountedAs, Count, Accept;
    AcceptedIsReadable(read, lines);
    LastReportIs(read, lines);
    RunningUsageIsTheLast(read, lines);
    if LastReport(read, lines).Some? {
      var usage := LastReport(read, lines).value.value;
      CountsAs(usage, "input_tokens");
      CountsAs(usage, "cached_input_tokens");
      CountsAs(usage, "output_tokens");
      CountsAs(usage, "reasoning_output_tokens");
    }
  }

  // ----- which parser is believed --------------------------------------------------------

  /** The tokens a reading must have for its parser to be believed: cached ones alone do not do. */
  predicate Counted(reading: Option<Reading>) {
    match reading
    case None => false
    case Some(Reading(input, _, output, reasoning, total)) => !(input == output == reasoning == total == None)
  }

  /** Only a stream of JSON lines is read as one; the first of the two parsers that counts anything is
      believed, by name; a warning is due exactly when none does or the version is not known. */
  lemma FirstThatCounts(read: Reader, summary: seq<string> -> Option<Reading>, jsonl: bool, known: bool,
                        output: seq<string>)
    ensures var structured, r := Parse(read, output), Resolve(read, summary, jsonl, known, output);
            && (r.Err? <==> jsonl && structured.Err?)
            && (r.Ok? && jsonl && Counted(structured.value) ==>
                  r.value.parser == Some("structured-jsonl") && r.value.reading == structured.value)
            && (r.Ok? && !(jsonl && Counted(structured.value)) && Counted(summary(output)) ==>
                  r.value.parser == Some("summary-text") && r.value.reading == summary(output))
            && (r.Ok? && !(jsonl && Counted(structured.value)) && !Counted(summary(output)) ==>
                  r.value.parser.None? && r.value.reading.None?)
            && (r.Ok? ==> (r.value.RequiresWarning() <==> !known || !Counted(r.value.reading)))
  {
  }

  // ----- who answers ---------------------------------------------------------------------

  /** What a line says of something. */
  type Saying = string -> Option<string>

  predicate FirstSays(says: Saying, lines: seq<string>, i: nat) {
    i < |lines| && says(lines[i]).Some? && forall j :: 0 <= j < i ==> says(lines[j]).None?
  }

  /** What the first line that says anything says, or nothing when none does. */
  ghost predicate FirstSaid(says: Saying, lines: seq<string>, what: Option<string>) {
    if what.Some? then exists i :: 0 <= i < |lines| && FirstSays(says, lines, i) && says(lines[i]) == what
    else forall i :: 0 <= i < |lines| ==> says(lines[i]).None?
  }

  lemma OneMoreLine(says: Saying, front: seq<string>, last: string, what: Option<string>)
    requires FirstSaid(says, front, what)
    ensures FirstSaid(says, front + [last], OrElse(what, says(last)))
  {
    var lines := front + [last];
    assert forall i :: 0 <= i < |front| ==> lines[i] == front[i];
    if what.Some? {
      var i :| 0 <= i < |front| && FirstSays(says, front, i) && says(front[i]) == what;
      assert FirstSays(says, lines, i);
    } else if says(last).Some? {
      assert FirstSays(says, lines, |front|);
    }
  }

  /** The first of some names of an object whose value is a string. */
  function Stated(v: Json, names: seq<string>): Option<string> {
    if !v.Object? || names == [] then None
    else match Get(v.fields, names[0])
      case Some(Text(text)) => Some(text)
      case _ => Stated(v, names[1..])
  }

  /** What a line states under some names, or else under others in its turn. */
  function StatedAt(read: Reader, names: seq<string>, inTurn: seq<string>): Saying {
    line =>
      if read(line).None? then None
      else if Stated(read(line).value, names).Some? then Stated(read(line).value, names)
      else match Property(read(line).value, "turn")
        case Some(turn) => Stated(turn, inTurn)
        case None => None
  }

  function ModelAt(read: Reader): Saying { StatedAt(read, ["model"], ["model"]) }

  function EffortAt(read: Reader): Saying {
    StatedAt(read, ["reasoning_effort", "model_reasoning_effort"], ["reasoning_effort"])
  }

  lemma StatedOne(v: Json, name: string)
    ensures Stated(v, [name]) == TextOf(v, name)
  {
    assert [name][1..] == [];
  }

  lemma StatedTwo(v: Json, first: string, second: string)
    ensures Stated(v, [first, second]) == OrElse(TextOf(v, first), TextOf(v, second))
  {
    assert [first, second][1..] == [second];
    StatedOne(v, second);
  }

  lemma AcceptedSays(read: Reader, s: State, line: string)
    requires Accept(read, s, line).1.None?
    ensures read(line).Some? && read(line).value.Object?
    ensures Accept(read, s, line).0.model == OrElse(s.model, ModelOf(read(line).value))
    ensures Accept(read, s, line).0.effort == OrElse(s.effort, EffortOf(read(line).value))
  {
    hide ModelOf, EffortOf, OrElse;
  }

  lemma ModelSaid(read: Reader, line: string)
    requires read(line).Some?
    ensures ModelAt(read)(line) == ModelOf(read(line).value)
  {
    hide Stated, TextOf;
    var event := read(line).value;
    StatedOne(event, "model");
    if Property(event, "turn").Some? { StatedOne(Property(event, "turn").value, "model"); }
  }

  lemma EffortSaid(read: Reader, line: string)
    requires read(line).Some?
    ensures EffortAt(read)(line) == EffortOf(read(line).value)
  {
    hide Stated, TextOf;
    var event := read(line).value;
    StatedTwo(event, "reasoning_effort", "model_reasoning_effort");
    if Property(event, "turn").Some? { StatedOne(Property(event, "turn").value, "reasoning_effort"); }
  }

  /** A CLI that starts reporting its model or its effort is believed from the first line that does. */
  lemma {:induction false} ObservedIsFirst(read: Reader, lines: seq<string>)
    requires After(read, lines).Some?
    ensures FirstSaid(ModelAt(read), lines, After(read, lines).value.model)
    ensures FirstSaid(EffortAt(read), lines, After(read, lines).value.effort)
  {
    hide Accept, ModelAt, EffortAt, ModelOf, EffortOf;
    if lines != [] {
      var front, last := lines[..|lines| - 1], lines[|lines| - 1];
      ObservedIsFirst(read, front);
      AcceptedSays(read, After(read, front).value, last);
      ModelSaid(read, last);
      EffortSaid(read, last);
      OneMoreLine(ModelAt(read), front, last, After(read, front).value.model);
      OneMoreLine(EffortAt(read), front, last, After(read, front).value.effort);
      assert front + [last] == lines;
    }
  }

  // ----- the thread ----------------------------------------------------------------------

  /** A line that starts a thread and says which; a null is no name. */
  predicate Starts(read: Reader, line: string, thread: Option<string>) {
    match read(line)
    case Some(Object(fields)) =>
      && Get(fields, "type") == Some(Text("thread.started"))
      && (match Get(fields, "thread_id")
          case Some(Text(text)) => thread == Some(text)
          case Some(Null) => thread.None?
          case _ => false)
    case _ => false
  }

  lemma AcceptedThread(read: Reader, s: State, line: string)
    requires Accept(read, s, line).1.None?
    ensures Starts(read, line, Accept(read, s, line).0.threadId)
            || (Accept(read, s, line).0.threadId == s.threadId && forall thread :: !Starts(read, line, thread))
  {
  }

  ghost predicate NoThread(read: Reader, lines: seq<string>) {
    forall i, thread :: 0 <= i < |lines| ==> !Starts(read, lines[i], thread)
  }

  ghost predicate LastStarted(read: Reader, lines: seq<string>, thread: Option<string>) {
    exists i :: 0 <= i < |lines| && Starts(read, lines[i], thread) && NoThread(read, lines[i + 1..])
  }

  lemma StartedOnLine(read: Reader, front: seq<string>, last: string, thread: Option<string>)
    requires Starts(read, last, thread)
    ensures LastStarted(read, front + [last], thread)
  {
    hide Starts;
    var lines := front + [last];
    assert lines[|front|] == last && lines[|front| + 1..] == [];
  }

  lemma StartedBefore(read: Reader, front: seq<string>, last: string, thread: Option<string>)
    requires forall other :: !Starts(read, last, other)
    ensures NoThread(read, front) ==> NoThread(read, front + [last])
    ensures LastStarted(read, front, thread) ==> LastStarted(read, front + [last], thread)
  {
    hide Starts;
    var lines := front + [last];
    if i :| 0 <= i < |front| && Starts(read, front[i], thread) && NoThread(read, front[i + 1..]) {
      assert lines[i] == front[i] && lines[i + 1..] == front[i + 1..] + [last];
      assert NoThread(read, lines[i + 1..]);
    }
  }

  /** The thread is the one the last line that starts one names, or none when no line starts one. */
  lemma {:induction false} ThreadIsLast(read: Reader, lines: seq<string>)
    requires After(read, lines).Some?
    ensures var thread := After(read, lines).value.threadId;
            (thread.None? && NoThread(read, lines)) || LastStarted(read, lines, thread)
  {
    hide Starts, Accept;
    if lines != [] {
      var front, last := lines[..|lines| - 1], lines[|lines| - 1];
      ThreadIsLast(read, front);
      var before, thread := After(read, front).value, After(read, lines).value.threadId;
      AcceptedThread(read, before, last);
      assert front + [last] == lines;
      if Starts(read, last, thread) {
        StartedOnLine(read, front, last, thread);
      } else {
        StartedBefore(read, front, last, thread);
      }
    }
  }
}
