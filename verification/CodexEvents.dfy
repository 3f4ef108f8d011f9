/** Reading a CLI's event stream line by line, keeping only what is needed to find the token usage
    near its end. */
module CodexEvents {
  import opened Prelude

  /** A JSON value. A number that is not a 64-bit integer keeps no value. */
  datatype Json = Null | Flag(value: bool) | Num(int64: Option<int>) | Text(text: string)
                | List(items: seq<Json>) | Object(fields: seq<(string, Json)>)

  /** What the JSON library makes of a line. */
  type Reader = string -> Option<Json>

  /** `TryGetProperty` on an object: of properties with one name, the last. */
  function Get(fields: seq<(string, Json)>, name: string): Option<Json> {
    if fields == [] then None
    else if fields[|fields| - 1].0 == name then Some(fields[|fields| - 1].1)
    else Get(fields[..|fields| - 1], name)
  }

  function Property(v: Json, name: string): Option<Json> {
    if v.Object? then Get(v.fields, name) else None
  }

  /** `GetString()` answers for strings and nulls, and throws for the rest. */
  predicate Stringlike(v: Option<Json>) { v.None? || v.value.Text? || v.value.Null? }

  function StringOf(v: Option<Json>): Option<string> {
    match v case Some(Text(text)) => Some(text) case _ => None
  }

  function TypeOf(v: Json): Option<string> { StringOf(Property(v, "type")) }

  // ----- the running parser --------------------------------------------------------------

  const TAIL_LINES: nat := 20

  datatype Usage = Usage(input: int, cached: int, output: int, reasoning: int)

  datatype State = State(
    tail: seq<string>,
    completions: seq<string>,
    usage: Option<Usage>,
    threadId: Option<string>,
    model: Option<string>,
    effort: Option<string>,
    failed: bool,
    errorText: string,
    toolUse: bool)

  const BEGIN := State([], [], None, None, None, None, false, "", false)

  function Enqueued(tail: seq<string>, line: string): seq<string> {
    if |tail| + 1 > TAIL_LINES then (tail + [line])[1..] else tail + [line]
  }

  /** A count the running total does not have is a zero. */
  function Count(usage: Json, name: string): int {
    match Property(usage, name) case Some(Num(Some(n))) => n case _ => 0
  }

  function UsageOf(usage: Json): Usage {
    Usage(Count(usage, "input_tokens"), Count(usage, "cached_input_tokens"), Count(usage, "output_tokens"),
          Count(usage, "reasoning_output_tokens"))
  }

  const TOOLS := {"command_execution", "file_change", "mcp_tool_call", "web_search"}

  /** `Text`: a property only when it is a string. */
  function TextOf(v: Json, name: string): Option<string> {
    match Property(v, name) case Some(Text(text)) => Some(text) case _ => None
  }

  function OrElse(first: Option<string>, second: Option<string>): Option<string> {
    if first.Some? then first else second
  }

  /** The model an event says was used: its own statement before its turn's. */
  function ModelOf(event: Json): Option<string> {
    var turn := Property(event, "turn");
    OrElse(TextOf(event, "model"), if turn.Some? then TextOf(turn.value, "model") else None)
  }

  function EffortOf(event: Json): Option<string> {
    var turn := Property(event, "turn");
    OrElse(OrElse(TextOf(event, "reasoning_effort"), TextOf(event, "model_reasoning_effort")),
           if turn.Some? then TextOf(turn.value, "reasoning_effort") else None)
  }

  predicate StartsThread(event: Json) { TypeOf(event) == Some("thread.started") && Property(event, "thread_id").Some? }

  /** Who answers: the thread as last stated, the model and the effort as first stated. */
  function Observed(s: State, event: Json): State {
    s.(threadId := if StartsThread(event) then StringOf(Property(event, "thread_id")) else s.threadId,
       model := OrElse(s.model, ModelOf(event)),
       effort := OrElse(s.effort, EffortOf(event)))
  }

  /** What the event is about. An exception leaves behind what was updated before it. */
  function Noted(s: State, line: string, event: Json): (State, Option<Failure>) {
    match TypeOf(event)
    case None => (s, None)
    case Some(kind) =>
      if kind == "turn.failed" || kind == "error" then
        (s.(failed := true, errorText := s.errorText + line), None)
      else if kind == "turn.completed" then
        var added := s.(completions := s.completions + [line]);
        var usage := Property(event, "usage");
        if usage.None? then (added, None)
        else if !usage.value.Object? then (added, Some(Crashed("InvalidOperationException")))
        else (added.(usage := Some(UsageOf(usage.value))), None)
      else if (kind == "item.started" || kind == "item.completed") && Property(event, "item").Some? then
        var item := Property(event, "item").value;
        if !item.Object? || !Stringlike(Property(item, "type")) then (s, Some(Crashed("InvalidOperationException")))
        else (s.(toolUse := s.toolUse || (TypeOf(item).Some? && TypeOf(item).value in TOOLS)), None)
      else (s, None)
  }

  function Accept(read: Reader, s: State, line: string): (State, Option<Failure>) {
    var queued := s.(tail := Enqueued(s.tail, line));
    match read(line)
    case None => (queued, Some(Refused("CODEX_PROTOCOL_INVALID")))
    case Some(event) =>
      if !event.Object? || !Stringlike(Property(event, "type"))
         || (StartsThread(event) && !Stringlike(Property(event, "thread_id")))
      then (queued, Some(Crashed("InvalidOperationException")))
      else Noted(Observed(queued, event), line, event)
  }

  /** The parser after a whole stream, when it accepted every line. */
  function After(read: Reader, lines: seq<string>): Option<State> {
    if lines == [] then Some(BEGIN)
    else match After(read, lines[..|lines| - 1])
      case None => None
      case Some(s) =>
        var (next, failure) := Accept(read, s, lines[|lines| - 1]);
        if failure.None? then Some(next) else None
  }

  /** What a usage parser is shown: every completion, then the tail. */
  function Candidates(s: State): seq<string> { s.completions + s.tail }

  class EventParser {
    const read: Reader
    var tail: seq<string>
    var completions: seq<string>
    var usage: Option<Usage>
    var threadId: Option<string>
    var model: Option<string>
    var effort: Option<string>
    var failed: bool
    var toolUse: bool
    var errorText: string

    constructor (read: Reader)
      ensures this.read == read && Now() == BEGIN
    {
      this.read, tail, completions, usage, threadId, model, effort := read, [], [], None, None, None, None;
      failed, toolUse, errorText := false, false, "";
    }

    function Now(): State
      reads this
    {
      State(tail, completions, usage, threadId, model, effort, failed, errorText, toolUse)
    }

    method AcceptLine(line: string) returns (failure: Option<Failure>)
      modifies this
      ensures (Now(), failure) == Accept(read, old(Now()), line)
    {
      tail := tail + [line];
      if |tail| > TAIL_LINES {
        tail := tail[1..];
      }
      var event := read(line);
      if event.None? {
        return Some(Refused("CODEX_PROTOCOL_INVALID"));
      }
      if !event.value.Object? || !Stringlike(Property(event.value, "type")) {
        return Some(Crashed("InvalidOperationException"));
      }
      if StartsThread(event.value) {
        if !Stringlike(Property(event.value, "thread_id")) {
          return Some(Crashed("InvalidOperationException"));
        }
        threadId := StringOf(Property(event.value, "thread_id"));
      }
      if model.None? {
        model := ModelOf(event.value);
      }
      if effort.None? {
        effort := EffortOf(event.value);
      }
      failure := NoteEvent(line, event.value);
    }

    method NoteEvent(line: string, event: Json) returns (failure: Option<Failure>)
      modifies this
      ensures (Now(), failure) == Noted(old(Now()), line, event)
    {
      failure := None;
      var kind := TypeOf(event);
      if kind == Some("turn.failed") || kind == Some("error") {
        failed, errorText := true, errorText + line;
      }
      if kind == Some("turn.completed") {
        completions := completions + [line];
      }
      if kind == Some("turn.completed") && Property(event, "usage").Some? {
        var reported := Property(event, "usage").value;
        if !reported.Object? {
          return Some(Crashed("InvalidOperationException"));
        }
        usage := Some(UsageOf(reported));
      }
      if (kind == Some("item.started") || kind == Some("item.completed")) && Property(event, "item").Some? {
        var item := Property(event, "item").value;
        if !item.Object? || !Stringlike(Property(item, "type")) {
          return Some(Crashed("InvalidOperationException"));
        }
        if TypeOf(item).Some? && TypeOf(item).value in TOOLS {
          toolUse := true;
        }
      }
    }
  }
}
