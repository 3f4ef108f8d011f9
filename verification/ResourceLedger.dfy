/** Measuring what a job consumes: events appended as they happen, and the steps of a build laid
    end to end. */
module ResourceLedger {
  import opened Prelude
  import opened LedgerKeys

  datatype Kind = AiRun | Transfer | Validated | RepairStep | CadSessionEvent | CadStep | Export | Warning

  /** Times are in milliseconds; a step of a build carries its code. */
  datatype Event = Event(
    key: string, kind: Kind, started: int, finished: int, wall: int, success: bool, failure: Option<string>,
    operation: Option<string>)

  predicate Alphanumeric(c: char) { '0' <= c <= '9' || 'A' <= c <= 'Z' || 'a' <= c <= 'z' }

  /** A letter or a digit, then at most 199 of those and of `:`, `.`, `_` and `-`. */
  predicate KeyOk(key: string) {
    && 1 <= |key| <= 200 && Alphanumeric(key[0])
    && forall i :: 0 <= i < |key| ==> Alphanumeric(key[i]) || key[i] in {':', '.', '_', '-'}
  }

  predicate CodeOk(code: Option<string>) { code.None? || |code.value| <= 64 }

  /** The API's rules on single events; those on a batch are not here. */
  predicate WellFormed(e: Event) {
    && KeyOk(e.key) && e.wall >= 0 && e.started <= e.finished
    && (e.success ==> e.failure.None?) && CodeOk(e.failure) && CodeOk(e.operation)
  }

  // ----- the steps of a build ------------------------------------------------------------

  datatype Step = Step(code: string, stage: string, wall: int, success: bool, failure: Option<string>)

  function Total(steps: seq<Step>): int {
    if steps == [] then 0 else Total(steps[..|steps| - 1]) + steps[|steps| - 1].wall
  }

  /** Saving and exporting count as exports; every other step, named or not, as work on the model. */
  function StepEvent(job: string, attempt: nat, step: Step, started: int): Event {
    Event(Key(job, attempt, ["cad", "operation", step.code]),
          if step.stage == "save" || step.stage == "export" then Export else CadStep,
          started, started + step.wall, step.wall, step.success, step.failure, Some(step.code))
  }

  function StepEvents(job: string, attempt: nat, steps: seq<Step>, started: int): seq<Event> {
    if steps == [] then []
    else
      var front := steps[..|steps| - 1];
      StepEvents(job, attempt, front, started) + [StepEvent(job, attempt, steps[|steps| - 1], started + Total(front))]
  }

  class Ledger {
    const job: string
    const attempt: nat
    var events: seq<Event>

    constructor (job: string, attempt: nat)
      ensures this.job == job && this.attempt == attempt && events == []
    {
      this.job, this.attempt, events := job, attempt, [];
    }

    method Add(e: Event)
      modifies this
      ensures events == old(events) + [e]
    {
      events := events + [e];
    }

    method Warn(key: string, now: int)
      modifies this
      ensures events == old(events) + [Event(key, Warning, now, now, 0, true, None, None)]
    {
      Add(Event(key, Warning, now, now, 0, true, None, None));
    }

    /** The steps of a build, in order, ending now. */
    method RecordOperations(steps: seq<Step>, now: int)
      modifies this
      ensures events == old(events) + StepEvents(job, attempt, steps, now - Total(steps))
    {
      var total := 0;
      for i := 0 to |steps|
        invariant total == Total(steps[..i])
      {
        assert steps[..i + 1][..i] == steps[..i];
        total := total + steps[i].wall;
      }
      assert steps[..|steps|] == steps;
      var cursor := now - total;
      for i := 0 to |steps|
        invariant cursor == now - total + Total(steps[..i])
        invariant events == old(events) + StepEvents(job, attempt, steps[..i], now - total)
      {
        assert steps[..i + 1][..i] == steps[..i];
        Add(StepEvent(job, attempt, steps[i], cursor));
        cursor := cursor + steps[i].wall;
      }
    }
  }

  /** The steps tile the time before the build ended: in order, each starting where the one before
      it finished and lasting as long as it took, the first `Total` before the end, the last at it. */
  lemma {:induction false} StepsTile(job: string, attempt: nat, steps: seq<Step>, started: int)
    ensures var e := StepEvents(job, attempt, steps, started);
            && |e| == |steps|
            && (forall i :: 0 <= i < |e| ==> e[i].key == Key(job, attempt, ["cad", "operation", steps[i].code]))
            && (forall i :: 0 <= i < |e| ==> e[i].finished - e[i].started == steps[i].wall == e[i].wall)
            && (forall i :: 0 < i < |e| ==> e[i].started == e[i - 1].finished)
            && (e != [] ==> e[0].started == started && e[|e| - 1].finished == started + Total(steps))
  {
    if steps != [] { StepsTile(job, attempt, steps[..|steps| - 1], started); }
  }

  /** A step those rules allow: not running backwards, not failing while succeeding, its codes short
      enough and its key of the letters allowed. */
  predicate StepOk(job: string, attempt: nat, s: Step) {
    && s.wall >= 0 && (s.success ==> s.failure.None?) && CodeOk(s.failure) && |s.code| <= 64
    && KeyOk(Key(job, attempt, ["cad", "operation", s.code]))
  }

  /** The recorded steps follow the rules on single events exactly when each of them is such. */
  lemma StepsWellFormed(job: string, attempt: nat, steps: seq<Step>, started: int)
    ensures (forall e :: e in StepEvents(job, attempt, steps, started) ==> WellFormed(e)) <==>
            forall s :: s in steps ==> StepOk(job, attempt, s)
  {
    var e := StepEvents(job, attempt, steps, started);
    StepsTile(job, attempt, steps, started);
    StepOutcomes(job, attempt, steps, started);
    forall i | 0 <= i < |e| ensures WellFormed(e[i]) <==> StepOk(job, attempt, steps[i]) {
    }
    if forall x :: x in e ==> WellFormed(x) {
      forall s | s in steps ensures StepOk(job, attempt, s) {
        var i :| 0 <= i < |steps| && steps[i] == s;
        assert e[i] in e;
      }
    }
  }

  /** Saving and exporting are recorded as exports and everything else as work on the model, each with
      its step's code and how it ended. */
  lemma {:induction false} StepOutcomes(job: string, attempt: nat, steps: seq<Step>, started: int)
    ensures |StepEvents(job, attempt, steps, started)| == |steps|
    ensures forall i :: 0 <= i < |steps| ==>
              StepEvents(job, attempt, steps, started)[i].success == steps[i].success
              && StepEvents(job, attempt, steps, started)[i].failure == steps[i].failure
              && StepEvents(job, attempt, steps, started)[i].operation == Some(steps[i].code)
              && StepEvents(job, attempt, steps, started)[i].kind in {Export, CadStep}
              && (StepEvents(job, attempt, steps, started)[i].kind == Export <==> steps[i].stage in {"save", "export"})
  {
    if steps != [] { StepOutcomes(job, attempt, steps[..|steps| - 1], started); }
  }

  // ----- one measured span ---------------------------------------------------------------

  /** A span records itself once, when it is left, however it is left. */
  class Scope {
    const ledger: Ledger
    const key: string
    const kind: Kind
    const started: int
    var operation: Option<string>
    var success: bool
    var failure: Option<string>
    var recorded: bool

    constructor (ledger: Ledger, key: string, kind: Kind, now: int)
      ensures this.ledger == ledger && this.key == key && this.kind == kind && started == now
      ensures !success && failure.None? && !recorded && operation.None?
    {
      this.ledger, this.key, this.kind, started := ledger, key, kind, now;
      success, failure, recorded, operation := false, None, false, None;
    }

    /** A build's span says what it built. */
    method WithOperation(code: string)
      modifies this`operation
      ensures operation == Some(code)
    {
      operation := Some(code);
    }

    /** What leaving the span now would record. */
    function Measurement(now: int): Event
      reads this
    {
      Event(key, kind, started, now, now - started, success,
            if success then None else if failure.Some? then failure else Some("UNCAUGHT_ERROR"), operation)
    }

    method Succeeded()
      modifies this`success
      ensures success
    {
      success := true;
    }

    method Failed(code: string)
      modifies this`success, this`failure
      ensures !success && failure == Some(code)
    {
      success, failure := false, Some(code);
    }

    method Dispose(now: int)
      modifies this`recorded, ledger
      ensures recorded
      ensures ledger.events == old(ledger.events) + if old(recorded) then [] else [old(Measurement(now))]
    {
      if recorded {
        return;
      }
      recorded := true;
      ledger.Add(Measurement(now));
    }
  }

  /** What leaving a span records: its name and kind, the time since it began, and what was last said of
      it; a span left without a word has failed, with no code of its own. */
  predicate Measures(e: Event, scope: Scope, now: int)
    reads scope
  {
    && e.key == scope.key && e.kind == scope.kind && e.operation == scope.operation
    && e.started == scope.started && e.started + e.wall == e.finished == now
    && match (e.success, e.failure)
       case (true, None) => scope.success
       case (false, Some(code)) => !scope.success && scope.failure in {None, Some(code)}
                                   && (scope.failure.None? ==> code == "UNCAUGHT_ERROR")
       case _ => false
  }

  /** Exactly one event measures a span, and it is the one recorded. */
  lemma SpanMeasures(scope: Scope, now: int, e: Event)
    ensures Measures(e, scope, now) <==> e == scope.Measurement(now)
  {
  }

  /** Whatever was said of a span before, it is recorded as a success with no code or a failure with
      one, and follows the rules on single events exactly when its key and its codes are fit. */
  lemma SpanIsWellFormed(scope: Scope, now: int)
    requires scope.started <= now
    ensures scope.Measurement(now).success <==> scope.Measurement(now).failure.None?
    ensures WellFormed(scope.Measurement(now)) <==>
            KeyOk(scope.key) && CodeOk(scope.operation) && (scope.success || CodeOk(scope.failure))
  {
  }
}
