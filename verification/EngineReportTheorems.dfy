/** Exactly when every caller is told what the engine says of the flags it has. */
module EngineReportTheorems {
  import opened Prelude
  import opened EngineReport

  /** The engine says something else of every other set of flags. */
  ghost predicate TellsApart<R(!new)>(engine: set<string> -> R) {
    forall a, b :: engine(a) == engine(b) ==> a == b
  }

  /** Step `i` of the run, with the state before it. */
  function Before<R(==)>(engine: set<string> -> R, events: seq<Event>, i: nat): State<R>
    requires i <= |events|
  {
    After(engine, events[..i])
  }

  /** Whoever step `i` answers is told what the engine says of the flags it holds. */
  predicate CurrentAt<R(==)>(engine: set<string> -> R, events: seq<Event>, i: nat)
    requires i < |events|
  {
    var s, e := Before(engine, events, i), events[i];
    ReadNow(s, e).Some? ==> Answer(s, e) == Some(engine(ReadNow(s, e).value))
  }

  predicate AlwaysCurrent<R(==)>(engine: set<string> -> R, events: seq<Event>) {
    forall i :: 0 <= i < |events| ==> CurrentAt(engine, events, i)
  }

  // ----- any interleaving ----------------------------------------------------------------

  lemma {:induction false} CacheIsLastAsked<R>(engine: set<string> -> R, events: seq<Event>)
    ensures After(engine, events).cached
         == match LastAsked(engine, events) case None => None case Some(asked) => Some(engine(asked))
    ensures forall id :: id in After(engine, events).calls && After(engine, events).calls[id].Stored? ==>
              After(engine, events).cached.Some?
  {
    if events != [] { CacheIsLastAsked(engine, events[..|events| - 1]); }
  }

  /** Each call that ends, at once or after the wait, reads the flags the last stored answer was asked
      under. */
  predicate ReadsLastAsked<R(==)>(engine: set<string> -> R, events: seq<Event>, i: nat)
    requires i < |events|
  {
    var s, e := Before(engine, events, i), events[i];
    ReadNow(s, e).Some? ==> ReadNow(s, e) == LastAsked(engine, events[..i])
  }

  /** However calls overlap, under whatever flags, whichever fail, and whenever flags change. */
  lemma AnswersAreCurrentExactly<R(!new)>(engine: set<string> -> R, events: seq<Event>)
    requires TellsApart(engine)
    ensures AlwaysCurrent(engine, events) <==> forall i :: 0 <= i < |events| ==> ReadsLastAsked(engine, events, i)
  {
    forall i | 0 <= i < |events| ensures CurrentAt(engine, events, i) <==> ReadsLastAsked(engine, events, i) {
      CacheIsLastAsked(engine, events[..i]);
    }
  }

  lemma AfterNext<R>(engine: set<string> -> R, before: seq<Event>, e: Event)
    ensures After(engine, before + [e]) == Next(engine, After(engine, before), e)
  {
    assert (before + [e])[..|before|] == before;
  }

  /** Two calls under different flags whose answers arrive together: the first is given the second's. */
  lemma OverlapGivesTheOther<R>(engine: set<string> -> R, b: set<string>)
    ensures var events := [Change(1, b), Ask(10, 0), Ask(11, 1), Store(10), Store(11)];
            var s := After(engine, events);
            ReadNow(s, Finish(10)) == Some({}) && Answer(s, Finish(10)) == Some(engine(b))
  {
    hide After;
    var asked := [Change(1, b), Ask(10, 0), Ask(11, 1)];
    var waiting: State<R> := State(None, {}, map[1 := b], map[10 := Waiting(0, {}), 11 := Waiting(1, b)]);
    BothAsked(engine, b);
    AfterNext(engine, asked, Store(10));
    AfterNext(engine, asked + [Store(10)], Store(11));
    assert asked + [Store(10)] + [Store(11)] == [Change(1, b), Ask(10, 0), Ask(11, 1), Store(10), Store(11)];
    assert After(engine, asked) == waiting;
  }

  lemma BothAsked<R>(engine: set<string> -> R, b: set<string>)
    ensures After(engine, [Change(1, b), Ask(10, 0), Ask(11, 1)])
         == State(None, {}, map[1 := b], map[10 := Waiting(0, {}), 11 := Waiting(1, b)])
  {
    hide After;
    assert After(engine, []) == Starting() by { Nothing(engine); }
    AfterNext(engine, [], Change(1, b));
    AfterNext(engine, [Change(1, b)], Ask(10, 0));
    AfterNext(engine, [Change(1, b), Ask(10, 0)], Ask(11, 1));
    assert [] + [Change(1, b)] == [Change(1, b)];
    assert [Change(1, b)] + [Ask(10, 0)] == [Change(1, b), Ask(10, 0)];
    assert [Change(1, b), Ask(10, 0)] + [Ask(11, 1)] == [Change(1, b), Ask(10, 0), Ask(11, 1)];
  }

  lemma Nothing<R>(engine: set<string> -> R)
    ensures After(engine, []) == Starting()
  {
  }

  // ----- calls that resume one at a time -------------------------------------------------

  /** What follows the `await` is not interrupted: a stored answer is finished at once. */
  predicate ResumesWhole<R(==)>(engine: set<string> -> R, events: seq<Event>) {
    forall i :: 0 <= i < |events| && Stores(Before(engine, events, i), events[i]) ==>
      i + 1 < |events| && events[i + 1] == Finish(events[i].id)
  }

  /** Step `i` ends a wait, and the call's flags are those it asked under. */
  predicate EndsAsItAsked<R(==)>(engine: set<string> -> R, events: seq<Event>, i: nat)
    requires i < |events|
  {
    var s, e := Before(engine, events, i), events[i];
    Finishes(s, e) ==> Held(s.flags, s.calls[e.id].holder) == s.calls[e.id].asked
  }

  predicate Settled<R(==)>(s: State<R>) { forall id :: id in s.calls ==> s.calls[id].Waiting? }

  /** Between whole resumptions nothing is stored and unfinished; at a finish, the call that finishes
      is the one that has just stored. */
  predicate Orderly<R(==)>(engine: set<string> -> R, events: seq<Event>, i: nat)
    requires i <= |events|
  {
    var s := Before(engine, events, i);
    if i > 0 && Stores(Before(engine, events, i - 1), events[i - 1])
    then
      var id := events[i - 1].id;
      && id in s.calls && s.calls[id].Stored? && LastAsked(engine, events[..i]) == Some(s.calls[id].asked)
      && forall other :: other in s.calls && other != id ==> s.calls[other].Waiting?
    else Settled(s)
  }

  lemma StepBefore<R>(engine: set<string> -> R, events: seq<Event>, i: nat)
    requires i < |events|
    ensures Before(engine, events, i + 1) == Next(engine, Before(engine, events, i), events[i])
    ensures LastAsked(engine, events[..i + 1])
         == if Stores(Before(engine, events, i), events[i])
            then Some(Before(engine, events, i).calls[events[i].id].asked) else LastAsked(engine, events[..i])
  {
    assert events[..i + 1][..i] == events[..i];
  }

  lemma {:induction false} RunsOrderly<R>(engine: set<string> -> R, events: seq<Event>, i: nat)
    requires ResumesWhole(engine, events) && i <= |events|
    ensures Orderly(engine, events, i)
  {
    if i > 0 {
      RunsOrderly(engine, events, i - 1);
      StepBefore(engine, events, i - 1);
    }
  }

  /** While every call so far ended as it asked, the flags beside the cache are those it was asked
      under. */
  lemma {:induction false} CopyIsLastAsked<R>(engine: set<string> -> R, events: seq<Event>, i: nat)
    requires ResumesWhole(engine, events) && i <= |events|
    requires forall j :: 0 <= j < i ==> EndsAsItAsked(engine, events, j)
    ensures Settled(Before(engine, events, i)) && LastAsked(engine, events[..i]).Some? ==>
              LastAsked(engine, events[..i]) == Some(Before(engine, events, i).cachedFor)
    decreases i
  {
    if i > 0 {
      RunsOrderly(engine, events, i - 1);
      RunsOrderly(engine, events, i);
      StepBefore(engine, events, i - 1);
      CopyIsLastAsked(engine, events, i - 1);
      if i > 1 && Stores(Before(engine, events, i - 2), events[i - 2]) {
        assert events[i - 1] == Finish(events[i - 2].id) && EndsAsItAsked(engine, events, i - 1);
        assert Finishes(Before(engine, events, i - 1), events[i - 1]);
      }
    }
  }

  lemma EndsRight<R(!new)>(engine: set<string> -> R, events: seq<Event>, i: nat)
    requires TellsApart(engine) && ResumesWhole(engine, events) && i < |events|
    requires forall j :: 0 <= j < i ==> EndsAsItAsked(engine, events, j)
    ensures CurrentAt(engine, events, i) <==> EndsAsItAsked(engine, events, i)
  {
    RunsOrderly(engine, events, i);
    CopyIsLastAsked(engine, events, i);
    CacheIsLastAsked(engine, events[..i]);
  }

  lemma {:induction false} FirstWrong<R(!new)>(engine: set<string> -> R, events: seq<Event>, n: nat)
    requires TellsApart(engine) && ResumesWhole(engine, events) && n <= |events|
    ensures (forall i :: 0 <= i < n ==> CurrentAt(engine, events, i)) <==>
            (forall i :: 0 <= i < n ==> EndsAsItAsked(engine, events, i))
  {
    if n > 0 {
      FirstWrong(engine, events, n - 1);
      if forall i :: 0 <= i < n - 1 ==> EndsAsItAsked(engine, events, i) { EndsRight(engine, events, n - 1); }
    }
  }

  /** With resumptions that are not interrupted, overlapping calls under different flags, failures and
      changes that are undone in time do no harm: every answer of a run, those from the cache
      included, is current exactly when each call ends with the flags it asked under. */
  lemma WholeResumptionsExactly<R(!new)>(engine: set<string> -> R, events: seq<Event>)
    requires TellsApart(engine) && ResumesWhole(engine, events)
    ensures AlwaysCurrent(engine, events) <==> forall i :: 0 <= i < |events| ==> EndsAsItAsked(engine, events, i)
  {
    FirstWrong(engine, events, |events|);
  }
}
