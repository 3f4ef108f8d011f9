/** What the engine says of itself, cached against the flags it was asked under. Every call brings a
    flag object of its own choosing; asking takes time, an `await` splits the call, and other calls and
    changes to flag objects may come between. */
module EngineReport {
  import opened Prelude

  /** A call under way, with its flag object and the flags it asked the engine under: it waits, or it
      has put the answer into the cache and has yet to copy the flags beside it. */
  datatype Phase = Waiting(holder: nat, asked: set<string>) | Stored(holder: nat, asked: set<string>)

  datatype State<R> = State(cached: Option<R>, cachedFor: set<string>, flags: map<nat, set<string>>,
                            calls: map<nat, Phase>)

  datatype Event =
    | Change(holder: nat, disabled: set<string>)
    | Ask(id: nat, holder: nat) | Fail(id: nat) | Store(id: nat) | Finish(id: nat)

  function Starting<R>(): State<R> { State(None, {}, map[], map[]) }

  /** The flags an object holds now; everything is on until something is switched off. */
  function Held(flags: map<nat, set<string>>, holder: nat): set<string> {
    if holder in flags then flags[holder] else {}
  }

  predicate Hits<R(==)>(s: State<R>, e: Event) {
    e.Ask? && e.id !in s.calls && s.cached.Some? && s.cachedFor == Held(s.flags, e.holder)
  }

  predicate Stores<R>(s: State<R>, e: Event) { e.Store? && e.id in s.calls && s.calls[e.id].Waiting? }

  predicate Finishes<R>(s: State<R>, e: Event) { e.Finish? && e.id in s.calls && s.calls[e.id].Stored? }

  /** One step. The flags are read where they are, when they are read: the copy beside the cache is
      of the call's own flags as they are by then. */
  function Next<R(==)>(engine: set<string> -> R, s: State<R>, e: Event): State<R> {
    match e
    case Change(holder, disabled) => s.(flags := s.flags[holder := disabled])
    case Ask(id, holder) =>
      if id in s.calls || Hits(s, e) then s else s.(calls := s.calls[id := Waiting(holder, Held(s.flags, holder))])
    case Fail(id) => if id in s.calls && s.calls[id].Waiting? then s.(calls := s.calls - {id}) else s
    case Store(id) =>
      if !Stores(s, e) then s
      else
        var asked := s.calls[id].asked;
        s.(cached := Some(engine(asked)), calls := s.calls[id := Stored(s.calls[id].holder, asked)])
    case Finish(id) =>
      if Finishes(s, e) then s.(cachedFor := Held(s.flags, s.calls[id].holder), calls := s.calls - {id}) else s
  }

  /** The flags that the call ending with this step reads as it ends, when one does: at once on a hit. */
  function ReadNow<R(==)>(s: State<R>, e: Event): Option<set<string>> {
    if Hits(s, e) then Some(Held(s.flags, e.holder))
    else if Finishes(s, e) then Some(Held(s.flags, s.calls[e.id].holder))
    else None
  }

  /** The report its caller is given: what is in the cache. */
  function Answer<R(==)>(s: State<R>, e: Event): Option<R> {
    if ReadNow(s, e).Some? then s.cached else None
  }

  function After<R(==)>(engine: set<string> -> R, events: seq<Event>): State<R> {
    if events == [] then Starting() else Next(engine, After(engine, events[..|events| - 1]), events[|events| - 1])
  }

  /** The flags the last answer to be stored was asked under. */
  function LastAsked<R(==)>(engine: set<string> -> R, events: seq<Event>): Option<set<string>> {
    if events == [] then None
    else
      var s, e := After(engine, events[..|events| - 1]), events[|events| - 1];
      if Stores(s, e) then Some(s.calls[e.id].asked) else LastAsked(engine, events[..|events| - 1])
  }

  /** The cache as an object: a call is `Begin`, then `Settle` or `Abandon`, then `End`. */
  class EngineSelection<R(==)> {
    const engine: set<string> -> R
    var cached: Option<R>
    var cachedFor: set<string>
    var flags: map<nat, set<string>>
    var calls: map<nat, Phase>

    constructor (engine: set<string> -> R)
      ensures this.engine == engine && Now() == Starting()
    {
      this.engine, cached, cachedFor, flags, calls := engine, None, {}, map[], map[];
    }

    function Now(): State<R>
      reads this
    {
      State(cached, cachedFor, flags, calls)
    }

    method SetFlags(holder: nat, disabled: set<string>)
      modifies this
      ensures Now() == Next(engine, old(Now()), Change(holder, disabled))
    {
      flags := flags[holder := disabled];
    }

    method Begin(id: nat, holder: nat) returns (answer: Option<R>)
      requires id !in calls
      modifies this
      ensures Now() == Next(engine, old(Now()), Ask(id, holder)) && answer == Answer(old(Now()), Ask(id, holder))
    {
      var disabled := Held(flags, holder);
      if cached.Some? && cachedFor == disabled {
        return cached;
      }
      calls := calls[id := Waiting(holder, disabled)];
      answer := None;
    }

    method Abandon(id: nat)
      requires id in calls && calls[id].Waiting?
      modifies this
      ensures Now() == Next(engine, old(Now()), Fail(id))
    {
      calls := calls - {id};
    }

    method Settle(id: nat)
      requires id in calls && calls[id].Waiting?
      modifies this
      ensures Now() == Next(engine, old(Now()), Store(id))
    {
      cached := Some(engine(calls[id].asked));
      calls := calls[id := Stored(calls[id].holder, calls[id].asked)];
    }

    method End(id: nat) returns (answer: Option<R>)
      requires id in calls && calls[id].Stored?
      modifies this
      ensures Now() == Next(engine, old(Now()), Finish(id)) && answer == Answer(old(Now()), Finish(id))
    {
      cachedFor := Held(flags, calls[id].holder);
      calls := calls - {id};
      answer := cached;
    }
  }
}
