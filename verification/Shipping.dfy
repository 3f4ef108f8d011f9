/** Sending measurements over a link that loses replies into a store that never overwrites. */
module Shipping {
  import opened Prelude

  datatype Event = Event(key: string, content: string)

  /** What becomes of one send. A reply can be lost after the store has recorded the batch. */
  datatype Fate = Answered | Unreached | ReplyLost | TimedOut(reached: bool) | Cancelled(reached: bool)

  datatype Reply = Success | Rejected | Broken | Late | Withdrawn

  /** The rest of the world: which events the API finds well formed, and the fate of every send. */
  datatype Outside = Outside(valid: Event -> bool, link: nat -> Fate)

  /** The rows of one job in the store, and how many sends have been made. */
  datatype World = World(rows: seq<Event>, sends: nat)

  const BATCH_SIZE: nat := 200
  const MAX_ATTEMPTS: nat := 3
  const API_LIMIT: nat := 500

  // ----- the store -----------------------------------------------------------------------

  predicate DistinctKeys(events: seq<Event>) {
    forall i, j :: 0 <= i < j < |events| ==> events[i].key != events[j].key
  }

  predicate Conflicts(rows: seq<Event>, e: Event) {
    exists i :: 0 <= i < |rows| && rows[i].key == e.key && rows[i] != e
  }

  predicate Acceptable(o: Outside, rows: seq<Event>, batch: seq<Event>) {
    && 1 <= |batch| <= API_LIMIT
    && DistinctKeys(batch)
    && (forall i :: 0 <= i < |batch| ==> o.valid(batch[i]))
    && (forall i :: 0 <= i < |batch| ==> !Conflicts(rows, batch[i]))
  }

  /** The events of a batch that are not recorded yet: a replay adds nothing. */
  function New(rows: seq<Event>, batch: seq<Event>): seq<Event> {
    if batch == [] then []
    else New(rows, batch[..|batch| - 1]) + if batch[|batch| - 1] in rows then [] else [batch[|batch| - 1]]
  }

  /** All of a batch or none of it. */
  function Record(o: Outside, rows: seq<Event>, batch: seq<Event>): Option<seq<Event>> {
    if Acceptable(o, rows, batch) then Some(rows + New(rows, batch)) else None
  }

  function Post(o: Outside, w: World, batch: seq<Event>): (World, Reply) {
    var recorded := Record(o, w.rows, batch);
    var after := World(if recorded.Some? then recorded.value else w.rows, w.sends + 1);
    var before := World(w.rows, w.sends + 1);
    match o.link(w.sends)
    case Answered => (after, if recorded.Some? then Success else Rejected)
    case Unreached => (before, Broken)
    case ReplyLost => (after, Broken)
    case TimedOut(reached) => (if reached then after else before, Late)
    case Cancelled(reached) => (if reached then after else before, Withdrawn)
  }

  // ----- the shipper ---------------------------------------------------------------------

  /** A time-out of the client is no `HttpRequestException`, and nobody asked to cancel: it escapes. */
  function Send(o: Outside, w: World, batch: seq<Event>, attempt: nat): (World, Result<bool, Failure>)
    decreases MAX_ATTEMPTS - attempt
  {
    var (next, reply) := Post(o, w, batch);
    match reply
    case Success => (next, Ok(true))
    case Rejected => (next, Ok(false))
    case Withdrawn => (next, Ok(false))
    case Late => (next, Err(Crashed("TaskCanceledException")))
    case Broken => if attempt < MAX_ATTEMPTS then Send(o, next, batch, attempt + 1) else (next, Ok(false))
  }

  function Batch(events: seq<Event>, offset: nat): seq<Event>
    requires offset <= |events|
  {
    if offset + BATCH_SIZE <= |events| then events[offset..offset + BATCH_SIZE] else events[offset..]
  }

  function Ship(o: Outside, w: World, events: seq<Event>, offset: nat, shipped: bool): (World, Result<bool, Failure>)
    decreases |events| - offset
  {
    if offset >= |events| then (w, Ok(shipped))
    else
      var (next, sent) := Send(o, w, Batch(events, offset), 1);
      if sent.Err? then (next, sent) else Ship(o, next, events, offset + BATCH_SIZE, shipped && sent.value)
  }

  class Shipper {
    const outside: Outside
    var rows: seq<Event>
    var sends: nat

    constructor (outside: Outside, rows: seq<Event>)
      ensures this.outside == outside && Now() == World(rows, 0)
    {
      this.outside, this.rows, sends := outside, rows, 0;
    }

    function Now(): World
      reads this
    {
      World(rows, sends)
    }

    method PostBatch(batch: seq<Event>) returns (reply: Reply)
      modifies this
      ensures (Now(), reply) == Post(outside, old(Now()), batch)
    {
      var fate := outside.link(sends);
      var recorded := Record(outside, rows, batch);
      sends := sends + 1;
      var reached := match fate case Unreached => false case TimedOut(r) => r case Cancelled(r) => r case _ => true;
      if recorded.Some? && reached {
        rows := recorded.value;
      }
      reply := match fate
        case Answered => if recorded.Some? then Success else Rejected
        case TimedOut(_) => Late
        case Cancelled(_) => Withdrawn
        case _ => Broken;
    }

    method SendBatch(batch: seq<Event>) returns (r: Result<bool, Failure>)
      modifies this
      ensures (Now(), r) == Send(outside, old(Now()), batch, 1)
    {
      var attempt := 1;
      while attempt <= MAX_ATTEMPTS
        invariant 1 <= attempt <= MAX_ATTEMPTS + 1
        invariant attempt <= MAX_ATTEMPTS ==>
                    Send(outside, old(Now()), batch, 1) == Send(outside, Now(), batch, attempt)
        invariant attempt == MAX_ATTEMPTS + 1 ==> Send(outside, old(Now()), batch, 1) == (Now(), Ok(false))
      {
        var reply := PostBatch(batch);
        match reply {
          case Success => return Ok(true);
          case Rejected => return Ok(false);
          case Withdrawn => return Ok(false);
          case Late => return Err(Crashed("TaskCanceledException"));
          case Broken =>
        }
        attempt := attempt + 1;
      }
      r := Ok(false);
    }

    method ShipAll(events: seq<Event>) returns (r: Result<bool, Failure>)
      modifies this
      ensures (Now(), r) == Ship(outside, old(Now()), events, 0, true)
    {
      var shipped, offset := true, 0;
      while offset < |events|
        invariant Ship(outside, old(Now()), events, 0, true) == Ship(outside, Now(), events, offset, shipped)
        decreases |events| - offset
      {
        r := SendBatch(Batch(events, offset));
        if r.Err? {
          return;
        }
        shipped, offset := shipped && r.value, offset + BATCH_SIZE;
      }
      r := Ok(shipped);
    }
  }
}
