/** However the link behaves, nothing is recorded twice, and a ledger reported as shipped is there
    in full. */
module ShippingTheorems {
  import opened Prelude
  import opened Shipping

  predicate All(batch: seq<Event>, rows: seq<Event>) { forall e :: e in batch ==> e in rows }

  /** Rows are only ever added: events of this batch that were not there. */
  predicate Grows(before: seq<Event>, after: seq<Event>, batch: seq<Event>) {
    && before <= after
    && (DistinctKeys(before) ==> DistinctKeys(after))
    && All(after[|before|..], batch)
  }

  lemma {:induction false} NewExact(rows: seq<Event>, batch: seq<Event>)
    requires DistinctKeys(batch)
    ensures forall e :: e in New(rows, batch) <==> e in batch && e !in rows
    ensures DistinctKeys(New(rows, batch))
  {
    if batch != [] {
      var front, last := batch[..|batch| - 1], batch[|batch| - 1];
      NewExact(rows, front);
      assert batch == front + [last];
      forall e | e in front ensures e.key != last.key {
        var i :| 0 <= i < |front| && front[i] == e;
        assert batch[i] == e;
      }
    }
  }

  lemma NewKeys(o: Outside, rows: seq<Event>, batch: seq<Event>)
    requires Acceptable(o, rows, batch) && DistinctKeys(rows)
    ensures DistinctKeys(rows + New(rows, batch))
  {
    NewExact(rows, batch);
    var added := New(rows, batch);
    forall i, j | 0 <= i < |rows| && 0 <= j < |added| ensures rows[i].key != added[j].key {
      assert added[j] in added;
      var k :| 0 <= k < |batch| && batch[k] == added[j];
      assert !Conflicts(rows, batch[k]);
    }
  }

  lemma RecordGrows(o: Outside, rows: seq<Event>, batch: seq<Event>)
    requires Record(o, rows, batch).Some?
    ensures Grows(rows, Record(o, rows, batch).value, batch)
    ensures All(batch, Record(o, rows, batch).value)
  {
    NewExact(rows, batch);
    if DistinctKeys(rows) { NewKeys(o, rows, batch); }
  }

  lemma PostGrows(o: Outside, w: World, batch: seq<Event>)
    ensures var (next, reply) := Post(o, w, batch);
            && Grows(w.rows, next.rows, batch) && next.sends == w.sends + 1
            && (reply.Success? ==> All(batch, next.rows))
  {
    if Record(o, w.rows, batch).Some? { RecordGrows(o, w.rows, batch); }
  }

  lemma GrowsOn(a: seq<Event>, b: seq<Event>, c: seq<Event>, batch: seq<Event>)
    requires Grows(a, b, batch) && Grows(b, c, batch)
    ensures Grows(a, c, batch)
  {
    assert c[|a|..] == b[|a|..] + c[|b|..];
  }

  lemma {:induction false} SendGrows(o: Outside, w: World, batch: seq<Event>, attempt: nat)
    ensures var (next, r) := Send(o, w, batch, attempt);
            Grows(w.rows, next.rows, batch) && (r == Ok(true) ==> All(batch, next.rows))
    decreases MAX_ATTEMPTS - attempt
  {
    hide Post, Grows;
    PostGrows(o, w, batch);
    var (next, reply) := Post(o, w, batch);
    if reply.Broken? && attempt < MAX_ATTEMPTS {
      SendGrows(o, next, batch, attempt + 1);
      GrowsOn(w.rows, next.rows, Send(o, next, batch, attempt + 1).0.rows, batch);
    }
  }

  lemma GrowsMore(before: seq<Event>, after: seq<Event>, batch: seq<Event>, events: seq<Event>)
    requires Grows(before, after, batch) && All(batch, events)
    ensures Grows(before, after, events)
  {
  }

  lemma BatchMembers(events: seq<Event>, offset: nat)
    requires offset <= |events|
    ensures All(Batch(events, offset), events)
  {
  }

  /** Every batch holds at least one event, no more than the shipper's limit, which fits the API's;
      taken in order they are the whole ledger. */
  lemma BatchesPartition(events: seq<Event>, offset: nat)
    requires offset < |events|
    ensures 1 <= |Batch(events, offset)| <= 200 <= API_LIMIT
    ensures events[offset..] == Batch(events, offset)
                                + if offset + 200 < |events| then events[offset + 200..] else []
  {
  }

  /** Over every run of the link: rows are added, never changed; nothing but this ledger's events is
      added; and no key is recorded twice. */
  lemma {:induction false} ShipOnlyAdds(o: Outside, w: World, events: seq<Event>, offset: nat, shipped: bool)
    ensures Grows(w.rows, Ship(o, w, events, offset, shipped).0.rows, events)
    decreases |events| - offset
  {
    if offset < |events| {
      SendGrows(o, w, Batch(events, offset), 1);
      var (next, sent) := Send(o, w, Batch(events, offset), 1);
      BatchMembers(events, offset);
      GrowsMore(w.rows, next.rows, Batch(events, offset), events);
      if sent.Ok? {
        ShipOnlyAdds(o, next, events, offset + BATCH_SIZE, shipped && sent.value);
        GrowsOn(w.rows, next.rows, Ship(o, next, events, offset + BATCH_SIZE, shipped && sent.value).0.rows, events);
      }
    }
  }

  lemma AllParts(events: seq<Event>, offset: nat, rows: seq<Event>)
    requires offset < |events| && All(Batch(events, offset), rows)
    requires offset + BATCH_SIZE < |events| ==> All(events[offset + BATCH_SIZE..], rows)
    ensures All(events[offset..], rows)
  {
    BatchesPartition(events, offset);
  }

  lemma AllKept(batch: seq<Event>, before: seq<Event>, after: seq<Event>)
    requires before <= after && All(batch, before)
    ensures All(batch, after)
  {
    forall e | e in batch ensures e in after { Kept(before, after, e); }
  }

  /** When the shipper answers true every event is recorded. */
  lemma {:induction false} ShipComplete(o: Outside, w: World, events: seq<Event>, offset: nat, shipped: bool)
    requires Ship(o, w, events, offset, shipped).1 == Ok(true)
    ensures shipped && (offset < |events| ==> All(events[offset..], Ship(o, w, events, offset, shipped).0.rows))
    decreases |events| - offset
  {
    if offset < |events| {
      SendGrows(o, w, Batch(events, offset), 1);
      var (next, sent) := Send(o, w, Batch(events, offset), 1);
      ShipComplete(o, next, events, offset + BATCH_SIZE, shipped && sent.value);
      ShipOnlyAdds(o, next, events, offset + BATCH_SIZE, shipped && sent.value);
      var last := Ship(o, next, events, offset + BATCH_SIZE, shipped && sent.value).0;
      AllKept(Batch(events, offset), next.rows, last.rows);
      AllParts(events, offset, last.rows);
    }
  }

  lemma Kept(before: seq<Event>, after: seq<Event>, e: Event)
    requires before <= after && e in before
    ensures e in after
  {
    var i :| 0 <= i < |before| && before[i] == e;
    assert after[i] == e;
  }

  /** A ledger reported as shipped is recorded, every event exactly once. */
  lemma ShippedOnce(o: Outside, w: World, events: seq<Event>, e: Event)
    requires DistinctKeys(w.rows) && e in events
    requires Ship(o, w, events, 0, true).1 == Ok(true)
    ensures var rows := Ship(o, w, events, 0, true).0.rows;
            multiset(rows)[e] == 1 && forall other :: other in rows && other.key == e.key ==> other == e
  {
    ShipOnlyAdds(o, w, events, 0, true);
    ShipComplete(o, w, events, 0, true);
    assert events[0..] == events;
    AtMostOnce(Ship(o, w, events, 0, true).0.rows, e);
  }

  lemma {:induction false} AtMostOnce(rows: seq<Event>, e: Event)
    requires DistinctKeys(rows)
    ensures multiset(rows)[e] <= 1
    ensures e in rows ==> multiset(rows)[e] == 1 && forall other :: other in rows && other.key == e.key ==> other == e
  {
    assert e in rows <==> e in multiset(rows);
    if rows != [] {
      var front, last := rows[..|rows| - 1], rows[|rows| - 1];
      assert rows == front + [last];
      AtMostOnce(front, e);
      assert forall i :: 0 <= i < |front| ==> rows[i] == front[i] && front[i].key != last.key;
    }
  }

  // ----- one batch, exactly --------------------------------------------------------------

  predicate Retried(f: Fate) { f.Unreached? || f.ReplyLost? }

  lemma {:induction false} NothingNew(rows: seq<Event>, batch: seq<Event>)
    requires All(batch, rows)
    ensures New(rows, batch) == []
  {
    if batch != [] { NothingNew(rows, batch[..|batch| - 1]); }
  }

  lemma StillNoConflict(rows: seq<Event>, added: seq<Event>, batch: seq<Event>, e: Event)
    requires DistinctKeys(batch) && All(added, batch) && e in batch && !Conflicts(rows, e)
    ensures !Conflicts(rows + added, e)
  {
    var after := rows + added;
    forall j | 0 <= j < |after| && after[j].key == e.key ensures after[j] == e {
      if j >= |rows| { assert after[j] == added[j - |rows|] && after[j] in batch; }
    }
  }

  /** Recording an acceptable batch leaves it acceptable: a resend is a replay. */
  lemma ReplayIsAccepted(o: Outside, rows: seq<Event>, batch: seq<Event>)
    requires Acceptable(o, rows, batch)
    ensures Acceptable(o, Record(o, rows, batch).value, batch)
    ensures Record(o, Record(o, rows, batch).value, batch) == Record(o, rows, batch)
  {
    var added := New(rows, batch);
    NewExact(rows, batch);
    forall i | 0 <= i < |batch| ensures !Conflicts(rows + added, batch[i]) {
      StillNoConflict(rows, added, batch, batch[i]);
    }
    NothingNew(rows + added, batch);
    assert rows + added + [] == rows + added;
  }

  /** A batch is delivered exactly when the API would take it and one of the sends left to it is
      answered after nothing worse than broken connections. */
  lemma {:induction false} DeliveredExactly(o: Outside, w: World, batch: seq<Event>, attempt: nat)
    requires 1 <= attempt <= 3
    ensures Send(o, w, batch, attempt).1 == Ok(true) <==>
            Acceptable(o, w.rows, batch) && AnswerArrives(o, w.sends, 4 - attempt)
    decreases MAX_ATTEMPTS - attempt
  {
    var (next, reply) := Post(o, w, batch);
    if reply.Broken? && attempt < MAX_ATTEMPTS {
      DeliveredExactly(o, next, batch, attempt + 1);
      if Acceptable(o, w.rows, batch) { ReplayIsAccepted(o, w.rows, batch); }
    }
  }

  /** One of the next `sends` sends is answered, and all before it are worth trying again. */
  predicate AnswerArrives(o: Outside, from: nat, sends: nat)
    decreases sends
  {
    sends > 0 && (o.link(from).Answered? || (Retried(o.link(from)) && AnswerArrives(o, from + 1, sends - 1)))
  }

  // ----- never throwing ------------------------------------------------------------------

  /** One of the next `sends` sends times out, and all before it are worth trying again. */
  predicate TimesOut(o: Outside, from: nat, sends: nat)
    decreases sends
  {
    sends > 0 && (o.link(from).TimedOut? || (Retried(o.link(from)) && TimesOut(o, from + 1, sends - 1)))
  }

  /** How many sends one batch takes, out of those it has left. */
  function SendsUsed(o: Outside, from: nat, left: nat): nat
    decreases left
  {
    if left > 1 && Retried(o.link(from)) then 1 + SendsUsed(o, from + 1, left - 1) else 1
  }

  lemma {:induction false} SendThrows(o: Outside, w: World, batch: seq<Event>, attempt: nat)
    requires 1 <= attempt <= MAX_ATTEMPTS
    ensures Send(o, w, batch, attempt).0.sends == w.sends + SendsUsed(o, w.sends, MAX_ATTEMPTS - attempt + 1)
    ensures Send(o, w, batch, attempt).1.Err? <==> TimesOut(o, w.sends, MAX_ATTEMPTS - attempt + 1)
    decreases MAX_ATTEMPTS - attempt
  {
    var (next, reply) := Post(o, w, batch);
    if reply.Broken? && attempt < MAX_ATTEMPTS { SendThrows(o, next, batch, attempt + 1); }
  }

  /** How many batches `n` events make. */
  function Batches(n: nat): nat { if n == 0 then 0 else 1 + Batches(if n > 200 then n - 200 else 0) }

  /** A batch among the next ones has a send that times out before any send of it is answered. */
  predicate SomeBatchTimesOut(o: Outside, from: nat, batches: nat)
    decreases batches
  {
    && batches > 0
    && (TimesOut(o, from, 3) || SomeBatchTimesOut(o, from + SendsUsed(o, from, 3), batches - 1))
  }

  lemma ShipNext(o: Outside, w: World, events: seq<Event>, offset: nat, shipped: bool)
    requires offset < |events|
    ensures var (next, sent) := Send(o, w, Batch(events, offset), 1);
            Ship(o, w, events, offset, shipped)
            == if sent.Err? then (next, sent) else Ship(o, next, events, offset + BATCH_SIZE, shipped && sent.value)
  {
  }

  function Left(events: seq<Event>, offset: nat): nat { if offset < |events| then |events| - offset else 0 }

  lemma NextBatches(o: Outside, from: nat, events: seq<Event>, offset: nat)
    requires offset < |events|
    ensures SomeBatchTimesOut(o, from, Batches(Left(events, offset))) <==>
            TimesOut(o, from, MAX_ATTEMPTS)
            || SomeBatchTimesOut(o, from + SendsUsed(o, from, MAX_ATTEMPTS), Batches(Left(events, offset + BATCH_SIZE)))
  {
    assert Batches(Left(events, offset)) == 1 + Batches(Left(events, offset + BATCH_SIZE));
  }

  lemma NothingLeft(o: Outside, w: World, events: seq<Event>, offset: nat, shipped: bool)
    requires offset >= |events|
    ensures Ship(o, w, events, offset, shipped).1.Ok?
    ensures !SomeBatchTimesOut(o, w.sends, Batches(Left(events, offset)))
  {
  }

  /** The shipper is meant never to throw. What it ships does not matter: it throws exactly when the link
      lets a batch time out. */
  lemma {:induction false} ShipThrows(o: Outside, w: World, events: seq<Event>, offset: nat, shipped: bool)
    ensures Ship(o, w, events, offset, shipped).1.Err? <==>
            SomeBatchTimesOut(o, w.sends, Batches(Left(events, offset)))
    decreases |events| - offset
  {
    hide Send, Ship, TimesOut, SendsUsed, Batches, Batch;
    if offset >= |events| {
      NothingLeft(o, w, events, offset, shipped);
    } else {
      ShipNext(o, w, events, offset, shipped);
      NextBatches(o, w.sends, events, offset);
      SendThrows(o, w, Batch(events, offset), 1);
      var (next, sent) := Send(o, w, Batch(events, offset), 1);
      if sent.Ok? { ShipThrows(o, next, events, offset + BATCH_SIZE, shipped && sent.value); }
    }
  }

  // ----- a whole ledger, exactly ---------------------------------------------------------

  /** Events that the store takes one after the other: each well formed and against no row, and of two
      with one key the later a copy of the earlier, sent in a later batch of two hundred. */
  predicate Takeable(o: Outside, rows: seq<Event>, events: seq<Event>, offset: nat) {
    && (forall i :: offset <= i < |events| ==> o.valid(events[i]) && !Conflicts(rows, events[i]))
    && forall i, j :: offset <= i < j < |events| && events[i].key == events[j].key ==>
         events[i] == events[j] && i / 200 < j / 200
  }

  lemma ConflictsLater(o: Outside, rows: seq<Event>, batch: seq<Event>, e: Event)
    requires Acceptable(o, rows, batch)
    ensures Conflicts(rows + New(rows, batch), e) <==> Conflicts(rows, e) || Conflicts(batch, e)
  {
    NewExact(rows, batch);
    var added := New(rows, batch);
    var after := rows + added;
    if i :| 0 <= i < |rows| && rows[i].key == e.key && rows[i] != e { assert after[i] == rows[i]; }
    if i :| 0 <= i < |batch| && batch[i].key == e.key && batch[i] != e {
      assert batch[i] in batch;
      if batch[i] in rows {
        var k :| 0 <= k < |rows| && rows[k] == batch[i];
        assert after[k] == rows[k];
      } else {
        var k :| 0 <= k < |added| && added[k] == batch[i];
        assert after[|rows| + k] == added[k];
      }
    }
    if k :| 0 <= k < |after| && after[k].key == e.key && after[k] != e {
      if k < |rows| { assert rows[k] == after[k]; } else {
        assert after[k] in added;
        var i :| 0 <= i < |batch| && batch[i] == after[k];
      }
    }
  }

  lemma BatchTaken(o: Outside, rows: seq<Event>, events: seq<Event>, offset: nat)
    requires offset < |events| && offset % 200 == 0 && Takeable(o, rows, events, offset)
    ensures Acceptable(o, rows, Batch(events, offset))
    ensures Takeable(o, rows + New(rows, Batch(events, offset)), events, offset + 200)
  {
    var batch := Batch(events, offset);
    assert forall i :: 0 <= i < |batch| ==> batch[i] == events[offset + i];
    forall i, j | 0 <= i < j < |batch| ensures batch[i].key != batch[j].key {
      assert (offset + i) / 200 == (offset + j) / 200;
    }
    forall j | offset + 200 <= j < |events| ensures !Conflicts(rows + New(rows, batch), events[j]) {
      ConflictsLater(o, rows, batch, events[j]);
    }
  }

  lemma TakenBatch(o: Outside, rows: seq<Event>, events: seq<Event>, offset: nat)
    requires offset < |events| && offset % 200 == 0
    requires Acceptable(o, rows, Batch(events, offset))
    requires Takeable(o, rows + New(rows, Batch(events, offset)), events, offset + 200)
    ensures Takeable(o, rows, events, offset)
  {
    var batch := Batch(events, offset);
    assert forall i :: offset <= i < |events| && i < offset + 200 ==> batch[i - offset] == events[i];
    forall j | offset + 200 <= j < |events| ensures !Conflicts(rows, events[j]) && !Conflicts(batch, events[j]) {
      ConflictsLater(o, rows, batch, events[j]);
    }
    forall i, j | offset <= i < j < |events| && events[i].key == events[j].key
      ensures events[i] == events[j] && i / 200 < j / 200 {
      if i < offset + 200 {
        assert batch[i - offset] == events[i];
        assert j >= offset + 200;
        assert !Conflicts(batch, events[j]);
      }
    }
  }

  /** Of every batch in turn, one of three sends is answered after nothing worse than broken connections. */
  predicate EveryBatchAnswered(o: Outside, from: nat, batches: nat)
    decreases batches
  {
    batches == 0
    || (AnswerArrives(o, from, 3) && EveryBatchAnswered(o, from + SendsUsed(o, from, 3), batches - 1))
  }

  lemma NextAnswered(o: Outside, from: nat, events: seq<Event>, offset: nat)
    requires offset < |events|
    ensures EveryBatchAnswered(o, from, Batches(Left(events, offset))) <==>
            AnswerArrives(o, from, 3)
            && EveryBatchAnswered(o, from + SendsUsed(o, from, 3), Batches(Left(events, offset + 200)))
  {
    assert Batches(Left(events, offset)) == 1 + Batches(Left(events, offset + 200));
  }

  lemma {:induction false} DeliveredRows(o: Outside, w: World, batch: seq<Event>, attempt: nat)
    requires Send(o, w, batch, attempt).1 == Ok(true) && Acceptable(o, w.rows, batch)
    ensures Send(o, w, batch, attempt).0.rows == w.rows + New(w.rows, batch)
    decreases MAX_ATTEMPTS - attempt
  {
    hide Acceptable, New;
    var (next, reply) := Post(o, w, batch);
    if reply.Broken? {
      ReplayIsAccepted(o, w.rows, batch);
      DeliveredRows(o, next, batch, attempt + 1);
    }
  }

  lemma NothingToTake(o: Outside, w: World, events: seq<Event>, offset: nat)
    requires offset >= |events|
    ensures Takeable(o, w.rows, events, offset) && EveryBatchAnswered(o, w.sends, Batches(Left(events, offset)))
    ensures Ship(o, w, events, offset, true).1 == Ok(true)
  {
  }

  /** Over any link, a ledger is shipped exactly when the store can take its events one after the other
      and every batch is answered. So two measurements of one name lose it, unless they are the same
      to the letter and in different batches. */
  lemma {:induction false} ShipsExactly(o: Outside, w: World, events: seq<Event>, offset: nat)
    requires offset % 200 == 0
    ensures Ship(o, w, events, offset, true).1 == Ok(true) <==>
            Takeable(o, w.rows, events, offset) && EveryBatchAnswered(o, w.sends, Batches(Left(events, offset)))
    decreases |events| - offset
  {
    hide Acceptable, Takeable, New, Batch, Send, Ship, Batches, EveryBatchAnswered, AnswerArrives, SendsUsed;
    if offset >= |events| {
      NothingToTake(o, w, events, offset);
    } else {
      var batch := Batch(events, offset);
      var (next, sent) := Send(o, w, batch, 1);
      ShipNext(o, w, events, offset, true);
      SendThrows(o, w, batch, 1);
      DeliveredExactly(o, w, batch, 1);
      NextAnswered(o, w.sends, events, offset);
      if Takeable(o, w.rows, events, offset) { BatchTaken(o, w.rows, events, offset); }
      if sent == Ok(true) {
        DeliveredRows(o, w, batch, 1);
        ShipsExactly(o, next, events, offset + 200);
        if Takeable(o, next.rows, events, offset + 200) { TakenBatch(o, w.rows, events, offset); }
      } else if Ship(o, w, events, offset, true).1 == Ok(true) {
        ShipComplete(o, next, events, offset + 200, false);
      }
    }
  }

  /** One of the next `sends` sends reaches the store, and all before it are worth trying again. */
  predicate Arrives(o: Outside, from: nat, sends: nat)
    decreases sends
  {
    && sends > 0
    && match o.link(from)
       case TimedOut(reached) => reached
       case Cancelled(reached) => reached
       case Unreached => Arrives(o, from + 1, sends - 1)
       case _ => true
  }

  /** A batch is recorded exactly when it may be and some send of it reaches the store, whatever then
      becomes of the replies: one reported as lost may be there. */
  lemma {:induction false} RecordedExactly(o: Outside, w: World, batch: seq<Event>, attempt: nat)
    requires 1 <= attempt <= 3
    ensures Send(o, w, batch, attempt).0.rows
         == if Acceptable(o, w.rows, batch) && Arrives(o, w.sends, 4 - attempt) then w.rows + New(w.rows, batch)
            else w.rows
    decreases 3 - attempt
  {
    hide Acceptable, New;
    var (next, reply) := Post(o, w, batch);
    if reply.Broken? {
      if Acceptable(o, w.rows, batch) { ReplayIsAccepted(o, w.rows, batch); }
      if attempt < 3 { RecordedExactly(o, next, batch, attempt + 1); }
    }
  }

  lemma {:induction false} UnacceptableIsLost(o: Outside, w: World, batch: seq<Event>, attempt: nat)
    requires !Acceptable(o, w.rows, batch)
    ensures Send(o, w, batch, attempt).1 != Ok(true) && Send(o, w, batch, attempt).0.rows == w.rows
    decreases MAX_ATTEMPTS - attempt
  {
    var (next, reply) := Post(o, w, batch);
    if reply.Broken? && attempt < MAX_ATTEMPTS { UnacceptableIsLost(o, next, batch, attempt + 1); }
  }

  /** Two events of one key in a ledger that fits one batch lose the whole ledger. */
  lemma RepeatedKeyLosesTheLedger(o: Outside, w: World, events: seq<Event>)
    requires 0 < |events| <= 200 && !DistinctKeys(events)
    ensures Ship(o, w, events, 0, true).1 != Ok(true) && Ship(o, w, events, 0, true).0.rows == w.rows
  {
    assert Batch(events, 0) == events;
    UnacceptableIsLost(o, w, events, 1);
  }
}
