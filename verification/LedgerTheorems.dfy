/** What the keys of an attempt mean for the sending of its ledger. */
module LedgerTheorems {
  import opened Prelude
  import K = LedgerKeys
  import S = Shipping
  import T = ShippingTheorems
  import M = RepairMachine
  import P = RepairSpending
  import L = RepairTheorems

  function KeysOf(events: seq<S.Event>): (k: seq<string>)
    ensures |k| == |events| && forall i :: 0 <= i < |k| ==> k[i] == events[i].key
  {
    if events == [] then [] else KeysOf(events[..|events| - 1]) + [events[|events| - 1].key]
  }

  lemma KeysTellEventsApart(events: seq<S.Event>)
    ensures Distinct(KeysOf(events)) <==> S.DistinctKeys(events)
  {
  }

  /** The measurements of one attempt, in whatever order they were made. */
  predicate LedgerOf(events: seq<S.Event>, job: string, attempt: nat, story: K.Story) {
    multiset(KeysOf(events)) == multiset(K.Keys(job, attempt, K.Measured(story, K.MEASURES)))
  }

  predicate CleanStory(job: string, story: K.Story) {
    K.SEPARATOR !in job && forall p :: p in K.Measured(story, K.MEASURES) ==> K.Clean(p)
  }

  lemma LedgerKeysDistinct(events: seq<S.Event>, job: string, attempt: nat, story: K.Story)
    requires CleanStory(job, story) && LedgerOf(events, job, attempt, story)
    ensures S.DistinctKeys(events) <==> K.NamesOnce(story)
  {
    var keys := K.Keys(job, attempt, K.Measured(story, K.MEASURES));
    K.AttemptKeysDistinct(job, attempt, story);
    KeysTellEventsApart(events);
    if Distinct(keys) { DistinctInAnyOrder(keys, KeysOf(events)); }
    if Distinct(KeysOf(events)) { DistinctInAnyOrder(KeysOf(events), keys); }
  }

  /** An order whose build was repaired names two sessions alike, so a ledger that fits one batch is
      refused whole: nothing of it is recorded over any link, and it is never reported as shipped. */
  lemma RepairedBuildLosesTheLedger(o: S.Outside, w: S.World, events: seq<S.Event>, job: string, attempt: nat,
                                    story: K.Story)
    requires CleanStory(job, story) && LedgerOf(events, job, attempt, story)
    requires |story.builds| >= 2 && 0 < |events| <= 200
    ensures S.Ship(o, w, events, 0, true).1 != Ok(true) && S.Ship(o, w, events, 0, true).0.rows == w.rows
  {
    LedgerKeysDistinct(events, job, attempt, story);
    T.RepeatedKeyLosesTheLedger(o, w, events);
  }

  /** However long the ledger, it is never reported as shipped, unless two measurements of one name
      are the same to the letter. */
  lemma RepairedLedgerIsNotShipped(o: S.Outside, w: S.World, events: seq<S.Event>, job: string, attempt: nat,
                                   story: K.Story)
    requires CleanStory(job, story) && LedgerOf(events, job, attempt, story) && |story.builds| >= 2
    requires forall i, j :: 0 <= i < j < |events| ==> events[i] != events[j]
    ensures S.Ship(o, w, events, 0, true).1 != Ok(true)
  {
    LedgerKeysDistinct(events, job, attempt, story);
    T.ShipsExactly(o, w, events, 0);
    assert !T.Takeable(o, w.rows, events, 0) by {
      var i, j :| 0 <= i < j < |events| && events[i].key == events[j].key;
      assert events[i] != events[j];
    }
  }

  /** A first shipment of such a ledger arrives exactly when no name repeats, the API finds every
      event well formed, and one of three sends is answered. */
  lemma OneBatchArrivesExactly(o: S.Outside, events: seq<S.Event>, job: string, attempt: nat, story: K.Story)
    requires CleanStory(job, story) && LedgerOf(events, job, attempt, story)
    requires 0 < |events| <= 200
    ensures S.Ship(o, S.World([], 0), events, 0, true).1 == Ok(true) <==>
            K.NamesOnce(story) && (forall e :: e in events ==> o.valid(e)) && T.AnswerArrives(o, 0, 3)
  {
    LedgerKeysDistinct(events, job, attempt, story);
    T.DeliveredExactly(o, S.World([], 0), events, 1);
    assert S.Batch(events, 0) == events;
    var (next, sent) := S.Send(o, S.World([], 0), events, 1);
    assert S.Ship(o, next, events, S.BATCH_SIZE, sent.Ok? && sent.value) == (next, Ok(sent.Ok? && sent.value));
  }

  /** So an order that was delivered only after its build was repaired never files its costs: over
      any link, none of its measurements is recorded. */
  lemma RepairedOrderLosesItsLedger(r: M.Outside, rules: M.Rules, d: M.Desk, pages: nat,
                                    o: S.Outside, w: S.World, events: seq<S.Event>, job: string, attempt: nat,
                                    story: K.Story)
    requires P.Fresh(d) && M.Attempt(r, rules, d, pages).end.Ready?
    requires M.Attempt(r, rules, d, pages).desk.repairs > M.Draw(r, rules, d, pages).desk.repairs
    requires |story.builds| == P.Builds(M.Attempt(r, rules, d, pages).desk.log)
    requires CleanStory(job, story) && LedgerOf(events, job, attempt, story) && 0 < |events| <= 200
    ensures S.Ship(o, w, events, 0, true).1 != Ok(true) && S.Ship(o, w, events, 0, true).0.rows == w.rows
  {
    var drawn := M.Draw(r, rules, d, pages).desk;
    P.DrawSpends(r, rules, d, pages);
    L.DrawLawful(r, rules, d, pages);
    P.GoodBuildCounts(r, rules, drawn, M.Compiled, 0);
    RepairedBuildLosesTheLedger(o, w, events, job, attempt, story);
  }
}
