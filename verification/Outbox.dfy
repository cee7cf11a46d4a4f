/** The outbox table and the query of the publisher: which rows a tick gets to see. */
module Outbox {
  import opened Types
  import DueList

  /** `created` is the time of the insert. */
  datatype OutboxRow = OutboxRow(kind: Kind, payload: Payload, processed: bool, attempts: nat, created: int)

  type OutboxTable = map<EventId, OutboxRow>

  predicate Unprocessed(t: OutboxTable, e: EventId) { e in t && !t[e].processed }

  /** A possible answer of `listUnprocessed`: unprocessed rows, oldest first, the first `limit`. */
  ghost predicate IsBatch(t: OutboxTable, limit: nat, events: seq<EventId>) {
    && Distinct(events) && |events| <= limit
    && (forall i :: 0 <= i < |events| ==> Unprocessed(t, events[i]))
    && (forall i, j :: 0 <= i < j < |events| ==> t[events[i]].created <= t[events[j]].created)
    && (forall e: EventId :: Unprocessed(t, e) && e !in events ==>
          |events| == limit && forall i :: 0 <= i < |events| ==> t[events[i]].created <= t[e].created)
  }

  /** The unprocessed rows that may be listed before row `e`: those that are as old. */
  function Older(t: OutboxTable, e: EventId): set<EventId>
    requires e in t
  {
    set x | x in t && x != e && Unprocessed(t, x) && t[x].created <= t[e].created
  }

  /** The query lists every unprocessed row that has fewer than `limit` other ones as old. */
  lemma BatchReaches(t: OutboxTable, limit: nat, events: seq<EventId>, e: EventId)
    requires IsBatch(t, limit, events) && Unprocessed(t, e) && |Older(t, e)| < limit
    ensures e in events
  {
    if e !in events {
      forall i | 0 <= i < |events| ensures events[i] in Older(t, e) {
        assert Unprocessed(t, events[i]) && events[i] in events;
      }
      DueList.DistinctCount(events, Older(t, e));
    }
  }

  // ---------- The query ----------

  method Oldest(t: OutboxTable, events: set<EventId>) returns (first: EventId)
    requires events != {} && forall e :: e in events ==> e in t
    ensures first in events && forall e :: e in events ==> t[first].created <= t[e].created
  {
    first :| first in events;
    var left := events - {first};
    while left != {}
      invariant left <= events && first in events
      invariant forall e :: e in events && e !in left ==> t[first].created <= t[e].created
      decreases left
    {
      var e :| e in left;
      if t[e].created < t[first].created {
        first := e;
      }
      left := left - {e};
    }
  }

  /** The query so far: `events` are chosen, `left` are the unprocessed rows still to choose from. */
  ghost predicate Chosen(t: OutboxTable, events: seq<EventId>, left: set<EventId>) {
    && Distinct(events)
    && (forall e: EventId :: Unprocessed(t, e) <==> e in left || e in events)
    && (forall i :: 0 <= i < |events| ==> Unprocessed(t, events[i]))
    && (forall i, j :: 0 <= i < j < |events| ==> t[events[i]].created <= t[events[j]].created)
    && (forall i, e :: 0 <= i < |events| && e in left ==> events[i] != e && t[events[i]].created <= t[e].created)
  }

  lemma ChooseOne(t: OutboxTable, events: seq<EventId>, left: set<EventId>, first: EventId)
    requires Chosen(t, events, left) && first in left && forall e :: e in left ==> t[first].created <= t[e].created
    ensures Chosen(t, events + [first], left - {first})
  {
    assert forall e :: e in events + [first] <==> e in events || e == first;
  }

  /** Filter, order, limit. */
  method FindUnprocessed(t: OutboxTable, limit: nat) returns (events: seq<EventId>)
    ensures IsBatch(t, limit, events)
  {
    events := [];
    var left := set e | e in t && !t[e].processed;
    while |events| < limit && left != {}
      invariant |events| <= limit && Chosen(t, events, left)
      decreases left
    {
      var first := Oldest(t, left);
      ChooseOne(t, events, left, first);
      events, left := events + [first], left - {first};
    }
  }
}
