/** The due-retry query: which rows a tick gets to see. The query orders by retry time and does not leave out rows
    that are out of attempts. */
module DueList {
  import opened Types
  import opened Consumption

  /** A due row that `tryStart` would start. */
  predicate UnexhaustedDue(t: Table, kind: Kind, maxAttempts: int, now: int, id: EventId) {
    DueRetry(t, Key(kind, id), now) && !Exhausted(t[Key(kind, id)], maxAttempts)
  }

  predicate ExhaustedDue(t: Table, kind: Kind, maxAttempts: int, now: int, id: EventId) {
    DueRetry(t, Key(kind, id), now) && Exhausted(t[Key(kind, id)], maxAttempts)
  }

  /** Due rows out of attempts that come before row `id`, whatever the query does with equal times. */
  function Ahead(t: Table, kind: Kind, maxAttempts: int, now: int, id: EventId): set<EventId>
    requires Key(kind, id) in t
  {
    set k | k in t && k.kind == kind && ExhaustedDue(t, kind, maxAttempts, now, k.id)
            && RetryAt(t[k]) < RetryAt(t[Key(kind, id)]) :: k.id
  }

  /** The same with those that may come before it because their times are equal. */
  function UpTo(t: Table, kind: Kind, maxAttempts: int, now: int, id: EventId): set<EventId>
    requires Key(kind, id) in t
  {
    set k | k in t && k.kind == kind && ExhaustedDue(t, kind, maxAttempts, now, k.id)
            && RetryAt(t[k]) <= RetryAt(t[Key(kind, id)]) :: k.id
  }

  lemma {:induction false} DistinctCount(ids: seq<EventId>, s: set<EventId>)
    requires Distinct(ids) && forall i :: 0 <= i < |ids| ==> ids[i] in s
    ensures |ids| <= |s|
  {
    if ids != [] {
      var n := |ids| - 1;
      assert forall i :: 0 <= i < n ==> ids[..n][i] == ids[i];
      DistinctCount(ids[..n], s - {ids[n]});
    }
  }

  lemma SomeOutside(ids: seq<EventId>, s: set<EventId>)
    requires Distinct(ids) && |ids| > |s|
    ensures exists i :: 0 <= i < |ids| && ids[i] !in s
  {
    if forall i :: 0 <= i < |ids| ==> ids[i] in s { DistinctCount(ids, s); }
  }

  /** With fewer exhausted rows than the limit at or before a row that may still be started, the list reaches some row
      that may be started. */
  lemma ListReachesUnexhausted(t: Table, kind: Kind, maxAttempts: int, now: int, limit: nat, ids: seq<EventId>, due: EventId)
    requires IsDueList(t, kind, now, limit, ids) && UnexhaustedDue(t, kind, maxAttempts, now, due)
    requires |UpTo(t, kind, maxAttempts, now, due)| < limit
    ensures exists i :: 0 <= i < |ids| && UnexhaustedDue(t, kind, maxAttempts, now, ids[i])
  {
    if due in ids {
      var i :| 0 <= i < |ids| && ids[i] == due;
      assert UnexhaustedDue(t, kind, maxAttempts, now, ids[i]);
    } else {
      var before := UpTo(t, kind, maxAttempts, now, due);
      SomeOutside(ids, before);
      var i :| 0 <= i < |ids| && ids[i] !in before;
      assert DueRetry(t, Key(kind, ids[i]), now);
      assert Key(kind, ids[i]).id == ids[i];
      assert UnexhaustedDue(t, kind, maxAttempts, now, ids[i]);
    }
  }

  /** A listed row has fewer exhausted rows than the limit ahead of it. */
  lemma ListedIsNear(t: Table, kind: Kind, maxAttempts: int, now: int, limit: nat, ids: seq<EventId>, i: nat)
    requires IsDueList(t, kind, now, limit, ids) && i < |ids| && UnexhaustedDue(t, kind, maxAttempts, now, ids[i])
    ensures |Ahead(t, kind, maxAttempts, now, ids[i])| < limit
  {
    var ahead, listed := Ahead(t, kind, maxAttempts, now, ids[i]), (set j | 0 <= j < |ids| :: ids[j]);
    forall b | b in ahead ensures b in listed - {ids[i]} {
      assert b in ids;
    }
    SubsetCount(ahead, listed - {ids[i]});
    ListedCount(ids);
  }

  /** When every row that may be started has `limit` exhausted ones ahead of it, the list holds exhausted rows only. */
  lemma ListStarves(t: Table, kind: Kind, maxAttempts: int, now: int, limit: nat, ids: seq<EventId>)
    requires IsDueList(t, kind, now, limit, ids)
    requires forall id :: UnexhaustedDue(t, kind, maxAttempts, now, id) ==> |Ahead(t, kind, maxAttempts, now, id)| >= limit
    ensures forall i :: 0 <= i < |ids| ==> ExhaustedDue(t, kind, maxAttempts, now, ids[i])
  {
    forall i | 0 <= i < |ids| ensures ExhaustedDue(t, kind, maxAttempts, now, ids[i]) {
      assert DueRetry(t, Key(kind, ids[i]), now);
      if UnexhaustedDue(t, kind, maxAttempts, now, ids[i]) { ListedIsNear(t, kind, maxAttempts, now, limit, ids, i); }
    }
  }

  /** No exhausted row is due at the same time as one that may be started. */
  ghost predicate NoTies(t: Table, kind: Kind, maxAttempts: int, now: int) {
    forall id, b :: UnexhaustedDue(t, kind, maxAttempts, now, id) && ExhaustedDue(t, kind, maxAttempts, now, b) ==>
      RetryAt(t[Key(kind, b)]) != RetryAt(t[Key(kind, id)])
  }

  /** Exactly when a tick's list holds a row that may be started: some such row has fewer than `limit` exhausted rows
      ahead of it. */
  lemma ListReachesExactly(t: Table, kind: Kind, maxAttempts: int, now: int, limit: nat, ids: seq<EventId>)
    requires IsDueList(t, kind, now, limit, ids) && NoTies(t, kind, maxAttempts, now)
    ensures (exists i :: 0 <= i < |ids| && UnexhaustedDue(t, kind, maxAttempts, now, ids[i]))
       <==> exists id :: UnexhaustedDue(t, kind, maxAttempts, now, id) && |Ahead(t, kind, maxAttempts, now, id)| < limit
  {
    if i :| 0 <= i < |ids| && UnexhaustedDue(t, kind, maxAttempts, now, ids[i]) {
      ListedIsNear(t, kind, maxAttempts, now, limit, ids, i);
    }
    if id :| UnexhaustedDue(t, kind, maxAttempts, now, id) && |Ahead(t, kind, maxAttempts, now, id)| < limit {
      assert UpTo(t, kind, maxAttempts, now, id) == Ahead(t, kind, maxAttempts, now, id);
      ListReachesUnexhausted(t, kind, maxAttempts, now, limit, ids, id);
    }
  }

  lemma SubsetCount<T>(a: set<T>, b: set<T>)
    requires a <= b
    ensures |a| <= |b|
  {
    if a != {} {
      var x :| x in a;
      SubsetCount(a - {x}, b - {x});
    }
  }

  lemma {:induction false} ListedCount(ids: seq<EventId>)
    ensures |set j | 0 <= j < |ids| :: ids[j]| <= |ids|
  {
    var s := set j | 0 <= j < |ids| :: ids[j];
    if ids != [] {
      var n := |ids| - 1;
      ListedCount(ids[..n]);
      var r := set j | 0 <= j < n :: ids[..n][j];
      assert s == r + {ids[n]} by {
        forall x | x in s ensures x in r + {ids[n]} {
          var j :| 0 <= j < |ids| && ids[j] == x;
          if j < n { assert ids[..n][j] == x; }
        }
        forall x | x in r + {ids[n]} ensures x in s {
          if x in r { var j :| 0 <= j < n && ids[..n][j] == x; assert ids[j] == x; }
        }
      }
    }
  }

  // ---------- The query ----------

  method Earliest(t: Table, kind: Kind, ids: set<EventId>) returns (first: EventId)
    requires ids != {} && forall id :: id in ids ==> Key(kind, id) in t
    ensures first in ids && forall id :: id in ids ==> RetryAt(t[Key(kind, first)]) <= RetryAt(t[Key(kind, id)])
  {
    first :| first in ids;
    var left := ids - {first};
    while left != {}
      invariant left <= ids && first in ids
      invariant forall id :: id in ids && id !in left ==> RetryAt(t[Key(kind, first)]) <= RetryAt(t[Key(kind, id)])
      decreases left
    {
      var id :| id in left;
      if RetryAt(t[Key(kind, id)]) < RetryAt(t[Key(kind, first)]) {
        first := id;
      }
      left := left - {id};
    }
  }

  /** The query so far: `ids` are chosen, `left` are the due rows still to choose from. */
  ghost predicate Chosen(t: Table, kind: Kind, now: int, ids: seq<EventId>, left: set<EventId>) {
    && Distinct(ids)
    && (forall id :: id in left || id in ids ==> DueRetry(t, Key(kind, id), now))
    && (forall id: EventId :: DueRetry(t, Key(kind, id), now) ==> id in left || id in ids)
    && (forall i, j :: 0 <= i < j < |ids| ==> RetryAt(t[Key(kind, ids[i])]) <= RetryAt(t[Key(kind, ids[j])]))
    && (forall i, id :: 0 <= i < |ids| && id in left ==>
          ids[i] != id && RetryAt(t[Key(kind, ids[i])]) <= RetryAt(t[Key(kind, id)]))
  }

  lemma ChooseOne(t: Table, kind: Kind, now: int, ids: seq<EventId>, left: set<EventId>, first: EventId)
    requires Chosen(t, kind, now, ids, left) && first in left
    requires forall id :: id in left ==> RetryAt(t[Key(kind, first)]) <= RetryAt(t[Key(kind, id)])
    ensures Chosen(t, kind, now, ids + [first], left - {first})
  {
    hide DueRetry, RetryAt;
    assert forall id :: id in ids + [first] <==> id in ids || id == first;
  }

  /** Filter, order, limit. */
  method DueRetries(t: Table, kind: Kind, now: int, limit: nat) returns (ids: seq<EventId>)
    ensures IsDueList(t, kind, now, limit, ids)
  {
    ids := [];
    var left := set k | k in t && k.kind == kind && DueRetry(t, k, now) :: k.id;
    assert forall id: EventId :: DueRetry(t, Key(kind, id), now) ==> Key(kind, id).id in left;
    while |ids| < limit && left != {}
      invariant |ids| <= limit && Chosen(t, kind, now, ids, left)
      decreases left
    {
      var first := Earliest(t, kind, left);
      ChooseOne(t, kind, now, ids, left, first);
      ids, left := ids + [first], left - {first};
    }
  }
}
