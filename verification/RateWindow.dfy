/** `incrWithTtl`: fixed-window counters kept as Redis keys with a time to live. */
module RateWindow {
  import opened Types

  const WINDOW_MS := 60000

  type Positive = n: int | n >= 1 witness 1

  /** A counter key. `expires` is None when the `EXPIRE` that follows the first `INCR` failed:
      such a key never goes away. */
  datatype Window = Window(count: Positive, expires: Option<int>)

  /** One call at time `now`; `expireOk` matters only when the call opens a window. */
  datatype Hit = Hit(now: int, expireOk: bool)

  /** Redis drops a key once the clock is past its expiry. */
  predicate Live(w: Option<Window>, now: int) {
    w.Some? && (w.value.expires.None? || now <= w.value.expires.value)
  }

  function Incr(w: Option<Window>, h: Hit): Window {
    if Live(w, h.now) then w.value.(count := w.value.count + 1)
    else Window(1, if h.expireOk then Some(h.now + WINDOW_MS) else None)
  }

  predicate InOrder(hits: seq<Hit>) {
    forall i, j :: 0 <= i < j < |hits| ==> hits[i].now <= hits[j].now
  }

  function Passes(w: Option<Window>, h: Hit, limit: nat, from: int): nat {
    if from <= h.now <= from + WINDOW_MS && Incr(w, h).count <= limit then 1 else 0
  }

  /** How many of the hits are at or under the limit and fall into `[from, from + WINDOW_MS]`. */
  function Passed(w: Option<Window>, hits: seq<Hit>, limit: nat, from: int): nat
    decreases |hits|
  {
    if hits == [] then 0
    else Passes(w, hits[0], limit, from) + Passed(Some(Incr(w, hits[0])), hits[1..], limit, from)
  }

  function Room(w: Window, limit: nat): nat {
    if w.count < limit then limit - w.count else 0
  }

  /** A window that outlives the interval admits no more than the room it has left. */
  lemma {:induction false} SameWindow(w: Window, hits: seq<Hit>, limit: nat, from: int)
    requires w.expires.None? || w.expires.value >= from + WINDOW_MS
    requires InOrder(hits)
    ensures Passed(Some(w), hits, limit, from) <= Room(w, limit)
    decreases |hits|
  {
    if hits == [] {
    } else if hits[0].now > from + WINDOW_MS {
      NothingAfter(Some(w), hits, limit, from);
    } else {
      SameWindow(Incr(Some(w), hits[0]), hits[1..], limit, from);
    }
  }

  lemma {:induction false} NothingAfter(w: Option<Window>, hits: seq<Hit>, limit: nat, from: int)
    requires InOrder(hits) && (hits != [] ==> hits[0].now > from + WINDOW_MS)
    ensures Passed(w, hits, limit, from) == 0
    decreases |hits|
  {
    if hits != [] { NothingAfter(Some(Incr(w, hits[0])), hits[1..], limit, from); }
  }

  /** Inside the interval at most one new window opens. */
  lemma {:induction false} OneMoreWindow(w: Option<Window>, hits: seq<Hit>, limit: nat, from: int)
    requires InOrder(hits) && (hits != [] ==> hits[0].now >= from)
    ensures Passed(w, hits, limit, from) <= limit + (if w.Some? then Room(w.value, limit) else 0)
    decreases |hits|
  {
    if hits != [] {
      var next := Incr(w, hits[0]);
      if Live(w, hits[0].now) {
        OneMoreWindow(Some(next), hits[1..], limit, from);
      } else {
        SameWindow(next, hits[1..], limit, from);
      }
    }
  }

  /** Any closed interval of one window's length sees at most two windows, and when it sees two, the
      first hit of the earlier one lies before the interval. */
  lemma {:induction false} PassedInAnyInterval(w: Option<Window>, hits: seq<Hit>, limit: nat, from: int)
    requires InOrder(hits) && limit >= 1
    ensures Passed(w, hits, limit, from) <= 2 * limit - 1
    decreases |hits|
  {
    if hits == [] {
    } else if hits[0].now < from {
      PassedInAnyInterval(Some(Incr(w, hits[0])), hits[1..], limit, from);
    } else if w.Some? {
      OneMoreWindow(w, hits, limit, from);
    } else {
      SameWindow(Incr(w, hits[0]), hits[1..], limit, from);
    }
  }

  // ---------- The bound is reached ----------

  function Burst(now: int, n: nat): seq<Hit> { seq(n, _ => Hit(now, true)) }

  /** One hit opens a window at 0; the rest of it is spent at its last instant, and the next window
      is spent one millisecond later. */
  function Worst(limit: nat): seq<Hit>
    requires limit >= 1
  {
    [Hit(0, true)] + Burst(WINDOW_MS, limit - 1) + Burst(WINDOW_MS + 1, limit)
  }

  lemma {:induction false} BurstInside(w: Window, now: int, n: nat, tail: seq<Hit>, limit: nat, from: int)
    requires Live(Some(w), now) && from <= now <= from + WINDOW_MS
    requires w.count + n <= limit
    ensures Passed(Some(w), Burst(now, n) + tail, limit, from)
         == n + Passed(Some(w.(count := w.count + n)), tail, limit, from)
    decreases n
  {
    var hits := Burst(now, n) + tail;
    if n == 0 {
      assert hits == tail;
    } else {
      assert hits[1..] == Burst(now, n - 1) + tail;
      BurstInside(w.(count := w.count + 1), now, n - 1, tail, limit, from);
    }
  }

  lemma WorstCase(limit: nat)
    requires limit >= 1
    ensures InOrder(Worst(limit))
    ensures Passed(None, Worst(limit), limit, 1) == 2 * limit - 1
  {
    var first := Window(1, Some(WINDOW_MS));
    var late := Burst(WINDOW_MS + 1, limit);
    var rest := Burst(WINDOW_MS, limit - 1) + late;
    assert Worst(limit)[1..] == rest;
    BurstInside(first, WINDOW_MS, limit - 1, late, limit, 1);
    var full := first.(count := limit);
    assert late[1..] == Burst(WINDOW_MS + 1, limit - 1);
    var second := Window(1, Some(2 * WINDOW_MS + 1));
    assert late[1..] + [] == late[1..];
    BurstInside(second, WINDOW_MS + 1, limit - 1, [], limit, 1);
    assert Passed(Some(full), late, limit, 1) == limit;
  }
}
