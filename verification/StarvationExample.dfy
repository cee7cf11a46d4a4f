/** How a handler comes to starve: for every attempt limit above one there is a run in which 25 result events use up
    their attempts and a 26th waits behind them for good. */
module StarvationExample {
  import opened Types
  import opened Consumption
  import opened Market
  import opened Outbox
  import opened Protocol
  import opened Delivery
  import opened NoLoss
  import opened Starvation

  function K(e: EventId): Key { Key(ResultPublished, e) }

  function RowItem(e: EventId, p: nat): Item { Item(K(e), Opaque, Some(p)) }

  /** Events 0 to n - 1 are out of attempts and due. */
  ghost predicate Used(c: Config, s: State, n: nat) {
    forall e: nat :: e < n ==> Blocker(c, s, K(e), s.clock)
  }

  /** The outbox holds result events 0 to n - 1, all published. */
  ghost predicate Holds(s: State, n: nat) {
    forall e: nat :: (e in s.bus.outbox <==> e < n) && (e < n ==> s.bus.outbox[e].kind == ResultPublished && s.bus.outbox[e].payload == Opaque && s.bus.outbox[e].processed)
  }

  ghost predicate Ready(c: Config, a: Conf, n: nat) {
    a.pc == Idle && Used(c, a.s, n) && Holds(a.s, n) && a.s.bus.delivered == |a.s.bus.stream| && a.s.bus.pending == map[]
  }

  /** Event n is being handled for the `att`-th time, from stream position p. */
  ghost predicate Handling(c: Config, a: Conf, n: nat, src: Source, p: nat, att: int) {
    && a.pc == Working(src, RowItem(n, p), [], Running(att, PostWebhook)) && !src.Retried?
    && Used(c, a.s, n) && Holds(a.s, n + 1) && a.s.bus.delivered == |a.s.bus.stream|
    && p < |a.s.bus.stream| && a.s.bus.stream[p] == Entry(n, ResultPublished, Opaque)
    && a.s.bus.pending.Keys == {p} && a.s.bus.pending[p] <= a.s.clock
    && K(n) in a.s.rows && a.s.rows[K(n)] == Row(PROCESSING, att, None)
  }

  // ---------- One step at a time ----------

  function Do(c: Config, a: Conf, next: (State, Pc)): Conf { Conf(next.0, next.1) }

  lemma Emits(c: Config, a: Conf, n: nat) returns (b: Conf)
    requires Ready(c, a, n)
    ensures Step(c, a, E(Emit(n, ResultPublished)), b)
    ensures b == Conf(Emitted(a.s, n, ResultPublished, Opaque), Idle)
  {
    b := Conf(Emitted(a.s, n, ResultPublished, Opaque), Idle);
  }

  lemma Lists(c: Config, a: Conf, events: seq<EventId>) returns (b: Conf)
    requires a.pc == Idle && PublishBatch(a.s, events)
    ensures Step(c, a, W(ListUnprocessed(Ok, events)), b) && b == Conf(a.s, NextPublish(events))
  {
    b := Conf(a.s, NextPublish(events));
  }

  lemma Adds(c: Config, a: Conf, n: nat) returns (b: Conf)
    requires a.pc == Publishing([n]) && n in a.s.bus.outbox
    ensures Step(c, a, W(XAdd(Ok)), b) && b == Conf(Appended(a.s, n), Marking([n]))
  {
    b := Conf(Appended(a.s, n), Marking([n]));
  }

  lemma Marks(c: Config, a: Conf, n: nat) returns (b: Conf)
    requires a.pc == Marking([n]) && n in a.s.bus.outbox
    ensures Step(c, a, W(MarkProcessed(Ok)), b)
    ensures b == Conf(WithOutbox(a.s, n, a.s.bus.outbox[n].(processed := true)), Claiming)
  {
    b := Conf(WithOutbox(a.s, n, a.s.bus.outbox[n].(processed := true)), Claiming);
    assert [n][1..] == [];
  }

  lemma Claims(c: Config, a: Conf, positions: seq<nat>) returns (b: Conf)
    requires a.pc == Claiming && Claimable(a.s, positions)
    ensures Step(c, a, W(AutoClaim(Ok, positions)), b)
    ensures b == Do(c, a, AfterClaim(a.s, positions, Ok))
  {
    b := Do(c, a, AfterClaim(a.s, positions, Ok));
  }

  lemma Reads(c: Config, a: Conf, count: nat) returns (b: Conf)
    requires a.pc == Polling && count == Min(READ_COUNT, |a.s.bus.stream| - a.s.bus.delivered)
    ensures Step(c, a, W(ReadGroup(Ok, count)), b) && b == Do(c, a, AfterRead(a.s, count, Ok))
  {
    b := Do(c, a, AfterRead(a.s, count, Ok));
  }

  lemma Begins(c: Config, a: Conf, n: nat, p: nat, att: int) returns (b: Conf)
    requires a.pc.Working? && a.pc.item == RowItem(n, p) && a.pc.phase == Fetched
    requires StartAttempt(a.s.rows, K(n), c.maxAttempts, a.s.clock) == Some(att)
    ensures Step(c, a, W(Begin(Ok)), b)
    ensures b.pc == a.pc.(phase := Running(att, PostWebhook))
    ensures b.s == a.s.(rows := b.s.rows, hist := b.s.hist)
    ensures b.s.rows == a.s.rows[K(n) := Row(PROCESSING, att, if K(n) in a.s.rows then a.s.rows[K(n)].nextRetryAt else None)]
  {
    b := Do(c, a, AfterBegin(c, a.s, a.pc, Ok));
  }

  lemma Posts(c: Config, a: Conf, att: int) returns (b: Conf)
    requires a.pc.Working? && a.pc.phase == Running(att, PostWebhook)
    ensures Step(c, a, W(DeliverWebhook(1, false)), b)
    ensures b.pc == a.pc.(phase := Threw(att)) && b.s == a.s.(hist := b.s.hist)
  {
    b := Do(c, a, AfterPost(a.s, a.pc, att, 1, false));
  }

  lemma FailsIt(c: Config, a: Conf, att: int) returns (b: Conf)
    requires a.pc.Working? && a.pc.phase == Threw(att) && a.pc.item.pos.Some? && a.pc.item.key in a.s.rows
    ensures Step(c, a, W(Fail(Ok)), b)
    ensures b.pc == a.pc.(phase := Acking(false)) && b.s == a.s.(rows := MarkFailed(a.s.rows, a.pc.item.key, a.s.clock + BackoffMs(att)))
  {
    b := Do(c, a, AfterFail(a.s, a.pc, att, Ok));
  }

  lemma Acks(c: Config, a: Conf, p: nat) returns (b: Conf)
    requires a.pc.Working? && a.pc.phase == Acking(false) && a.pc.item.pos == Some(p)
    ensures Step(c, a, W(Ack(Ok)), b) && b.s == a.s.(bus := a.s.bus.(pending := a.s.bus.pending - {p}))
    ensures b.pc == NextItem(a.pc.src, a.pc.rest)
  {
    b := Do(c, a, AfterAck(a.s, a.pc, false, p, Ok));
  }

  lemma Stops(c: Config, a: Conf) returns (b: Conf)
    ensures Step(c, a, W(Stop), b) && b.pc == Idle && b.s == a.s.(hist := b.s.hist)
  {
    b := Conf(CutOff(a.s, a.pc), Idle);
  }

  lemma Waits(c: Config, a: Conf, ms: nat) returns (b: Conf)
    ensures Step(c, a, E(Elapse(ms)), b) && b == Conf(a.s.(clock := a.s.clock + ms), a.pc)
  {
    b := Conf(a.s.(clock := a.s.clock + ms), a.pc);
  }

  // ---------- Runs ----------

  ghost predicate Leads(c: Config, t: Trace, a: Conf) {
    IsRun(c, t.run, t.labels) && t.run[|t.labels|] == a
  }

  lemma Go(c: Config, t: Trace, a: Conf, l: Label, b: Conf) returns (u: Trace)
    requires Leads(c, t, a) && Step(c, a, l, b)
    ensures Leads(c, u, b)
  {
    Extend(c, t.run, t.labels, l, b);
    u := Trace(t.run + [b], t.labels + [l]);
  }

  /** Event n stands at the end of the stream, unread. */
  ghost predicate Unread(c: Config, a: Conf, n: nat) {
    && Used(c, a.s, n) && Holds(a.s, n + 1) && K(n) !in a.s.rows
    && a.s.bus.pending == map[] && |a.s.bus.stream| == a.s.bus.delivered + 1
    && a.s.bus.stream[a.s.bus.delivered] == Entry(n, ResultPublished, Opaque)
  }

  lemma Announce(c: Config, t: Trace, a: Conf, n: nat) returns (u: Trace, b: Conf)
    requires Leads(c, t, a) && Ready(c, a, n)
    ensures Leads(c, u, b) && b.pc == Claiming && Unread(c, b, n) && b.s.clock == a.s.clock
  {
    NoLoss.RunKeeps(c, t.run, t.labels, |t.labels|);
    assert K(n).id !in a.s.bus.outbox && K(n) !in a.s.rows;
    hide Step, Leads, Inv;
    var b1 := Emits(c, a, n);
    u := Go(c, t, a, E(Emit(n, ResultPublished)), b1);
    forall e: EventId ensures Unprocessed(b1.s.bus.outbox, e) <==> e == n {
      assert e in a.s.bus.outbox <==> e < n;
    }
    u, b := Publish(c, u, b1, n);
    forall e: nat | e < n ensures Blocker(c, b.s, K(e), b.s.clock) { assert Blocker(c, a.s, K(e), a.s.clock); }
  }

  lemma Publish(c: Config, t: Trace, a: Conf, n: nat) returns (u: Trace, b: Conf)
    requires Leads(c, t, a) && a.pc == Idle && n in a.s.bus.outbox
    requires forall e: EventId :: Unprocessed(a.s.bus.outbox, e) <==> e == n
    ensures Leads(c, u, b) && b.pc == Claiming && n in b.s.bus.outbox
    ensures b.s == WithOutbox(Appended(a.s, n), n, a.s.bus.outbox[n].(processed := true))
  {
    hide Step, Leads;
    var b2 := Lists(c, a, [n]);
    u := Go(c, t, a, W(ListUnprocessed(Ok, [n])), b2);
    var b3 := Adds(c, b2, n);
    u := Go(c, u, b2, W(XAdd(Ok)), b3);
    b := Marks(c, b3, n);
    u := Go(c, u, b3, W(MarkProcessed(Ok)), b);
  }

  lemma Read(c: Config, t: Trace, a: Conf, n: nat) returns (u: Trace, b: Conf)
    requires Leads(c, t, a) && a.pc == Claiming && Unread(c, a, n)
    ensures Leads(c, u, b) && Unread(c, a, n) && b.pc == Working(Polled, RowItem(n, a.s.bus.delivered), [], Fetched)
    ensures b.s == a.s.(bus := a.s.bus.(pending := map[a.s.bus.delivered := a.s.clock], delivered := |a.s.bus.stream|))
  {
    var p := a.s.bus.delivered;
    hide Step, Leads;
    var b1 := Claims(c, a, []);
    u := Go(c, t, a, W(AutoClaim(Ok, [])), b1);
    assert Delivered(a.s.bus, [], a.s.clock) == map[];
    assert b1 == Conf(a.s, Polling);
    b := Reads(c, b1, 1);
    u := Go(c, u, b1, W(ReadGroup(Ok, 1)), b);
    assert Range(p, 1) == [p];
    assert Delivered(a.s.bus, [p], a.s.clock) == map[p := a.s.clock];
    assert StreamItems(a.s.bus, [p]) == [RowItem(n, p)];
    assert [RowItem(n, p)][1..] == [];
  }

  lemma StartFirst(c: Config, t: Trace, a: Conf, n: nat) returns (u: Trace, b: Conf, p: nat)
    requires Leads(c, t, a) && Ready(c, a, n)
    ensures Leads(c, u, b) && Handling(c, b, n, Polled, p, 1) && b.s.clock == a.s.clock
  {
    var b1, b2;
    u, b1 := Announce(c, t, a, n);
    u, b2 := Read(c, u, b1, n);
    p := b1.s.bus.delivered;
    hide Step, Leads;
    b := Begins(c, b2, n, p, 1);
    u := Go(c, u, b2, W(Begin(Ok)), b);
    forall e: nat | e < n ensures Blocker(c, b.s, K(e), b.s.clock) { assert Blocker(c, b1.s, K(e), b1.s.clock); }
  }

  /** Event n is pending at position p, and its row is left PROCESSING. */
  ghost predicate LeftOver(c: Config, a: Conf, n: nat, p: nat, att: int) {
    && Used(c, a.s, n) && Holds(a.s, n + 1) && a.s.bus.delivered == |a.s.bus.stream|
    && p < |a.s.bus.stream| && a.s.bus.stream[p] == Entry(n, ResultPublished, Opaque)
    && a.s.bus.pending.Keys == {p}
    && K(n) in a.s.rows && a.s.rows[K(n)] == Row(PROCESSING, att, None)
  }

  /** The process stops in the handler, and half a minute passes. */
  lemma Abandon(c: Config, t: Trace, a: Conf, n: nat, src: Source, p: nat, att: int) returns (u: Trace, b: Conf)
    requires Leads(c, t, a) && Handling(c, a, n, src, p, att)
    ensures Leads(c, u, b) && b.pc == Claiming && LeftOver(c, b, n, p, att) && Claimable(b.s, [p])
  {
    hide Step, Leads;
    var b1 := Stops(c, a);
    u := Go(c, t, a, W(Stop), b1);
    var b2 := Waits(c, b1, MIN_IDLE_MS);
    u := Go(c, u, b1, E(Elapse(MIN_IDLE_MS)), b2);
    b := Lists(c, b2, []);
    u := Go(c, u, b2, W(ListUnprocessed(Ok, [])), b);
    forall e: nat | e < n ensures Blocker(c, b.s, K(e), b.s.clock) { assert Blocker(c, a.s, K(e), a.s.clock); }
  }

  /** Then the entry is claimed and started again. */
  lemma StartAgain(c: Config, t: Trace, a: Conf, n: nat, src: Source, p: nat, att: int) returns (u: Trace, b: Conf)
    requires Leads(c, t, a) && Handling(c, a, n, src, p, att) && att < c.maxAttempts
    ensures Leads(c, u, b) && Handling(c, b, n, Claimed, p, att + 1)
  {
    hide Step, Leads;
    var b3;
    u, b3 := Abandon(c, t, a, n, src, p, att);
    var b4 := Claims(c, b3, [p]);
    u := Go(c, u, b3, W(AutoClaim(Ok, [p])), b4);
    assert StreamItems(b3.s.bus, [p]) == [RowItem(n, p)] && [RowItem(n, p)][1..] == [];
    b := Begins(c, b4, n, p, att + 1);
    u := Go(c, u, b4, W(Begin(Ok)), b);
    forall e: nat | e < n ensures Blocker(c, b.s, K(e), b.s.clock) { assert Blocker(c, b3.s, K(e), b3.s.clock); }
  }

  lemma {:induction false} StartUpTo(c: Config, t: Trace, a: Conf, n: nat, src: Source, p: nat, att: int)
    returns (u: Trace, b: Conf, last: Source)
    requires Leads(c, t, a) && Handling(c, a, n, src, p, att) && att <= c.maxAttempts
    ensures Leads(c, u, b) && Handling(c, b, n, last, p, c.maxAttempts)
    decreases c.maxAttempts - att
  {
    if att == c.maxAttempts {
      u, b, last := t, a, src;
    } else {
      u, b := StartAgain(c, t, a, n, src, p, att);
      u, b, last := StartUpTo(c, u, b, n, Claimed, p, att + 1);
    }
  }

  /** The webhook fails, the row is marked, the entry acknowledged; then nothing happens for a while. */
  lemma GiveUp(c: Config, t: Trace, a: Conf, n: nat, src: Source, p: nat, att: int, ms: nat) returns (u: Trace, b: Conf)
    requires Leads(c, t, a) && Handling(c, a, n, src, p, att)
    ensures Leads(c, u, b) && b.pc == Idle && Used(c, b.s, n) && Holds(b.s, n + 1)
    ensures b.s.bus.delivered == |b.s.bus.stream| && b.s.bus.pending == map[] && b.s.clock == a.s.clock + ms
    ensures K(n) in b.s.rows && b.s.rows[K(n)] == Row(FAILED, att, Some(a.s.clock + BackoffMs(att)))
    ensures forall e: nat :: e < n ==> b.s.rows[K(e)] == a.s.rows[K(e)]
  {
    hide Step, Leads, BackoffMs;
    var b1 := Posts(c, a, att);
    u := Go(c, t, a, W(DeliverWebhook(1, false)), b1);
    var b2 := FailsIt(c, b1, att);
    u := Go(c, u, b1, W(Fail(Ok)), b2);
    var b3 := Acks(c, b2, p);
    u := Go(c, u, b2, W(Ack(Ok)), b3);
    var b4 := Stops(c, b3);
    u := Go(c, u, b3, W(Stop), b4);
    b := Waits(c, b4, ms);
    u := Go(c, u, b4, E(Elapse(ms)), b);
    forall e: nat | e < n ensures Blocker(c, b.s, K(e), b.s.clock) { assert Blocker(c, a.s, K(e), a.s.clock); }
  }

  /** n events, one after the other, use up their attempts. */
  lemma {:induction false} UseUp(c: Config, n: nat) returns (t: Trace, a: Conf)
    requires c.maxAttempts >= 1
    ensures Leads(c, t, a) && Ready(c, a, n)
  {
    if n == 0 {
      a := Conf(START, Idle);
      t := Trace([a], []);
    } else {
      var m: nat := n - 1;
      t, a := UseUp(c, m);
      var u, b, p := StartFirst(c, t, a, m);
      var src;
      t, b, src := StartUpTo(c, u, b, m, Polled, p, 1);
      t, a := GiveUp(c, t, b, m, src, p, c.maxAttempts, CAP_MS);
      assert BackoffMs(c.maxAttempts) <= CAP_MS;
      forall e: nat | e < n ensures Blocker(c, a.s, K(e), a.s.clock) {
        if e < m { assert Blocker(c, b.s, K(e), b.s.clock); }
      }
    }
  }

  function First(n: nat): (r: set<EventId>)
    ensures |r| == n && forall e: nat :: e in r <==> e < n
  {
    if n == 0 then {} else First(n - 1) + {n - 1}
  }

  /** After 25 such events, one more fails for the first time: its handler starves and it waits for good. */
  lemma StarvesAfter25(c: Config) returns (t: Trace, a: Conf, at: int)
    requires c.maxAttempts > 1
    ensures Leads(c, t, a) && Starving(c, a, ResultPublished, First(25), at)
    ensures Starvation.Waits(c, a, ResultPublished, 25)
    ensures Due(a.s.rows[K(25)], a.s.clock)
  {
    t, a := UseUp(c, RETRY_LIMIT);
    at := a.s.clock;
    var u, b, p := StartFirst(c, t, a, RETRY_LIMIT);
    t, a := GiveUp(c, u, b, RETRY_LIMIT, Polled, p, 1, BASE_MS);
    assert BackoffMs(1) == BASE_MS;
    NoLoss.RunKeeps(c, t.run, t.labels, |t.labels|);
    hide Leads, BackoffMs, First;
    Behind(c, b, a, at, RETRY_LIMIT);
  }

  lemma Behind(c: Config, b: Conf, a: Conf, at: int, n: nat)
    requires n == RETRY_LIMIT && c.maxAttempts > 1 && Inv(c, a) && a.pc == Idle
    requires Used(c, b.s, n) && b.s.clock == at <= a.s.clock && Used(c, a.s, n) && Holds(a.s, n + 1)
    requires a.s.bus.delivered == |a.s.bus.stream| && a.s.bus.pending == map[]
    requires K(n) in a.s.rows && a.s.rows[K(n)] == Row(FAILED, 1, Some(at + BASE_MS))
    requires forall e: nat :: e < n ==> K(e) in a.s.rows && K(e) in b.s.rows && a.s.rows[K(e)] == b.s.rows[K(e)]
    ensures Starving(c, a, ResultPublished, First(n), at) && Starvation.Waits(c, a, ResultPublished, n)
  {
    var blockers := First(n);
    hide First;
    forall e | e in blockers ensures Blocker(c, a.s, Key(ResultPublished, e), at) {
      assert Blocker(c, b.s, K(e), b.s.clock);
    }
    forall k | k in a.s.rows && k.kind == ResultPublished ensures Later(c, a.s.rows[k], at) {
      assert RowOk(c, a.s, k);
      if k.id < n { assert Blocker(c, a.s, K(k.id), a.s.clock); } else { assert k == K(n); }
    }
    NoCopies(a.s.bus, n);
    hide Inv, Used, HasLive;
  }

  lemma NoCopies(b: Bus, e: EventId)
    requires b.delivered == |b.stream| && b.pending == map[]
    ensures !HasLive(b, e)
  {
  }

  /** In whatever way that run goes on, the event is never dispatched again. */
  lemma LeftBehind(c: Config, t: Trace, a: Conf, at: int, run: seq<Conf>, labels: seq<Label>)
    requires Leads(c, t, a) && Starving(c, a, ResultPublished, First(25), at)
    requires Starvation.Waits(c, a, ResultPublished, 25)
    requires IsRun(c, run, labels) && t.run <= run
    ensures Starvation.Waits(c, run[|labels|], ResultPublished, 25)
    ensures run[|labels|].s.hist.att.dispatched[K(25)] == a.s.hist.att.dispatched[K(25)]
  {
    NeverAgain(c, run, labels, |t.labels|, |labels|, ResultPublished, First(RETRY_LIMIT), at, RETRY_LIMIT);
  }
}
