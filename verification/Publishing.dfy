/** What one pass of the publisher does, over runs: no listed event is passed over. */
module Publishing {
  import opened Types
  import opened Outbox
  import opened Protocol
  import opened Delivery
  import opened NoLoss
  import opened TickScript

  // ---------- Outbox rows only move on ----------

  /** A row stays, keeps its event, and never becomes unprocessed or forgets a failure. */
  predicate RowOnward(t: OutboxTable, u: OutboxTable, e: EventId) {
    e in t ==>
      && e in u && u[e] == t[e].(processed := u[e].processed, attempts := u[e].attempts)
      && (t[e].processed ==> u[e].processed) && u[e].attempts >= t[e].attempts
  }

  lemma OffOnward(c: Config, a: Conf, w: WorkerLabel, b: Conf, e: EventId)
    requires Step(c, a, W(w), b) && !a.pc.Working?
    ensures RowOnward(a.s.bus.outbox, b.s.bus.outbox, e)
  {
    hide StreamItems, RowItems, Delivered, IsBatch;
  }

  lemma StepOnward(c: Config, a: Conf, l: Label, b: Conf, e: EventId)
    requires Step(c, a, l, b)
    ensures RowOnward(a.s.bus.outbox, b.s.bus.outbox, e)
  {
    if l.E? {
      EnvItem(c, a.s, l.e, b.s);
    } else if a.pc.Working? {
      ItemFrame(c, a, l.w, b);
    } else {
      OffOnward(c, a, l.w, b, e);
    }
    hide Step;
  }

  lemma {:induction false} Onward(c: Config, run: seq<Conf>, labels: seq<Label>, i: nat, j: nat, e: EventId)
    requires IsRun(c, run, labels) && i <= j <= |labels|
    ensures RowOnward(run[i].s.bus.outbox, run[j].s.bus.outbox, e)
  {
    hide Step;
    if j > i {
      Onward(c, run, labels, i, j - 1, e);
      StepOnward(c, run[j - 1], labels[j - 1], run[j], e);
    }
  }

  // ---------- One event in one pass ----------

  /** The publisher's XADD of the event. */
  predicate Adds(a: Conf, l: Label, e: EventId) {
    a.pc.Publishing? && a.pc.batch != [] && a.pc.batch[0] == e && l.W? && l.w.XAdd?
  }

  ghost predicate AddedIn(run: seq<Conf>, labels: seq<Label>, i: nat, j: nat, e: EventId)
    requires j <= |labels| && |run| == |labels| + 1
  {
    exists m :: i < m < j && Adds(run[m], labels[m], e)
  }

  /** Marked processed, or a failure more than before. */
  predicate Settled(s: State, e: EventId, attempts: nat) {
    e in s.bus.outbox && (s.bus.outbox[e].processed || s.bus.outbox[e].attempts > attempts)
  }

  /** The event is still to come, in hand, or done with. */
  predicate Coming(a: Conf, e: EventId) {
    InPublisher(a.pc) && if a.pc.Publishing? then e in a.pc.batch else a.pc.batch != [] && e in a.pc.batch[1..]
  }

  predicate InHandNow(a: Conf, e: EventId) {
    (a.pc.Marking? || a.pc.Refusing?) && a.pc.batch != [] && a.pc.batch[0] == e
  }

  predicate Passing(a: Conf, e: EventId, attempts: nat, added: bool) {
    && e in a.s.bus.outbox && a.s.bus.outbox[e].attempts >= attempts
    && (Coming(a, e) || (added && (InHandNow(a, e) || Settled(a.s, e, attempts))))
  }

  lemma PublisherStep(c: Config, a: Conf, w: WorkerLabel, b: Conf, e: EventId, attempts: nat, added: bool)
    requires Step(c, a, W(w), b) && InPublisher(a.pc) && (InPublisher(b.pc) || b.pc.Claiming?)
    requires Passing(a, e, attempts, added)
    ensures Passing(b, e, attempts, added || Adds(a, W(w), e))
  {
    OffOnward(c, a, w, b, e);
  }

  lemma EnvStays(c: Config, a: Conf, l: EnvLabel, b: Conf, e: EventId, attempts: nat, added: bool)
    requires Step(c, a, E(l), b) && Passing(a, e, attempts, added)
    ensures Passing(b, e, attempts, added)
  {
    EnvItem(c, a.s, l, b.s);
    hide Step;
  }

  /** The event is not in the batch, and its row is as it was. */
  predicate Absent(a: Conf, e: EventId, t: OutboxTable) {
    && (e in a.s.bus.outbox && e in t ==> a.s.bus.outbox[e] == t[e]) && (e in t ==> e in a.s.bus.outbox)
    && (InPublisher(a.pc) ==> e !in a.pc.batch)
  }

  lemma AbsentStep(c: Config, a: Conf, l: Label, b: Conf, e: EventId, t: OutboxTable)
    requires Step(c, a, l, b) && InPublisher(a.pc) && (InPublisher(b.pc) || b.pc.Claiming?) && Absent(a, e, t)
    ensures Absent(b, e, t) && !Adds(a, l, e)
  {
    if l.E? { EnvItem(c, a.s, l.e, b.s); } else { OffOnward(c, a, l.w, b, e); }
    assert InPublisher(a.pc) && a.pc.batch != [] ==> a.pc.batch[0] in a.pc.batch;
    hide EnvStep;
  }

  lemma AddedMore(run: seq<Conf>, labels: seq<Label>, i: nat, k: nat, e: EventId)
    requires i < k < |labels| && |run| == |labels| + 1
    ensures AddedIn(run, labels, i, k + 1, e) <==> AddedIn(run, labels, i, k, e) || Adds(run[k], labels[k], e)
  {
    hide Adds;
  }

  lemma {:induction false} PassesOn(c: Config, run: seq<Conf>, labels: seq<Label>, i: nat, k: nat, e: EventId, attempts: nat,
                                    t: OutboxTable)
    requires IsRun(c, run, labels) && i < k <= |labels|
    requires forall m :: i < m < k ==> InPublisher(run[m].pc)
    requires InPublisher(run[k].pc) || run[k].pc.Claiming?
    ensures Passing(run[i + 1], e, attempts, false) ==> Passing(run[k], e, attempts, AddedIn(run, labels, i, k, e))
    ensures Absent(run[i + 1], e, t) ==> Absent(run[k], e, t) && !AddedIn(run, labels, i, k, e)
  {
    hide Step, Passing, Absent;
    if k == i + 1 {
      assert !AddedIn(run, labels, i, k, e);
    } else {
      PassesOn(c, run, labels, i, k - 1, e, attempts, t);
      AddedMore(run, labels, i, k - 1, e);
      var (a, b) := (run[k - 1], run[k]);
      if Absent(a, e, t) { AbsentStep(c, a, labels[k - 1], b, e, t); }
      var before := AddedIn(run, labels, i, k - 1, e);
      if Passing(a, e, attempts, before) {
        match labels[k - 1]
        case E(l) => EnvStays(c, a, l, b, e, attempts, before);
        case W(w) => PublisherStep(c, a, w, b, e, attempts, before);
      }
      hide AddedIn;
    }
  }

  // ---------- One pass ----------

  /** A complete pass, in any run: an XADD is made for exactly the listed events, and each of them is processed then, or
      has one more failure on record. Every other row is as the query saw it. */
  lemma PassPublishes(c: Config, run: seq<Conf>, labels: seq<Label>, i: nat, j: nat, e: EventId)
    requires IsRun(c, run, labels) && CompletePublish(run, labels, i, j)
    ensures AddedIn(run, labels, i, j, e) <==> e in labels[i].w.events
    ensures e in labels[i].w.events ==>
              e in run[i].s.bus.outbox && Settled(run[j].s, e, run[i].s.bus.outbox[e].attempts)
    ensures e !in labels[i].w.events && e in run[i].s.bus.outbox ==>
              e in run[j].s.bus.outbox && run[j].s.bus.outbox[e] == run[i].s.bus.outbox[e]
  {
    var a, b, events := run[i], run[i + 1], labels[i].w.events;
    assert Step(c, a, labels[i], b);
    assert b == Conf(a.s, NextPublish(events)) && PublishBatch(a.s, events);
    if e in events {
      var m :| 0 <= m < |events| && events[m] == e;
      assert Unprocessed(a.s.bus.outbox, events[m]);
      PassesOn(c, run, labels, i, j, e, a.s.bus.outbox[e].attempts, a.s.bus.outbox);
    } else {
      PassesOn(c, run, labels, i, j, e, 0, a.s.bus.outbox);
    }
    hide Step, IsBatch, AddedIn;
  }

  /** In particular no unprocessed event is passed over that has fewer than 50 others as old. */
  lemma OldestArePublished(c: Config, run: seq<Conf>, labels: seq<Label>, i: nat, j: nat, e: EventId)
    requires IsRun(c, run, labels) && CompletePublish(run, labels, i, j)
    requires Unprocessed(run[i].s.bus.outbox, e) && |Older(run[i].s.bus.outbox, e)| < 50
    ensures AddedIn(run, labels, i, j, e) && Settled(run[j].s, e, run[i].s.bus.outbox[e].attempts)
  {
    assert PublishBatch(run[i].s, labels[i].w.events) by { assert Step(c, run[i], labels[i], run[i + 1]); }
    BatchReaches(run[i].s.bus.outbox, PUBLISH_BATCH, labels[i].w.events, e);
    PassPublishes(c, run, labels, i, j, e);
  }
}
