/** The worker's tick as statements: publish, claim, poll and retry loops with their error paths. The proof is that it
    extends the run by steps of the transition system, whatever other processes do at every `await`, and by which ones. */
module WorkerLoop {
  import opened Types
  import opened Consumption
  import opened DueList
  import opened Market
  import opened Outbox
  import opened Protocol
  import opened TickScript
  import opened Ticks
  import Guarantees
  import NoLoss
  import SettlementProofs
  import Starvation
  import Success

  /** Where `dispatch` stands once it has been called. */
  function Entered(kind: Kind, payload: Payload, n: int): Phase {
    match kind
    case CompletionRequested =>
      if payload.Completion? && payload.taskId.Some? && payload.escrowId.Some?
      then Running(n, ReadTask(payload.taskId.value)) else Threw(n)
    case ResultPublished => Running(n, PostWebhook)
    case Other => Returned(n)
  }

  /** The stores without the history. */
  predicate SameStores(a: State, b: State) {
    a.clock == b.clock && a.market == b.market && a.bus == b.bus && a.rows == b.rows
  }

  lemma BatchesIgnoreHistory(a: State, b: State)
    requires SameStores(a, b)
    ensures forall events :: PublishBatch(a, events) == PublishBatch(b, events)
    ensures forall positions :: Claimable(a, positions) == Claimable(b, positions)
  {}

  lemma EnvIgnoresHistory(c: Config, s: State, h: History, l: EnvLabel)
    ensures EnvStep(c, s, l).Some? == EnvStep(c, s.(hist := h), l).Some?
    ensures EnvStep(c, s, l).Some? ==> SameStores(EnvStep(c, s, l).value, EnvStep(c, s.(hist := h), l).value)
  {}

  /** Where `tryStart` leads. */
  lemma BeginLeads(c: Config, s: State, pc: Pc, o: Outcome)
    requires pc.Working?
    ensures var attempt := StartAttempt(s.rows, pc.item.key, c.maxAttempts, s.clock);
      var (s', pc') := AfterBegin(c, s, pc, o);
      && SameStores(s', s.(rows := if o == Err || attempt.None? then s.rows
                                   else TryStart(s.rows, pc.item.key, c.maxAttempts, s.clock)))
      && pc' == (if o != Ok then Idle
                 else if attempt.None? then
                   (if pc.item.pos.Some? then pc.(phase := Acking(false)) else NextItem(pc.src, pc.rest))
                 else if pc.item.pos.Some? then pc.(phase := Entered(pc.item.key.kind, pc.item.payload, attempt.value))
                 else pc.(phase := LookingUp(attempt.value)))
  {
  }

  /** The pending entries between the cursor and `p`. */
  function Scanned(b: Bus, cursor: nat, p: nat): set<nat> {
    set q | q in b.pending && cursor <= q < p
  }

  lemma OneScanned(b: Bus, cursor: nat, p: nat)
    requires p in b.pending && cursor <= p
    ensures |Scanned(b, cursor, p + 1)| == |Scanned(b, cursor, p)| + 1
  {
    assert Scanned(b, cursor, p + 1) == Scanned(b, cursor, p) + {p};
  }

  lemma NoneScanned(b: Bus, cursor: nat, p: nat)
    requires p !in b.pending && cursor <= p
    ensures Scanned(b, cursor, p + 1) == Scanned(b, cursor, p)
  {
  }

  /** The entries before `p` that have been idle for half a minute, in order. */
  ghost predicate IsScan(b: Bus, cursor: nat, now: int, p: nat, positions: seq<nat>) {
    && |positions| <= 20
    && (forall i, j :: 0 <= i < j < |positions| ==> positions[i] < positions[j])
    && (forall q: nat :: q in positions <==> q in b.pending && cursor <= q < p && now - b.pending[q] >= 30000)
  }

  lemma SomeScanned(b: Bus, cursor: nat, now: int, p: nat, positions: seq<nat>)
    requires IsScan(b, cursor, now, p, positions) && (positions != [] || Scanned(b, cursor, p) != {})
    ensures p > cursor
  {
    if positions != [] { assert positions[0] in positions; }
  }

  /** What a claim from the cursor finds: every idle entry before `next`, where it stopped for a reason. */
  ghost predicate IsClaim(b: Bus, cursor: nat, now: int, positions: seq<nat>, next: nat) {
    && IsScan(b, cursor, now, if next == 0 then |b.stream| else next, positions)
    && (next != 0 ==>
          next in b.pending && next > cursor && (|positions| == 20 || |Scanned(b, cursor, next)| == 200))
  }

  /** After the claim its entries are pending as of now, and no other entry before `next` has been idle that long. */
  ghost predicate IsClaimed(b: Bus, cursor: nat, now: int, positions: seq<nat>, next: nat) {
    && (forall i :: 0 <= i < |positions| ==> positions[i] in b.pending && b.pending[positions[i]] == now)
    && (forall q: nat :: q in b.pending && cursor <= q && (next == 0 || q < next) && q !in positions ==>
          now - b.pending[q] < 30000)
    && (next != 0 ==>
          next in b.pending && next > cursor && (|positions| == 20 || |Scanned(b, cursor, next)| == 200))
  }

  lemma ClaimIsClaimable(s: State, cursor: nat, positions: seq<nat>, next: nat)
    requires IsClaim(s.bus, cursor, s.clock, positions, next) && forall p :: p in s.bus.pending ==> p < |s.bus.stream|
    ensures Claimable(s, positions)
  {
    forall i | 0 <= i < |positions|
      ensures positions[i] in s.bus.pending && s.clock - s.bus.pending[positions[i]] >= MIN_IDLE_MS
    {
      assert positions[i] in positions;
    }
  }

  lemma ClaimedNow(b: Bus, cursor: nat, now: int, positions: seq<nat>, next: nat)
    requires IsClaim(b, cursor, now, positions, next) && forall p :: p in b.pending ==> p < |b.stream|
    ensures IsClaimed(b.(pending := Delivered(b, positions, now)), cursor, now, positions, next)
  {
    var after := b.(pending := Delivered(b, positions, now));
    assert forall i :: 0 <= i < |positions| ==> positions[i] in positions;
    assert after.pending.Keys == b.pending.Keys;
    if next != 0 { assert Scanned(after, cursor, next) == Scanned(b, cursor, next); }
  }

  /** Where the lookup of the event leads. */
  lemma LookupLeads(s: State, pc: Pc, n: int, o: Outcome)
    requires pc.Working?
    ensures var (s', pc') := AfterLookup(s, pc, n, o); var id := pc.item.key.id;
      && SameStores(s', s)
      && pc' == (if o != Ok then Idle
                 else pc.(phase := if id !in s.bus.outbox then Threw(n)
                                   else Entered(pc.item.key.kind, s.bus.outbox[id].payload, n)))
  {
  }

  /** The last `count` entries before the delivered mark are `items`, and pending as of now. */
  predicate JustRead(b: Bus, count: nat, items: seq<Item>, now: int) {
    && count <= b.delivered <= |b.stream| && |items| == count
    && (forall i :: 0 <= i < count ==> items[i] == StreamItem(b, b.delivered - count + i))
    && (forall p :: b.delivered - count <= p < b.delivered ==> p in b.pending && b.pending[p] == now)
  }

  lemma ReadItems(b: Bus, count: nat, now: int)
    requires b.delivered + count <= |b.stream|
    ensures var positions := Range(b.delivered, count);
            JustRead(b.(pending := Delivered(b, positions, now), delivered := b.delivered + count), count,
                     StreamItems(b, positions), now)
  {
    var positions := Range(b.delivered, count);
    forall p | b.delivered <= p < b.delivered + count ensures p in positions {
      assert positions[p - b.delivered] == p;
    }
  }

  class Worker {
    const c: Config
    var clock: int
    var market: Market
    var bus: Bus
    const consumptions: EventConsumptionRepository
    var running: bool
    /** The consumer's guard and cursor for claims. */
    var claiming: bool
    var claimCursor: nat
    /** Where the tick stands, and everything that has happened since the system was empty. */
    ghost var pc: Pc
    ghost var hist: History
    ghost var run: seq<Conf>
    ghost var labels: seq<Label>

    ghost function Stores(): State
      reads this`clock, this`market, this`bus, this`hist, consumptions
    {
      State(clock, market, bus, consumptions.rows, hist)
    }

    function Visible(): State
      reads this`clock, this`market, this`bus, consumptions
    {
      State(clock, market, bus, consumptions.rows, NO_HISTORY)
    }

    /** The run up to now. */
    ghost function Past(): Trace
      reads this`run, this`labels
    {
      Trace(run, labels)
    }

    ghost predicate Valid()
      reads this`clock, this`market, this`bus, this`pc, this`hist, this`run, this`labels, consumptions
    {
      IsRun(c, run, labels) && run[|labels|] == Conf(Stores(), pc)
    }

    constructor (c: Config)
      ensures Valid() && pc == Idle && !running && !claiming && claimCursor == 0 && this.c == c
    {
      this.c := c;
      claiming, claimCursor := false, 0;
      consumptions := new EventConsumptionRepository();
      clock, market, bus, hist := 0, START.market, START.bus, NO_HISTORY;
      running, pc, run, labels := false, Idle, [Conf(START, Idle)], [];
    }

    /** No step has been taken from here to here. */
    lemma Here(src: Source)
      requires Valid()
      ensures Works(Past(), Past(), [], src) && Stays(Past(), Past(), pc) && Publishes(Past(), Past(), [])
      ensures |run| == |labels| + 1 && run[|labels|].pc == pc
    {
      Nothing(Past(), src, pc);
    }

    /** The statements since `was` are the step `l`. */
    ghost method Log(t: Trace, was: State, l: WorkerLabel)
      requires IsRun(c, run, labels) && run[|labels|] == Conf(was, pc) && Stays(t, Past(), pc)
      requires WorkerStep(c, was, pc, l).Some? && SameStores(Stores(), WorkerStep(c, was, pc, l).value.0)
      modifies this`pc, this`hist, this`run, this`labels
      ensures Valid() && pc == WorkerStep(c, was, old(pc), l).value.1
      ensures labels == old(labels) + [W(l)] && Takes(t, old(pc), Past(), l)
    {
      Own(t, Past(), pc, l, Conf(WorkerStep(c, was, pc, l).value.0, WorkerStep(c, was, pc, l).value.1));
      var (after, at) := WorkerStep(c, was, pc, l).value;
      Extend(c, run, labels, W(l), Conf(after, at));
      hist, run, labels, pc := after.hist, run + [Conf(after, at)], labels + [W(l)], at;
    }

    /** Any number of API requests, any amount of time, and timer callbacks that find the tick running. */
    method Await()
      requires Valid() && running
      modifies this`clock, this`market, this`bus, consumptions, this`hist, this`run, this`labels
      ensures Valid() && Stays(old(Past()), Past(), pc)
      decreases 0, 1
    {
      ghost var t := Past();
      Here(Claimed);
      var n: nat :| n >= 0;
      for i := 0 to n
        invariant Valid() && Stays(t, Past(), pc)
      {
        var timer: bool := *;
        if timer {
          var threw;
          ghost var log, did;
          threw, log, did := RunTick(false);
        }
        var l: EnvLabel := *;
        var next := EnvStep(c, Visible(), l);
        if next.Some? {
          EnvIgnoresHistory(c, Stores(), NO_HISTORY, l);
          ghost var after := EnvStep(c, Stores(), l).value;
          Extend(c, run, labels, E(l), Conf(after, pc));
          OtherSteps(t, Past(), pc, l, Conf(after, pc));
          clock, market, bus, consumptions.rows := next.value.clock, next.value.market, next.value.bus, next.value.rows;
          hist, run, labels := after.hist, run + [Conf(after, pc)], labels + [E(l)];
        }
      }
    }

    // ---------- Outbox publisher ----------

    method ListUnprocessed() returns (o: Outcome, events: seq<EventId>)
      requires Valid() && running && pc == Idle
      modifies this`clock, this`market, this`bus, consumptions, this`pc, this`hist, this`run, this`labels
      ensures Valid() && pc == if o == Ok then NextPublish(events) else Idle
      ensures Takes(old(Past()), old(pc), Past(), WorkerLabel.ListUnprocessed(o, events))
      ensures IsBatch(bus.outbox, 50, events)
      decreases 0, 3
    {
      ghost var t0 := Past();
      Await();
      o := *;
      events := FindUnprocessed(bus.outbox, PUBLISH_BATCH);
      Log(t0, Stores(), WorkerLabel.ListUnprocessed(o, events));
    }

    ghost method BatchKnown()
      requires Valid() && (pc.Publishing? || pc.Marking? || pc.Refusing?)
      ensures pc.batch != [] && pc.batch[0] in bus.outbox
    {
      NoLoss.RunKeeps(c, run, labels, |labels|);
    }

    method XAdd(id: EventId) returns (o: Outcome)
      requires Valid() && running && pc.Publishing? && (pc.batch != [] ==> id == pc.batch[0])
      modifies this`clock, this`market, this`bus, consumptions, this`pc, this`hist, this`run, this`labels
      ensures Valid() && pc == if o == Ok then Marking(old(pc.batch)) else Refusing(old(pc.batch))
      ensures Takes(old(Past()), old(pc), Past(), WorkerLabel.XAdd(o))
      ensures id in bus.outbox
      ensures o != Err ==>
                bus.stream != [] && bus.stream[|bus.stream| - 1] == Entry(id, bus.outbox[id].kind, bus.outbox[id].payload)
      decreases 0, 3
    {
      ghost var t0 := Past();
      Await();
      BatchKnown();
      ghost var was := Stores();
      o := *;
      if o != Err {
        var row := bus.outbox[id];
        bus := bus.(stream := bus.stream + [Entry(id, row.kind, row.payload)]);
      }
      Log(t0, was, WorkerLabel.XAdd(o));
    }

    method MarkProcessed(id: EventId) returns (o: Outcome)
      requires Valid() && running && pc.Marking? && (pc.batch != [] ==> id == pc.batch[0])
      modifies this`clock, this`market, this`bus, consumptions, this`pc, this`hist, this`run, this`labels
      ensures Valid() && old(pc.batch) != []
      ensures pc == if o == Ok then NextPublish(old(pc.batch)[1..]) else Refusing(old(pc.batch))
      ensures Takes(old(Past()), old(pc), Past(), WorkerLabel.MarkProcessed(o))
      ensures id in bus.outbox && (o != Err ==> bus.outbox[id].processed)
      decreases 0, 3
    {
      ghost var t0 := Past();
      Await();
      BatchKnown();
      ghost var was := Stores();
      o := *;
      if o != Err {
        bus := bus.(outbox := bus.outbox[id := bus.outbox[id].(processed := true)]);
      }
      Log(t0, was, WorkerLabel.MarkProcessed(o));
    }

    method MarkUnpublished(id: EventId) returns (o: Outcome)
      requires Valid() && running && pc.Refusing? && (pc.batch != [] ==> id == pc.batch[0])
      modifies this`clock, this`market, this`bus, consumptions, this`pc, this`hist, this`run, this`labels
      ensures Valid() && old(pc.batch) != []
      ensures pc == if o == Ok then NextPublish(old(pc.batch)[1..]) else Idle
      ensures Takes(old(Past()), old(pc), Past(), WorkerLabel.MarkUnpublished(o))
      ensures id in bus.outbox && (o != Err ==> bus.outbox[id].attempts > 0)
      decreases 0, 3
    {
      ghost var t0 := Past();
      Await();
      BatchKnown();
      ghost var was := Stores();
      o := *;
      if o != Err {
        var row := bus.outbox[id];
        bus := bus.(outbox := bus.outbox[id := row.(attempts := row.attempts + 1)]);
      }
      Log(t0, was, WorkerLabel.MarkUnpublished(o));
    }

    /** One event of the batch. */
    method PublishEvent(id: EventId) returns (threw: bool, ghost did: seq<WorkerLabel>)
      requires Valid() && running && pc.Publishing? && pc.batch != [] && id == pc.batch[0]
      modifies this`clock, this`market, this`bus, consumptions, this`pc, this`hist, this`run, this`labels
      ensures Valid() && pc == if threw then Idle else NextPublish(old(pc.batch)[1..])
      ensures Publishes(old(Past()), Past(), did) && PublishScript(did, threw)
      decreases 0, 4
    {
      hide Valid, Grows, Takes, Publishes;
      ghost var t0 := Past();
      var o := XAdd(id);
      ghost var t1 := Past();
      TakesPublish(t0, old(pc), t1, WorkerLabel.XAdd(o));
      did := [WorkerLabel.XAdd(o)];
      if o == Ok {
        ghost var p := pc;
        o := MarkProcessed(id);
        TakesPublish(t1, p, Past(), WorkerLabel.MarkProcessed(o));
        did := PublishesMore(t0, t1, Past(), did, [WorkerLabel.MarkProcessed(o)]);
        t1 := Past();
      }
      threw := false;
      if o != Ok {
        ghost var p := pc;
        o := MarkUnpublished(id);
        TakesPublish(t1, p, Past(), WorkerLabel.MarkUnpublished(o));
        did := PublishesMore(t0, t1, Past(), did, [WorkerLabel.MarkUnpublished(o)]);
        threw := o != Ok;
      }
    }

    method PublishOnce() returns (threw: bool, ghost did: seq<WorkerLabel>, events: seq<EventId>,
                                  ghost parts: seq<seq<WorkerLabel>>)
      requires Valid() && running && pc == Idle
      modifies this`clock, this`market, this`bus, consumptions, this`pc, this`hist, this`run, this`labels
      ensures Valid() && pc == if threw then Idle else Claiming
      ensures Grows(old(Past()), Past(), did) && (!threw ==> HasPublish(old(Past()), Past()))
      ensures if threw then Breaks(did)
              else did == Section(WorkerLabel.ListUnprocessed(Ok, events), parts) && PublishParts(|events|, parts)
      decreases 0, 9
    {
      ghost var t0 := Past();
      hide Valid, Grows, Takes, PublishScript, Publishes, HasPublish;
      var o;
      o, events := ListUnprocessed();
      parts, did := [], [WorkerLabel.ListUnprocessed(o, events)];
      TakesGrow(t0, Idle, Past(), WorkerLabel.ListUnprocessed(o, events));
      if o != Ok {
        threw := true;
        return;
      }
      ghost var t2, v := Past(), [];
      Here(Claimed);
      for i := 0 to |events|
        invariant Valid() && pc == NextPublish(events[i..])
        invariant Publishes(t2, Past(), v) && Grows(t0, Past(), did) && did == Section(WorkerLabel.ListUnprocessed(Ok, events), parts)
        invariant PublishParts(i, parts)
      {
        ghost var t1, w := Past(), [];
        threw, w := PublishEvent(events[i]);
        v := PublishesMore(t2, t1, Past(), v, w);
        PublishesGrow(t1, Past(), w);
        did := GrowsMore(t0, t1, Past(), did, w);
        if threw {
          PublishBreaks(w);
          BreaksLater(Section(WorkerLabel.ListUnprocessed(Ok, events), parts), w);
          return;
        }
        FlatMore(parts, w);
        parts := parts + [w];
      }
      threw := false;
      Here(Claimed);
      PublishDone(t0, t2, Past(), events, v);
    }

    // ---------- Stream and due list ----------

    /** The scan of XAUTOCLAIM: pending entries from the cursor on, until 20 are claimed, 200 were looked at, or none is
        left. `next` is the entry it would look at next, 0 when there is none. */
    method ScanPending() returns (positions: seq<nat>, next: nat)
      requires forall p :: p in bus.pending ==> p < |bus.stream|
      ensures IsClaim(bus, claimCursor, clock, positions, next)
    {
      positions, next := [], 0;
      var p, scanned := claimCursor, 0;
      while p < |bus.stream|
        invariant claimCursor <= p && next == 0
        invariant IsScan(bus, claimCursor, clock, p, positions) && scanned == |Scanned(bus, claimCursor, p)|
      {
        if p in bus.pending {
          if |positions| == 20 || scanned == 200 {
            SomeScanned(bus, claimCursor, clock, p, positions);
            return positions, p;
          }
          OneScanned(bus, claimCursor, p);
          scanned := scanned + 1;
          assert forall i :: 0 <= i < |positions| ==> positions[i] in positions;
          if clock - bus.pending[p] >= MIN_IDLE_MS {
            positions := positions + [p];
          }
        } else {
          NoneScanned(bus, claimCursor, p);
        }
        p := p + 1;
      }
    }

    method AutoClaim() returns (o: Outcome, items: seq<Item>, ghost positions: seq<nat>, next: nat)
      requires Valid() && running && pc == Claiming
      modifies this`clock, this`market, this`bus, consumptions, this`pc, this`hist, this`run, this`labels
      ensures Valid() && pc == if o == Ok then NextItem(Claimed, items) else Idle
      ensures forall i :: 0 <= i < |items| ==> items[i].pos.Some?
      ensures Takes(old(Past()), old(pc), Past(), WorkerLabel.AutoClaim(o, positions))
      ensures |items| == |positions| && Distinct(positions)
      ensures forall i :: 0 <= i < |items| ==> positions[i] < |bus.stream| && items[i] == StreamItem(bus, positions[i])
      ensures o != Err ==> IsClaimed(bus, claimCursor, clock, positions, next)
      decreases 0, 3
    {
      hide IsClaim, IsClaimed, Delivered, Takes, Stays;
      ghost var t0 := Past();
      Await();
      NoLoss.RunKeeps(c, run, labels, |labels|);
      o := *;
      ghost var was := Stores();
      var entries;
      entries, next := ScanPending();
      positions := entries;
      ClaimIsClaimable(was, claimCursor, entries, next);
      items := StreamItems(bus, entries);
      if o != Err {
        ClaimedNow(bus, claimCursor, clock, entries, next);
        bus := bus.(pending := Delivered(bus, entries, clock));
      }
      Log(t0, was, WorkerLabel.AutoClaim(o, positions));
    }

    method ReadGroup() returns (o: Outcome, items: seq<Item>, count: nat)
      requires Valid() && running && pc == Polling
      modifies this`clock, this`market, this`bus, consumptions, this`pc, this`hist, this`run, this`labels
      ensures Valid() && pc == if o == Ok then NextItem(Polled, items) else Idle
      ensures forall i :: 0 <= i < |items| ==> items[i].pos.Some?
      ensures Takes(old(Past()), old(pc), Past(), WorkerLabel.ReadGroup(o, count))
      ensures |items| == count <= 20
      ensures o != Err ==> JustRead(bus, count, items, clock) && (count == 20 || bus.delivered == |bus.stream|)
      decreases 0, 3
    {
      hide JustRead, Delivered, Takes, Stays;
      ghost var t0 := Past();
      Await();
      NoLoss.RunKeeps(c, run, labels, |labels|);
      ghost var was := Stores();
      o := *;
      count := Min(READ_COUNT, |bus.stream| - bus.delivered);
      var positions := Range(bus.delivered, count);
      items := StreamItems(bus, positions);
      if o != Err {
        bus := bus.(pending := Delivered(bus, positions, clock), delivered := bus.delivered + count);
      }
      ReadItems(was.bus, count, clock);
      Log(t0, was, WorkerLabel.ReadGroup(o, count));
    }

    method ListDueRetries(kind: Kind) returns (o: Outcome, items: seq<Item>, ids: seq<EventId>)
      requires Valid() && running && pc == Scanning(kind)
      modifies this`clock, this`market, this`bus, consumptions, this`pc, this`hist, this`run, this`labels
      ensures Valid() && pc == if o == Ok then NextItem(Retried(kind), items) else Idle
      ensures forall i :: 0 <= i < |items| ==> items[i].pos.None?
      ensures Takes(old(Past()), old(pc), Past(), ListDue(o, ids))
      ensures IsDueList(consumptions.rows, kind, clock, 25, ids) && items == RowItems(kind, ids)
      decreases 0, 3
    {
      ghost var t0 := Past();
      Await();
      o := *;
      ids := DueRetries(consumptions.rows, kind, clock, RETRY_LIMIT);
      items := RowItems(kind, ids);
      Log(t0, Stores(), ListDue(o, ids));
    }

    // ---------- Consumption rows ----------

    /** Without an answer the exception leaves the tick. */
    method TryStart(k: Key) returns (o: Outcome, attempt: Option<int>)
      requires Valid() && running && pc.Working? && pc.phase == Fetched && k == pc.item.key
      modifies this`clock, this`market, this`bus, consumptions, this`pc, this`hist, this`run, this`labels
      ensures Valid()
      ensures pc == if o != Ok then Idle
                    else if attempt.None? then
                      (if old(pc).item.pos.Some? then old(pc).(phase := Acking(false))
                       else NextItem(old(pc).src, old(pc).rest))
                    else if old(pc).item.pos.Some?
                    then old(pc).(phase := Entered(k.kind, old(pc).item.payload, attempt.value))
                    else old(pc).(phase := LookingUp(attempt.value))
      ensures Takes(old(Past()), old(pc), Past(), Begin(o))
      ensures o != Err && attempt.Some? ==>
                k in consumptions.rows && consumptions.rows[k].status == PROCESSING && consumptions.rows[k].attempts == attempt.value
      ensures o == Ok && attempt.None? ==> StartAttempt(consumptions.rows, k, c.maxAttempts, clock).None?
      decreases 0, 3
    {
      ghost var t0 := Past();
      Await();
      ghost var was := Stores();
      o := *;
      attempt := None;
      if o != Err {
        attempt := consumptions.Start(k, c.maxAttempts, clock);
      }
      BeginLeads(c, was, pc, o);
      hide AfterBegin;
      Log(t0, was, Begin(o));
    }

    /** A failed `markSucceeded` is caught with the handler's own exceptions. */
    method MarkSucceeded(k: Key) returns (o: Outcome)
      requires Valid() && running && pc.Working? && pc.phase.Returned? && k == pc.item.key
      modifies this`clock, this`market, this`bus, consumptions, this`pc, this`hist, this`run, this`labels
      ensures Valid()
      ensures pc == if o != Ok then old(pc).(phase := Threw(old(pc).phase.attempt))
                    else if old(pc).item.pos.Some? then old(pc).(phase := Acking(false))
                    else NextItem(old(pc).src, old(pc).rest)
      ensures Takes(old(Past()), old(pc), Past(), Succeed(o))
      ensures o != Err && k in consumptions.rows ==> consumptions.rows[k].status == SUCCEEDED
      decreases 0, 3
    {
      ghost var t0 := Past();
      Await();
      ghost var was := Stores();
      o := *;
      if o != Err {
        consumptions.Succeed(k);
      }
      Log(t0, was, Succeed(o));
    }

    method MarkFailed(k: Key, attempt: int) returns (o: Outcome)
      requires Valid() && running && pc.Working? && pc.phase == Threw(attempt) && k == pc.item.key
      modifies this`clock, this`market, this`bus, consumptions, this`pc, this`hist, this`run, this`labels
      ensures Valid()
      ensures pc == if old(pc).item.pos.Some? then old(pc).(phase := Acking(o != Ok))
                    else if o == Ok then NextItem(old(pc).src, old(pc).rest) else Idle
      ensures Takes(old(Past()), old(pc), Past(), Fail(o))
      ensures o != Err && k in consumptions.rows ==>
                consumptions.rows[k].status == FAILED && consumptions.rows[k].nextRetryAt == Some(clock + BackoffMs(attempt))
      decreases 0, 3
    {
      hide BackoffMs;
      ghost var t0 := Past();
      Await();
      ghost var was := Stores();
      o := *;
      if o != Err {
        consumptions.Fail(k, clock + BackoffMs(attempt));
      }
      Log(t0, was, Fail(o));
    }

    method Ack(pos: nat) returns (o: Outcome)
      requires Valid() && running && pc.Working? && pc.phase.Acking? && pc.item.pos == Some(pos)
      modifies this`clock, this`market, this`bus, consumptions, this`pc, this`hist, this`run, this`labels
      ensures Valid()
      ensures pc == if old(pc).phase.abort || o != Ok then Idle else NextItem(old(pc).src, old(pc).rest)
      ensures Takes(old(Past()), old(pc), Past(), WorkerLabel.Ack(o))
      ensures o != Err ==> pos !in bus.pending
      decreases 0, 3
    {
      ghost var t0 := Past();
      Await();
      ghost var was := Stores();
      o := *;
      if o != Err {
        bus := bus.(pending := bus.pending - {pos});
      }
      Log(t0, was, WorkerLabel.Ack(o));
    }

    /** `findById` on the outbox: the event's payload, or None when there is no such event. */
    method FindEvent(id: EventId, attempt: int) returns (o: Outcome, payload: Option<Payload>)
      requires Valid() && running && pc.Working? && pc.phase == LookingUp(attempt) && id == pc.item.key.id
      modifies this`clock, this`market, this`bus, consumptions, this`pc, this`hist, this`run, this`labels
      ensures Valid()
      ensures pc == if o != Ok then Idle
                    else old(pc).(phase := if payload.None? then Threw(attempt)
                                           else Entered(old(pc).item.key.kind, payload.value, attempt))
      ensures Takes(old(Past()), old(pc), Past(), Lookup(o))
      ensures payload == if id in bus.outbox then Some(bus.outbox[id].payload) else None
      decreases 0, 3
    {
      hide AfterLookup, CutOff;
      ghost var t0 := Past();
      Await();
      o := *;
      payload := if id in bus.outbox then Some(bus.outbox[id].payload) else None;
      LookupLeads(Stores(), pc, attempt, o);
      Log(t0, Stores(), Lookup(o));
    }

    // ---------- Handlers ----------

    method FindTask(t: TaskId, ghost attempt: int) returns (o: Outcome, task: Option<Task>)
      requires Valid() && running && pc.Working? && pc.phase == Running(attempt, ReadTask(t))
      modifies this`clock, this`market, this`bus, consumptions, this`pc, this`hist, this`run, this`labels
      ensures Valid()
      ensures pc == old(pc).(phase :=
                if o != Ok || task.None? then Threw(attempt)
                else if task.value.status == COMPLETED then Returned(attempt)
                else if task.value.status != COMPLETING then Threw(attempt)
                else Running(attempt, ReadBids(t, task.value)))
      ensures Takes(old(Past()), old(pc), Past(), WorkerLabel.FindTask(o))
      ensures task == if t in market.tasks then Some(market.tasks[t]) else None
      decreases 0, 3
    {
      ghost var t0 := Past();
      Await();
      o := *;
      task := if t in market.tasks then Some(market.tasks[t]) else None;
      Log(t0, Stores(), WorkerLabel.FindTask(o));
    }

    /** The escrow of the selected bid, or None when no bid is selected. */
    method FindSelected(t: TaskId, ghost task: Task, ghost attempt: int) returns (o: Outcome, escrow: Option<EscrowId>, ghost choice: Option<BidId>)
      requires Valid() && running && pc.Working? && pc.phase == Running(attempt, ReadBids(t, task))
      modifies this`clock, this`market, this`bus, consumptions, this`pc, this`hist, this`run, this`labels
      ensures Valid()
      ensures pc == old(pc).(phase := if o != Ok || escrow.None? then Threw(attempt)
                                      else Running(attempt, Release(t, task, escrow.value)))
      ensures Takes(old(Past()), old(pc), Past(), FindBids(o, choice))
      ensures Found(market, t, choice)
      ensures escrow == if choice.Some? then Some(market.bids[choice.value].escrowId) else None
      decreases 0, 3
    {
      ghost var t0 := Past();
      Await();
      o := *;
      var bid: Option<BidId>, left := None, market.bids.Keys;
      while left != {} && bid.None?
        invariant left <= market.bids.Keys
        invariant bid.Some? ==> IsSelected(market, t, bid.value)
        invariant bid.None? ==> forall b :: b in market.bids && b !in left ==> !IsSelected(market, t, b)
        decreases left, bid.None?
      {
        var b :| b in left;
        if market.bids[b].taskId == t && market.bids[b].status == SELECTED {
          bid := Some(b);
        }
        left := left - {b};
      }
      escrow := if bid.Some? then Some(market.bids[bid.value].escrowId) else None;
      choice := bid;
      Log(t0, Stores(), FindBids(o, choice));
    }

    method ReleaseEscrow(escrow: EscrowId, ghost t: TaskId, ghost task: Task, ghost attempt: int) returns (o: Outcome)
      requires Valid() && running && pc.Working? && pc.phase == Running(attempt, Release(t, task, escrow))
      modifies this`clock, this`market, this`bus, consumptions, this`pc, this`hist, this`run, this`labels
      ensures Valid()
      ensures pc == old(pc).(phase := if o == Ok then Running(attempt, Handler.SaveTask(t, task, escrow)) else Threw(attempt))
      ensures Takes(old(Past()), old(pc), Past(), ReleaseMilestone(o))
      decreases 0, 3
    {
      ghost var t0 := Past();
      Await();
      o := *;
      Log(t0, Stores(), ReleaseMilestone(o));
    }

    /** Saves the snapshot read earlier, with the new status. */
    method SaveTask(t: TaskId, task: Task, ghost escrow: EscrowId, ghost attempt: int) returns (o: Outcome)
      requires Valid() && running && pc.Working? && pc.phase == Running(attempt, Handler.SaveTask(t, task, escrow))
      modifies this`clock, this`market, this`bus, consumptions, this`pc, this`hist, this`run, this`labels
      ensures Valid()
      ensures pc == old(pc).(phase := if o == Ok then Running(attempt, EmitDone(t)) else Threw(attempt))
      ensures Takes(old(Past()), old(pc), Past(), SaveCompleted(o))
      ensures o != Err ==> t in market.tasks && market.tasks[t] == task.(status := COMPLETED)
      decreases 0, 3
    {
      ghost var t0 := Past();
      Await();
      ghost var was := Stores();
      o := *;
      if o != Err {
        market := market.(tasks := market.tasks[t := task.(status := COMPLETED)]);
      }
      Log(t0, was, SaveCompleted(o));
    }

    method EmitCompletedEvent(ghost t: TaskId, ghost attempt: int) returns (o: Outcome, id: EventId)
      requires Valid() && running && pc.Working? && pc.phase == Running(attempt, EmitDone(t))
      modifies this`clock, this`market, this`bus, consumptions, this`pc, this`hist, this`run, this`labels
      ensures Valid()
      ensures pc == old(pc).(phase := if o == Ok then Returned(attempt) else Threw(attempt))
      ensures Takes(old(Past()), old(pc), Past(), EmitCompleted(o, id))
      ensures o != Err ==> id in bus.outbox && bus.outbox[id] == OutboxRow(Other, Opaque, false, 0, clock)
      decreases 0, 3
    {
      ghost var t0 := Past();
      Await();
      ghost var was := Stores();
      o := *;
      id := FreshId(bus.outbox.Keys);
      if o != Err {
        bus := bus.(outbox := bus.outbox[id := OutboxRow(Other, Opaque, false, 0, clock)]);
      }
      Log(t0, was, EmitCompleted(o, id));
    }

    /** Webhook delivery makes at most `maxRetries + 1` POSTs. */
    method PostWebhooks(ghost attempt: int) returns (ok: bool, ghost posts: nat)
      requires Valid() && running && pc.Working? && pc.phase == Running(attempt, PostWebhook)
      modifies this`clock, this`market, this`bus, consumptions, this`pc, this`hist, this`run, this`labels
      ensures Valid()
      ensures pc == old(pc).(phase := if ok then Returned(attempt) else Threw(attempt))
      ensures Takes(old(Past()), old(pc), Past(), DeliverWebhook(posts, ok))
      ensures posts <= c.maxRetries + 1
      decreases 0, 3
    {
      ghost var t0 := Past();
      Await();
      ok := *;
      posts :| posts <= c.maxRetries + 1;
      Log(t0, Stores(), DeliverWebhook(posts, ok));
    }

    method HandleTaskCompletionRequested(t: TaskId, ghost attempt: int) returns (ok: bool, ghost did: seq<WorkerLabel>)
      requires Valid() && running && pc.Working? && pc.phase == Running(attempt, ReadTask(t))
      modifies this`clock, this`market, this`bus, consumptions, this`pc, this`hist, this`run, this`labels
      ensures Valid() && pc == old(pc).(phase := if ok then Returned(attempt) else Threw(attempt))
      ensures Works(old(Past()), Past(), did, old(pc).src) && CompletionScript(did, ok)
      decreases 0, 4
    {
      hide Valid, Takes, Works, CompletionGoes, CompletionScript;
      ghost var t0, t1, p := Past(), Past(), pc;
      var o, task := FindTask(t, attempt);
      CompletionFirst(o);
      First(t0, Past(), p, WorkerLabel.FindTask(o));
      did := [WorkerLabel.FindTask(o)];
      if o != Ok || task.None? || task.value.status != COMPLETING {
        ok := o == Ok && task.Some? && task.value.status == COMPLETED;
        return;
      }
      t1, p := Past(), pc;
      var escrow;
      ghost var choice;
      o, escrow, choice := FindSelected(t, task.value, attempt);
      CompletionMore(did, FindBids(o, choice));
      did := OneMore(t0, t1, Past(), did, p, FindBids(o, choice));
      ok := false;
      if o != Ok || escrow.None? {
        return;
      }
      t1, p := Past(), pc;
      o := ReleaseEscrow(escrow.value, t, task.value, attempt);
      CompletionMore(did, ReleaseMilestone(o));
      did := OneMore(t0, t1, Past(), did, p, ReleaseMilestone(o));
      if o != Ok {
        return;
      }
      t1, p := Past(), pc;
      o := SaveTask(t, task.value, escrow.value, attempt);
      CompletionMore(did, SaveCompleted(o));
      did := OneMore(t0, t1, Past(), did, p, SaveCompleted(o));
      if o != Ok {
        return;
      }
      t1, p := Past(), pc;
      var id;
      o, id := EmitCompletedEvent(t, attempt);
      CompletionMore(did, EmitCompleted(o, id));
      did := OneMore(t0, t1, Past(), did, p, EmitCompleted(o, id));
      ok := o == Ok;
    }

    method Dispatch(kind: Kind, payload: Payload, ghost attempt: int) returns (ok: bool, ghost did: seq<WorkerLabel>)
      requires Valid() && running && pc.Working? && pc.phase == Entered(kind, payload, attempt)
      modifies this`clock, this`market, this`bus, consumptions, this`pc, this`hist, this`run, this`labels
      ensures Valid() && pc == old(pc).(phase := if ok then Returned(attempt) else Threw(attempt))
      ensures Works(old(Past()), Past(), did, old(pc).src) && HandlerScript(kind, did, ok)
      decreases 0, 5
    {
      ghost var t0, p, posts := Past(), pc, 0;
      Here(pc.src);
      did := [];
      match kind
      case CompletionRequested =>
        if payload.Opaque? || payload.taskId.None? || payload.escrowId.None? {
          ok := false;
        } else {
          ok, did := HandleTaskCompletionRequested(payload.taskId.value, attempt);
        }
      case ResultPublished =>
        ok, posts := PostWebhooks(attempt);
        did := OneMore(t0, t0, Past(), [], p, DeliverWebhook(posts, ok));
      case Other => ok := true;
    }

    // ---------- The tick ----------

    /** Dispatch, and mark the outcome: what all three loops do with a row that was started. */
    method RunItem(item: Item, payload: Payload, attempt: int) returns (threw: bool, ghost did: seq<WorkerLabel>)
      requires Valid() && running && pc.Working? && pc.phase == Entered(item.key.kind, payload, attempt) && pc.item == item
      modifies this`clock, this`market, this`bus, consumptions, this`pc, this`hist, this`run, this`labels
      ensures Valid()
      ensures pc == if item.pos.Some? then old(pc).(phase := Acking(threw))
                    else if threw then Idle else NextItem(old(pc).src, old(pc).rest)
      ensures Works(old(Past()), Past(), did, old(pc).src) && ItemScript(item.key.kind, did, threw)
      decreases 0, 6
    {
      hide Valid, Takes, Works, HandlerScript;
      ghost var t0, src, marks := Past(), pc.src, [];
      ghost var h;
      var ok;
      ok, h := Dispatch(item.key.kind, payload, attempt);
      did := h;
      ghost var t1, p, returned := Past(), pc, ok;
      if ok {
        var o := MarkSucceeded(item.key);
        did := OneMore(t0, t1, Past(), did, p, Succeed(o));
        marks := [Succeed(o)];
        t1, p := Past(), pc;
        ok := o == Ok;
      }
      threw := false;
      if !ok {
        var o := MarkFailed(item.key, attempt);
        did := OneMore(t0, t1, Past(), did, p, Fail(o));
        marks := marks + [Fail(o)];
        threw := o != Ok;
      }
      assert ItemBy(item.key.kind, did, h, marks, returned, threw);
    }

    /** One claimed or polled entry. The acknowledgement stands in a `finally`: it happens even when
        `markFailed` throws. */
    method HandleEntry(item: Item) returns (threw: bool, ghost did: seq<WorkerLabel>)
      requires Valid() && running && pc.Working? && pc.phase == Fetched && pc.item == item && item.pos.Some?
      modifies this`clock, this`market, this`bus, consumptions, this`pc, this`hist, this`run, this`labels
      ensures Valid() && pc == if threw then Idle else NextItem(old(pc).src, old(pc).rest)
      ensures Works(old(Past()), Past(), did, old(pc).src) && EntryScript(item.key.kind, did, threw)
      decreases 0, 7
    {
      hide Valid, Takes, Works, ItemScript, EntryScript;
      ghost var t0, p, src := Past(), pc, pc.src;
      var o, attempt := TryStart(item.key);
      First(t0, Past(), p, Begin(o));
      did := [Begin(o)];
      EntryShort(item.key.kind, o);
      if o != Ok {
        threw := true;
        return;
      }
      ghost var t1, w := Past(), [];
      p := pc;
      if attempt.None? {
        o := Ack(item.pos.value);
        did := OneMore(t0, t1, Past(), did, p, WorkerLabel.Ack(o));
        EntryShort(item.key.kind, o);
        threw := o != Ok;
        return;
      }
      var abort;
      abort, w := RunItem(item, item.payload, attempt.value);
      did := WorksMore(t0, t1, Past(), did, w, src);
      t1, p := Past(), pc;
      o := Ack(item.pos.value);
      did := OneMore(t0, t1, Past(), did, p, WorkerLabel.Ack(o));
      EntryDone(item.key.kind, w, abort, o);
      threw := abort || o != Ok;
    }

    /** One due row. */
    method RetryRow(item: Item) returns (threw: bool, ghost did: seq<WorkerLabel>)
      requires Valid() && running && pc.Working? && pc.phase == Fetched && pc.item == item && item.pos.None?
      modifies this`clock, this`market, this`bus, consumptions, this`pc, this`hist, this`run, this`labels
      ensures Valid() && pc == if threw then Idle else NextItem(old(pc).src, old(pc).rest)
      ensures Works(old(Past()), Past(), did, old(pc).src) && RowScript(item.key.kind, did, threw)
      decreases 0, 7
    {
      hide Valid, Takes, Works, ItemScript, RowScript;
      ghost var t0, t1, p, src, w := Past(), Past(), pc, pc.src, [];
      var o, attempt := TryStart(item.key);
      First(t0, Past(), p, Begin(o));
      did := [Begin(o)];
      RowShort(item.key.kind, o);
      threw := o != Ok;
      if o != Ok || attempt.None? {
        return;
      }
      t1, p := Past(), pc;
      var payload;
      o, payload := FindEvent(item.key.id, attempt.value);
      did := OneMore(t0, t1, Past(), did, p, Lookup(o));
      RowShort(item.key.kind, o);
      threw := o != Ok;
      if o != Ok {
        return;
      }
      t1, p := Past(), pc;
      if payload.None? {
        o := MarkFailed(item.key, attempt.value);
        did := OneMore(t0, t1, Past(), did, p, Fail(o));
        RowShort(item.key.kind, o);
        threw := o != Ok;
        return;
      }
      threw, w := RunItem(item, payload.value, attempt.value);
      did := WorksMore(t0, t1, Past(), did, w, src);
      RowDone(item.key.kind, w, threw);
    }

    method HandleEntries(src: Source, items: seq<Item>)
      returns (threw: bool, ghost did: seq<WorkerLabel>, ghost parts: seq<seq<WorkerLabel>>)
      requires Valid() && running && pc == NextItem(src, items)
      requires forall i :: 0 <= i < |items| ==> items[i].pos.Some?
      modifies this`clock, this`market, this`bus, consumptions, this`pc, this`hist, this`run, this`labels
      ensures Valid() && pc == if threw then Idle else After(src)
      ensures Works(old(Past()), Past(), did, src)
      ensures if threw then Breaks(did) else did == Flat(parts) && EntryParts(items, parts)
      decreases 0, 8
    {
      hide Valid, Grows, Works, Breaks, EntryScript;
      ghost var t0 := Past();
      parts, did := [], [];
      Here(src);
      for i := 0 to |items|
        invariant Valid() && pc == NextItem(src, items[i..])
        invariant Works(t0, Past(), did, src) && did == Flat(parts) && EntryParts(items[..i], parts)
      {
        ghost var t1, w := Past(), [];
        threw, w := HandleEntry(items[i]);
        did := WorksMore(t0, t1, Past(), did, w, src);
        if threw {
          EntryBreaks(items[i].key.kind, w);
          BreaksLater(Flat(parts), w);
          return;
        }
        FlatMore(parts, w);
        parts := parts + [w];
      }
      assert items[..|items|] == items;
      threw := false;
    }

    method RetryRows(kind: Kind, ids: seq<EventId>)
      returns (threw: bool, ghost did: seq<WorkerLabel>, ghost parts: seq<seq<WorkerLabel>>)
      requires Valid() && running && pc == NextItem(Retried(kind), RowItems(kind, ids))
      modifies this`clock, this`market, this`bus, consumptions, this`pc, this`hist, this`run, this`labels
      ensures Valid() && pc == if threw then Idle else After(Retried(kind))
      ensures Works(old(Past()), Past(), did, Retried(kind))
      ensures if threw then Breaks(did) else did == Flat(parts) && RowParts(kind, |ids|, parts)
      decreases 0, 8
    {
      hide Valid, Grows, Works, Breaks, RowScript;
      ghost var t0 := Past();
      var items := RowItems(kind, ids);
      parts, did := [], [];
      Here(Retried(kind));
      for i := 0 to |items|
        invariant Valid() && pc == NextItem(Retried(kind), items[i..])
        invariant Works(t0, Past(), did, Retried(kind)) && did == Flat(parts) && RowParts(kind, i, parts)
      {
        ghost var t1, w := Past(), [];
        threw, w := RetryRow(items[i]);
        did := WorksMore(t0, t1, Past(), did, w, Retried(kind));
        if threw {
          RowBreaks(kind, w);
          BreaksLater(Flat(parts), w);
          return;
        }
        FlatMore(parts, w);
        parts := parts + [w];
      }
      threw := false;
    }

    method RetryHandler(kind: Kind)
      returns (threw: bool, ghost did: seq<WorkerLabel>, ids: seq<EventId>, ghost parts: seq<seq<WorkerLabel>>)
      requires Valid() && running && pc == Scanning(kind)
      modifies this`clock, this`market, this`bus, consumptions, this`pc, this`hist, this`run, this`labels
      ensures Valid() && pc == if threw then Idle else After(Retried(kind))
      ensures Grows(old(Past()), Past(), did)
      ensures if threw then Breaks(did) else did == Section(ListDue(Ok, ids), parts) && RowParts(kind, |ids|, parts)
      ensures !threw ==> HasPass(old(Past()), Past(), kind)
      decreases 0, 9
    {
      hide Grows, Takes, Works, RowScript, HasPass;
      ghost var t0 := Past();
      var o, due;
      o, due, ids := ListDueRetries(kind);
      TakesGrow(t0, Scanning(kind), Past(), ListDue(o, ids));
      parts, did := [], [ListDue(o, ids)];
      if o != Ok {
        threw := true;
        return;
      }
      ghost var t1, w := Past(), [];
      threw, w, parts := RetryRows(kind, ids);
      WorksGrow(t1, Past(), w, Retried(kind));
      did := GrowsMore(t0, t1, Past(), did, w);
      if threw {
        BreaksLater([ListDue(o, ids)], w);
        return;
      }
      FlatGoes(kind, parts);
      PassDone(t0, t1, Past(), kind, ids, w);
    }

    /** A claim that is not made: nothing is claimed. */
    ghost method NoClaim()
      requires Valid() && pc == Claiming
      modifies this`pc, this`hist, this`run, this`labels
      ensures Valid() && pc == After(Claimed) && Takes(old(Past()), Claiming, Past(), WorkerLabel.AutoClaim(Ok, []))
    {
      Here(Claimed);
      assert Delivered(bus, [], clock) == bus.pending;
      Log(Past(), Stores(), WorkerLabel.AutoClaim(Ok, []));
    }

    /** Idle pending entries, handed over and worked off. `ok`: XAUTOCLAIM answered. */
    method ClaimEntries()
      returns (ok: bool, threw: bool, ghost did: seq<WorkerLabel>, ghost positions: seq<nat>, items: seq<Item>,
               ghost parts: seq<seq<WorkerLabel>>)
      requires Valid() && running && pc == Claiming
      modifies this`clock, this`market, this`bus, consumptions, this`claimCursor, this`pc, this`hist, this`run, this`labels
      ensures Valid() && pc == if threw then Idle else After(Claimed)
      ensures Grows(old(Past()), Past(), did)
      ensures if threw then Breaks(did)
              else did == Section(WorkerLabel.AutoClaim(Ok, positions), parts) && ItemsAt(items, positions) && EntryParts(items, parts)
      ensures !ok ==> threw && |did| == 1
      decreases 0, 9
    {
      hide Valid, Takes, Flat, EntryParts;
      ghost var t0 := Past();
      parts, items := [], [];
      var o, next;
      o, items, positions, next := AutoClaim();
      did := [WorkerLabel.AutoClaim(o, positions)];
      TakesGrow(t0, Claiming, Past(), WorkerLabel.AutoClaim(o, positions));
      ok, threw := o == Ok, o != Ok;
      if !ok {
        return;
      }
      claimCursor := next;
      ghost var t1, w := Past(), [];
      threw, w, parts := HandleEntries(Claimed, items);
      WorksGrow(t1, Past(), w, Claimed);
      did := GrowsMore(t0, t1, Past(), did, w);
      if threw {
        BreaksLater([WorkerLabel.AutoClaim(o, positions)], w);
      }
    }

    /** Idle pending entries, unless an earlier claim is still marked as under way. The mark is set before XAUTOCLAIM and
        taken away only after it has answered, so a call that fails leaves it set for good. */
    method AutoClaimOnce()
      returns (threw: bool, ghost did: seq<WorkerLabel>, ghost positions: seq<nat>, items: seq<Item>, ghost parts: seq<seq<WorkerLabel>>)
      requires Valid() && running && pc == Claiming
      modifies this`clock, this`market, this`bus, consumptions, this`claiming, this`claimCursor
      modifies this`pc, this`hist, this`run, this`labels
      ensures Valid() && pc == if threw then Idle else After(Claimed)
      ensures Grows(old(Past()), Past(), did)
      ensures if threw then Breaks(did)
              else did == Section(WorkerLabel.AutoClaim(Ok, positions), parts) && ItemsAt(items, positions) && EntryParts(items, parts)
      ensures old(claiming) ==> claiming && !threw && positions == []
      ensures claiming && !old(claiming) ==> threw && |did| == 1
      decreases 0, 10
    {
      hide Valid, Grows, Takes, Flat, EntryParts, Breaks;
      ghost var t0 := Past();
      parts, items := [], [];
      if claiming {
        NoClaim();
        threw, did, positions := false, [WorkerLabel.AutoClaim(Ok, [])], [];
        TakesGrow(t0, Claiming, Past(), WorkerLabel.AutoClaim(Ok, []));
        NoParts(WorkerLabel.AutoClaim(Ok, []));
        return;
      }
      claiming := true;
      var ok;
      ok, threw, did, positions, items, parts := ClaimEntries();
      claiming := !ok;
    }

    /** New entries. */
    method PollOnce()
      returns (threw: bool, ghost did: seq<WorkerLabel>, count: nat, items: seq<Item>, ghost parts: seq<seq<WorkerLabel>>)
      requires Valid() && running && pc == Polling
      modifies this`clock, this`market, this`bus, consumptions, this`pc, this`hist, this`run, this`labels
      ensures Valid() && pc == if threw then Idle else After(Polled)
      ensures Grows(old(Past()), Past(), did)
      ensures if threw then Breaks(did)
              else did == Section(WorkerLabel.ReadGroup(Ok, count), parts) && |items| == count && EntryParts(items, parts)
      decreases 0, 9
    {
      ghost var t0 := Past();
      parts := [];
      var o;
      o, items, count := ReadGroup();
      did := [WorkerLabel.ReadGroup(o, count)];
      threw := o != Ok;
      if o != Ok {
        return;
      }
      hide Valid, Grows, Takes, Flat, EntryParts, Breaks;
      ghost var t1, w := Past(), [];
      threw, w, parts := HandleEntries(Polled, items);
      WorksGrow(t1, Past(), w, Polled);
      did := GrowsMore(t0, t1, Past(), did, w);
      if threw {
        BreaksLater([WorkerLabel.ReadGroup(o, count)], w);
      }
    }

    /** With consumption paused the tick ends after the publisher. */
    ghost method PauseGate()
      requires Valid() && pc == Claiming
      modifies this`pc, this`hist, this`run, this`labels
      ensures Valid() && pc == Idle && Takes(old(Past()), Claiming, Past(), Pause)
    {
      Here(Claimed);
      Log(Past(), Stores(), Pause);
    }

    method Tick(paused: bool) returns (threw: bool, ghost log: TickLog, ghost did: seq<WorkerLabel>)
      requires Valid() && running && pc == Idle
      modifies this`clock, this`market, this`bus, consumptions, this`claiming, this`claimCursor
      modifies this`pc, this`hist, this`run, this`labels
      ensures Valid() && pc == Idle
      ensures Grows(old(Past()), Past(), did) && Ticked(paused, threw, log, did)
      ensures !threw && !paused ==> HasPass(old(Past()), Past(), CompletionRequested)
      ensures !threw && !paused ==> HasPass(old(Past()), Past(), ResultPublished)
      ensures old(claiming) ==> claiming && (!threw && !paused ==> log.positions == [])
      ensures claiming && !old(claiming) ==> threw
      ensures !threw ==> HasPublish(old(Past()), Past())
      decreases 0, 11
    {
      hide Valid, Grows, Section, Breaks, ItemsAt, PublishParts, EntryParts, RowParts, HasPass, HasPublish, TickParts, TickCalls;
      ghost var t0, w, d := Past(), [], [];
      log := NO_LOG;
      var events, claimed, polled, count, first, second;
      ghost var parts1, parts2, parts3, parts4, parts5, positions;
      threw, did, events, parts1 := PublishOnce();
      if threw {
        return;
      }
      ghost var t1 := Past();
      d := did;
      if paused {
        PauseGate();
        TakesGrow(t1, Claiming, Past(), Pause);
        did := PublishStays(t0, t1, Past(), did, [Pause]);
        log := log.(events := events, published := parts1);
        return;
      }
      threw, w, positions, claimed, parts2 := AutoClaimOnce();
      did := PublishStays(t0, t1, Past(), d, w);
      if threw {
        BreaksLater(d, w);
        return;
      }
      t1, d := Past(), did;
      threw, w, count, polled, parts3 := PollOnce();
      did := PublishStays(t0, t1, Past(), d, w);
      if threw {
        BreaksLater(d, w);
        return;
      }
      t1, d := Past(), did;
      threw, w, first, parts4 := RetryHandler(CompletionRequested);
      did := PublishStays(t0, t1, Past(), d, w);
      if threw {
        BreaksLater(d, w);
        return;
      }
      ghost var t2, e := Past(), did;
      ghost var w4 := w;
      threw, w, second, parts5 := RetryHandler(ResultPublished);
      did := PublishStays(t0, t2, Past(), e, w);
      if threw {
        BreaksLater(e, w);
        return;
      }
      TwoPasses(t0, t1, t2, Past(), d, w4, w);
      log := TickLog(events, parts1, positions, claimed, parts2, count, polled, parts3, first, parts4, second, parts5);
      TickDone(log);
    }

    /** The timer's callback. It may arrive at any `await` of a tick; the guard makes it do nothing then, and only then
        may it be called with the tick not idle. */
    method RunTick(paused: bool) returns (threw: bool, ghost log: TickLog, ghost did: seq<WorkerLabel>)
      requires Valid() && (running || pc == Idle)
      modifies if running then {} else {this, consumptions}
      ensures Valid() && running == old(running)
      ensures !running ==>
                && pc == Idle && Grows(old(Past()), Past(), did) && Ticked(paused, threw, log, did)
                && (!threw && !paused ==> HasPass(old(Past()), Past(), CompletionRequested))
                && (!threw && !paused ==> HasPass(old(Past()), Past(), ResultPublished))
                && (!threw ==> HasPublish(old(Past()), Past()))
      ensures old(claiming) ==> claiming && (!running && !threw && !paused ==> log.positions == [])
      ensures claiming && !old(claiming) ==> threw
      decreases if running then 0 else 1, 0
    {
      if running {
        threw, log, did := false, NO_LOG, [];
        return;
      }
      running := true;
      threw, log, did := Tick(paused);
      running := false;
    }
  }

  /** What is proved of every run holds of a worker that has only ticked: its row for a completion event is
      SUCCEEDED only if the task is COMPLETED and paid, and the event was dispatched within its budget. */
  lemma TickingKeepsPromises(w: Worker, e: EventId, t: TaskId)
    requires w.Valid() && SettlementProofs.Requests(w.Stores(), e, t)
    ensures w.hist.att.dispatched[Key(CompletionRequested, e)] <= Max(1, w.c.maxAttempts)
    ensures w.bus.outbox[e].payload.escrowId.Some?
    ensures Success.Done(w.Stores(), Key(CompletionRequested, e)) ==>
              && t in w.market.tasks && w.market.tasks[t].status == COMPLETED
              && w.hist.cash.released[w.bus.outbox[e].payload.escrowId.value] >= 1
  {
    var n := |w.labels|;
    Guarantees.RunBudgeted(w.c, w.run, w.labels, n, Key(CompletionRequested, e));
    Guarantees.PayloadNamesEscrow(w.c, w.run, w.labels, n, e, t);
    if Success.Done(w.Stores(), Key(CompletionRequested, e)) {
      Guarantees.SucceededMeansPaid(w.c, w.run, w.labels, n, e, t);
    }
  }

  /** One callback of the timer, seen from before and after: a SUCCEEDED row stays so and its event is not dispatched
      again; a lost event stays lost; a starved handler stays starved; a claim marked as under way stays so. Unless the
      tick throws, the outbox has been published, and unless it is paused, too, both handlers' due rows have been served. */
  method TickOnce(w: Worker, paused: bool) returns (threw: bool)
    requires w.Valid() && !w.running && w.pc == Idle
    modifies w, w.consumptions
    ensures w.Valid() && !w.running && w.pc == Idle && Later(w.c, old(w.Past()), w.Past())
    ensures forall k: Key :: old(Success.Done(w.Stores(), k)) ==>
              Success.Done(w.Stores(), k) && w.hist.att.dispatched[k] == old(w.hist.att.dispatched[k])
    ensures forall e: EventId :: old(Gone(w.c, Conf(w.Stores(), Idle), e)) ==> Gone(w.c, Conf(w.Stores(), Idle), e)
    ensures forall kind, blockers, at :: old(Starvation.Starving(w.c, Conf(w.Stores(), Idle), kind, blockers, at)) ==>
              Starvation.Starving(w.c, Conf(w.Stores(), Idle), kind, blockers, at)
    ensures old(w.claiming) ==> w.claiming
    ensures !threw ==> Delivers(old(w.Past()), w.Past())
    ensures !threw && !paused ==> Serves(w.c, old(w.Past()), w.Past(), CompletionRequested)
    ensures !threw && !paused ==> Serves(w.c, old(w.Past()), w.Past(), ResultPublished)
  {
    ghost var t, a := w.Past(), Conf(w.Stores(), Idle);
    ghost var log, did;
    threw, log, did := w.RunTick(paused);
    ghost var u, b := w.Past(), Conf(w.Stores(), Idle);
    assert Now(t) == a && Now(u) == b && Later(w.c, t, u);
    hide Later, Success.Done, Gone, Starvation.Starving, Serves, Delivers, HasPass, HasPublish;
    forall k | Success.Done(a.s, k)
      ensures Success.Done(b.s, k) && b.s.hist.att.dispatched[k] == a.s.hist.att.dispatched[k]
    {
      SuccessLasts(w.c, t, u, k);
    }
    forall e | Gone(w.c, a, e) ensures Gone(w.c, b, e) {
      LossLasts(w.c, t, u, e);
    }
    forall kind, blockers, at | Starvation.Starving(w.c, a, kind, blockers, at)
      ensures Starvation.Starving(w.c, b, kind, blockers, at)
    {
      StarvationLasts(w.c, t, u, kind, blockers, at);
    }
    if !threw { TickDelivers(w.c, t, u); }
    if !threw && !paused {
      TickServes(w.c, t, u, CompletionRequested);
      TickServes(w.c, t, u, ResultPublished);
    }
  }
}
