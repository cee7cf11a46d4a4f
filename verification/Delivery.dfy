/** The delivery invariant of the single-worker system: what every step keeps about outbox, stream, rows and
    the worker's batch. */
module Delivery {
  import opened Types
  import opened Consumption
  import opened Market
  import opened Outbox
  import opened Protocol

  // ---------- Invariant ----------

  /** Position `i` holds a copy of event `e`. */
  ghost predicate Copy(b: Bus, e: EventId, i: int) {
    0 <= i < |b.stream| && b.stream[i].id == e
  }

  /** A copy that the group will still deliver: not yet read, or read and not acknowledged. */
  ghost predicate Live(b: Bus, e: EventId, i: int) {
    Copy(b, e, i) && (i >= b.delivered || i in b.pending)
  }

  ghost predicate HasLive(b: Bus, e: EventId) {
    exists i :: Live(b, e, i)
  }

  ghost predicate HasCopy(b: Bus, e: EventId) {
    exists i :: Copy(b, e, i)
  }

  predicate EntryOk(b: Bus, x: Entry) {
    && x.id in b.outbox
    && b.outbox[x.id].kind == x.kind
    && b.outbox[x.id].payload == x.payload
  }

  ghost predicate BusOk(b: Bus) {
    && b.delivered <= |b.stream|
    && (forall p :: p in b.pending ==> p < b.delivered)
    && (forall i :: 0 <= i < |b.stream| ==> EntryOk(b, b.stream[i]))
    && (forall e :: e in b.outbox && b.outbox[e].processed ==> HasCopy(b, e))
  }

  predicate RowOk(c: Config, s: State, k: Key)
    requires k in s.rows
  {
    && k.id in s.bus.outbox
    && s.bus.outbox[k.id].kind == k.kind
    && 1 <= s.rows[k].attempts <= Max(1, c.maxAttempts)
    && (s.rows[k].status == PROCESSING ==> Due(s.rows[k], s.clock))
  }

  ghost predicate RowsOk(c: Config, s: State) {
    forall k :: k in s.rows ==> RowOk(c, s, k)
  }

  predicate ItemOk(s: State, src: Source, x: Item) {
    && x.key.id in s.bus.outbox
    && s.bus.outbox[x.key.id].kind == x.key.kind
    && (match x.pos
        case Some(p) =>
          && !src.Retried? && p in s.bus.pending && p < |s.bus.stream|
          && s.bus.stream[p] == Entry(x.key.id, x.key.kind, x.payload)
        case None => src.Retried? && src.kind == x.key.kind && x.key in s.rows)
  }

  /** A due row that the retry loop has not started yet is still FAILED. */
  predicate Waiting(s: State, x: Item) {
    x.pos.None? ==> x.key in s.rows && s.rows[x.key].status == FAILED
  }

  /** Different work items of one batch are different stream positions or different rows. */
  predicate Apart(x: Item, y: Item) {
    if x.pos.Some? then x.pos != y.pos else x.key != y.key
  }

  predicate PhaseOk(c: Config, s: State, pc: Pc)
    requires pc.Working?
  {
    var k := pc.item.key;
    match pc.phase
    case Fetched => Waiting(s, pc.item)
    case LookingUp(n) => pc.item.pos.None? && k in s.rows && s.rows[k].status == PROCESSING && s.rows[k].attempts == n
    case Running(n, _) => k in s.rows && s.rows[k].status == PROCESSING && s.rows[k].attempts == n
    case Returned(n) => k in s.rows && s.rows[k].status == PROCESSING && s.rows[k].attempts == n
    case Threw(n) => k in s.rows && s.rows[k].status != FAILED && s.rows[k].attempts == n
    case Acking(abort) =>
      && pc.item.pos.Some? && k in s.rows
      && (abort || s.rows[k].status != PROCESSING || Exhausted(s.rows[k], c.maxAttempts))
  }

  predicate Unpublished(s: State, batch: seq<EventId>) {
    Distinct(batch) && forall i :: 0 <= i < |batch| ==> batch[i] in s.bus.outbox && !s.bus.outbox[batch[i]].processed
  }

  ghost predicate PcOk(c: Config, s: State, pc: Pc) {
    match pc
    case Publishing(batch) => batch != [] && Unpublished(s, batch)
    case Refusing(batch) => batch != [] && batch[0] in s.bus.outbox && Unpublished(s, batch[1..])
    case Marking(batch) => batch != [] && Unpublished(s, batch) && HasLive(s.bus, batch[0])
    case Working(src, item, rest, phase) =>
      && ItemOk(s, src, item)
      && (forall i :: 0 <= i < |rest| ==> ItemOk(s, src, rest[i]) && Waiting(s, rest[i]) && Apart(item, rest[i]))
      && (forall i, j :: 0 <= i < j < |rest| ==> Apart(rest[i], rest[j]))
      && PhaseOk(c, s, pc)
    case _ => true
  }

  predicate HasRow(s: State, e: EventId)
    requires e in s.bus.outbox
  {
    Key(s.bus.outbox[e].kind, e) in s.rows
  }

  /** A published event without a live copy has been started at least once. */
  ghost predicate Covered(s: State) {
    forall e :: e in s.bus.outbox && s.bus.outbox[e].processed ==> HasLive(s.bus, e) || HasRow(s, e)
  }

  ghost predicate Inv(c: Config, a: Conf) {
    BusOk(a.s.bus) && RowsOk(c, a.s) && PcOk(c, a.s, a.pc) && Covered(a.s)
  }

  /** Which function gives the next state, phase by phase. */
  ghost predicate ItemTakes(c: Config, s: State, pc: Pc, w: WorkerLabel, next: (State, Pc))
    requires pc.Working?
  {
    match pc.phase
    case Fetched => w.Begin? && next == AfterBegin(c, s, pc, w.o)
    case LookingUp(n) => w.Lookup? && next == AfterLookup(s, pc, n, w.o)
    case Running(_, _) => HandlerStep(c, s, pc, w) == Some(next)
    case Returned(n) => w.Succeed? && next == AfterSucceed(s, pc, n, w.o)
    case Threw(n) => w.Fail? && next == AfterFail(s, pc, n, w.o)
    case Acking(abort) => w.Ack? && pc.item.pos.Some? && next == AfterAck(s, pc, abort, pc.item.pos.value, w.o)
  }

  lemma Taken(c: Config, a: Conf, w: WorkerLabel, b: Conf)
    requires Step(c, a, W(w), b) && a.pc.Working?
    ensures if w.Stop? then (b.s, b.pc) == (CutOff(a.s, a.pc), Idle) else ItemTakes(c, a.s, a.pc, w, (b.s, b.pc))
  {
    hide CutOff, AfterBegin, AfterLookup, HandlerStep, AfterSucceed, AfterFail, AfterAck;
  }

  // ---------- Frame lemmas: what other parts of the state may do without harm ----------

  lemma NextItemOk(c: Config, s: State, src: Source, rest: seq<Item>)
    requires forall i :: 0 <= i < |rest| ==> ItemOk(s, src, rest[i]) && Waiting(s, rest[i])
    requires forall i, j :: 0 <= i < j < |rest| ==> Apart(rest[i], rest[j])
    ensures PcOk(c, s, NextItem(src, rest))
  {
  }

  /** New outbox rows and passing time keep the invariant. */
  lemma Grow(c: Config, a: Conf, s': State)
    requires Inv(c, a)
    requires s'.clock >= a.s.clock && s'.rows == a.s.rows
    requires s'.bus.stream == a.s.bus.stream && s'.bus.delivered == a.s.bus.delivered && s'.bus.pending == a.s.bus.pending
    requires forall e :: e in a.s.bus.outbox ==> e in s'.bus.outbox && s'.bus.outbox[e] == a.s.bus.outbox[e]
    requires forall e :: e in s'.bus.outbox && e !in a.s.bus.outbox ==> !s'.bus.outbox[e].processed
    ensures Inv(c, Conf(s', a.pc))
  {
    var b, b' := a.s.bus, s'.bus;
    forall e | e in b'.outbox && b'.outbox[e].processed
      ensures HasCopy(b', e) && (HasLive(b', e) || HasRow(s', e))
    {
      var i :| Copy(b, e, i);
      assert Copy(b', e, i);
      if j :| Live(b, e, j) { assert Live(b', e, j); }
    }
    if a.pc.Marking? {
      var j :| Live(b, a.pc.batch[0], j);
      assert Live(b', a.pc.batch[0], j);
    }
    assert forall k :: k in s'.rows ==> RowOk(c, a.s, k);
  }

  lemma EnvKeeps(c: Config, a: Conf, l: EnvLabel, s': State)
    requires Inv(c, a) && EnvStep(c, a.s, l) == Some(s')
    ensures Inv(c, Conf(s', a.pc))
  {
    Grow(c, a, s');
  }

  // ---------- Publishing ----------

  /** Appending an entry for `e` and changing nothing else on the bus. */
  lemma AppendKeeps(c: Config, s: State, e: EventId)
    requires BusOk(s.bus) && RowsOk(c, s) && Covered(s) && e in s.bus.outbox
    ensures BusOk(Appended(s, e).bus) && RowsOk(c, Appended(s, e)) && Covered(Appended(s, e))
    ensures Live(Appended(s, e).bus, e, |s.bus.stream|)
  {
    var s' := Appended(s, e);
    forall x | x in s.bus.outbox && s.bus.outbox[x].processed
      ensures HasCopy(s'.bus, x) && (HasLive(s'.bus, x) || HasRow(s', x))
    {
      var i :| Copy(s.bus, x, i);
      assert Copy(s'.bus, x, i);
      if j :| Live(s.bus, x, j) { assert Live(s'.bus, x, j); }
    }
    forall k | k in s'.rows ensures RowOk(c, s', k) { assert RowOk(c, s, k); }
  }

  /** Updating `processed` or `attempts` of an outbox row; marking needs a live copy. */
  lemma OutboxKeeps(c: Config, s: State, e: EventId, row: OutboxRow)
    requires BusOk(s.bus) && RowsOk(c, s) && Covered(s) && e in s.bus.outbox
    requires row.kind == s.bus.outbox[e].kind && row.payload == s.bus.outbox[e].payload
    requires row.processed ==> s.bus.outbox[e].processed || HasLive(s.bus, e)
    ensures var s' := WithOutbox(s, e, row); BusOk(s'.bus) && RowsOk(c, s') && Covered(s')
  {
    var s' := WithOutbox(s, e, row);
    forall x | x in s'.bus.outbox && s'.bus.outbox[x].processed
      ensures HasCopy(s'.bus, x) && (HasLive(s'.bus, x) || HasRow(s', x))
    {
      if x == e && !s.bus.outbox[e].processed {
        var j :| Live(s.bus, x, j);
        assert Live(s'.bus, x, j) && Copy(s'.bus, x, j);
      } else {
        var i :| Copy(s.bus, x, i);
        assert Copy(s'.bus, x, i);
        if j :| Live(s.bus, x, j) { assert Live(s'.bus, x, j); }
      }
    }
    forall k | k in s'.rows ensures RowOk(c, s', k) { assert RowOk(c, s, k); }
    forall i | 0 <= i < |s'.bus.stream| ensures EntryOk(s'.bus, s'.bus.stream[i]) {
      assert EntryOk(s.bus, s.bus.stream[i]);
    }
  }

  lemma XAddKeeps(c: Config, a: Conf, o: Outcome, b: Conf)
    requires Inv(c, a) && a.pc.Publishing? && AfterXAdd(a.s, a.pc.batch, o) == (b.s, b.pc)
    ensures Inv(c, b)
  {
    if o.Effect() {
      AppendKeeps(c, a.s, a.pc.batch[0]);
      assert Live(b.s.bus, b.pc.batch[0], |a.s.bus.stream|);
    }
  }

  lemma MarkProcessedKeeps(c: Config, a: Conf, o: Outcome, b: Conf)
    requires Inv(c, a) && a.pc.Marking? && AfterMarkProcessed(a.s, a.pc.batch, o) == (b.s, b.pc)
    ensures Inv(c, b)
  {
    var e := a.pc.batch[0];
    OutboxKeeps(c, a.s, e, a.s.bus.outbox[e].(processed := true));
  }

  lemma MarkUnpublishedKeeps(c: Config, a: Conf, o: Outcome, b: Conf)
    requires Inv(c, a) && a.pc.Refusing? && AfterMarkUnpublished(a.s, a.pc.batch, o) == (b.s, b.pc)
    ensures Inv(c, b)
  {
    var e := a.pc.batch[0];
    OutboxKeeps(c, a.s, e, a.s.bus.outbox[e].(attempts := a.s.bus.outbox[e].attempts + 1));
    hide BusOk, RowsOk, Covered;
  }

  lemma BatchKeeps(c: Config, a: Conf, events: seq<EventId>)
    requires Inv(c, a) && PublishBatch(a.s, events)
    ensures Inv(c, Conf(a.s, NextPublish(events)))
  {
  }

  lemma ToIdle(c: Config, a: Conf)
    requires Inv(c, a)
    ensures Inv(c, Conf(a.s, Idle)) && Inv(c, Conf(CutOff(a.s, a.pc), Idle))
  {
    Grow(c, Conf(a.s, Idle), CutOff(a.s, a.pc));
  }

  // ---------- Fetching a batch ----------

  /** Delivering entries again, or delivering the next unread ones. */
  lemma DeliverKeeps(c: Config, s: State, s': State, positions: seq<nat>)
    requires BusOk(s.bus) && RowsOk(c, s) && Covered(s)
    requires s' == s.(bus := s.bus.(pending := s'.bus.pending, delivered := s'.bus.delivered))
    requires s'.bus.pending == Delivered(s.bus, positions, s.clock)
    requires s.bus.delivered <= s'.bus.delivered <= |s.bus.stream|
    requires forall i :: 0 <= i < |positions| ==> positions[i] < s'.bus.delivered
    requires forall p :: s.bus.delivered <= p < s'.bus.delivered ==> p in positions
    ensures BusOk(s'.bus) && RowsOk(c, s') && Covered(s')
  {
    forall p | p in s'.bus.pending ensures p < s'.bus.delivered {
      if p !in s.bus.pending { assert p in positions; }
    }
    forall x | x in s.bus.outbox && s.bus.outbox[x].processed
      ensures HasCopy(s'.bus, x) && (HasLive(s'.bus, x) || HasRow(s', x))
    {
      var i :| Copy(s.bus, x, i);
      assert Copy(s'.bus, x, i);
      if j :| Live(s.bus, x, j) { assert Live(s'.bus, x, j); }
    }
    forall k | k in s'.rows ensures RowOk(c, s', k) { assert RowOk(c, s, k); }
    forall i | 0 <= i < |s'.bus.stream| ensures EntryOk(s'.bus, s'.bus.stream[i]) {
      assert EntryOk(s.bus, s.bus.stream[i]);
    }
  }

  /** The items read from bus `b` are valid once their positions are pending. */
  lemma StreamItemsOk(c: Config, b: Bus, s: State, src: Source, positions: seq<nat>)
    requires BusOk(s.bus) && !src.Retried? && Distinct(positions) && s.bus.stream == b.stream
    requires forall i :: 0 <= i < |positions| ==> positions[i] in s.bus.pending && positions[i] < |b.stream|
    ensures PcOk(c, s, NextItem(src, StreamItems(b, positions)))
  {
    var xs := StreamItems(b, positions);
    forall i | 0 <= i < |xs| ensures ItemOk(s, src, xs[i]) && Waiting(s, xs[i]) {
      assert EntryOk(s.bus, s.bus.stream[positions[i]]);
    }
    NextItemOk(c, s, src, xs);
  }

  lemma ClaimKeeps(c: Config, a: Conf, positions: seq<nat>, o: Outcome, b: Conf)
    requires Inv(c, a) && a.pc.Claiming? && Claimable(a.s, positions) && AfterClaim(a.s, positions, o) == (b.s, b.pc)
    ensures Inv(c, b)
  {
    if o.Effect() {
      DeliverKeeps(c, a.s, b.s, positions);
      StreamItemsOk(c, a.s.bus, b.s, Claimed, positions);
    }
  }

  lemma ReadKeeps(c: Config, a: Conf, count: nat, o: Outcome, b: Conf)
    requires Inv(c, a) && a.pc.Polling? && a.s.bus.delivered + count <= |a.s.bus.stream|
    requires AfterRead(a.s, count, o) == (b.s, b.pc)
    ensures Inv(c, b)
  {
    var lo := a.s.bus.delivered;
    var positions := Range(lo, count);
    if o.Effect() {
      forall p | lo <= p < b.s.bus.delivered ensures p in positions {
        assert positions[p - lo] == p;
      }
      DeliverKeeps(c, a.s, b.s, positions);
      StreamItemsOk(c, a.s.bus, b.s, Polled, positions);
    }
  }

  lemma ScanKeeps(c: Config, a: Conf, ids: seq<EventId>)
    requires Inv(c, a) && a.pc.Scanning? && DueBatch(a.s, a.pc.kind, ids)
    ensures Inv(c, Conf(a.s, NextItem(Retried(a.pc.kind), RowItems(a.pc.kind, ids))))
  {
    var xs := RowItems(a.pc.kind, ids);
    forall i | 0 <= i < |xs| ensures ItemOk(a.s, Retried(a.pc.kind), xs[i]) && Waiting(a.s, xs[i]) {
      assert RowOk(c, a.s, Key(a.pc.kind, ids[i]));
    }
    NextItemOk(c, a.s, Retried(a.pc.kind), xs);
  }

  // ---------- Working on one item ----------

  /** A row update of the current item's key, with the bus, the clock and all other rows unchanged. */
  lemma RowUpdateKeeps(c: Config, s: State, s': State, k: Key)
    requires BusOk(s.bus) && RowsOk(c, s) && Covered(s)
    requires s'.bus == s.bus && s'.clock == s.clock
    requires forall x :: x in s.rows ==> x in s'.rows
    requires forall x :: x in s'.rows && x != k ==> x in s.rows && s'.rows[x] == s.rows[x]
    requires k in s'.rows ==> RowOk(c, s', k)
    ensures BusOk(s'.bus) && RowsOk(c, s') && Covered(s')
  {
    forall x | x in s'.rows ensures RowOk(c, s', x) {
      if x != k { assert RowOk(c, s, x); }
    }
    forall e | e in s.bus.outbox && s.bus.outbox[e].processed ensures HasLive(s'.bus, e) || HasRow(s', e) {
      assert HasLive(s.bus, e) || HasRow(s, e);
    }
  }

  lemma RestKeeps(c: Config, s: State, s': State, pc: Pc)
    requires PcOk(c, s, pc) && pc.Working?
    requires s'.bus == s.bus
    requires forall x :: x in s.rows ==> x in s'.rows && (x != pc.item.key ==> s'.rows[x] == s.rows[x])
    ensures ItemOk(s', pc.src, pc.item)
    ensures forall i :: 0 <= i < |pc.rest| ==> ItemOk(s', pc.src, pc.rest[i]) && Waiting(s', pc.rest[i])
    ensures PcOk(c, s', NextItem(pc.src, pc.rest))
  {
    forall i | 0 <= i < |pc.rest| ensures ItemOk(s', pc.src, pc.rest[i]) && Waiting(s', pc.rest[i]) {
      assert ItemOk(s, pc.src, pc.rest[i]) && Waiting(s, pc.rest[i]) && Apart(pc.item, pc.rest[i]);
    }
    NextItemOk(c, s', pc.src, pc.rest);
  }

  /** Calling the handler changes nothing but the worker's phase and the history. */
  lemma DispatchFrame(s: State, pc: Pc, payload: Payload, n: int)
    requires pc.Working?
    ensures var (s', pc') := Dispatched(s, pc, payload, n);
            && s' == s.(hist := s'.hist)
            && pc'.Working? && pc' == pc.(phase := pc'.phase)
            && (pc'.phase.Running? || pc'.phase.Returned? || pc'.phase.Threw?) && pc'.phase.attempt == n
            && s'.hist.att == s.hist.att.(dispatched := s.hist.att.dispatched + multiset{pc.item.key})
            && s'.hist.cash == s.hist.cash && s'.hist.posts == s.hist.posts
  {
  }

  /** Starting a row: the table keeps its invariant and the new row is PROCESSING. */
  lemma StartKeeps(c: Config, s: State, k: Key)
    requires BusOk(s.bus) && RowsOk(c, s) && Covered(s)
    requires k.id in s.bus.outbox && s.bus.outbox[k.id].kind == k.kind
    requires StartAttempt(s.rows, k, c.maxAttempts, s.clock).Some?
    ensures var n := StartAttempt(s.rows, k, c.maxAttempts, s.clock).value;
            var s' := Started(s, k, n);
            && BusOk(s'.bus) && RowsOk(c, s') && Covered(s')
            && k in s'.rows && s'.rows[k].status == PROCESSING && s'.rows[k].attempts == n
            && s'.bus == s.bus && (forall x :: x in s.rows ==> x in s'.rows && (x != k ==> s'.rows[x] == s.rows[x]))
  {
    var n := StartAttempt(s.rows, k, c.maxAttempts, s.clock).value;
    var s' := Started(s, k, n);
    if k in s.rows { assert RowOk(c, s, k); }
    assert RowOk(c, s', k);
    RowUpdateKeeps(c, s, s', k);
  }

  /** The item itself, under its new phase: the rest of the counter's conditions are as before. */
  lemma PhaseNow(c: Config, s: State, s': State, pc: Pc, pc': Pc)
    requires PcOk(c, s, pc) && pc.Working? && s'.bus == s.bus
    requires forall x :: x in s.rows ==> x in s'.rows && (x != pc.item.key ==> s'.rows[x] == s.rows[x])
    requires pc'.Working? && pc' == pc.(phase := pc'.phase) && PhaseOk(c, s', pc')
    ensures PcOk(c, s', pc')
  {
    RestKeeps(c, s, s', pc);
  }

  lemma BeginRefused(c: Config, a: Conf, o: Outcome, b: Conf)
    requires Inv(c, a) && a.pc.Working? && a.pc.phase.Fetched? && (b.s, b.pc) == AfterBegin(c, a.s, a.pc, o)
    requires o == Err || StartAttempt(a.s.rows, a.pc.item.key, c.maxAttempts, a.s.clock).None?
    ensures Inv(c, b)
  {
    assert b.s == a.s;
    if o == Ok {
      assert RowOk(c, a.s, a.pc.item.key);
      RestKeeps(c, a.s, b.s, a.pc);
      if a.pc.item.pos.Some? { PhaseNow(c, a.s, b.s, a.pc, b.pc); }
    }
    hide RowsOk, BusOk, Covered;
  }

  lemma BeginStarted(c: Config, a: Conf, o: Outcome, b: Conf)
    requires Inv(c, a) && a.pc.Working? && a.pc.phase.Fetched? && (b.s, b.pc) == AfterBegin(c, a.s, a.pc, o)
    requires o != Err && StartAttempt(a.s.rows, a.pc.item.key, c.maxAttempts, a.s.clock).Some?
    ensures Inv(c, b)
  {
    hide BusOk, RowsOk, Covered;
    var k, pc := a.pc.item.key, a.pc;
    var n := StartAttempt(a.s.rows, k, c.maxAttempts, a.s.clock).value;
    StartKeeps(c, a.s, k);
    var s1 := Started(a.s, k, n);
    hide StartAttempt, Started;
    if o == Lost {
      HistoryIrrelevant(c, s1, b.s);
    } else {
      if pc.item.pos.Some? {
        DispatchFrame(s1, pc, pc.item.payload, n);
        HistoryIrrelevant(c, s1, b.s);
      }
      hide Dispatched;
      PhaseNow(c, a.s, b.s, pc, b.pc);
    }
  }

  lemma BeginKeeps(c: Config, a: Conf, o: Outcome, b: Conf)
    requires Inv(c, a) && a.pc.Working? && a.pc.phase.Fetched? && (b.s, b.pc) == AfterBegin(c, a.s, a.pc, o)
    ensures Inv(c, b)
  {
    hide Inv, AfterBegin, StartAttempt;
    if o == Err || StartAttempt(a.s.rows, a.pc.item.key, c.maxAttempts, a.s.clock).None? {
      BeginRefused(c, a, o, b);
    } else {
      BeginStarted(c, a, o, b);
    }
  }

  lemma HistoryIrrelevant(c: Config, s: State, s': State)
    requires s' == s.(hist := s'.hist)
    requires BusOk(s.bus) && RowsOk(c, s) && Covered(s)
    ensures BusOk(s'.bus) && RowsOk(c, s') && Covered(s')
  {
    forall k | k in s'.rows ensures RowOk(c, s', k) { assert RowOk(c, s, k); }
    forall e | e in s.bus.outbox && s.bus.outbox[e].processed ensures HasLive(s'.bus, e) || HasRow(s', e) {
      assert HasLive(s.bus, e) || HasRow(s, e);
    }
  }

  lemma LookupKeeps(c: Config, a: Conf, o: Outcome, b: Conf)
    requires Inv(c, a) && a.pc.Working? && a.pc.phase.LookingUp?
    requires (b.s, b.pc) == AfterLookup(a.s, a.pc, a.pc.phase.attempt, o)
    ensures Inv(c, b)
  {
    hide BusOk, RowsOk, Covered;
    var id := a.pc.item.key.id;
    if id in a.s.bus.outbox {
      DispatchFrame(a.s, a.pc, a.s.bus.outbox[id].payload, a.pc.phase.attempt);
      hide Dispatched;
    }
    HistoryIrrelevant(c, a.s, b.s);
    if o == Ok { PhaseNow(c, a.s, b.s, a.pc, b.pc); }
  }

  lemma MarkKeeps(c: Config, a: Conf, b: Conf)
    requires Inv(c, a) && a.pc.Working? && a.pc.item.key in a.s.rows && a.pc.item.key in b.s.rows
    requires b.s.bus == a.s.bus && b.s.clock == a.s.clock && b.s.rows == a.s.rows[a.pc.item.key := b.s.rows[a.pc.item.key]]
    requires b.s.rows[a.pc.item.key].attempts == a.s.rows[a.pc.item.key].attempts
    requires b.s.rows[a.pc.item.key].status == PROCESSING ==> b.s.rows == a.s.rows
    requires b.pc == Idle || b.pc == NextItem(a.pc.src, a.pc.rest)
             || (b.pc.Working? && b.pc == a.pc.(phase := b.pc.phase) && PhaseOk(c, b.s, b.pc))
    ensures Inv(c, b)
  {
    var k := a.pc.item.key;
    assert RowOk(c, a.s, k);
    assert RowOk(c, b.s, k);
    RowUpdateKeeps(c, a.s, b.s, k);
    hide BusOk, RowsOk, Covered;
    RestKeeps(c, a.s, b.s, a.pc);
    if b.pc.Working? && b.pc == a.pc.(phase := b.pc.phase) && PhaseOk(c, b.s, b.pc) { PhaseNow(c, a.s, b.s, a.pc, b.pc); }
  }

  lemma SucceedKeeps(c: Config, a: Conf, o: Outcome, b: Conf)
    requires Inv(c, a) && a.pc.Working? && a.pc.phase.Returned?
    requires (b.s, b.pc) == AfterSucceed(a.s, a.pc, a.pc.phase.attempt, o)
    ensures Inv(c, b)
  {
    hide BusOk, RowsOk, Covered;
    var k := a.pc.item.key;
    assert b.s.rows == a.s.rows[k := b.s.rows[k]];
    MarkKeeps(c, a, b);
  }

  lemma FailKeeps(c: Config, a: Conf, o: Outcome, b: Conf)
    requires Inv(c, a) && a.pc.Working? && a.pc.phase.Threw?
    requires (b.s, b.pc) == AfterFail(a.s, a.pc, a.pc.phase.attempt, o)
    ensures Inv(c, b)
  {
    hide BusOk, RowsOk, Covered, BackoffMs;
    var k := a.pc.item.key;
    assert b.s.rows == a.s.rows[k := b.s.rows[k]];
    MarkKeeps(c, a, b);
  }

  /** What a step inside a handler leaves alone. */
  lemma HandlerFrame(c: Config, s: State, pc: Pc, l: WorkerLabel, s': State, pc': Pc)
    requires pc.Working? && pc.phase.Running?
    requires HandlerStep(c, s, pc, l) == Some((s', pc'))
    ensures s'.rows == s.rows && s'.clock == s.clock
    ensures s'.bus == s.bus.(outbox := s'.bus.outbox)
    ensures forall e :: e in s.bus.outbox ==> e in s'.bus.outbox && s'.bus.outbox[e] == s.bus.outbox[e]
    ensures forall e :: e in s'.bus.outbox && e !in s.bus.outbox ==> s'.bus.outbox[e] == OutboxRow(Other, Opaque, false, 0, s.clock)
    ensures pc'.Working? && pc' == pc.(phase := pc'.phase)
    ensures pc'.phase.Running? || pc'.phase.Returned? || pc'.phase.Threw?
    ensures pc'.phase.attempt == pc.phase.attempt
    ensures s'.hist.att == s.hist.att
  {
    match pc.phase.handler
    case ReadTask(_) =>
    case ReadBids(_, _) =>
    case Release(_, _, _) =>
    case SaveTask(_, _, _) =>
    case EmitDone(_) =>
    case PostWebhook =>
  }

  lemma HandlerKeeps(c: Config, a: Conf, l: WorkerLabel, b: Conf)
    requires Inv(c, a) && a.pc.Working? && a.pc.phase.Running?
    requires HandlerStep(c, a.s, a.pc, l) == Some((b.s, b.pc))
    ensures Inv(c, b)
  {
    HandlerFrame(c, a.s, a.pc, l, b.s, b.pc);
    Grow(c, a, b.s);
    PhaseChange(c, b.s, a.pc, b.pc);
  }

  lemma PhaseChange(c: Config, s: State, pc: Pc, pc': Pc)
    requires PcOk(c, s, pc) && pc.Working? && pc.phase.Running?
    requires pc'.Working? && pc' == pc.(phase := pc'.phase)
    requires (pc'.phase.Running? || pc'.phase.Returned? || pc'.phase.Threw?) && pc'.phase.attempt == pc.phase.attempt
    ensures PcOk(c, s, pc')
  {
  }

  /** Acknowledging the current entry: other entries of its event, or the event's row, remain. */
  lemma AckKeeps(c: Config, a: Conf, o: Outcome, b: Conf)
    requires Inv(c, a) && a.pc.Working? && a.pc.phase.Acking? && a.pc.item.pos.Some?
    requires (b.s, b.pc) == AfterAck(a.s, a.pc, a.pc.phase.abort, a.pc.item.pos.value, o)
    ensures Inv(c, b)
  {
    var s, s', pc := a.s, b.s, a.pc;
    var p := pc.item.pos.value;
    forall e | e in s.bus.outbox && s.bus.outbox[e].processed
      ensures HasCopy(s'.bus, e) && (HasLive(s'.bus, e) || HasRow(s', e))
    {
      var i :| Copy(s.bus, e, i);
      assert Copy(s'.bus, e, i);
      if e != pc.item.key.id {
        if j :| Live(s.bus, e, j) { assert Live(s'.bus, e, j); }
      }
    }
    forall k | k in s'.rows ensures RowOk(c, s', k) { assert RowOk(c, s, k); }
    forall i | 0 <= i < |s'.bus.stream| ensures EntryOk(s'.bus, s'.bus.stream[i]) {
      assert EntryOk(s.bus, s.bus.stream[i]);
    }
    forall i | 0 <= i < |pc.rest| ensures ItemOk(s', pc.src, pc.rest[i]) && Waiting(s', pc.rest[i]) {
      assert ItemOk(s, pc.src, pc.rest[i]) && Waiting(s, pc.rest[i]) && Apart(pc.item, pc.rest[i]);
    }
    NextItemOk(c, s', pc.src, pc.rest);
  }

  lemma ItemKeeps(c: Config, a: Conf, l: WorkerLabel, b: Conf)
    requires Inv(c, a) && Step(c, a, W(l), b) && a.pc.Working? && !l.Stop?
    ensures Inv(c, b)
  {
    Taken(c, a, l, b);
    hide Inv, Step, AfterBegin, AfterLookup, AfterSucceed, AfterFail, AfterAck, HandlerStep;
    match a.pc.phase
    case Fetched => BeginKeeps(c, a, l.o, b);
    case LookingUp(_) => LookupKeeps(c, a, l.o, b);
    case Running(_, _) => HandlerKeeps(c, a, l, b);
    case Returned(_) => SucceedKeeps(c, a, l.o, b);
    case Threw(_) => FailKeeps(c, a, l.o, b);
    case Acking(_) => AckKeeps(c, a, l.o, b);
  }

  lemma WorkerKeeps(c: Config, a: Conf, l: WorkerLabel, b: Conf)
    requires Inv(c, a) && Step(c, a, W(l), b)
    ensures Inv(c, b)
  {
    hide Inv, CutOff, AfterXAdd, AfterMarkProcessed, AfterMarkUnpublished, AfterClaim, AfterRead;
    ToIdle(c, a);
    if l.Stop? {
    } else if a.pc.Working? {
      ItemKeeps(c, a, l, b);
    } else {
      match l
      case ListUnprocessed(o, events) => if o == Ok { BatchKeeps(c, a, events); }
      case XAdd(o) => XAddKeeps(c, a, o, b);
      case MarkProcessed(o) => MarkProcessedKeeps(c, a, o, b);
      case MarkUnpublished(o) => MarkUnpublishedKeeps(c, a, o, b);
      case Pause =>
      case AutoClaim(o, positions) => ClaimKeeps(c, a, positions, o, b);
      case ReadGroup(o, count) => ReadKeeps(c, a, count, o, b);
      case ListDue(o, ids) => if o == Ok { ScanKeeps(c, a, ids); }
      case _ => assert false;
    }
  }

  lemma StepKeeps(c: Config, a: Conf, l: Label, b: Conf)
    requires Inv(c, a) && Step(c, a, l, b)
    ensures Inv(c, b)
  {
    match l
    case W(w) => WorkerKeeps(c, a, w, b);
    case E(e) => EnvKeeps(c, a, e, b.s);
  }
}
