/** Progress of the retry loop, over runs: what one pass over the due list of a handler does to every row, when it makes
    progress, and how often it can. */
module Progress {
  import opened Types
  import opened Consumption
  import opened Protocol
  import opened DueList
  import opened MapSum
  import opened Delivery
  import opened NoLoss
  import opened Success
  import Starvation
  import Guarantees

  /** Nothing that makes the retry loop throw: no stop, no failed start, lookup or `markFailed`. Handlers may throw, and so
      may `markSucceeded`. */
  predicate Goes(w: WorkerLabel) {
    !w.Stop? && (w.Begin? ==> w.o == Ok) && (w.Lookup? ==> w.o == Ok) && (w.Fail? ==> w.o == Ok)
  }

  predicate Smooth(l: Label) { l.W? ==> Goes(l.w) }

  predicate InPass(pc: Pc, kind: Kind) { pc.Working? && pc.src == Retried(kind) }

  /** One pass of the retry loop of `kind` that does not throw, from its query at i to its end at j. */
  ghost predicate CompletePass(run: seq<Conf>, labels: seq<Label>, i: nat, j: nat, kind: Kind) {
    && i < j <= |labels| && |run| == |labels| + 1
    && run[i].pc == Scanning(kind) && labels[i].W? && labels[i].w.ListDue? && labels[i].w.o == Ok
    && (forall m :: i < m < j ==> InPass(run[m].pc, kind) && Smooth(labels[m]))
    && !InPass(run[j].pc, kind)
  }

  // ---------- One key in one pass ----------

  function RowOf(s: State, k: Key): Option<Row> {
    if k in s.rows then Some(s.rows[k]) else None
  }

  /** What the query saw of a key: its row, its dispatches so far, and the time. */
  datatype Seen = Seen(row: Option<Row>, dispatched: nat, at: int)

  function See(s: State, k: Key): Seen {
    Seen(RowOf(s, k), s.hist.att.dispatched[k], s.clock)
  }

  predicate Spent(c: Config, z: Seen) {
    z.row.Some? && Exhausted(z.row.value, c.maxAttempts)
  }

  predicate Kept(s: State, k: Key, z: Seen) {
    RowOf(s, k) == z.row && s.hist.att.dispatched[k] == z.dispatched && z.at <= s.clock
  }

  /** One attempt later, with the given number of dispatches. */
  predicate Raised(s: State, k: Key, z: Seen, dispatched: nat) {
    && z.row.Some? && k in s.rows && s.rows[k].attempts == z.row.value.attempts + 1
    && s.hist.att.dispatched[k] == dispatched && z.at <= s.clock
  }

  /** Started and dispatched once since the query, and marked: SUCCEEDED, or FAILED until a later time. */
  predicate Finished(s: State, k: Key, z: Seen) {
    && Raised(s, k, z, z.dispatched + 1) && s.rows[k].status != PROCESSING
    && (s.rows[k].status == FAILED ==> s.rows[k].nextRetryAt.Some? && s.rows[k].nextRetryAt.value > z.at)
  }

  predicate On(pc: Pc, kind: Kind, k: Key) { InPass(pc, kind) && pc.item.key == k }

  ghost predicate InRest(pc: Pc, kind: Kind, k: Key) {
    InPass(pc, kind) && exists i :: 0 <= i < |pc.rest| && pc.rest[i].key == k
  }

  /** The pass leaves the key alone. */
  ghost predicate Spared(c: Config, a: Conf, kind: Kind, k: Key, z: Seen) {
    && Kept(a.s, k, z)
    && (On(a.pc, kind, k) ==> a.pc.phase == Fetched && Spent(c, z)) && (InRest(a.pc, kind, k) ==> Spent(c, z))
  }

  /** The pass is about to start the key's row, on it, or done with it. */
  ghost predicate Served(c: Config, a: Conf, kind: Kind, k: Key, z: Seen) {
    || (Waits(c, a, k, z) && (InRest(a.pc, kind, k) || (On(a.pc, kind, k) && a.pc.phase == Fetched)))
    || (On(a.pc, kind, k) && InHand(a.pc, k) && Raised(a.s, k, z, z.dispatched + if a.pc.phase.LookingUp? then 0 else 1))
    || (!On(a.pc, kind, k) && !InRest(a.pc, kind, k) && Finished(a.s, k, z))
  }

  predicate Waits(c: Config, a: Conf, k: Key, z: Seen) {
    Kept(a.s, k, z) && z.row.Some? && !Spent(c, z) && Due(z.row.value, z.at) && z.row.value.status == FAILED
  }

  ghost predicate Passing(c: Config, a: Conf, kind: Kind, k: Key, z: Seen, served: bool) {
    if served then Served(c, a, kind, k, z) else Spared(c, a, kind, k, z)
  }

  /** Without a store failure an item leads to the next one. */
  lemma SmoothLeads(c: Config, a: Conf, w: WorkerLabel, b: Conf)
    requires Step(c, a, W(w), b) && a.pc.Working? && Goes(w) && a.pc.item.pos.None? && !a.pc.phase.Acking?
    ensures b.pc == NextItem(a.pc.src, a.pc.rest) || (b.pc.Working? && b.pc == a.pc.(phase := b.pc.phase))
  {
    Taken(c, a, w, b);
    hide Step, HandlerStep, AfterLookup, BackoffMs;
    match a.pc.phase
    case Fetched =>
    case LookingUp(n) => LookupLeads(a.s, a.pc, n);
    case Running(_, _) => HandlerFrame(c, a.s, a.pc, w, b.s, b.pc);
    case Returned(_) =>
    case Threw(_) =>
  }

  lemma LookupLeads(s: State, pc: Pc, n: int)
    requires pc.Working?
    ensures var pc' := AfterLookup(s, pc, n, Ok).1; pc'.Working? && pc' == pc.(phase := pc'.phase)
  {
    var id := pc.item.key.id;
    if id in s.bus.outbox { DispatchFrame(s, pc, s.bus.outbox[id].payload, n); }
    hide Dispatched;
  }

  /** Going on to the next item. */
  lemma NextIn(pc: Pc, kind: Kind, k: Key)
    requires InPass(pc, kind)
    ensures var next := NextItem(pc.src, pc.rest);
            && (On(next, kind, k) || InRest(next, kind, k) <==> InRest(pc, kind, k))
            && (On(next, kind, k) ==> next.phase == Fetched)
  {
    var next := NextItem(pc.src, pc.rest);
    if InRest(pc, kind, k) {
      var i :| 0 <= i < |pc.rest| && pc.rest[i].key == k;
      if i > 0 { assert next.rest[i - 1] == pc.rest[i]; }
    }
  }

  lemma SameRest(pc: Pc, pc': Pc, kind: Kind, k: Key)
    requires pc.Working? && pc'.Working? && pc' == pc.(phase := pc'.phase)
    ensures On(pc', kind, k) == On(pc, kind, k) && InRest(pc', kind, k) == InRest(pc, kind, k)
  {
  }

  /** An item of the pass: it comes from the table, and no other item of the list has its key. */
  lemma ItemAlone(c: Config, a: Conf, kind: Kind)
    requires Inv(c, a) && InPass(a.pc, kind)
    ensures a.pc.item.pos.None? && !a.pc.phase.Acking? && !InRest(a.pc, kind, a.pc.item.key)
    ensures a.pc.item.key.id in a.s.bus.outbox && a.pc.item.key in a.s.rows && PhaseOk(c, a.s, a.pc)
  {
    assert forall i :: 0 <= i < |a.pc.rest| ==> Apart(a.pc.item, a.pc.rest[i]);
  }

  lemma OtherPasses(c: Config, a: Conf, w: WorkerLabel, b: Conf, kind: Kind, k: Key, z: Seen, served: bool)
    requires Inv(c, a) && InPass(a.pc, kind) && Step(c, a, W(w), b) && Goes(w) && a.pc.item.key != k
    requires Passing(c, a, kind, k, z, served)
    ensures Passing(c, b, kind, k, z, served)
  {
    ItemAlone(c, a, kind);
    OtherKey(c, a, w, b, k);
    SmoothLeads(c, a, w, b);
    hide Step, Inv, InRest, NextItem;
    NextIn(a.pc, kind, k);
    if b.pc != NextItem(a.pc.src, a.pc.rest) { SameRest(a.pc, b.pc, kind, k); }
  }

  lemma SparedBegins(c: Config, s: State, pc: Pc, kind: Kind, k: Key, z: Seen)
    requires On(pc, kind, k) && pc.item.pos.None? && !InRest(pc, kind, k) && Kept(s, k, z) && Spent(c, z)
    ensures var (s', pc') := AfterBegin(c, s, pc, Ok); Spared(c, Conf(s', pc'), kind, k, z)
  {
    NextIn(pc, kind, k);
    hide InRest, NextItem;
  }

  lemma ServedBegins(c: Config, s: State, pc: Pc, kind: Kind, k: Key, z: Seen)
    requires On(pc, kind, k) && pc.item.pos.None? && Waits(c, Conf(s, pc), k, z)
    ensures var (s', pc') := AfterBegin(c, s, pc, Ok); Served(c, Conf(s', pc'), kind, k, z)
  {
    hide InRest;
  }

  lemma ServedLooksUp(c: Config, s: State, pc: Pc, n: int, kind: Kind, k: Key, z: Seen)
    requires On(pc, kind, k) && k.id in s.bus.outbox && Raised(s, k, z, z.dispatched)
    ensures var (s', pc') := AfterLookup(s, pc, n, Ok); Served(c, Conf(s', pc'), kind, k, z)
  {
    DispatchFrame(s, pc, s.bus.outbox[k.id].payload, n);
    hide Dispatched, InRest;
  }

  lemma ServedSucceeds(c: Config, s: State, pc: Pc, n: int, o: Outcome, kind: Kind, k: Key, z: Seen)
    requires On(pc, kind, k) && pc.item.pos.None? && !InRest(pc, kind, k) && Raised(s, k, z, z.dispatched + 1)
    ensures var (s', pc') := AfterSucceed(s, pc, n, o); Served(c, Conf(s', pc'), kind, k, z)
  {
    NextIn(pc, kind, k);
    hide InRest, NextItem;
  }

  lemma ServedFails(c: Config, s: State, pc: Pc, n: int, kind: Kind, k: Key, z: Seen)
    requires On(pc, kind, k) && pc.item.pos.None? && !InRest(pc, kind, k) && Raised(s, k, z, z.dispatched + 1)
    ensures var (s', pc') := AfterFail(s, pc, n, Ok); Served(c, Conf(s', pc'), kind, k, z)
  {
    NextIn(pc, kind, k);
    Starvation.BackoffPositive(n);
    hide InRest, NextItem, BackoffMs;
  }

  lemma OwnPasses(c: Config, a: Conf, w: WorkerLabel, b: Conf, kind: Kind, k: Key, z: Seen, served: bool)
    requires Inv(c, a) && On(a.pc, kind, k) && Step(c, a, W(w), b) && Goes(w)
    requires Passing(c, a, kind, k, z, served)
    ensures Passing(c, b, kind, k, z, served)
  {
    ItemAlone(c, a, kind);
    Taken(c, a, w, b);
    hide Step, Inv, AfterBegin, AfterLookup, AfterSucceed, AfterFail, HandlerStep, InRest, Raised, Kept, Finished;
    match a.pc.phase
    case Fetched =>
      if served { ServedBegins(c, a.s, a.pc, kind, k, z); } else { SparedBegins(c, a.s, a.pc, kind, k, z); }
    case LookingUp(n) => ServedLooksUp(c, a.s, a.pc, n, kind, k, z);
    case Running(_, _) => ServedRuns(c, a, w, b, kind, k, z);
    case Returned(n) => ServedSucceeds(c, a.s, a.pc, n, w.o, kind, k, z);
    case Threw(n) => ServedFails(c, a.s, a.pc, n, kind, k, z);
  }

  lemma ServedRuns(c: Config, a: Conf, w: WorkerLabel, b: Conf, kind: Kind, k: Key, z: Seen)
    requires On(a.pc, kind, k) && a.pc.phase.Running? && HandlerStep(c, a.s, a.pc, w) == Some((b.s, b.pc))
    requires Raised(a.s, k, z, z.dispatched + 1)
    ensures Served(c, b, kind, k, z)
  {
    HandlerFrame(c, a.s, a.pc, w, b.s, b.pc);
    hide HandlerStep, InRest;
  }

  lemma EnvPasses(c: Config, a: Conf, l: Label, b: Conf, kind: Kind, k: Key, z: Seen, served: bool)
    requires Passing(c, a, kind, k, z, served) && Step(c, a, l, b) && l.E?
    ensures Passing(c, b, kind, k, z, served)
  {
    OffItem(c, a, l, b);
    hide EnvStep, InRest;
  }

  lemma {:induction false} PassOn(c: Config, run: seq<Conf>, labels: seq<Label>, i: nat, j: nat, kind: Kind, k: Key,
                                  z: Seen, served: bool)
    requires IsRun(c, run, labels) && i <= j <= |labels| && Passing(c, run[i], kind, k, z, served)
    requires forall m :: i <= m < j ==> InPass(run[m].pc, kind) && Smooth(labels[m])
    ensures Passing(c, run[j], kind, k, z, served)
  {
    hide Step, Inv, Passing, Goes;
    if j > i {
      PassOn(c, run, labels, i, j - 1, kind, k, z, served);
      RunKeeps(c, run, labels, j - 1);
      var a, b := run[j - 1], run[j];
      match labels[j - 1]
      case E(l) => EnvPasses(c, a, labels[j - 1], b, kind, k, z, served);
      case W(w) =>
        if a.pc.item.key == k { OwnPasses(c, a, w, b, kind, k, z, served); }
        else { OtherPasses(c, a, w, b, kind, k, z, served); }
    }
  }

  /** The query lists the key. */
  ghost predicate Listed(ids: seq<EventId>, kind: Kind, k: Key) { k.kind == kind && k.id in ids }

  lemma ListedIn(kind: Kind, ids: seq<EventId>, k: Key)
    ensures var pc := NextItem(Retried(kind), RowItems(kind, ids));
            && (On(pc, kind, k) || InRest(pc, kind, k) <==> Listed(ids, kind, k))
            && (On(pc, kind, k) ==> pc.phase == Fetched)
  {
    var items := RowItems(kind, ids);
    var pc := NextItem(Retried(kind), items);
    if Listed(ids, kind, k) {
      var i :| 0 <= i < |ids| && ids[i] == k.id;
      assert items[i].key == k;
      if i > 0 { assert pc.rest[i - 1] == items[i]; }
    }
    if InRest(pc, kind, k) {
      var i :| 0 <= i < |pc.rest| && pc.rest[i].key == k;
      assert items[i + 1].key == k && ids[i + 1] == k.id;
    }
  }

  /** The rows that a pass with this answer starts. */
  ghost predicate Starts(c: Config, s: State, kind: Kind, ids: seq<EventId>, k: Key) {
    Listed(ids, kind, k) && UnexhaustedDue(s.rows, kind, c.maxAttempts, s.clock, k.id)
  }

  lemma Enters(c: Config, a: Conf, ids: seq<EventId>, b: Conf, kind: Kind, k: Key)
    requires Step(c, a, W(ListDue(Ok, ids)), b) && a.pc == Scanning(kind)
    ensures Passing(c, b, kind, k, See(a.s, k), Starts(c, a.s, kind, ids, k))
  {
    ListedIn(kind, ids, k);
    assert b == Conf(a.s, NextItem(Retried(kind), RowItems(kind, ids))) && DueBatch(a.s, kind, ids);
    if Listed(ids, kind, k) {
      var i :| 0 <= i < |ids| && ids[i] == k.id;
      assert DueRetry(a.s.rows, Key(kind, ids[i]), a.s.clock);
    }
    hide Step, InRest, NextItem, IsDueList;
  }

  // ---------- One pass ----------

  /** A complete pass, in any run, whatever API requests come in between: exactly the listed rows with attempts left are
      started, each once; each is dispatched once and ends SUCCEEDED, or FAILED until a later time. Every other row and
      every other dispatch count stays as the query saw it. */
  lemma PassExactly(c: Config, run: seq<Conf>, labels: seq<Label>, i: nat, j: nat, kind: Kind, k: Key)
    requires IsRun(c, run, labels) && CompletePass(run, labels, i, j, kind)
    ensures var z := See(run[i].s, k);
            if Starts(c, run[i].s, kind, labels[i].w.ids, k) then Finished(run[j].s, k, z) else Kept(run[j].s, k, z)
  {
    var ids, z := labels[i].w.ids, See(run[i].s, k);
    assert Step(c, run[i], labels[i], run[i + 1]);
    Enters(c, run[i], ids, run[i + 1], kind, k);
    hide Step, Smooth, Starts, See, Kept, Finished;
    PassOn(c, run, labels, i + 1, j, kind, k, z, Starts(c, run[i].s, kind, ids, k));
  }

  // ---------- The attempts that passes spend ----------

  function Left(r: Row, maxAttempts: int): int { Max(0, maxAttempts - r.attempts) }

  function LeftMap(t: Table, maxAttempts: int): map<Key, int> {
    map k | k in t :: Left(t[k], maxAttempts)
  }

  /** The attempts left over all rows. */
  ghost function Budget(t: Table, maxAttempts: int): int {
    Sum(LeftMap(t, maxAttempts))
  }

  lemma BudgetSet(t: Table, maxAttempts: int, k: Key, r: Row)
    ensures Budget(t[k := r], maxAttempts)
         == Budget(t, maxAttempts) - (if k in t then Left(t[k], maxAttempts) else 0) + Left(r, maxAttempts)
  {
    assert LeftMap(t[k := r], maxAttempts) == LeftMap(t, maxAttempts)[k := Left(r, maxAttempts)];
    SumSet(LeftMap(t, maxAttempts), k, Left(r, maxAttempts));
  }

  /** The rows that the pass with the query at i starts. */
  ghost function Started(c: Config, s: State, kind: Kind, ids: seq<EventId>): set<Key> {
    set k | k in s.rows && Starts(c, s, kind, ids, k)
  }

  /** A complete pass spends one attempt for each row it starts, and no other. */
  lemma PassSpends(c: Config, run: seq<Conf>, labels: seq<Label>, i: nat, j: nat, kind: Kind)
    requires IsRun(c, run, labels) && CompletePass(run, labels, i, j, kind)
    ensures Budget(run[j].s.rows, c.maxAttempts)
         == Budget(run[i].s.rows, c.maxAttempts) - |Started(c, run[i].s, kind, labels[i].w.ids)|
    ensures run[j].s.rows.Keys == run[i].s.rows.Keys
  {
    var (s, s', ids) := (run[i].s, run[j].s, labels[i].w.ids);
    forall k ensures k in s.rows <==> k in s'.rows
             ensures k in s.rows ==>
                       Left(s'.rows[k], c.maxAttempts)
                         == Left(s.rows[k], c.maxAttempts) - if k in Started(c, s, kind, ids) then 1 else 0 {
      PassExactly(c, run, labels, i, j, kind, k);
    }
    hide IsRun, CompletePass, Started;
    SumDrop(LeftMap(s.rows, c.maxAttempts), LeftMap(s'.rows, c.maxAttempts), Started(c, s, kind, ids));
  }

  /** Some row with attempts left is due with fewer exhausted ones at or before it than the query lists. */
  ghost predicate Near(c: Config, s: State, kind: Kind) {
    exists e :: UnexhaustedDue(s.rows, kind, c.maxAttempts, s.clock, e)
                && |UpTo(s.rows, kind, c.maxAttempts, s.clock, e)| < 25
  }

  /** With a near row, a complete pass strictly lowers the attempts left and dispatches an event that was waiting. */
  lemma PassProgress(c: Config, run: seq<Conf>, labels: seq<Label>, i: nat, j: nat, kind: Kind) returns (e: EventId)
    requires IsRun(c, run, labels) && CompletePass(run, labels, i, j, kind) && Near(c, run[i].s, kind)
    ensures UnexhaustedDue(run[i].s.rows, kind, c.maxAttempts, run[i].s.clock, e)
    ensures Finished(run[j].s, Key(kind, e), See(run[i].s, Key(kind, e)))
    ensures Budget(run[j].s.rows, c.maxAttempts) < Budget(run[i].s.rows, c.maxAttempts)
  {
    var s, ids := run[i].s, labels[i].w.ids;
    var waiting :| UnexhaustedDue(s.rows, kind, c.maxAttempts, s.clock, waiting)
                   && |UpTo(s.rows, kind, c.maxAttempts, s.clock, waiting)| < RETRY_LIMIT;
    assert DueBatch(s, kind, ids) by { assert Step(c, run[i], labels[i], run[i + 1]); }
    ListReachesUnexhausted(s.rows, kind, c.maxAttempts, s.clock, RETRY_LIMIT, ids, waiting);
    var m :| 0 <= m < |ids| && UnexhaustedDue(s.rows, kind, c.maxAttempts, s.clock, ids[m]);
    e := ids[m];
    PassExactly(c, run, labels, i, j, kind, Key(kind, e));
    PassSpends(c, run, labels, i, j, kind);
    hide IsRun, CompletePass, Budget, Finished;
    assert Key(kind, e) in Started(c, s, kind, ids);
  }

  /** And a pass of a handler whose rows with attempts left all have 25 exhausted ones ahead changes no row. */
  lemma StarvedPass(c: Config, run: seq<Conf>, labels: seq<Label>, i: nat, j: nat, kind: Kind)
    requires IsRun(c, run, labels) && CompletePass(run, labels, i, j, kind)
    requires forall e :: UnexhaustedDue(run[i].s.rows, kind, c.maxAttempts, run[i].s.clock, e) ==>
               |Ahead(run[i].s.rows, kind, c.maxAttempts, run[i].s.clock, e)| >= 25
    ensures run[j].s.rows == run[i].s.rows && run[j].s.hist.att.dispatched == run[i].s.hist.att.dispatched
  {
    var s, ids := run[i].s, labels[i].w.ids;
    assert DueBatch(s, kind, ids) by { assert Step(c, run[i], labels[i], run[i + 1]); }
    ListStarves(s.rows, kind, c.maxAttempts, s.clock, RETRY_LIMIT, ids);
    var s' := run[j].s;
    forall k ensures RowOf(s', k) == RowOf(s, k) && s'.hist.att.dispatched[k] == s.hist.att.dispatched[k] {
      PassExactly(c, run, labels, i, j, kind, k);
      if k.id in ids {
        var m :| 0 <= m < |ids| && ids[m] == k.id;
        assert ExhaustedDue(s.rows, kind, c.maxAttempts, s.clock, ids[m]);
      }
    }
    hide IsRun, CompletePass;
    forall k | k in s.rows || k in s'.rows ensures k in s.rows && k in s'.rows && s'.rows[k] == s.rows[k] {
      assert RowOf(s', k) == RowOf(s, k);
    }
  }

  // ---------- All passes of a run ----------

  /** Attempts left, less what every row brings when it is new. Steps only lower it. */
  ghost function Reserve(c: Config, s: State): int {
    Budget(s.rows, c.maxAttempts) - Max(0, c.maxAttempts) * |s.rows|
  }

  lemma ReserveMoves(c: Config, s: State, s': State, k: Key)
    requires Starvation.Moves(c, s, s', k) && (k in s'.rows ==> s'.rows[k].attempts >= 0)
    ensures Reserve(c, s') <= Reserve(c, s) && |s'.rows| >= |s.rows|
  {
    if s'.rows != s.rows {
      BudgetSet(s.rows, c.maxAttempts, k, s'.rows[k]);
      assert s'.rows.Keys == s.rows.Keys + {k};
      hide Budget;
      assert k !in s.rows ==> |s'.rows| == |s.rows| + 1;
    }
  }

  lemma ReserveFalls(c: Config, a: Conf, l: Label, b: Conf)
    requires Inv(c, a) && Inv(c, b) && Step(c, a, l, b)
    ensures Reserve(c, b.s) <= Reserve(c, a.s) && |b.s.rows| >= |a.s.rows|
  {
    if l.E? || !a.pc.Working? {
      OffItem(c, a, l, b);
    } else {
      Starvation.StepMoves(c, a, l.w, b);
      assert forall k :: k in b.s.rows ==> RowOk(c, b.s, k);
      hide Step, Inv, Reserve;
      ReserveMoves(c, a.s, b.s, a.pc.item.key);
    }
  }

  lemma {:induction false} ReserveFallsOn(c: Config, run: seq<Conf>, labels: seq<Label>, i: nat, j: nat)
    requires IsRun(c, run, labels) && i <= j <= |labels|
    ensures Reserve(c, run[j].s) <= Reserve(c, run[i].s) && |run[j].s.rows| >= |run[i].s.rows|
  {
    hide Step, Inv, Reserve;
    if j > i {
      ReserveFallsOn(c, run, labels, i, j - 1);
      RunKeeps(c, run, labels, j - 1);
      RunKeeps(c, run, labels, j);
      ReserveFalls(c, run[j - 1], labels[j - 1], run[j]);
    }
  }

  /** A pass of `kind`, by its query and its end. */
  datatype Pass = Pass(i: nat, j: nat, kind: Kind)

  /** Complete passes between p and q, one after the other, each of which found a near row. */
  ghost predicate Passes(c: Config, run: seq<Conf>, labels: seq<Label>, p: nat, q: nat, passes: seq<Pass>) {
    && (forall m :: 0 <= m < |passes| ==>
          && p <= passes[m].i && passes[m].j <= q <= |labels| && |run| == |labels| + 1
          && CompletePass(run, labels, passes[m].i, passes[m].j, passes[m].kind) && Near(c, run[passes[m].i].s, passes[m].kind))
    && (forall m, n :: 0 <= m < n < |passes| ==> passes[m].j <= passes[n].i)
  }

  lemma {:induction false} PassesFall(c: Config, run: seq<Conf>, labels: seq<Label>, p: nat, q: nat, passes: seq<Pass>)
    requires IsRun(c, run, labels) && p <= q <= |labels| && Passes(c, run, labels, p, q, passes)
    ensures Reserve(c, run[q].s) + |passes| <= Reserve(c, run[p].s)
  {
    if passes == [] {
      ReserveFallsOn(c, run, labels, p, q);
    } else {
      var n := |passes| - 1;
      var x := passes[n];
      assert forall m :: 0 <= m < n ==> passes[..n][m] == passes[m];
      assert Passes(c, run, labels, p, x.i, passes[..n]);
      PassesFall(c, run, labels, p, x.i, passes[..n]);
      var e := PassProgress(c, run, labels, x.i, x.j, x.kind);
      hide IsRun, Passes, Budget, Finished, See, UnexhaustedDue;
      PassSpends(c, run, labels, x.i, x.j, x.kind);
      KeysCount(run[x.i].s.rows, run[x.j].s.rows);
      ReserveFallsOn(c, run, labels, x.j, q);
    }
  }

  lemma KeysCount(t: Table, u: Table)
    requires t.Keys == u.Keys
    ensures |t| == |u|
  {
    assert |t| == |t.Keys| && |u| == |u.Keys|;
  }

  /** Between two points of any run, the complete passes that found a near row number at most the attempts left at the
      first point, plus `maxAttempts` for each row that is new since. */
  lemma PassesBounded(c: Config, run: seq<Conf>, labels: seq<Label>, p: nat, q: nat, passes: seq<Pass>)
    requires IsRun(c, run, labels) && p <= q <= |labels| && Passes(c, run, labels, p, q, passes)
    ensures |passes| <= Budget(run[p].s.rows, c.maxAttempts)
                        + Max(0, c.maxAttempts) * (|run[q].s.rows| - |run[p].s.rows|)
  {
    PassesFall(c, run, labels, p, q, passes);
    SumAtLeast(LeftMap(run[q].s.rows, c.maxAttempts));
    Distribute(Max(0, c.maxAttempts), |run[q].s.rows|, |run[p].s.rows|);
  }

  lemma Distribute(x: int, y: int, z: int)
    ensures x * (y - z) == x * y - x * z
  {
  }

  // ---------- Dispatches ----------

  lemma DispatchesGrow(c: Config, a: Conf, l: Label, b: Conf, k: Key)
    requires Step(c, a, l, b)
    ensures b.s.hist.att.dispatched[k] >= a.s.hist.att.dispatched[k]
  {
    if l.E? || !a.pc.Working? {
      OffItem(c, a, l, b);
    } else if a.pc.phase.Running? && !l.w.Stop? {
      Taken(c, a, l.w, b);
      hide Step, HandlerStep;
      HandlerFrame(c, a.s, a.pc, l.w, b.s, b.pc);
    } else {
      Guarantees.DispatchFirst(c, a, l.w, b, k);
    }
  }

  lemma {:induction false} DispatchesGrowOn(c: Config, run: seq<Conf>, labels: seq<Label>, i: nat, j: nat, k: Key)
    requires IsRun(c, run, labels) && i <= j <= |labels|
    ensures run[j].s.hist.att.dispatched[k] >= run[i].s.hist.att.dispatched[k]
  {
    hide Step;
    if j > i {
      DispatchesGrowOn(c, run, labels, i, j - 1, k);
      DispatchesGrow(c, run[j - 1], labels[j - 1], run[j], k);
    }
  }
}
