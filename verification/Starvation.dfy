/** Starvation of the retry loop: once 25 rows that are out of attempts are due ahead of the others, they stay ahead for
    the rest of the run. */
module Starvation {
  import opened Types
  import opened Consumption
  import opened Market
  import opened Protocol
  import opened DueList
  import opened Delivery
  import opened NoLoss
  import opened Success

  /** Rows that block the handler `kind`: out of attempts, due since `at` or before, as many as a list can hold. Every
      FAILED row with attempts left is due later than that. */
  ghost predicate Blocked(c: Config, s: State, kind: Kind, blockers: set<EventId>, at: int) {
    && |blockers| >= 25 && at <= s.clock
    && (forall b :: b in blockers ==> Blocker(c, s, Key(kind, b), at))
    && (forall k :: k in s.rows && k.kind == kind ==> Later(c, s.rows[k], at))
  }

  predicate Blocker(c: Config, s: State, k: Key, at: int) {
    k in s.rows && s.rows[k].status == FAILED && Exhausted(s.rows[k], c.maxAttempts)
    && s.rows[k].nextRetryAt.Some? && s.rows[k].nextRetryAt.value <= at
  }

  predicate Later(c: Config, r: Row, at: int) {
    r.status == FAILED && !Exhausted(r, c.maxAttempts) ==> r.nextRetryAt.Some? && r.nextRetryAt.value > at
  }

  predicate Spent(c: Config, s: State, x: Item) {
    x.key in s.rows && Exhausted(s.rows[x.key], c.maxAttempts)
  }

  /** The retry loop of `kind`, if it is running, has nothing in hand that it could start. */
  predicate Empty(c: Config, a: Conf, kind: Kind) {
    a.pc.Working? && a.pc.src == Retried(kind) ==>
      a.pc.phase.Fetched? && Spent(c, a.s, a.pc.item)
      && forall i :: 0 <= i < |a.pc.rest| ==> Spent(c, a.s, a.pc.rest[i])
  }

  ghost predicate Starving(c: Config, a: Conf, kind: Kind, blockers: set<EventId>, at: int) {
    Blocked(c, a.s, kind, blockers, at) && Empty(c, a, kind)
  }

  lemma BlockedList(c: Config, s: State, kind: Kind, blockers: set<EventId>, at: int, ids: seq<EventId>)
    requires Blocked(c, s, kind, blockers, at) && DueBatch(s, kind, ids)
    ensures forall i :: 0 <= i < |ids| ==> Key(kind, ids[i]) in s.rows && Exhausted(s.rows[Key(kind, ids[i])], c.maxAttempts)
  {
    forall id | UnexhaustedDue(s.rows, kind, c.maxAttempts, s.clock, id)
      ensures |Ahead(s.rows, kind, c.maxAttempts, s.clock, id)| >= RETRY_LIMIT
    {
      assert Later(c, s.rows[Key(kind, id)], at);
      forall b | b in blockers ensures b in Ahead(s.rows, kind, c.maxAttempts, s.clock, id) {
        assert Blocker(c, s, Key(kind, b), at) && Key(kind, b).id == b;
      }
      SubsetCount(blockers, Ahead(s.rows, kind, c.maxAttempts, s.clock, id));
    }
    ListStarves(s.rows, kind, c.maxAttempts, s.clock, RETRY_LIMIT, ids);
    forall i | 0 <= i < |ids| ensures Key(kind, ids[i]) in s.rows && Exhausted(s.rows[Key(kind, ids[i])], c.maxAttempts) {
      assert ExhaustedDue(s.rows, kind, c.maxAttempts, s.clock, ids[i]);
    }
  }

  // ---------- What a step does to the row of its item ----------

  /** Nothing, or it moves a row that is not a spent FAILED one; a row it marks FAILED is due in the future. */
  predicate Moves(c: Config, s: State, s': State, k: Key) {
    && s'.clock == s.clock
    && (s'.rows == s.rows
        || (&& k in s'.rows && s'.rows == s.rows[k := s'.rows[k]]
            && (k in s.rows ==> !(s.rows[k].status == FAILED && Exhausted(s.rows[k], c.maxAttempts)))
            && (k in s.rows ==> s'.rows[k].attempts >= s.rows[k].attempts)
            && (s'.rows[k].status == FAILED ==> s'.rows[k].nextRetryAt.Some? && s'.rows[k].nextRetryAt.value > s.clock)))
  }

  lemma BackoffPositive(n: int)
    ensures BackoffMs(n) > 0
  {
  }

  lemma BeginMoves(c: Config, s: State, pc: Pc, o: Outcome)
    requires pc.Working?
    ensures var (s', pc') := AfterBegin(c, s, pc, o);
            && Moves(c, s, s', pc.item.key)
            && (pc.item.key in s.rows && Exhausted(s.rows[pc.item.key], c.maxAttempts) ==>
                  s'.rows == s.rows && (pc' == Idle || pc' == pc.(phase := Acking(false)) || pc' == NextItem(pc.src, pc.rest)))
  {
    var k := pc.item.key;
    var n := StartAttempt(s.rows, k, c.maxAttempts, s.clock);
    if n.Some? {
      DispatchFrame(Started(s, k, n.value), pc, pc.item.payload, n.value);
      hide Dispatched;
    }
  }

  lemma MarkMoves(c: Config, s: State, pc: Pc, n: int, o: Outcome)
    requires pc.Working? && pc.item.key in s.rows && s.rows[pc.item.key].status != FAILED
    ensures Moves(c, s, AfterSucceed(s, pc, n, o).0, pc.item.key)
    ensures Moves(c, s, AfterFail(s, pc, n, o).0, pc.item.key)
  {
    BackoffPositive(n);
    hide BackoffMs;
  }

  lemma SameClock(s: State, pc: Pc, n: int, abort: bool, p: nat, o: Outcome)
    requires pc.Working?
    ensures AfterLookup(s, pc, n, o).0.clock == s.clock && AfterLookup(s, pc, n, o).0.rows == s.rows
    ensures AfterAck(s, pc, abort, p, o).0.clock == s.clock && AfterAck(s, pc, abort, p, o).0.rows == s.rows
    ensures CutOff(s, pc).clock == s.clock && CutOff(s, pc).rows == s.rows
  {
  }

  lemma StepMoves(c: Config, a: Conf, w: WorkerLabel, b: Conf)
    requires Inv(c, a) && Step(c, a, W(w), b) && a.pc.Working?
    ensures Moves(c, a.s, b.s, a.pc.item.key)
  {
    Taken(c, a, w, b);
    hide Step, CutOff, HandlerStep, AfterLookup, AfterBegin, AfterSucceed, AfterFail, AfterAck, BusOk, RowsOk, Covered;
    if w.Stop? {
      SameClock(a.s, a.pc, 0, false, 0, Ok);
    } else {
      match a.pc.phase
      case Fetched => BeginMoves(c, a.s, a.pc, w.o);
      case LookingUp(n) => SameClock(a.s, a.pc, n, false, 0, w.o);
      case Running(_, _) => HandlerFrame(c, a.s, a.pc, w, b.s, b.pc);
      case Returned(n) => MarkMoves(c, a.s, a.pc, n, w.o);
      case Threw(n) => MarkMoves(c, a.s, a.pc, n, w.o);
      case Acking(abort) => SameClock(a.s, a.pc, 0, abort, a.pc.item.pos.value, w.o);
    }
  }

  lemma MovesBlocked(c: Config, s: State, s': State, k: Key, kind: Kind, blockers: set<EventId>, at: int)
    requires Blocked(c, s, kind, blockers, at) && Moves(c, s, s', k)
    ensures Blocked(c, s', kind, blockers, at)
  {
    if s'.rows != s.rows {
      forall b | b in blockers ensures Blocker(c, s', Key(kind, b), at) { assert Blocker(c, s, Key(kind, b), at); }
      forall x | x in s'.rows && x.kind == kind ensures Later(c, s'.rows[x], at) {
        if x != k { assert Later(c, s.rows[x], at); }
      }
    }
  }

  // ---------- For good ----------

  /** Where an item leads, seen from the source it comes from. */
  predicate Leads(pc: Pc, pc': Pc)
    requires pc.Working?
  {
    || pc' == Idle || pc' == NextItem(pc.src, pc.rest)
    || (pc'.Working? && pc' == pc.(phase := pc'.phase))
  }

  lemma ItemLeads(c: Config, a: Conf, w: WorkerLabel, b: Conf)
    requires Step(c, a, W(w), b) && a.pc.Working?
    ensures Leads(a.pc, b.pc)
  {
    Taken(c, a, w, b);
    hide Step, CutOff, HandlerStep, AfterLookup, AfterBegin, AfterSucceed, AfterFail, AfterAck;
    if w.Stop? {
    } else {
      match a.pc.phase
      case Fetched => BeginLeads(c, a.s, a.pc, w.o);
      case LookingUp(n) => RestLeads(a.s, a.pc, n, false, 0, w.o);
      case Running(_, _) => HandlerFrame(c, a.s, a.pc, w, b.s, b.pc);
      case Returned(n) => RestLeads(a.s, a.pc, n, false, 0, w.o);
      case Threw(n) => RestLeads(a.s, a.pc, n, false, 0, w.o);
      case Acking(abort) => RestLeads(a.s, a.pc, 0, abort, a.pc.item.pos.value, w.o);
    }
  }

  lemma BeginLeads(c: Config, s: State, pc: Pc, o: Outcome)
    requires pc.Working?
    ensures Leads(pc, AfterBegin(c, s, pc, o).1)
  {
  }

  lemma RestLeads(s: State, pc: Pc, n: int, abort: bool, p: nat, o: Outcome)
    requires pc.Working?
    ensures Leads(pc, AfterLookup(s, pc, n, o).1) && Leads(pc, AfterAck(s, pc, abort, p, o).1)
    ensures Leads(pc, AfterSucceed(s, pc, n, o).1) && Leads(pc, AfterFail(s, pc, n, o).1)
  {
    hide BackoffMs;
  }

  /** The retry loop of the starved handler passes over its items without touching a row. */
  lemma PassesOver(c: Config, a: Conf, w: WorkerLabel, b: Conf, kind: Kind)
    requires Inv(c, a) && Empty(c, a, kind) && Step(c, a, W(w), b) && a.pc.Working? && a.pc.src == Retried(kind)
    ensures b.s.rows == a.s.rows && (b.pc == Idle || b.pc == NextItem(a.pc.src, a.pc.rest))
  {
    Taken(c, a, w, b);
    hide Step, AfterBegin, CutOff, BusOk, RowsOk, Covered;
    if w.Stop? { SameClock(a.s, a.pc, 0, false, 0, Ok); }
    else { BeginMoves(c, a.s, a.pc, w.o); BeginKeepsSource(c, a.s, a.pc, w.o); }
  }

  lemma BeginKeepsSource(c: Config, s: State, pc: Pc, o: Outcome)
    requires pc.Working? && pc.item.pos.None?
    ensures AfterBegin(c, s, pc, o).1 != pc.(phase := Acking(false))
  {
  }

  lemma OffStarves(c: Config, a: Conf, l: Label, b: Conf, kind: Kind, blockers: set<EventId>, at: int)
    requires Starving(c, a, kind, blockers, at) && Step(c, a, l, b) && (l.E? || !a.pc.Working?)
    ensures Starving(c, b, kind, blockers, at)
  {
    OffItem(c, a, l, b);
    if l.W? && a.pc == Scanning(kind) && l.w.ListDue? && l.w.o == Ok {
      BlockedList(c, a.s, kind, blockers, at, l.w.ids);
    }
    if l.W? && b.pc.Working? && b.pc.src == Retried(kind) { NewSource(c, a, l.w, b, kind); }
  }

  /** The retry loop of `kind` is entered by its own query only. */
  lemma NewSource(c: Config, a: Conf, w: WorkerLabel, b: Conf, kind: Kind)
    requires Step(c, a, W(w), b) && !a.pc.Working? && b.pc.Working? && b.pc.src == Retried(kind)
    ensures a.pc == Scanning(kind) && w.ListDue? && w.o == Ok && DueBatch(a.s, kind, w.ids)
    ensures b.pc == NextItem(Retried(kind), RowItems(kind, w.ids))
  {
  }

  lemma ItemStarves(c: Config, a: Conf, w: WorkerLabel, b: Conf, kind: Kind, blockers: set<EventId>, at: int)
    requires Inv(c, a) && Starving(c, a, kind, blockers, at) && Step(c, a, W(w), b) && a.pc.Working?
    ensures Starving(c, b, kind, blockers, at)
  {
    StepMoves(c, a, w, b);
    hide Inv, Blocked, Moves;
    MovesBlocked(c, a.s, b.s, a.pc.item.key, kind, blockers, at);
    if a.pc.src == Retried(kind) {
      PassesOver(c, a, w, b, kind);
    } else {
      ItemLeads(c, a, w, b);
    }
    hide Step;
  }

  /** Once the handler is starved it stays starved, by the same rows. */
  lemma StepStarves(c: Config, a: Conf, l: Label, b: Conf, kind: Kind, blockers: set<EventId>, at: int)
    requires Inv(c, a) && Starving(c, a, kind, blockers, at) && Step(c, a, l, b)
    ensures Starving(c, b, kind, blockers, at)
    ensures a.pc.Working? && a.pc.src == Retried(kind) ==> b.s.rows == a.s.rows
  {
    hide Inv, Starving, Empty;
    if l.W? && a.pc.Working? {
      ItemStarves(c, a, l.w, b, kind, blockers, at);
      StarvedPass(c, a, l.w, b, kind, blockers, at);
    } else {
      OffStarves(c, a, l, b, kind, blockers, at);
      hide Step;
      OffItem(c, a, l, b);
    }
  }

  lemma StarvedPass(c: Config, a: Conf, w: WorkerLabel, b: Conf, kind: Kind, blockers: set<EventId>, at: int)
    requires Inv(c, a) && Starving(c, a, kind, blockers, at) && Step(c, a, W(w), b) && a.pc.Working?
    ensures a.pc.src == Retried(kind) ==> b.s.rows == a.s.rows
  {
    if a.pc.src == Retried(kind) { PassesOver(c, a, w, b, kind); }
  }

  /** From a starved state on, no retry pass of the handler starts a row, for the rest of every run: the blockers never
      change, and whatever fails later is due later. */
  lemma {:induction false} StarvedForGood(c: Config, run: seq<Conf>, labels: seq<Label>, i: nat, j: nat,
                                          kind: Kind, blockers: set<EventId>, at: int)
    requires IsRun(c, run, labels) && i <= j <= |labels| && Starving(c, run[i], kind, blockers, at)
    ensures Starving(c, run[j], kind, blockers, at)
    ensures j < |labels| && run[j].pc.Working? && run[j].pc.src == Retried(kind) ==> run[j + 1].s.rows == run[j].s.rows
  {
    hide Step, Starving;
    if j > i {
      StarvedForGood(c, run, labels, i, j - 1, kind, blockers, at);
      RunKeeps(c, run, labels, j - 1);
      StepStarves(c, run[j - 1], labels[j - 1], run[j], kind, blockers, at);
    }
    if j < |labels| {
      RunKeeps(c, run, labels, j);
      StepStarves(c, run[j], labels[j], run[j + 1], kind, blockers, at);
    }
  }

  // ---------- Who is left behind ----------

  /** A failed event with attempts left and no stream copy to come: only the retry loop could bring it back. */
  ghost predicate Waits(c: Config, a: Conf, kind: Kind, e: EventId) {
    && e in a.s.bus.outbox && a.s.bus.outbox[e].kind == kind && a.s.bus.outbox[e].processed && !HasLive(a.s.bus, e)
    && Key(kind, e) in a.s.rows && a.s.rows[Key(kind, e)].status == FAILED
    && !Exhausted(a.s.rows[Key(kind, e)], c.maxAttempts)
  }

  lemma NobodyOnIt(c: Config, a: Conf, kind: Kind, e: EventId)
    requires Inv(c, a) && Empty(c, a, kind) && Waits(c, a, kind, e)
    ensures !At(a.pc, Key(kind, e))
  {
    if a.pc.Working? && a.pc.item.pos.Some? { assert !Live(a.s.bus, e, a.pc.item.pos.value); }
  }

  /** Published rows get no new copies, and lose copies only by acknowledgement. */
  lemma NoNewCopies(c: Config, a: Conf, l: Label, b: Conf, e: EventId)
    requires Inv(c, a) && Step(c, a, l, b) && e in a.s.bus.outbox && a.s.bus.outbox[e].processed && !HasLive(a.s.bus, e)
    ensures e in b.s.bus.outbox && b.s.bus.outbox[e].kind == a.s.bus.outbox[e].kind && b.s.bus.outbox[e].processed
    ensures !HasLive(b.s.bus, e)
  {
    if l.E? {
      EnvItem(c, a.s, l.e, b.s);
      SameBusLive(a.s.bus, b.s.bus, e);
      hide EnvStep, Inv;
    } else if a.pc.Working? {
      ItemFrame(c, a, l.w, b);
      hide Step, Inv;
      forall i ensures !Live(b.s.bus, e, i) { assert !Live(a.s.bus, e, i); }
    } else if a.pc.Claiming? || a.pc.Polling? || a.pc.Scanning? {
      FetchCopies(c, a, l.w, b, e);
    } else {
      PublishCopies(c, a, l.w, b, e);
    }
  }

  lemma FetchCopies(c: Config, a: Conf, w: WorkerLabel, b: Conf, e: EventId)
    requires Inv(c, a) && Step(c, a, W(w), b) && (a.pc.Claiming? || a.pc.Polling? || a.pc.Scanning?)
    ensures b.s.bus.outbox == a.s.bus.outbox && SameLive(a.s.bus, b.s.bus, e)
  {
    hide RowsOk, Covered, PcOk, HasLive, Delivered, StreamItems, RowItems, IsDueList;
    var p, p' := a.s.bus, b.s.bus;
    if w.AutoClaim? && w.o.Effect() {
      DeliveredLive(p, p', w.positions, a.s.clock, e);
    } else if w.ReadGroup? && w.o.Effect() {
      var positions := Range(p.delivered, w.count);
      forall i | p.delivered <= i < p'.delivered ensures i in positions {
        assert positions[i - p.delivered] == i;
      }
      DeliveredLive(p, p', positions, a.s.clock, e);
    } else {
      SameBusLive(p, p', e);
    }
  }

  lemma PublishCopies(c: Config, a: Conf, w: WorkerLabel, b: Conf, e: EventId)
    requires Inv(c, a) && Step(c, a, W(w), b) && (a.pc.Idle? || a.pc.Publishing? || a.pc.Marking? || a.pc.Refusing?)
    requires e in a.s.bus.outbox && a.s.bus.outbox[e].processed && !HasLive(a.s.bus, e)
    ensures e in b.s.bus.outbox && b.s.bus.outbox[e].kind == a.s.bus.outbox[e].kind && b.s.bus.outbox[e].processed
    ensures !HasLive(b.s.bus, e)
  {
    hide RowsOk, Covered;
    forall i ensures !Live(b.s.bus, e, i) { assert !Live(a.s.bus, e, i); }
  }

  lemma StepWaits(c: Config, a: Conf, l: Label, b: Conf, kind: Kind, e: EventId)
    requires Inv(c, a) && Empty(c, a, kind) && Waits(c, a, kind, e) && Step(c, a, l, b)
    ensures Waits(c, b, kind, e)
    ensures b.s.rows[Key(kind, e)] == a.s.rows[Key(kind, e)]
    ensures b.s.hist.att.dispatched[Key(kind, e)] == a.s.hist.att.dispatched[Key(kind, e)]
  {
    NobodyOnIt(c, a, kind, e);
    NoNewCopies(c, a, l, b, e);
    hide Inv, HasLive;
    if l.E? || !a.pc.Working? { OffItem(c, a, l, b); }
    else { OtherKey(c, a, l.w, b, Key(kind, e)); }
    hide Step;
  }

  /** Every event that waits while its handler is starved waits for the rest of the run: it is never dispatched again,
      though it has attempts left and, from some time on, is due. */
  lemma {:induction false} NeverAgain(c: Config, run: seq<Conf>, labels: seq<Label>, i: nat, j: nat,
                                      kind: Kind, blockers: set<EventId>, at: int, e: EventId)
    requires IsRun(c, run, labels) && i <= j <= |labels|
    requires Starving(c, run[i], kind, blockers, at) && Waits(c, run[i], kind, e)
    ensures Waits(c, run[j], kind, e)
    ensures run[j].s.rows[Key(kind, e)] == run[i].s.rows[Key(kind, e)]
    ensures run[j].s.hist.att.dispatched[Key(kind, e)] == run[i].s.hist.att.dispatched[Key(kind, e)]
  {
    hide Step, Blocked, Empty;
    if j > i {
      NeverAgain(c, run, labels, i, j - 1, kind, blockers, at, e);
      StarvedForGood(c, run, labels, i, j - 1, kind, blockers, at);
      RunKeeps(c, run, labels, j - 1);
      StepWaits(c, run[j - 1], labels[j - 1], run[j], kind, e);
    }
  }
}
