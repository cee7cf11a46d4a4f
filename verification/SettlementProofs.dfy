/** Completion events, releases and confiscations: what the whole system does to a task's escrow, in every
    single-worker run. */
module SettlementProofs {
  import opened Types
  import opened Consumption
  import opened Market
  import opened Outbox
  import opened Protocol
  import opened Delivery
  import opened NoLoss
  import opened Fleets
  import opened Success
  import opened Lifecycle

  // ---------- Invariant ----------

  /** Event `e` is the completion request of task `t`. */
  predicate Requests(s: State, e: EventId, t: TaskId) {
    && e in s.bus.outbox && s.bus.outbox[e].kind == CompletionRequested
    && s.bus.outbox[e].payload.Completion? && s.bus.outbox[e].payload.taskId == Some(t)
  }

  predicate Completing(m: Market, t: TaskId) {
    t in m.tasks && (m.tasks[t].status == COMPLETING || m.tasks[t].status == COMPLETED)
  }

  /** `b` is the selected bid of `t` and `escrow` is its escrow. */
  predicate Wins(m: Market, t: TaskId, b: BidId, escrow: EscrowId) {
    IsSelected(m, t, b) && m.bids[b].escrowId == escrow
  }

  ghost predicate WinningEscrow(m: Market, t: TaskId, escrow: EscrowId) {
    exists b :: Wins(m, t, b, escrow)
  }

  /** A completion event names a completing task and its selected escrow. */
  ghost predicate EventOk(s: State, e: EventId)
    requires e in s.bus.outbox
  {
    var row := s.bus.outbox[e];
    row.kind == CompletionRequested ==>
      && row.payload.Completion? && row.payload.taskId.Some? && row.payload.escrowId.Some?
      && Completing(s.market, row.payload.taskId.value)
      && WinningEscrow(s.market, row.payload.taskId.value, row.payload.escrowId.value)
  }

  /** With an outbox, a completing task has exactly one completion event, unless its emit failed: then none. */
  ghost predicate Announced(c: Config, s: State, t: TaskId)
    requires t in s.market.tasks
  {
    if c.outbox && Completing(s.market, t) then
      ((exists e :: Requests(s, e, t)) <==> t !in s.hist.cash.unemitted)
    else t !in s.hist.cash.unemitted
  }

  ghost predicate EventsOk(c: Config, s: State) {
    && (forall e :: e in s.bus.outbox ==> EventOk(s, e))
    && (forall e, f, t :: Requests(s, e, t) && Requests(s, f, t) ==> e == f)
    && (forall t :: t in s.market.tasks ==> Announced(c, s, t))
    && s.hist.cash.unemitted <= s.market.tasks.Keys
    && (!c.outbox ==> forall e :: e in s.bus.outbox ==> s.bus.outbox[e].kind != CompletionRequested)
  }

  predicate Completed(m: Market, t: TaskId) {
    t in m.tasks && m.tasks[t].status == COMPLETED
  }

  /** The task id in the payload of event `k.id`. */
  function TaskOf(s: State, k: Key): TaskId {
    if k.id in s.bus.outbox && s.bus.outbox[k.id].payload.Completion? && s.bus.outbox[k.id].payload.taskId.Some?
    then s.bus.outbox[k.id].payload.taskId.value else 0
  }

  predicate Snapshot(m: Market, t: TaskId, task: Task) {
    t in m.tasks && m.tasks[t] == task && task.status == COMPLETING
  }

  /** What the worker's handler knows at each of its awaits. */
  ghost predicate HandlerOk(s: State, pc: Pc) {
    pc.Working? && pc.item.key.kind == CompletionRequested ==>
      var t := TaskOf(s, pc.item.key);
      match pc.phase
      case Returned(_) => Completed(s.market, t)
      case Running(_, ReadTask(x)) => x == t
      case Running(_, ReadBids(x, task)) => x == t && Snapshot(s.market, t, task)
      case Running(_, Release(x, task, escrow)) => x == t && Snapshot(s.market, t, task) && WinningEscrow(s.market, t, escrow)
      case Running(_, SaveTask(x, task, escrow)) => x == t && Snapshot(s.market, t, task) && WinningEscrow(s.market, t, escrow)
      case Running(_, EmitDone(x)) => x == t && Completed(s.market, t)
      case Running(_, PostWebhook) => false
      case _ => true
  }

  /** Only completion events run the completion handler. */
  predicate HandlerKind(pc: Pc) {
    pc.Working? && pc.phase.Running? && pc.item.key.kind != CompletionRequested ==> pc.phase.handler.PostWebhook?
  }

  ghost predicate RowsTell(s: State) {
    forall k :: Done(s, k) && k.kind == CompletionRequested ==> Completed(s.market, TaskOf(s, k))
  }

  /** The worker has released `escrow` and not yet saved the task. */
  predicate PaidUnsaved(pc: Pc, escrow: EscrowId) {
    pc.Working? && pc.phase.Running? && pc.phase.handler.SaveTask? && pc.phase.handler.escrow == escrow
  }

  /** The books of one bid's escrow. */
  predicate Books(c: Config, s: State, pc: Pc, b: BidId)
    requires b in s.market.bids && s.market.bids[b].taskId in s.market.tasks
  {
    var bid := s.market.bids[b];
    var x := bid.escrowId;
    var status := s.market.tasks[bid.taskId].status;
    var h := s.hist.cash;
    if bid.status == SELECTED then
      && h.released[x] == h.cut[x] + h.leakedRelease[x] + One(status == COMPLETED) + One(PaidUnsaved(pc, x))
      && h.confiscated[x] == h.leakedConfiscation[x] + One(status == EXPIRED)
      && (h.cut[x] > 0 ==> status == COMPLETING || status == COMPLETED)
      && (c.outbox ==> h.leakedRelease[x] == 0)
    else Untouched(s, x) && !PaidUnsaved(pc, x)
  }

  predicate Untouched(s: State, x: EscrowId) {
    var h := s.hist.cash;
    h.released[x] == 0 && h.cut[x] == 0 && h.leakedRelease[x] == 0 && h.confiscated[x] == 0 && h.leakedConfiscation[x] == 0
  }

  ghost predicate CashOk(c: Config, s: State, pc: Pc) {
    && (forall b :: b in s.market.bids ==> s.market.bids[b].taskId in s.market.tasks && Books(c, s, pc, b))
    && (forall x :: x !in s.market.escrows ==> Untouched(s, x) && !PaidUnsaved(pc, x))
    && (forall x :: !Untouched(s, x) ==> exists t, b :: Wins(s.market, t, b, x))
  }

  ghost predicate Agreed(c: Config, a: Conf) {
    && LifeOk(a.s.market) && EventsOk(c, a.s) && HandlerOk(a.s, a.pc) && HandlerKind(a.pc)
    && RowsTell(a.s) && CashOk(c, a.s, a.pc)
  }

  // ---------- Forward moves keep what was established ----------

  lemma WinsStays(m: Market, n: Market, t: TaskId, escrow: EscrowId)
    requires Forward(m, n) && WinningEscrow(m, t, escrow)
    ensures WinningEscrow(n, t, escrow)
  {
    var b :| Wins(m, t, b, escrow);
    assert Wins(n, t, b, escrow);
  }

  /** The outbox keeps its rows' types and payloads. */
  predicate SameRows(s: State, s': State) {
    forall e :: e in s.bus.outbox ==>
      e in s'.bus.outbox && s'.bus.outbox[e].kind == s.bus.outbox[e].kind
      && s'.bus.outbox[e].payload == s.bus.outbox[e].payload
  }

  predicate NoNewRequests(s: State, s': State) {
    forall e :: e in s'.bus.outbox && e !in s.bus.outbox ==> s'.bus.outbox[e].kind != CompletionRequested
  }

  /** Tasks that are completing are untouched. */
  ghost predicate Still(m: Market, n: Market) {
    forall t :: Completing(m, t) ==> t in n.tasks && n.tasks[t] == m.tasks[t]
  }

  ghost predicate NoneStarts(m: Market, n: Market) {
    forall t :: Completing(n, t) ==> Completing(m, t)
  }

  lemma EventsKeep(c: Config, s: State, s': State)
    requires EventsOk(c, s) && SameRows(s, s') && NoNewRequests(s, s')
    requires (c.outbox ==> NoneStarts(s.market, s'.market))
    requires Forward(s.market, s'.market) && s'.hist.cash.unemitted == s.hist.cash.unemitted
    ensures EventsOk(c, s')
    ensures forall e, t :: Requests(s', e, t) <==> Requests(s, e, t)
  {
    assert forall e, t :: Requests(s', e, t) <==> Requests(s, e, t);
    forall e | e in s'.bus.outbox ensures EventOk(s', e) {
      var row := s'.bus.outbox[e];
      if row.kind == CompletionRequested {
        assert EventOk(s, e);
        WinsStays(s.market, s'.market, row.payload.taskId.value, row.payload.escrowId.value);
      }
    }
    forall t | t in s'.market.tasks ensures Announced(c, s', t) {
      if t in s.market.tasks { assert Announced(c, s, t); }
    }
  }

  lemma HandlerKeepsOk(c: Config, s: State, s': State, pc: Pc)
    requires HandlerOk(s, pc) && SameRows(s, s') && Still(s.market, s'.market)
    requires Forward(s.market, s'.market) && (pc.Working? ==> pc.item.key.id in s.bus.outbox)
    ensures HandlerOk(s', pc)
  {
    if pc.Working? && pc.phase.Running? && (pc.phase.handler.Release? || pc.phase.handler.SaveTask?)
       && pc.item.key.kind == CompletionRequested {
      WinsStays(s.market, s'.market, TaskOf(s, pc.item.key), pc.phase.handler.escrow);
    }
  }

  lemma RowsKeepTelling(c: Config, s: State, s': State)
    requires RowsTell(s) && SameRows(s, s') && Still(s.market, s'.market)
    requires s'.rows == s.rows && forall k :: k in s.rows ==> k.id in s.bus.outbox
    ensures RowsTell(s')
  {
    forall k | Done(s', k) && k.kind == CompletionRequested ensures Completed(s'.market, TaskOf(s', k)) {
      assert Done(s, k);
    }
  }

  /** Steps that leave market and escrows alone. */
  lemma QuietCash(c: Config, s: State, pc: Pc, s': State, pc': Pc)
    requires CashOk(c, s, pc) && s'.market == s.market && s'.hist.cash == s.hist.cash
    requires forall x :: PaidUnsaved(pc', x) == PaidUnsaved(pc, x)
    ensures CashOk(c, s', pc')
  {
    forall b | b in s'.market.bids ensures Books(c, s', pc', b) { assert Books(c, s, pc, b); }
    forall x | !Untouched(s', x) ensures exists t, b :: Wins(s'.market, t, b, x) { assert !Untouched(s, x); }
  }

  // ---------- API requests ----------

  /** Creating tasks, placing bids, assigning: new bids have new escrows and belong to open tasks. */
  predicate Opening(m: Market, n: Market) {
    && (forall t :: t in m.tasks ==>
          t in n.tasks && (n.tasks[t] == m.tasks[t] || (m.tasks[t].status == OPEN && n.tasks[t].status == ASSIGNED)))
    && (forall t :: t in n.tasks && t !in m.tasks ==> n.tasks[t].status == OPEN)
    && (forall b :: b in n.bids && b !in m.bids ==>
          n.bids[b].escrowId !in m.escrows && n.bids[b].taskId in m.tasks && m.tasks[n.bids[b].taskId].status == OPEN)
  }

  /** A bid that existed before: its books change only if it was selected now, and then they were blank. */
  lemma OpeningBooks(c: Config, s: State, pc: Pc, s': State, b: BidId)
    requires LifeOk(s.market) && Forward(s.market, s'.market) && Opening(s.market, s'.market)
    requires s'.hist.cash == s.hist.cash && b in s.market.bids && Books(c, s, pc, b)
    ensures b in s'.market.bids && s'.market.bids[b].taskId in s'.market.tasks && Books(c, s', pc, b)
  {
    var m, n := s.market, s'.market;
    var t := m.bids[b].taskId;
    assert n.bids[b] == m.bids[b].(status := n.bids[b].status);
    assert TaskOk(m, t);
    if m.bids[b].status == PENDING { assert IsPending(m, t, b); }
    if m.bids[b].status == SELECTED { assert IsSelected(m, t, b); }
  }

  /** A bid that is new: its escrow is, too. */
  lemma OpeningNew(c: Config, s: State, pc: Pc, s': State, b: BidId)
    requires CashOk(c, s, pc) && LifeOk(s'.market) && Opening(s.market, s'.market) && s'.hist.cash == s.hist.cash
    requires Forward(s.market, s'.market) && b in s'.market.bids && b !in s.market.bids
    ensures s'.market.bids[b].taskId in s'.market.tasks && Books(c, s', pc, b)
  {
    var x := s'.market.bids[b].escrowId;
    assert Untouched(s, x) && !PaidUnsaved(pc, x);
    hide CashOk;
  }

  lemma OpeningWins(c: Config, s: State, pc: Pc, s': State, x: EscrowId)
    requires CashOk(c, s, pc) && Forward(s.market, s'.market) && s'.hist.cash == s.hist.cash && !Untouched(s', x)
    ensures exists t, b :: Wins(s'.market, t, b, x)
  {
    assert !Untouched(s, x);
    var t, b :| Wins(s.market, t, b, x);
    assert Wins(s'.market, t, b, x);
  }

  lemma OpeningCash(c: Config, s: State, pc: Pc, s': State)
    requires CashOk(c, s, pc) && LifeOk(s.market) && LifeOk(s'.market)
    requires Forward(s.market, s'.market) && Opening(s.market, s'.market) && s'.hist.cash == s.hist.cash
    ensures CashOk(c, s', pc)
  {
    hide LifeOk, Opening, Books, Untouched;
    forall b | b in s'.market.bids ensures s'.market.bids[b].taskId in s'.market.tasks && Books(c, s', pc, b) {
      if b in s.market.bids { OpeningBooks(c, s, pc, s', b); } else { OpeningNew(c, s, pc, s', b); }
    }
    forall x | !Untouched(s', x) ensures exists t, b :: Wins(s'.market, t, b, x) { OpeningWins(c, s, pc, s', x); }
    assert s.market.escrows <= s'.market.escrows;
    forall x | x !in s'.market.escrows ensures Untouched(s', x) && !PaidUnsaved(pc, x) {
      OpeningUntouched(s, s', x);
    }
  }

  lemma OpeningUntouched(s: State, s': State, x: EscrowId)
    requires s'.hist.cash == s.hist.cash
    ensures Untouched(s', x) == Untouched(s, x)
  {
  }

  lemma OpeningKeeps(c: Config, a: Conf, s': State)
    requires Inv(c, a) && Agreed(c, a) && LifeOk(s'.market) && Forward(a.s.market, s'.market)
    requires Opening(a.s.market, s'.market)
    requires SameRows(a.s, s') && NoNewRequests(a.s, s') && s'.rows == a.s.rows && s'.hist.cash == a.s.hist.cash
    ensures Agreed(c, Conf(s', a.pc))
  {
    assert forall k :: k in a.s.rows ==> RowOk(c, a.s, k);
    assert Still(a.s.market, s'.market) && NoneStarts(a.s.market, s'.market);
    EventsKeep(c, a.s, s');
    HandlerKeepsOk(c, a.s, s', a.pc);
    RowsKeepTelling(c, a.s, s');
    OpeningCash(c, a.s, a.pc, s');
  }

  predicate SameBooks(h: Cash, h': Cash, x: EscrowId) {
    && h'.released[x] == h.released[x] && h'.cut[x] == h.cut[x] && h'.leakedRelease[x] == h.leakedRelease[x]
    && h'.confiscated[x] == h.confiscated[x] && h'.leakedConfiscation[x] == h.leakedConfiscation[x]
  }

  /** A step that touches one task and the books of its selected bid `b`. */
  lemma CashAt(c: Config, s: State, pc: Pc, s': State, pc': Pc, t: TaskId, b: BidId)
    requires CashOk(c, s, pc) && LifeOk(s.market) && IsSelected(s.market, t, b) && t in s.market.tasks
    requires s.market.tasks[t].status != OPEN
    requires t in s'.market.tasks && s'.market == s.market.(tasks := s.market.tasks[t := s'.market.tasks[t]])
    requires forall x :: x != s.market.bids[b].escrowId ==>
               SameBooks(s.hist.cash, s'.hist.cash, x) && PaidUnsaved(pc', x) == PaidUnsaved(pc, x)
    requires Books(c, s', pc', b)
    ensures CashOk(c, s', pc')
  {
    var m, n := s.market, s'.market;
    BooksAt(c, s, pc, s', pc', t, b);
    hide Books, LifeOk;
    forall x | !Untouched(s', x) ensures exists u, y :: Wins(n, u, y, x) {
      if x == m.bids[b].escrowId { assert Wins(n, t, b, x); }
      else {
        assert !Untouched(s, x);
        var u, y :| Wins(m, u, y, x);
        assert Wins(n, u, y, x);
      }
    }
  }

  lemma BooksAt(c: Config, s: State, pc: Pc, s': State, pc': Pc, t: TaskId, b: BidId)
    requires CashOk(c, s, pc) && LifeOk(s.market) && IsSelected(s.market, t, b) && t in s.market.tasks
    requires s.market.tasks[t].status != OPEN
    requires t in s'.market.tasks && s'.market == s.market.(tasks := s.market.tasks[t := s'.market.tasks[t]])
    requires forall x :: x != s.market.bids[b].escrowId ==>
               SameBooks(s.hist.cash, s'.hist.cash, x) && PaidUnsaved(pc', x) == PaidUnsaved(pc, x)
    requires Books(c, s', pc', b)
    ensures forall y :: y in s'.market.bids ==> s'.market.bids[y].taskId in s'.market.tasks && Books(c, s', pc', y)
  {
    var m, n := s.market, s'.market;
    assert TaskOk(m, t);
    forall y | y in n.bids ensures n.bids[y].taskId in n.tasks && Books(c, s', pc', y) {
      assert Books(c, s, pc, y);
      if y != b && n.bids[y].status == SELECTED && n.bids[y].taskId == t { assert IsSelected(m, t, y); }
    }
  }

  /** The completion request: the task is saved COMPLETING, and the event is inserted or not. */
  predicate Requested(s: State, t: TaskId, b: BidId, event: Option<EventId>, s': State)
    requires t in s.market.tasks && b in s.market.bids
  {
    && s'.market == WithStatus(s.market, t, s.market.tasks[t], COMPLETING)
    && (event.Some? ==> event.value !in s.bus.outbox)
    && s'.bus.outbox == (if event.None? then s.bus.outbox
         else s.bus.outbox[event.value := OutboxRow(CompletionRequested, Completion(Some(t), Some(s.market.bids[b].escrowId)), false, 0,
                                               s.clock)])
    && s'.hist.cash == s.hist.cash.(unemitted := s.hist.cash.unemitted + if event.None? then {t} else {})
  }

  lemma CompleteRequests(c: Config, s: State, t: TaskId, b: BidId, event: Option<EventId>, s': State)
    requires EventsOk(c, s) && t in s.market.tasks && s.market.tasks[t].status == ASSIGNED && b in s.market.bids
    requires Requested(s, t, b, event, s')
    ensures forall e: EventId :: !Requests(s, e, t)
    ensures forall e: EventId, u: TaskId :: Requests(s', e, u) <==> Requests(s, e, u) || (event == Some(e) && u == t)
  {
    forall e: EventId ensures !Requests(s, e, t) {
      if e in s.bus.outbox { assert EventOk(s, e); }
    }
  }

  lemma CompleteEvents(c: Config, s: State, t: TaskId, b: BidId, event: Option<EventId>, s': State)
    requires EventsOk(c, s) && c.outbox
    requires t in s.market.tasks && s.market.tasks[t].status == ASSIGNED && IsSelected(s.market, t, b)
    requires Requested(s, t, b, event, s') && Forward(s.market, s'.market)
    ensures EventsOk(c, s')
  {
    var m, n := s.market, s'.market;
    CompleteRequests(c, s, t, b, event, s');
    forall e | e in s'.bus.outbox ensures EventOk(s', e) {
      if event == Some(e) {
        assert Wins(n, t, b, m.bids[b].escrowId);
      } else if s.bus.outbox[e].kind == CompletionRequested {
        assert EventOk(s, e);
        WinsStays(m, n, s.bus.outbox[e].payload.taskId.value, s.bus.outbox[e].payload.escrowId.value);
      }
    }
    hide EventOk, Requests, Forward;
    forall u | u in n.tasks ensures Announced(c, s', u) {
      assert Announced(c, s, u);
      if u == t && event.Some? { assert Requests(s', event.value, t); }
    }
  }

  lemma RequestedRest(c: Config, a: Conf, t: TaskId, b: BidId, event: Option<EventId>, s': State)
    requires Inv(c, a) && Agreed(c, a) && IsSelected(a.s.market, t, b)
    requires t in a.s.market.tasks && a.s.market.tasks[t].status == ASSIGNED
    requires Requested(a.s, t, b, event, s') && Forward(a.s.market, s'.market) && s'.rows == a.s.rows
    ensures HandlerOk(s', a.pc) && RowsTell(s')
  {
    hide BusOk, Covered, CashOk, LifeOk, EventsOk, Forward;
    assert SameRows(a.s, s') && Still(a.s.market, s'.market);
    hide HandlerOk, RowsTell, Still, SameRows;
    HandlerKeepsOk(c, a.s, s', a.pc);
    assert forall k :: k in a.s.rows ==> RowOk(c, a.s, k);
    RowsKeepTelling(c, a.s, s');
  }

  lemma RequestedCash(c: Config, a: Conf, t: TaskId, b: BidId, event: Option<EventId>, s': State)
    requires Agreed(c, a) && IsSelected(a.s.market, t, b)
    requires t in a.s.market.tasks && a.s.market.tasks[t].status == ASSIGNED
    requires Requested(a.s, t, b, event, s')
    ensures CashOk(c, s', a.pc)
  {
    assert Books(c, a.s, a.pc, b);
    hide EventsOk, HandlerOk, RowsTell, LifeOk;
    CashAt(c, a.s, a.pc, s', a.pc, t, b);
  }

  lemma CompleteKeeps(c: Config, a: Conf, t: TaskId, who: Account, b: BidId, event: Option<EventId>, s': State)
    requires Inv(c, a) && Agreed(c, a) && EnvStep(c, a.s, Complete(t, who, Some(b), event)) == Some(s')
    requires CompleteRefusal(a.s.market, t, who, Some(b)).None?
    ensures Agreed(c, Conf(s', a.pc))
  {
    hide Inv, EventsOk, HandlerOk, RowsTell, CashOk, LifeOk, Forward;
    StatusKeeps(a.s.market, t, COMPLETING);
    assert a.s.hist.cash.unemitted + {} == a.s.hist.cash.unemitted;
    assert Requested(a.s, t, b, event, s');
    CompleteEvents(c, a.s, t, b, event, s');
    RequestedRest(c, a, t, b, event, s');
    RequestedCash(c, a, t, b, event, s');
  }

  /** Everything but the books: an assigned task is not completing, so nothing refers to it yet. */
  lemma SettleRest(c: Config, a: Conf, t: TaskId, status: TaskStatus, s': State)
    requires Inv(c, a) && Agreed(c, a) && t in a.s.market.tasks && a.s.market.tasks[t].status == ASSIGNED
    requires status == ASSIGNED || status == EXPIRED || (status == COMPLETED && !c.outbox)
    requires s'.market == WithStatus(a.s.market, t, a.s.market.tasks[t], status) && Forward(a.s.market, s'.market)
    requires s'.bus == a.s.bus && s'.rows == a.s.rows
    requires s'.hist.cash.unemitted == a.s.hist.cash.unemitted
    ensures EventsOk(c, s') && HandlerOk(s', a.pc) && RowsTell(s')
  {
    hide BusOk, Covered, CashOk, LifeOk, Forward;
    assert Still(a.s.market, s'.market) && (c.outbox ==> NoneStarts(a.s.market, s'.market));
    assert forall k :: k in a.s.rows ==> RowOk(c, a.s, k);
    hide Still, NoneStarts, EventsOk, HandlerOk, RowsTell;
    EventsKeep(c, a.s, s');
    HandlerKeepsOk(c, a.s, s', a.pc);
    RowsKeepTelling(c, a.s, s');
  }

  /** Settling through the provider: the synchronous release and the timeout confiscation. */
  lemma SettleKeeps(c: Config, a: Conf, t: TaskId, b: BidId, status: TaskStatus, s': State)
    requires Inv(c, a) && Agreed(c, a)
    requires t in a.s.market.tasks && a.s.market.tasks[t].status == ASSIGNED && IsSelected(a.s.market, t, b)
    requires status == ASSIGNED || status == EXPIRED || (status == COMPLETED && !c.outbox)
    requires s'.market == WithStatus(a.s.market, t, a.s.market.tasks[t], status)
    requires s'.bus == a.s.bus && s'.rows == a.s.rows
    requires s'.hist.cash.unemitted == a.s.hist.cash.unemitted
    requires forall x :: x != a.s.market.bids[b].escrowId ==> SameBooks(a.s.hist.cash, s'.hist.cash, x)
    requires Books(c, s', a.pc, b)
    ensures Agreed(c, Conf(s', a.pc))
  {
    hide Inv, EventsOk, HandlerOk, RowsTell, CashOk, LifeOk, Forward, Books;
    StatusKeeps(a.s.market, t, status);
    SettleRest(c, a, t, status, s');
    CashAt(c, a.s, a.pc, s', a.pc, t, b);
  }

  lemma SyncKeeps(c: Config, a: Conf, t: TaskId, who: Account, b: BidId, out: Settlement, s': State)
    requires Inv(c, a) && Agreed(c, a) && EnvStep(c, a.s, CompleteSync(t, who, Some(b), out)) == Some(s')
    requires CompleteRefusal(a.s.market, t, who, Some(b)).None? && out != Refused
    ensures Agreed(c, Conf(s', a.pc))
  {
    hide Inv, EventsOk, HandlerOk, RowsTell, LifeOk;
    assert Books(c, a.s, a.pc, b);
    var m := a.s.market;
    assert m.tasks[t := m.tasks[t].(status := ASSIGNED)] == m.tasks;
    SettleKeeps(c, a, t, b, if out == Saved then COMPLETED else ASSIGNED, s');
  }

  lemma ExpireKeeps(c: Config, a: Conf, t: TaskId, b: BidId, out: Settlement, s': State)
    requires Inv(c, a) && Agreed(c, a) && EnvStep(c, a.s, Expire(t, Some(b), out)) == Some(s') && out != Refused
    ensures Agreed(c, Conf(s', a.pc))
  {
    hide Inv, EventsOk, HandlerOk, RowsTell, LifeOk;
    assert Books(c, a.s, a.pc, b);
    var m := a.s.market;
    assert m.tasks[t := m.tasks[t].(status := ASSIGNED)] == m.tasks;
    SettleKeeps(c, a, t, b, if out == Saved then EXPIRED else ASSIGNED, s');
  }

  lemma SelectOpens(m: Market, t: TaskId, order: seq<BidId>)
    requires LifeOk(m) && Listing(m, t, order)
    ensures Opening(m, SelectWinner(m, t, order).0)
  {
    hide Pending, Lowest;
  }

  lemma BidOpens(m: Market, id: BidId, t: TaskId, executor: Account, amount: nat, collateral: nat,
                 escrow: EscrowId, now: int, auto: Option<seq<BidId>>)
    requires LifeOk(m) && id !in m.bids && escrow !in m.escrows && t in m.tasks && m.tasks[t].status == OPEN
    requires auto.Some? ==> Listing(WithBid(m, id, t, executor, amount, collateral, escrow, now), t, auto.value)
    ensures Opening(m, PlaceBid(m, id, t, executor, amount, collateral, Some(escrow), now, auto).0)
  {
    var saved := WithBid(m, id, t, executor, amount, collateral, escrow, now);
    BidKeeps(m, id, t, executor, amount, collateral, escrow, now);
    assert Opening(m, saved);
    hide LifeOk, Forward, Listing;
    if auto.Some? {
      SelectOpens(saved, t, auto.value);
      SelectSameBids(saved, t, auto.value);
    }
    hide SelectWinner;
  }

  lemma SelectSameBids(m: Market, t: TaskId, order: seq<BidId>)
    requires Listing(m, t, order)
    ensures var n := SelectWinner(m, t, order).0;
            && n.bids.Keys == m.bids.Keys
            && forall b :: b in m.bids ==> n.bids[b] == m.bids[b].(status := n.bids[b].status)
  {
    hide Pending, Lowest, Listing;
  }

  lemma RequestOpens(c: Config, s: State, l: EnvLabel, s': State)
    requires LifeOk(s.market) && EnvStep(c, s, l) == Some(s')
    requires l.NewTask? || l.Select? || l.NewBid?
    ensures Opening(s.market, s'.market) && s'.bus == s.bus && s'.rows == s.rows && s'.hist == s.hist
  {
    var m := s.market;
    if l.Select? {
      SelectOpens(m, l.st, l.order);
      hide SelectWinner, Opening;
    } else if l.NewBid? {
      if l.bt in m.tasks && m.tasks[l.bt].status == OPEN && l.escrow.Some? {
        BidOpens(m, l.b, l.bt, l.executor, l.amount, l.collateral, l.escrow.value, s.clock, l.auto);
        hide PlaceBid, Opening, LifeOk;
      }
    }
  }

  lemma EnvAgrees(c: Config, a: Conf, l: EnvLabel, s': State)
    requires Inv(c, a) && Agreed(c, a) && EnvStep(c, a.s, l) == Some(s')
    ensures Agreed(c, Conf(s', a.pc))
  {
    hide Inv, Opening, EventsOk, HandlerOk, RowsTell, CashOk, LifeOk, Forward, SelectWinner, PlaceBid;
    RequestKeeps(c, a.s, l, s');
    match l
    case NewTask(_, _, _, _) => RequestOpens(c, a.s, l, s'); OpeningKeeps(c, a, s');
    case Select(_, _) => RequestOpens(c, a.s, l, s'); OpeningKeeps(c, a, s');
    case NewBid(_, _, _, _, _, _, _) => RequestOpens(c, a.s, l, s'); OpeningKeeps(c, a, s');
    case Elapse(_) => OpeningKeeps(c, a, s');
    case Emit(_, _) => OpeningKeeps(c, a, s');
    case Complete(t, who, choice, event) =>
      if CompleteRefusal(a.s.market, t, who, choice).None? { CompleteKeeps(c, a, t, who, choice.value, event, s'); }
    case CompleteSync(t, who, choice, out) =>
      if CompleteRefusal(a.s.market, t, who, choice).None? && out != Refused { SyncKeeps(c, a, t, who, choice.value, out, s'); }
    case Expire(t, choice, out) =>
      if choice.Some? && out != Refused { ExpireKeeps(c, a, t, choice.value, out, s'); }
  }

  // ---------- Worker steps ----------

  predicate Saving(pc: Pc) {
    pc.Working? && pc.phase.Running? && pc.phase.handler.SaveTask?
  }

  /** A worker step that moves no money, saves no task, requests no completion, and marks no row SUCCEEDED. */
  ghost predicate Quiet(a: Conf, b: Conf) {
    && b.s.market == a.s.market && b.s.hist.cash == a.s.hist.cash
    && SameRows(a.s, b.s) && NoNewRequests(a.s, b.s)
    && !Saving(a.pc) && !Saving(b.pc)
  }

  ghost predicate NoNewDone(s: State, s': State) {
    forall k :: Done(s', k) ==> Done(s, k)
  }

  lemma QuietAgrees(c: Config, a: Conf, b: Conf)
    requires Agreed(c, a) && Quiet(a, b) && RowsTell(b.s) && HandlerOk(b.s, b.pc) && HandlerKind(b.pc)
    ensures Agreed(c, b)
  {
    SelfForward(a.s.market);
    hide LifeOk, Forward, CashOk, EventsOk, HandlerOk, RowsTell;
    EventsKeep(c, a.s, b.s);
    QuietCash(c, a.s, a.pc, b.s, b.pc);
  }

  lemma DoneTells(c: Config, s: State, s': State)
    requires RowsOk(c, s) && RowsTell(s) && NoNewDone(s, s') && SameRows(s, s') && s'.market == s.market
    ensures RowsTell(s')
  {
    forall k | Done(s', k) && k.kind == CompletionRequested ensures Completed(s'.market, TaskOf(s', k)) {
      assert Done(s, k) && RowOk(c, s, k);
    }
  }

  /** What `dispatch` gets to see: the event's own payload. */
  lemma DispatchAgrees(s: State, pc: Pc, payload: Payload, n: int)
    requires pc.Working? && pc.item.key.id in s.bus.outbox && s.bus.outbox[pc.item.key.id].payload == payload
    requires s.bus.outbox[pc.item.key.id].kind == pc.item.key.kind
    ensures var (s', pc') := Dispatched(s, pc, payload, n);
            HandlerOk(s', pc') && HandlerKind(pc') && !Saving(pc')
  {
  }

  lemma BeginQuiet(c: Config, a: Conf, o: Outcome, b: Conf)
    requires Inv(c, a) && a.pc.Working? && a.pc.phase.Fetched? && AfterBegin(c, a.s, a.pc, o) == (b.s, b.pc)
    ensures Quiet(a, b) && NoNewDone(a.s, b.s) && HandlerOk(b.s, b.pc) && HandlerKind(b.pc)
  {
    var k := a.pc.item.key;
    var n := StartAttempt(a.s.rows, k, c.maxAttempts, a.s.clock);
    if n.Some? {
      if a.pc.item.pos.Some? {
        assert EntryOk(a.s.bus, a.s.bus.stream[a.pc.item.pos.value]);
        DispatchAgrees(Started(a.s, k, n.value), a.pc, a.pc.item.payload, n.value);
      }
      DispatchFrame(Started(a.s, k, n.value), a.pc, a.pc.item.payload, n.value);
    }
  }

  lemma LookupQuiet(c: Config, a: Conf, o: Outcome, b: Conf)
    requires Inv(c, a) && a.pc.Working? && a.pc.phase.LookingUp?
    requires AfterLookup(a.s, a.pc, a.pc.phase.attempt, o) == (b.s, b.pc)
    ensures Quiet(a, b) && NoNewDone(a.s, b.s) && HandlerOk(b.s, b.pc) && HandlerKind(b.pc)
  {
    var k := a.pc.item.key;
    DispatchAgrees(a.s, a.pc, a.s.bus.outbox[k.id].payload, a.pc.phase.attempt);
    DispatchFrame(a.s, a.pc, a.s.bus.outbox[k.id].payload, a.pc.phase.attempt);
  }

  lemma MarkQuiet(c: Config, a: Conf, w: WorkerLabel, b: Conf)
    requires Step(c, a, W(w), b) && a.pc.Working? && !w.Stop?
    requires a.pc.phase.Returned? || a.pc.phase.Threw? || a.pc.phase.Acking?
    ensures Quiet(a, b) && HandlerOk(b.s, b.pc) && HandlerKind(b.pc)
    ensures forall k :: Done(b.s, k) ==> Done(a.s, k) || (k == a.pc.item.key && a.pc.phase.Returned?)
  {
    Taken(c, a, w, b);
    hide Step, BackoffMs;
    if a.pc.phase.Acking? {
      hide AfterSucceed, AfterFail;
    } else {
      MarkedQuiet(a.s, a.pc, a.pc.phase.attempt, w.o);
      hide AfterSucceed, AfterFail, AfterAck, HandlerOk, HandlerKind, Done;
    }
  }

  lemma MarkedQuiet(s: State, pc: Pc, n: int, o: Outcome)
    requires pc.Working? && (pc.phase.Returned? || pc.phase.Threw?)
    ensures var (s', pc') := AfterSucceed(s, pc, n, o);
            && Quiet(Conf(s, pc), Conf(s', pc')) && HandlerOk(s', pc') && HandlerKind(pc')
            && forall k :: Done(s', k) ==> Done(s, k) || k == pc.item.key
    ensures var (s', pc') := AfterFail(s, pc, n, o);
            && Quiet(Conf(s, pc), Conf(s', pc')) && HandlerOk(s', pc') && HandlerKind(pc')
            && forall k :: Done(s', k) ==> Done(s, k)
  {
    hide BackoffMs;
  }

  lemma MarkAgrees(c: Config, a: Conf, w: WorkerLabel, b: Conf)
    requires Inv(c, a) && Agreed(c, a) && Step(c, a, W(w), b) && a.pc.Working? && !w.Stop?
    requires a.pc.phase.Returned? || a.pc.phase.Threw? || a.pc.phase.Acking?
    ensures Agreed(c, b)
  {
    MarkQuiet(c, a, w, b);
    MarkTells(c, a, b);
    hide Inv, Step, Quiet, HandlerOk;
    QuietAgrees(c, a, b);
  }

  lemma MarkTells(c: Config, a: Conf, b: Conf)
    requires RowsOk(c, a.s) && RowsTell(a.s) && HandlerOk(a.s, a.pc) && Quiet(a, b) && a.pc.Working?
    requires a.pc.item.key.id in a.s.bus.outbox
    requires forall k :: Done(b.s, k) ==> Done(a.s, k) || (k == a.pc.item.key && a.pc.phase.Returned?)
    ensures RowsTell(b.s)
  {
    forall k | Done(b.s, k) && k.kind == CompletionRequested ensures Completed(b.s.market, TaskOf(b.s, k)) {
      if Done(a.s, k) { assert RowOk(c, a.s, k); }
    }
  }

  lemma StartAgrees(c: Config, a: Conf, w: WorkerLabel, b: Conf)
    requires Inv(c, a) && Agreed(c, a) && Step(c, a, W(w), b) && a.pc.Working? && !w.Stop?
    requires a.pc.phase.Fetched? || a.pc.phase.LookingUp?
    ensures Agreed(c, b)
  {
    if a.pc.phase.Fetched? { BeginQuiet(c, a, w.o, b); } else { LookupQuiet(c, a, w.o, b); }
    hide Step, Quiet, HandlerOk, RowsTell, NoNewDone;
    QuietShows(a, b);
    DoneTells(c, a.s, b.s);
    QuietAgrees(c, a, b);
  }

  lemma QuietShows(a: Conf, b: Conf)
    requires Quiet(a, b)
    ensures SameRows(a.s, b.s) && b.s.market == a.s.market
  {
  }

  lemma OffAgrees(c: Config, a: Conf, w: WorkerLabel, b: Conf)
    requires Inv(c, a) && Agreed(c, a) && Step(c, a, W(w), b) && !a.pc.Working?
    ensures Agreed(c, b)
  {
    OffItem(c, a, W(w), b);
    OffOutbox(c, a, w, b);
    DoneTells(c, a.s, b.s);
    hide Inv, Step;
    QuietAgrees(c, a, b);
  }

  lemma OffOutbox(c: Config, a: Conf, w: WorkerLabel, b: Conf)
    requires Step(c, a, W(w), b) && !a.pc.Working?
    ensures SameRows(a.s, b.s) && NoNewRequests(a.s, b.s)
  {
  }

  predicate Paying(h: Handler) { h.Release? || h.SaveTask? }

  /** Reading, posting, announcing: the handler's steps that neither pay nor save. */
  lemma ReadFrame(c: Config, a: Conf, w: WorkerLabel, b: Conf)
    requires a.pc.Working? && a.pc.phase.Running? && !Paying(a.pc.phase.handler)
    requires HandlerStep(c, a.s, a.pc, w) == Some((b.s, b.pc))
    ensures b.s.market == a.s.market && b.s.hist.cash == a.s.hist.cash && !Saving(b.pc)
  {
    match a.pc.phase.handler
    case ReadTask(_) =>
    case ReadBids(_, _) =>
    case EmitDone(_) =>
    case PostWebhook =>
  }

  lemma ReadHandlerOk(c: Config, a: Conf, w: WorkerLabel, b: Conf)
    requires HandlerOk(a.s, a.pc) && HandlerKind(a.pc) && a.pc.Working? && a.pc.phase.Running?
    requires !Paying(a.pc.phase.handler) && a.pc.item.key.id in a.s.bus.outbox
    requires HandlerStep(c, a.s, a.pc, w) == Some((b.s, b.pc))
    ensures HandlerOk(b.s, b.pc) && HandlerKind(b.pc)
  {
    ReadFrame(c, a, w, b);
    HandlerFrame(c, a.s, a.pc, w, b.s, b.pc);
    match a.pc.phase.handler
    case ReadTask(_) =>
    case ReadBids(t, _) =>
      if w.choice.Some? { assert Wins(a.s.market, t, w.choice.value, a.s.market.bids[w.choice.value].escrowId); }
    case EmitDone(_) =>
    case PostWebhook =>
  }

  lemma ReadQuiet(c: Config, a: Conf, w: WorkerLabel, b: Conf)
    requires a.pc.Working? && a.pc.phase.Running? && !Paying(a.pc.phase.handler)
    requires HandlerStep(c, a.s, a.pc, w) == Some((b.s, b.pc))
    ensures Quiet(a, b) && NoNewDone(a.s, b.s)
  {
    ReadFrame(c, a, w, b);
    HandlerFrame(c, a.s, a.pc, w, b.s, b.pc);
  }

  lemma ReadAgrees(c: Config, a: Conf, w: WorkerLabel, b: Conf)
    requires Inv(c, a) && Agreed(c, a) && a.pc.Working? && a.pc.phase.Running?
    requires HandlerStep(c, a.s, a.pc, w) == Some((b.s, b.pc))
    requires !Paying(a.pc.phase.handler)
    ensures Agreed(c, b)
  {
    ReadQuiet(c, a, w, b);
    ReadHandlerOk(c, a, w, b);
    hide HandlerStep, Quiet, HandlerOk, RowsTell, NoNewDone;
    QuietShows(a, b);
    DoneTells(c, a.s, b.s);
    QuietAgrees(c, a, b);
  }

  /** The bid whose escrow the handler is about to release, or has just released. */
  lemma PaidBid(c: Config, a: Conf) returns (b: BidId)
    requires Inv(c, a) && Agreed(c, a) && a.pc.Working? && a.pc.phase.Running?
    requires Paying(a.pc.phase.handler)
    ensures var h := a.pc.phase.handler;
            && a.pc.item.key.kind == CompletionRequested && h.t == TaskOf(a.s, a.pc.item.key)
            && Wins(a.s.market, h.t, b, h.escrow) && Snapshot(a.s.market, h.t, h.task)
            && b in a.s.market.bids && a.s.market.bids[b].taskId in a.s.market.tasks && Books(c, a.s, a.pc, b)
  {
    var h := a.pc.phase.handler;
    b :| Wins(a.s.market, h.t, b, h.escrow);
  }

  lemma ReleaseBooks(c: Config, a: Conf, o: Outcome, b: Conf, y: BidId)
    requires a.pc.Working? && a.pc.phase.Running? && a.pc.phase.handler.Release?
    requires Wins(a.s.market, a.pc.phase.handler.t, y, a.pc.phase.handler.escrow)
    requires Snapshot(a.s.market, a.pc.phase.handler.t, a.pc.phase.handler.task) && Books(c, a.s, a.pc, y)
    requires (b.s, b.pc) == (var h := a.pc.phase.handler; AfterRelease(a.s, a.pc, a.pc.phase.attempt, h.t, h.task, h.escrow, o))
    ensures Books(c, b.s, b.pc, y)
    ensures forall x :: x != a.pc.phase.handler.escrow ==>
              SameBooks(a.s.hist.cash, b.s.hist.cash, x) && PaidUnsaved(b.pc, x) == PaidUnsaved(a.pc, x)
    ensures b.s.hist.cash.unemitted == a.s.hist.cash.unemitted
  {
  }

  lemma ReleaseHandlerOk(a: Conf, o: Outcome, b: Conf)
    requires HandlerOk(a.s, a.pc) && HandlerKind(a.pc) && a.pc.Working? && a.pc.phase.Running? && a.pc.phase.handler.Release?
    requires (b.s, b.pc) == (var h := a.pc.phase.handler; AfterRelease(a.s, a.pc, a.pc.phase.attempt, h.t, h.task, h.escrow, o))
    ensures HandlerOk(b.s, b.pc) && HandlerKind(b.pc)
    ensures b.s.market == a.s.market && b.s.bus == a.s.bus && b.s.rows == a.s.rows
  {
  }

  lemma SameEvents(c: Config, s: State, s': State)
    requires EventsOk(c, s) && s'.market == s.market && s'.bus == s.bus && s'.hist.cash.unemitted == s.hist.cash.unemitted
    ensures EventsOk(c, s')
  {
    SelfForward(s.market);
    EventsKeep(c, s, s');
  }

  lemma ReleaseAgrees(c: Config, a: Conf, w: WorkerLabel, b: Conf)
    requires Inv(c, a) && Agreed(c, a) && a.pc.Working? && a.pc.phase.Running? && a.pc.phase.handler.Release?
    requires HandlerStep(c, a.s, a.pc, w) == Some((b.s, b.pc))
    ensures Agreed(c, b)
  {
    var h := a.pc.phase.handler;
    var y := PaidBid(c, a);
    ReleaseBooks(c, a, w.o, b, y);
    ReleaseHandlerOk(a, w.o, b);
    hide Inv, LifeOk, CashOk, EventsOk, RowsTell, HandlerOk, Books, AfterRelease;
    assert a.s.market.tasks[h.t := a.s.market.tasks[h.t]] == a.s.market.tasks;
    CashAt(c, a.s, a.pc, b.s, b.pc, h.t, y);
    SameEvents(c, a.s, b.s);
    RowsSame(a.s, b.s);
  }

  lemma RowsSame(s: State, s': State)
    requires RowsTell(s) && s'.rows == s.rows && s'.market == s.market && s'.bus == s.bus
    ensures RowsTell(s')
  {
    forall k | Done(s', k) && k.kind == CompletionRequested ensures Completed(s'.market, TaskOf(s', k)) {
      assert Done(s, k);
    }
  }

  lemma SaveBooks(c: Config, a: Conf, o: Outcome, b: Conf, y: BidId)
    requires a.pc.Working? && a.pc.phase.Running? && a.pc.phase.handler.SaveTask?
    requires Wins(a.s.market, a.pc.phase.handler.t, y, a.pc.phase.handler.escrow)
    requires Snapshot(a.s.market, a.pc.phase.handler.t, a.pc.phase.handler.task) && Books(c, a.s, a.pc, y)
    requires (b.s, b.pc) == (var h := a.pc.phase.handler; AfterSave(a.s, a.pc, a.pc.phase.attempt, h.t, h.task, h.escrow, o))
    ensures Books(c, b.s, b.pc, y)
    ensures forall x :: x != a.pc.phase.handler.escrow ==>
              SameBooks(a.s.hist.cash, b.s.hist.cash, x) && PaidUnsaved(b.pc, x) == PaidUnsaved(a.pc, x)
    ensures b.s.hist.cash.unemitted == a.s.hist.cash.unemitted
    ensures b.s.market == WithStatus(a.s.market, a.pc.phase.handler.t, a.s.market.tasks[a.pc.phase.handler.t],
                                     if o.Effect() then COMPLETED else COMPLETING)
    ensures b.s.bus == a.s.bus && b.s.rows == a.s.rows
  {
    var t := a.pc.phase.handler.t;
    assert a.s.market.tasks[t := a.s.market.tasks[t].(status := COMPLETING)] == a.s.market.tasks;
  }

  lemma CompletedStays(s: State, s': State)
    requires RowsTell(s) && s'.rows == s.rows && s'.bus == s.bus && Forward(s.market, s'.market)
    ensures RowsTell(s')
  {
    forall k | Done(s', k) && k.kind == CompletionRequested ensures Completed(s'.market, TaskOf(s', k)) {
      assert Done(s, k);
    }
  }

  lemma SaveHandlerOk(a: Conf, o: Outcome, b: Conf)
    requires HandlerOk(a.s, a.pc) && HandlerKind(a.pc) && a.pc.Working? && a.pc.phase.Running? && a.pc.phase.handler.SaveTask?
    requires a.pc.item.key.kind == CompletionRequested
    requires (b.s, b.pc) == (var h := a.pc.phase.handler; AfterSave(a.s, a.pc, a.pc.phase.attempt, h.t, h.task, h.escrow, o))
    ensures HandlerOk(b.s, b.pc) && HandlerKind(b.pc)
  {
  }

  lemma SavedEvents(c: Config, s: State, t: TaskId, status: TaskStatus, s': State)
    requires EventsOk(c, s) && t in s.market.tasks && Completing(s.market, t)
    requires status == COMPLETED || status == COMPLETING
    requires s'.market == WithStatus(s.market, t, s.market.tasks[t], status) && Forward(s.market, s'.market)
    requires s'.bus == s.bus && s'.hist.cash.unemitted == s.hist.cash.unemitted
    ensures EventsOk(c, s')
  {
    assert NoneStarts(s.market, s'.market);
    EventsKeep(c, s, s');
  }

  lemma SaveAgrees(c: Config, a: Conf, w: WorkerLabel, b: Conf)
    requires Inv(c, a) && Agreed(c, a) && a.pc.Working? && a.pc.phase.Running? && a.pc.phase.handler.SaveTask?
    requires HandlerStep(c, a.s, a.pc, w) == Some((b.s, b.pc))
    ensures Agreed(c, b)
  {
    var t := a.pc.phase.handler.t;
    var status := if w.o.Effect() then COMPLETED else COMPLETING;
    var y := PaidBid(c, a);
    SaveBooks(c, a, w.o, b, y);
    SaveHandlerOk(a, w.o, b);
    hide Inv, LifeOk, CashOk, EventsOk, RowsTell, HandlerOk, Books, AfterSave, Forward;
    CashAt(c, a.s, a.pc, b.s, b.pc, t, y);
    StatusKeeps(a.s.market, t, status);
    SavedEvents(c, a.s, t, status, b.s);
    CompletedStays(a.s, b.s);
  }

  /** Cut off between the release and the save: the books record it. */
  lemma CutAgrees(c: Config, a: Conf, b: Conf)
    requires Inv(c, a) && Agreed(c, a) && b.s == CutOff(a.s, a.pc) && b.pc == Idle && Saving(a.pc)
    ensures CashOk(c, b.s, b.pc) && b.s.market == a.s.market && b.s.bus == a.s.bus && b.s.rows == a.s.rows
    ensures b.s.hist.cash.unemitted == a.s.hist.cash.unemitted
  {
    var y := PaidBid(c, a);
    var h := a.pc.phase.handler;
    assert a.s.market.tasks[h.t := a.s.market.tasks[h.t]] == a.s.market.tasks;
    hide EventsOk, RowsTell, RowsOk, Covered, BusOk, HandlerOk;
    CashAt(c, a.s, a.pc, b.s, b.pc, h.t, y);
  }

  /** Stopping the process: a release not yet followed by the save becomes a cut one. */
  lemma StopAgrees(c: Config, a: Conf, b: Conf)
    requires Inv(c, a) && Agreed(c, a) && b.s == CutOff(a.s, a.pc) && b.pc == Idle
    ensures Agreed(c, b)
  {
    hide Inv, Agreed, CutOff;
    if Saving(a.pc) { StopSaving(c, a, b); } else { StopQuiet(c, a, b); }
  }

  lemma StopSaving(c: Config, a: Conf, b: Conf)
    requires Inv(c, a) && Agreed(c, a) && b.s == CutOff(a.s, a.pc) && b.pc == Idle && Saving(a.pc)
    ensures Agreed(c, b)
  {
    CutAgrees(c, a, b);
    hide Inv, LifeOk, CashOk, CutOff, Forward;
    SelfForward(a.s.market);
    EventsKeep(c, a.s, b.s);
    RowsSame(a.s, b.s);
    hide EventsOk, RowsTell;
  }

  lemma StopQuiet(c: Config, a: Conf, b: Conf)
    requires Inv(c, a) && Agreed(c, a) && b.s == CutOff(a.s, a.pc) && b.pc == Idle && !Saving(a.pc)
    ensures Agreed(c, b)
  {
    RowsSame(a.s, b.s);
    hide Inv, EventsOk, CashOk, LifeOk;
    QuietAgrees(c, a, b);
    hide RowsTell, CutOff;
  }

  lemma StepAgrees(c: Config, a: Conf, l: Label, b: Conf)
    requires Inv(c, a) && Agreed(c, a) && Step(c, a, l, b)
    ensures Agreed(c, b)
  {
    hide Inv, Agreed;
    match l
    case E(e) => EnvAgrees(c, a, e, b.s);
    case W(w) =>
      if w.Stop? { StopAgrees(c, a, b); }
      else if !a.pc.Working? { OffAgrees(c, a, w, b); }
      else {
        match a.pc.phase
        case Fetched => StartAgrees(c, a, w, b);
        case LookingUp(_) => StartAgrees(c, a, w, b);
        case Running(_, h) =>
          if h.Release? { ReleaseAgrees(c, a, w, b); }
          else if h.SaveTask? { SaveAgrees(c, a, w, b); }
          else { ReadAgrees(c, a, w, b); }
        case _ => MarkAgrees(c, a, w, b);
      }
  }
}
