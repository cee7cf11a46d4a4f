/** Settlement with any number of workers: two of them may handle one completion event at the same time. */
module FleetSettlement {
  import opened Types
  import opened Consumption
  import opened Market
  import opened Protocol
  import opened Delivery
  import opened NoLoss
  import opened Fleets
  import opened Success
  import opened Lifecycle
  import opened SettlementProofs
  import opened Guarantees

  // ---------- Invariant ----------

  /** The item of a worker belongs to an event, and an entry carries the event's payload. */
  predicate Genuine(s: State, x: Item) {
    && x.key.id in s.bus.outbox && s.bus.outbox[x.key.id].kind == x.key.kind
    && (x.pos.Some? ==> s.bus.outbox[x.key.id].payload == x.payload)
  }

  /** The task as it was read, or as another worker has saved it since. */
  predicate Seen(m: Market, t: TaskId, task: Task) {
    Completing(m, t) && task == m.tasks[t].(status := COMPLETING)
  }

  /** What a worker's handler knows, whatever the other workers do. */
  ghost predicate Knows(s: State, k: Key, phase: Phase) {
    if k.kind == CompletionRequested then
      match phase
      case Returned(_) => exists t :: Requests(s, k.id, t) && Completed(s.market, t)
      case Running(_, ReadTask(t)) => Requests(s, k.id, t)
      case Running(_, ReadBids(t, task)) => Requests(s, k.id, t) && Seen(s.market, t, task)
      case Running(_, Release(t, task, x)) =>
        Requests(s, k.id, t) && Seen(s.market, t, task) && WinningEscrow(s.market, t, x)
      case Running(_, SaveTask(t, task, x)) =>
        && Requests(s, k.id, t) && Seen(s.market, t, task) && WinningEscrow(s.market, t, x)
        && s.hist.cash.released[x] >= 1
      case Running(_, EmitDone(t)) => Requests(s, k.id, t) && Completed(s.market, t)
      case Running(_, PostWebhook) => false
      case _ => true
    else phase.Running? ==> phase.handler.PostWebhook?
  }

  ghost predicate WorkerOk(s: State, pc: Pc) {
    pc.Working? ==>
      && Genuine(s, pc.item) && (forall i :: 0 <= i < |pc.rest| ==> Genuine(s, pc.rest[i]))
      && Knows(s, pc.item.key, pc.phase)
  }

  /** A release was of a winning escrow and, with an outbox, was requested by an event. */
  ghost predicate ReleaseOk(c: Config, s: State, x: EscrowId) {
    s.hist.cash.released[x] > 0 ==>
      exists t :: WinningEscrow(s.market, t, x) && (c.outbox ==> exists e :: Requests(s, e, t))
  }

  /** Without a settlement that lost its task save: released escrows are of completing tasks, and confiscated ones, each
      once, of expired tasks. */
  ghost predicate SplitOk(s: State, x: EscrowId) {
    var h := s.hist.cash;
    h.leakedRelease[x] == 0 && h.leakedConfiscation[x] == 0 ==>
      && (h.released[x] > 0 ==> exists t :: WinningEscrow(s.market, t, x) && Completing(s.market, t))
      && (h.confiscated[x] > 0 ==> h.confiscated[x] == 1 && exists t :: WinningEscrow(s.market, t, x) && Expired(s.market, t))
  }

  predicate Expired(m: Market, t: TaskId) { t in m.tasks && m.tasks[t].status == EXPIRED }

  ghost predicate PaidOk(s: State, t: TaskId, x: EscrowId) {
    Completed(s.market, t) && WinningEscrow(s.market, t, x) ==> s.hist.cash.released[x] >= 1
  }

  ghost predicate RowOfDone(s: State, k: Key) {
    Done(s, k) && k.kind == CompletionRequested ==> exists t :: Requests(s, k.id, t) && Completed(s.market, t)
  }

  ghost predicate MoneyOk(c: Config, s: State) {
    && (forall x :: ReleaseOk(c, s, x) && SplitOk(s, x))
    && (forall t, x :: PaidOk(s, t, x))
  }

  /** Entries are copies of outbox rows, and consumption rows belong to events. */
  ghost predicate RefsOk(s: State) {
    && (forall i :: 0 <= i < |s.bus.stream| ==> EntryOk(s.bus, s.bus.stream[i]))
    && (forall k :: k in s.rows ==> k.id in s.bus.outbox && s.bus.outbox[k.id].kind == k.kind)
  }

  ghost predicate StateOk(c: Config, s: State) {
    LifeOk(s.market) && EventsOk(c, s) && RefsOk(s) && MoneyOk(c, s) && forall k :: RowOfDone(s, k)
  }

  ghost predicate FleetOk(c: Config, f: Fleet) {
    StateOk(c, f.s) && forall w :: w in f.pcs ==> WorkerOk(f.s, f.pcs[w])
  }

  // ---------- What lasts ----------

  /** What every step does to the stores, as far as other workers care. */
  ghost predicate Onward(s: State, s': State) {
    && Forward(s.market, s'.market) && SameRows(s, s')
    && forall x :: s'.hist.cash.released[x] >= s.hist.cash.released[x]
  }

  lemma RequestsLast(s: State, s': State, e: EventId, t: TaskId)
    requires SameRows(s, s') && Requests(s, e, t)
    ensures Requests(s', e, t)
  {
  }

  lemma KnowsLasts(s: State, s': State, k: Key, phase: Phase)
    requires Onward(s, s') && Knows(s, k, phase)
    ensures Knows(s', k, phase)
  {
    if k.kind == CompletionRequested {
      if phase.Returned? {
        var t :| Requests(s, k.id, t) && Completed(s.market, t);
        assert Requests(s', k.id, t) && Completed(s'.market, t);
      } else if phase.Running? && Paying(phase.handler) {
        WinsStays(s.market, s'.market, phase.handler.t, phase.handler.escrow);
      }
    }
  }

  lemma WorkerLasts(s: State, s': State, pc: Pc)
    requires Onward(s, s') && WorkerOk(s, pc)
    ensures WorkerOk(s', pc)
  {
    if pc.Working? { KnowsLasts(s, s', pc.item.key, pc.phase); }
    hide Knows, Forward;
  }

  lemma DoneLasts(s: State, s': State, k: Key)
    requires Onward(s, s') && RowOfDone(s, k) && (Done(s', k) ==> Done(s, k))
    ensures RowOfDone(s', k)
  {
    if Done(s', k) && k.kind == CompletionRequested {
      var t :| Requests(s, k.id, t) && Completed(s.market, t);
      assert Requests(s', k.id, t) && Completed(s'.market, t);
    }
  }

  lemma ReleaseLasts(c: Config, s: State, s': State, x: EscrowId)
    requires Onward(s, s') && ReleaseOk(c, s, x) && s'.hist.cash.released[x] == s.hist.cash.released[x]
    ensures ReleaseOk(c, s', x)
  {
    if s'.hist.cash.released[x] > 0 {
      var t :| WinningEscrow(s.market, t, x) && (c.outbox ==> exists e :: Requests(s, e, t));
      WinsStays(s.market, s'.market, t, x);
      if c.outbox {
        var e :| Requests(s, e, t);
        RequestsLast(s, s', e, t);
      }
    }
  }

  /** The worker's own cuts do not count here. */
  lemma SplitLasts(s: State, s': State, x: EscrowId)
    requires Onward(s, s') && SplitOk(s, x)
    requires var h, h' := s.hist.cash, s'.hist.cash;
             && h'.released[x] == h.released[x] && h'.confiscated[x] == h.confiscated[x]
             && h'.leakedRelease[x] == h.leakedRelease[x] && h'.leakedConfiscation[x] == h.leakedConfiscation[x]
    ensures SplitOk(s', x)
  {
    var h := s.hist.cash;
    if h.leakedRelease[x] == 0 && h.leakedConfiscation[x] == 0 {
      if h.released[x] > 0 {
        var t :| WinningEscrow(s.market, t, x) && Completing(s.market, t);
        WinsStays(s.market, s'.market, t, x);
        assert Completing(s'.market, t);
      }
      if h.confiscated[x] > 0 {
        var t :| WinningEscrow(s.market, t, x) && Expired(s.market, t);
        WinsStays(s.market, s'.market, t, x);
        assert Expired(s'.market, t);
      }
    }
  }

  /** Money already paid stays paid; only a task that becomes COMPLETED needs a look. */
  lemma PaidLasts(s: State, s': State, t: TaskId, x: EscrowId)
    requires LifeOk(s.market) && LifeOk(s'.market) && Onward(s, s') && PaidOk(s, t, x)
    requires Completed(s'.market, t) ==> Completed(s.market, t)
    ensures PaidOk(s', t, x)
  {
    hide Forward, LifeOk, WinningEscrow;
    if Completed(s'.market, t) && WinningEscrow(s'.market, t, x) { WinsBack(s.market, s'.market, t, x); }
  }

  /** A task has one winner, and an escrow one task. */
  lemma OneWinner(m: Market, t: TaskId, x: EscrowId, u: TaskId, y: EscrowId)
    requires LifeOk(m) && WinningEscrow(m, t, x) && WinningEscrow(m, u, y)
    ensures t == u <==> x == y
  {
    var b, d :| Wins(m, t, b, x) && Wins(m, u, d, y);
    if t == u { assert TaskOk(m, t) && b == d; }
    if x == y { assert b == d; }
  }

  // ---------- Steps that move no money ----------

  /** No task becomes COMPLETED and no account of an escrow changes, except for the worker's cuts. */
  ghost predicate NoPay(s: State, s': State) {
    && (forall t :: Completed(s'.market, t) ==> Completed(s.market, t))
    && s'.hist.cash.released == s.hist.cash.released && s'.hist.cash.confiscated == s.hist.cash.confiscated
    && s'.hist.cash.leakedRelease == s.hist.cash.leakedRelease
    && s'.hist.cash.leakedConfiscation == s.hist.cash.leakedConfiscation
  }

  lemma StillMoney(c: Config, s: State, s': State)
    requires StateOk(c, s) && LifeOk(s'.market) && Forward(s.market, s'.market) && SameRows(s, s') && NoPay(s, s')
    ensures Onward(s, s') && MoneyOk(c, s')
  {
    assert Onward(s, s');
    hide Forward, SameRows, LifeOk, EventsOk, WinningEscrow, ReleaseOk, SplitOk, PaidOk, RowOfDone;
    forall x ensures ReleaseOk(c, s', x) && SplitOk(s', x) {
      assert ReleaseOk(c, s, x) && SplitOk(s, x);
      ReleaseLasts(c, s, s', x);
      SplitLasts(s, s', x);
    }
    forall t, x ensures PaidOk(s', t, x) {
      assert PaidOk(s, t, x);
      PaidLasts(s, s', t, x);
    }
  }

  /** The whole state: no event is a new request, and no row is newly SUCCEEDED without its task. */
  lemma StillState(c: Config, s: State, s': State)
    requires StateOk(c, s) && LifeOk(s'.market) && Forward(s.market, s'.market) && SameRows(s, s') && NoPay(s, s')
    requires EventsOk(c, s') && RefsOk(s') && forall k :: Done(s', k) ==> Done(s, k) || RowOfDone(s', k)
    ensures StateOk(c, s') && Onward(s, s')
  {
    StillMoney(c, s, s');
    hide Forward, SameRows, LifeOk, EventsOk, MoneyOk, NoPay, RowOfDone, Onward;
    forall k ensures RowOfDone(s', k) {
      assert RowOfDone(s, k);
      if Done(s', k) ==> Done(s, k) { DoneLasts(s, s', k); }
    }
  }

  // ---------- Steps that settle one escrow ----------

  predicate SameAccounts(h: Cash, h': Cash, x: EscrowId) {
    && h'.released[x] == h.released[x] && h'.confiscated[x] == h.confiscated[x]
    && h'.leakedRelease[x] == h.leakedRelease[x] && h'.leakedConfiscation[x] == h.leakedConfiscation[x]
  }

  lemma MoneyAt(c: Config, s: State, s': State, t: TaskId, x: EscrowId)
    requires StateOk(c, s) && LifeOk(s'.market) && Onward(s, s') && WinningEscrow(s.market, t, x)
    requires forall y :: y != x ==> SameAccounts(s.hist.cash, s'.hist.cash, y)
    requires forall u :: u != t && Completed(s'.market, u) ==> Completed(s.market, u)
    requires ReleaseOk(c, s', x) && SplitOk(s', x) && PaidOk(s', t, x)
    ensures MoneyOk(c, s')
  {
    WinsStays(s.market, s'.market, t, x);
    hide Forward, SameRows, LifeOk, EventsOk, WinningEscrow, ReleaseOk, SplitOk, RowOfDone, Completed;
    forall y ensures ReleaseOk(c, s', y) && SplitOk(s', y) {
      assert ReleaseOk(c, s, y) && SplitOk(s, y);
      if y != x {
        assert SameAccounts(s.hist.cash, s'.hist.cash, y);
        ReleaseLasts(c, s, s', y);
        SplitLasts(s, s', y);
      }
    }
    forall u, y ensures PaidOk(s', u, y) {
      assert PaidOk(s, u, y);
      if WinningEscrow(s'.market, u, y) { OneWinner(s'.market, t, x, u, y); }
      if u != t { PaidLasts(s, s', u, y); }
    }
  }

  lemma SettledState(c: Config, s: State, s': State, t: TaskId, x: EscrowId)
    requires StateOk(c, s) && LifeOk(s'.market) && Onward(s, s') && WinningEscrow(s.market, t, x)
    requires forall y :: y != x ==> SameAccounts(s.hist.cash, s'.hist.cash, y)
    requires forall u :: u != t && Completed(s'.market, u) ==> Completed(s.market, u)
    requires ReleaseOk(c, s', x) && SplitOk(s', x) && PaidOk(s', t, x)
    requires EventsOk(c, s') && s'.bus == s.bus && s'.rows == s.rows
    ensures StateOk(c, s')
  {
    MoneyAt(c, s, s', t, x);
    hide Forward, SameRows, LifeOk, EventsOk, MoneyOk, RowOfDone, Onward, WinningEscrow;
    forall k ensures RowOfDone(s', k) {
      assert RowOfDone(s, k) && (Done(s', k) ==> Done(s, k));
      DoneLasts(s, s', k);
    }
  }

  // ---------- API requests ----------

  lemma OpeningState(c: Config, s: State, l: EnvLabel, s': State)
    requires StateOk(c, s) && EnvStep(c, s, l) == Some(s') && (l.NewTask? || l.Select? || l.NewBid? || l.Elapse? || l.Emit?)
    ensures StateOk(c, s') && Onward(s, s')
  {
    hide LifeOk, EventsOk, Forward, SelectWinner, PlaceBid, MoneyOk, RowOfDone, Opening;
    RequestKeeps(c, s, l, s');
    if l.NewTask? || l.Select? || l.NewBid? {
      RequestOpens(c, s, l, s');
      Opens(s.market, s'.market);
    }
    hide Completing, Completed, IsSelected;
    assert SameRows(s, s');
    EventsKeep(c, s, s');
    StillState(c, s, s');
  }

  lemma Opens(m: Market, n: Market)
    requires Opening(m, n)
    ensures NoneStarts(m, n) && forall t :: Completed(n, t) ==> Completed(m, t)
  {
  }

  lemma CompleteState(c: Config, s: State, t: TaskId, who: Account, b: BidId, event: Option<EventId>, s': State)
    requires StateOk(c, s) && EnvStep(c, s, Complete(t, who, Some(b), event)) == Some(s')
    requires CompleteRefusal(s.market, t, who, Some(b)).None?
    ensures StateOk(c, s') && Onward(s, s')
  {
    hide EventsOk, MoneyOk, LifeOk, Forward, RowOfDone;
    StatusKeeps(s.market, t, COMPLETING);
    assert s.hist.cash.unemitted + {} == s.hist.cash.unemitted;
    assert Requested(s, t, b, event, s');
    CompleteEvents(c, s, t, b, event, s');
    assert SameRows(s, s');
    StillState(c, s, s');
  }

  /** An assigned task's escrow: no release with its save and no confiscation with its save so far. */
  lemma NotYetSettled(s: State, t: TaskId, x: EscrowId)
    requires LifeOk(s.market) && SplitOk(s, x) && WinningEscrow(s.market, t, x)
    requires t in s.market.tasks && s.market.tasks[t].status == ASSIGNED
    ensures s.hist.cash.leakedRelease[x] == 0 && s.hist.cash.leakedConfiscation[x] == 0 ==>
              s.hist.cash.released[x] == 0 && s.hist.cash.confiscated[x] == 0
  {
    forall u | WinningEscrow(s.market, u, x) ensures u == t { OneWinner(s.market, t, x, u, x); }
  }

  /** Settling through the provider: the synchronous release and the timeout confiscation. */
  lemma SettleState(c: Config, s: State, t: TaskId, b: BidId, status: TaskStatus, s': State)
    requires StateOk(c, s) && t in s.market.tasks && s.market.tasks[t].status == ASSIGNED && IsSelected(s.market, t, b)
    requires status == ASSIGNED || status == EXPIRED || (status == COMPLETED && !c.outbox)
    requires s'.market == WithStatus(s.market, t, s.market.tasks[t], status) && s'.bus == s.bus && s'.rows == s.rows
    requires s'.hist.cash.unemitted == s.hist.cash.unemitted
    requires Accounted(c, s.hist.cash, s'.hist.cash, s.market.bids[b].escrowId, status)
    ensures StateOk(c, s') && Onward(s, s')
  {
    var x := s.market.bids[b].escrowId;
    StatusKeeps(s.market, t, status);
    assert Wins(s.market, t, b, x) && Wins(s'.market, t, b, x);
    assert WinningEscrow(s.market, t, x) && WinningEscrow(s'.market, t, x);
    hide StateOk, LifeOk, Forward, IsSelected, WinningEscrow, EventsOk, ReleaseOk, Onward, SplitOk, RefsOk, SameAccounts;
    SettleOnward(c, s, s', x, status);
    SettleEvents(c, s, t, status, s');
    SettleMoney(c, s, s', t, x, status);
    SettledState(c, s, s', t, x);
  }

  lemma SettleOnward(c: Config, s: State, s': State, x: EscrowId, status: TaskStatus)
    requires Accounted(c, s.hist.cash, s'.hist.cash, x, status) && s'.bus == s.bus && Forward(s.market, s'.market)
    ensures Onward(s, s')
  {
    hide Forward;
    forall y ensures s'.hist.cash.released[y] >= s.hist.cash.released[y] {
      if y != x { assert SameAccounts(s.hist.cash, s'.hist.cash, y); }
    }
  }

  lemma SettleEvents(c: Config, s: State, t: TaskId, status: TaskStatus, s': State)
    requires StateOk(c, s) && t in s.market.tasks && s.market.tasks[t].status == ASSIGNED && Forward(s.market, s'.market)
    requires status == ASSIGNED || status == EXPIRED || (status == COMPLETED && !c.outbox)
    requires s'.market == WithStatus(s.market, t, s.market.tasks[t], status) && s'.bus == s.bus
    requires s'.hist.cash.unemitted == s.hist.cash.unemitted
    ensures EventsOk(c, s')
  {
    assert c.outbox ==> NoneStarts(s.market, s'.market);
    hide LifeOk, Forward, MoneyOk, RowOfDone, EventsOk;
    EventsKeep(c, s, s');
  }

  lemma SettleMoney(c: Config, s: State, s': State, t: TaskId, x: EscrowId, status: TaskStatus)
    requires StateOk(c, s) && Onward(s, s') && WinningEscrow(s.market, t, x) && WinningEscrow(s'.market, t, x)
    requires t in s.market.tasks && s.market.tasks[t].status == ASSIGNED
    requires t in s'.market.tasks && s'.market.tasks[t].status == status
    requires status == ASSIGNED || status == EXPIRED || status == COMPLETED
    requires Accounted(c, s.hist.cash, s'.hist.cash, x, status)
    ensures ReleaseOk(c, s', x) && SplitOk(s', x) && PaidOk(s', t, x)
  {
    assert SplitOk(s, x) && ReleaseOk(c, s, x);
    NotYetSettled(s, t, x);
    hide StateOk, SplitOk, ReleaseOk, WinningEscrow, Onward, SameAccounts;
    SettledSplit(c, s, s', t, x, status);
    SettledRelease(c, s, s', t, x);
  }

  /** What a settlement that ends with this status does to the accounts: one release or one confiscation of `x`, and if
      the task save is missing it is leaked. */
  ghost predicate Accounted(c: Config, h: Cash, h': Cash, x: EscrowId, status: TaskStatus) {
    && (forall y :: y != x ==> SameAccounts(h, h', y))
    && h'.leakedRelease[x] >= h.leakedRelease[x] && h'.leakedConfiscation[x] >= h.leakedConfiscation[x]
    && h'.released[x] >= h.released[x] && (h'.released[x] > h.released[x] ==> !c.outbox)
    && match status
       case COMPLETED => h'.released[x] == h.released[x] + 1 && h'.confiscated[x] == h.confiscated[x]
       case EXPIRED => h'.released[x] == h.released[x] && h'.confiscated[x] == h.confiscated[x] + 1
       case _ => h'.leakedRelease[x] + h'.leakedConfiscation[x] > 0
  }

  lemma SettledSplit(c: Config, s: State, s': State, t: TaskId, x: EscrowId, status: TaskStatus)
    requires Accounted(c, s.hist.cash, s'.hist.cash, x, status) && WinningEscrow(s'.market, t, x)
    requires t in s'.market.tasks && s'.market.tasks[t].status == status
    requires status == ASSIGNED || status == EXPIRED || status == COMPLETED
    requires s.hist.cash.leakedRelease[x] == 0 && s.hist.cash.leakedConfiscation[x] == 0 ==>
               s.hist.cash.released[x] == 0 && s.hist.cash.confiscated[x] == 0
    ensures SplitOk(s', x)
  {
    hide WinningEscrow;
    assert status == COMPLETED ==> Completing(s'.market, t);
    assert status == EXPIRED ==> Expired(s'.market, t);
  }

  lemma SettledRelease(c: Config, s: State, s': State, t: TaskId, x: EscrowId)
    requires ReleaseOk(c, s, x) && Onward(s, s') && WinningEscrow(s'.market, t, x)
    requires s'.hist.cash.released[x] > s.hist.cash.released[x] ==> !c.outbox
    ensures ReleaseOk(c, s', x)
  {
    if s'.hist.cash.released[x] == s.hist.cash.released[x] { ReleaseLasts(c, s, s', x); }
  }

  lemma EnvState(c: Config, s: State, l: EnvLabel, s': State)
    requires StateOk(c, s) && EnvStep(c, s, l) == Some(s')
    ensures StateOk(c, s') && Onward(s, s')
  {
    hide StateOk, Forward, SelectWinner, PlaceBid, WinningEscrow;
    SelfForward(s.market);
    var m := s.market;
    match l
    case Complete(t, who, choice, event) =>
      if CompleteRefusal(m, t, who, choice).None? { CompleteState(c, s, t, who, choice.value, event, s'); }
    case CompleteSync(t, who, choice, out) =>
      if CompleteRefusal(m, t, who, choice).None? && out != Refused {
        SyncState(c, s, t, who, choice.value, out, s');
      }
    case Expire(t, choice, out) =>
      if choice.Some? && out != Refused { ExpireState(c, s, t, choice.value, out, s'); }
    case _ => OpeningState(c, s, l, s');
  }

  lemma SyncState(c: Config, s: State, t: TaskId, who: Account, b: BidId, out: Settlement, s': State)
    requires StateOk(c, s) && EnvStep(c, s, CompleteSync(t, who, Some(b), out)) == Some(s')
    requires CompleteRefusal(s.market, t, who, Some(b)).None? && out != Refused
    ensures StateOk(c, s') && Onward(s, s')
  {
    hide StateOk, Onward;
    var m := s.market;
    assert m.tasks[t := m.tasks[t].(status := ASSIGNED)] == m.tasks;
    SettleState(c, s, t, b, if out == Saved then COMPLETED else ASSIGNED, s');
  }

  lemma ExpireState(c: Config, s: State, t: TaskId, b: BidId, out: Settlement, s': State)
    requires StateOk(c, s) && EnvStep(c, s, Expire(t, Some(b), out)) == Some(s') && out != Refused
    ensures StateOk(c, s') && Onward(s, s')
  {
    hide StateOk, Onward;
    var m := s.market;
    assert m.tasks[t := m.tasks[t].(status := ASSIGNED)] == m.tasks;
    SettleState(c, s, t, b, if out == Saved then EXPIRED else ASSIGNED, s');
  }

  // ---------- Worker steps ----------

  /** A worker step that pays nothing, saves no task and requests no completion. */
  ghost predicate Calm(s: State, s': State) {
    && s'.market == s.market && SameRows(s, s') && NoNewRequests(s, s') && RefsOk(s')
    && s'.hist.cash == s.hist.cash.(cut := s'.hist.cash.cut)
    && forall k :: Done(s', k) ==> Done(s, k) || RowOfDone(s', k)
  }

  lemma CalmState(c: Config, s: State, s': State)
    requires StateOk(c, s) && Calm(s, s')
    ensures StateOk(c, s') && Onward(s, s')
  {
    SelfForward(s.market);
    hide LifeOk, Forward, RefsOk, MoneyOk, EventsOk, RowOfDone;
    EventsKeep(c, s, s');
    StillState(c, s, s');
  }

  lemma NextOk(s: State, pc: Pc)
    requires WorkerOk(s, pc) && pc.Working?
    ensures WorkerOk(s, NextItem(pc.src, pc.rest))
  {
  }

  lemma OffCalm(c: Config, s: State, pc: Pc, w: WorkerLabel, s': State, pc': Pc)
    requires RefsOk(s) && !pc.Working? && WorkerStep(c, s, pc, w) == Some((s', pc'))
    ensures Calm(s, s') && (pc'.Working? ==> pc'.phase.Fetched?)
  {
    OffItem(c, Conf(s, pc), W(w), Conf(s', pc'));
    OffOutbox(c, Conf(s, pc), w, Conf(s', pc'));
    OffRefs(c, s, pc, w, s', pc');
    hide WorkerStep, RefsOk;
  }

  lemma OffRefs(c: Config, s: State, pc: Pc, w: WorkerLabel, s': State, pc': Pc)
    requires RefsOk(s) && !pc.Working? && WorkerStep(c, s, pc, w) == Some((s', pc'))
    ensures RefsOk(s')
  {
    hide StreamItems, RowItems, Delivered, IsDueList;
  }

  lemma OffGenuine(c: Config, s: State, pc: Pc, w: WorkerLabel, s': State, pc': Pc)
    requires RefsOk(s) && !pc.Working? && WorkerStep(c, s, pc, w) == Some((s', pc')) && pc'.Working?
    ensures Genuine(s', pc'.item) && forall i :: 0 <= i < |pc'.rest| ==> Genuine(s', pc'.rest[i])
  {
    hide Delivered, CutOff;
    match pc
    case Claiming => EntriesGenuine(s, Claimed, w.positions);
    case Polling => EntriesGenuine(s, Polled, Range(s.bus.delivered, w.count));
    case Scanning(kind) => RowsGenuine(s, kind, w.ids);
  }

  lemma EntriesGenuine(s: State, src: Source, positions: seq<nat>)
    requires RefsOk(s) && forall i :: 0 <= i < |positions| ==> positions[i] < |s.bus.stream|
    ensures forall x :: x in StreamItems(s.bus, positions) ==> Genuine(s, x)
  {
    forall x | x in StreamItems(s.bus, positions) ensures Genuine(s, x) {
      var i :| 0 <= i < |positions| && x == StreamItem(s.bus, positions[i]);
      assert EntryOk(s.bus, s.bus.stream[positions[i]]);
    }
  }

  lemma RowsGenuine(s: State, kind: Kind, ids: seq<EventId>)
    requires RefsOk(s) && DueBatch(s, kind, ids)
    ensures forall x :: x in RowItems(kind, ids) ==> Genuine(s, x)
  {
    forall x | x in RowItems(kind, ids) ensures Genuine(s, x) {
      var i :| 0 <= i < |ids| && x == Item(Key(kind, ids[i]), Opaque, None);
      assert DueRetry(s.rows, Key(kind, ids[i]), s.clock);
    }
  }

  lemma CutCalm(s: State, pc: Pc)
    requires RefsOk(s)
    ensures Calm(s, CutOff(s, pc))
  {
  }

  lemma DispatchKnows(s: State, pc: Pc, payload: Payload, n: int)
    requires pc.Working? && Genuine(s, pc.item) && s.bus.outbox[pc.item.key.id].payload == payload
    ensures var (s', pc') := Dispatched(s, pc, payload, n); pc'.Working? && Knows(s', pc.item.key, pc'.phase)
  {
  }

  lemma BeginCalm(c: Config, s: State, pc: Pc, o: Outcome)
    requires pc.Working? && RefsOk(s) && Genuine(s, pc.item)
    ensures Calm(s, AfterBegin(c, s, pc, o).0)
  {
    var k := pc.item.key;
    var n := StartAttempt(s.rows, k, c.maxAttempts, s.clock);
    if n.Some? {
      DispatchFrame(Started(s, k, n.value), pc, pc.item.payload, n.value);
      hide Dispatched;
    }
  }

  lemma BeginKnows(c: Config, s: State, pc: Pc, o: Outcome)
    requires WorkerOk(s, pc) && pc.Working? && pc.phase.Fetched?
    ensures var (s', pc') := AfterBegin(c, s, pc, o); WorkerOk(s', pc')
  {
    NextOk(s, pc);
    var k := pc.item.key;
    var n := StartAttempt(s.rows, k, c.maxAttempts, s.clock);
    if n.Some? {
      var t := Started(s, k, n.value);
      if pc.item.pos.Some? { DispatchKnows(t, pc, pc.item.payload, n.value); }
      DispatchFrame(t, pc, pc.item.payload, n.value);
    }
    hide Dispatched, NextItem;
  }

  lemma LookupCalm(c: Config, s: State, pc: Pc, n: int, o: Outcome)
    requires WorkerOk(s, pc) && pc.Working? && pc.phase == LookingUp(n) && RefsOk(s)
    ensures var (s', pc') := AfterLookup(s, pc, n, o); Calm(s, s') && WorkerOk(s', pc')
  {
    var payload := s.bus.outbox[pc.item.key.id].payload;
    CutCalm(s, pc);
    DispatchFrame(s, pc, payload, n);
    DispatchKnows(s, pc, payload, n);
    hide Dispatched, CutOff;
  }

  lemma SucceedCalm(s: State, pc: Pc, n: int, o: Outcome)
    requires WorkerOk(s, pc) && pc.Working? && pc.phase == Returned(n) && RefsOk(s)
    ensures var (s', pc') := AfterSucceed(s, pc, n, o); Calm(s, s') && WorkerOk(s', pc')
  {
    NextOk(s, pc);
    hide NextItem;
    var (s', pc') := AfterSucceed(s, pc, n, o);
    forall k | Done(s', k) && !Done(s, k) ensures RowOfDone(s', k) {
      if k.kind == CompletionRequested {
        var t :| Requests(s, k.id, t) && Completed(s.market, t);
        assert Requests(s', k.id, t) && Completed(s'.market, t);
      }
    }
  }

  lemma FailCalm(s: State, pc: Pc, n: int, o: Outcome)
    requires WorkerOk(s, pc) && pc.Working? && pc.phase == Threw(n) && RefsOk(s)
    ensures var (s', pc') := AfterFail(s, pc, n, o); Calm(s, s') && WorkerOk(s', pc')
  {
    NextOk(s, pc);
    hide NextItem, BackoffMs;
  }

  lemma AckCalm(s: State, pc: Pc, abort: bool, p: nat, o: Outcome)
    requires WorkerOk(s, pc) && pc.Working? && pc.phase == Acking(abort) && RefsOk(s)
    ensures var (s', pc') := AfterAck(s, pc, abort, p, o); Calm(s, s') && WorkerOk(s', pc')
  {
    NextOk(s, pc);
    hide NextItem;
  }

  // ---------- The handler ----------

  lemma ReadCalm(c: Config, s: State, pc: Pc, w: WorkerLabel, s': State, pc': Pc)
    requires pc.Working? && pc.phase.Running? && !Paying(pc.phase.handler) && RefsOk(s)
    requires HandlerStep(c, s, pc, w) == Some((s', pc'))
    ensures Calm(s, s') && pc'.Working? && pc' == pc.(phase := pc'.phase)
  {
    ReadFrame(c, Conf(s, pc), w, Conf(s', pc'));
    HandlerFrame(c, s, pc, w, s', pc');
    hide HandlerStep;
  }

  lemma ReadKnows(c: Config, s: State, pc: Pc, w: WorkerLabel, s': State, pc': Pc)
    requires pc.Working? && pc.phase.Running? && !Paying(pc.phase.handler) && Knows(s, pc.item.key, pc.phase)
    requires HandlerStep(c, s, pc, w) == Some((s', pc'))
    ensures pc'.Working? && Knows(s', pc.item.key, pc'.phase)
  {
    ReadFrame(c, Conf(s, pc), w, Conf(s', pc'));
    HandlerFrame(c, s, pc, w, s', pc');
    match pc.phase.handler
    case ReadTask(t) =>
      if pc'.phase.Returned? { assert Requests(s', pc.item.key.id, t) && Completed(s'.market, t); }
    case ReadBids(t, _) =>
      if w.choice.Some? { assert Wins(s.market, t, w.choice.value, s.market.bids[w.choice.value].escrowId); }
    case EmitDone(t) => assert Requests(s', pc.item.key.id, t) && Completed(s'.market, t);
    case PostWebhook =>
  }

  /** A completing task was not expired, so its escrow was not confiscated with a save. */
  lemma ReleaseSplit(s: State, s': State, t: TaskId, x: EscrowId)
    requires LifeOk(s.market) && SplitOk(s, x) && WinningEscrow(s.market, t, x) && Completing(s.market, t)
    requires s'.market == s.market && s'.hist.cash.confiscated == s.hist.cash.confiscated
    requires s'.hist.cash.leakedRelease == s.hist.cash.leakedRelease
    requires s'.hist.cash.leakedConfiscation == s.hist.cash.leakedConfiscation
    ensures SplitOk(s', x)
  {
    forall u | WinningEscrow(s.market, u, x) ensures u == t { OneWinner(s.market, t, x, u, x); }
    hide WinningEscrow, LifeOk;
  }

  lemma ReleaseState(c: Config, s: State, pc: Pc, o: Outcome)
    requires StateOk(c, s) && pc.Working? && pc.phase.Running? && pc.phase.handler.Release?
    requires Knows(s, pc.item.key, pc.phase)
    ensures var h := pc.phase.handler;
            var (s', pc') := AfterRelease(s, pc, pc.phase.attempt, h.t, h.task, h.escrow, o);
            && StateOk(c, s') && Onward(s, s') && pc'.Working? && pc' == pc.(phase := pc'.phase)
            && Knows(s', pc.item.key, pc'.phase)
  {
    var h := pc.phase.handler;
    var (t, x) := (h.t, h.escrow);
    var s' := AfterRelease(s, pc, pc.phase.attempt, t, h.task, x, o).0;
    hide StateOk;
    ReleaseKnows(s, pc, o);
    ReleaseMoney(c, s, s', pc.item.key.id, t, x);
    hide AfterRelease, WinningEscrow, ReleaseOk, SplitOk, Knows;
    ReleaseSettles(c, s, s', t, x);
  }

  lemma ReleaseKnows(s: State, pc: Pc, o: Outcome)
    requires pc.Working? && pc.phase.Running? && pc.phase.handler.Release? && Knows(s, pc.item.key, pc.phase)
    ensures var h := pc.phase.handler;
            var (s', pc') := AfterRelease(s, pc, pc.phase.attempt, h.t, h.task, h.escrow, o);
            pc'.Working? && pc' == pc.(phase := pc'.phase) && Knows(s', pc.item.key, pc'.phase)
  {
  }

  /** The stores are as before, but for a release of `x`. */
  predicate Released(s: State, s': State, x: EscrowId) {
    && s'.market == s.market && s'.bus == s.bus && s'.rows == s.rows
    && s'.hist.cash.unemitted == s.hist.cash.unemitted && s'.hist.cash.confiscated == s.hist.cash.confiscated
    && s'.hist.cash.leakedRelease == s.hist.cash.leakedRelease
    && s'.hist.cash.leakedConfiscation == s.hist.cash.leakedConfiscation
    && (s'.hist.cash.released == s.hist.cash.released || s'.hist.cash.released == s.hist.cash.released + multiset{x})
  }

  lemma ReleaseMoney(c: Config, s: State, s': State, e: EventId, t: TaskId, x: EscrowId)
    requires StateOk(c, s) && Requests(s, e, t) && WinningEscrow(s.market, t, x) && Completing(s.market, t)
    requires Released(s, s', x)
    ensures Onward(s, s') && ReleaseOk(c, s', x) && SplitOk(s', x) && PaidOk(s', t, x)
  {
    SelfForward(s.market);
    assert SplitOk(s, x) && ReleaseOk(c, s, x) && PaidOk(s, t, x);
    ReleaseSplit(s, s', t, x);
    assert Requests(s', e, t);
    hide LifeOk, Forward, MoneyOk, EventsOk, RowOfDone, SplitOk, WinningEscrow;
  }

  lemma ReleaseSettles(c: Config, s: State, s': State, t: TaskId, x: EscrowId)
    requires StateOk(c, s) && Released(s, s', x) && WinningEscrow(s.market, t, x) && Onward(s, s')
    requires ReleaseOk(c, s', x) && SplitOk(s', x) && PaidOk(s', t, x)
    ensures StateOk(c, s')
  {
    hide LifeOk, Forward, MoneyOk, EventsOk, RowOfDone, SplitOk, ReleaseOk, WinningEscrow, Onward, PaidOk;
    SameEvents(c, s, s');
    SettledState(c, s, s', t, x);
  }

  lemma SaveState(c: Config, s: State, pc: Pc, o: Outcome)
    requires StateOk(c, s) && pc.Working? && pc.phase.Running? && pc.phase.handler.SaveTask?
    requires Knows(s, pc.item.key, pc.phase)
    ensures var h := pc.phase.handler;
            var (s', pc') := AfterSave(s, pc, pc.phase.attempt, h.t, h.task, h.escrow, o);
            && StateOk(c, s') && Onward(s, s') && pc'.Working? && pc' == pc.(phase := pc'.phase)
            && Knows(s', pc.item.key, pc'.phase)
  {
    var h := pc.phase.handler;
    var (t, x) := (h.t, h.escrow);
    var (s', pc') := AfterSave(s, pc, pc.phase.attempt, t, h.task, x, o);
    hide LifeOk, Forward, MoneyOk, EventsOk, RowOfDone, RefsOk;
    SaveKnows(s, pc, o);
    if o == Err {
      SaveFails(s, pc);
      hide Calm, WinningEscrow, Knows;
      CalmState(c, s, s');
    } else {
      assert s'.market == WithStatus(s.market, t, s.market.tasks[t], COMPLETED);
      StatusKeeps(s.market, t, COMPLETED);
      SaveMoney(c, s, s', t, x);
      hide WinningEscrow, Knows;
      SavedEvents(c, s, t, COMPLETED, s');
      SettledState(c, s, s', t, x);
    }
  }

  lemma SaveFails(s: State, pc: Pc)
    requires RefsOk(s) && pc.Working? && pc.phase.Running? && pc.phase.handler.SaveTask?
    ensures var h := pc.phase.handler; Calm(s, AfterSave(s, pc, pc.phase.attempt, h.t, h.task, h.escrow, Err).0)
  {
  }

  lemma SaveKnows(s: State, pc: Pc, o: Outcome)
    requires pc.Working? && pc.phase.Running? && pc.phase.handler.SaveTask? && Knows(s, pc.item.key, pc.phase)
    ensures var h := pc.phase.handler;
            var (s', pc') := AfterSave(s, pc, pc.phase.attempt, h.t, h.task, h.escrow, o);
            pc'.Working? && pc' == pc.(phase := pc'.phase) && Knows(s', pc.item.key, pc'.phase)
  {
  }

  lemma SaveMoney(c: Config, s: State, s': State, t: TaskId, x: EscrowId)
    requires StateOk(c, s) && Completing(s.market, t) && s.hist.cash.released[x] >= 1
    requires s'.market == WithStatus(s.market, t, s.market.tasks[t], COMPLETED)
    requires s'.bus == s.bus && s'.hist.cash == s.hist.cash && Forward(s.market, s'.market)
    ensures Onward(s, s') && ReleaseOk(c, s', x) && SplitOk(s', x) && PaidOk(s', t, x)
  {
    assert SplitOk(s, x) && ReleaseOk(c, s, x);
    assert Onward(s, s');
    hide LifeOk, MoneyOk, EventsOk, RowOfDone, RefsOk, WinningEscrow, Forward, SplitOk, ReleaseOk;
    ReleaseLasts(c, s, s', x);
    SplitLasts(s, s', x);
  }

  lemma ItemOn(s: State, s': State, pc: Pc, pc': Pc)
    requires WorkerOk(s, pc) && pc.Working? && Onward(s, s') && pc'.Working? && pc' == pc.(phase := pc'.phase)
    requires Knows(s', pc.item.key, pc'.phase)
    ensures WorkerOk(s', pc')
  {
    hide Knows, Forward;
  }

  lemma ReadState(c: Config, s: State, pc: Pc, w: WorkerLabel, s': State, pc': Pc)
    requires StateOk(c, s) && pc.Working? && pc.phase.Running? && !Paying(pc.phase.handler)
    requires Knows(s, pc.item.key, pc.phase) && HandlerStep(c, s, pc, w) == Some((s', pc'))
    ensures StateOk(c, s') && Onward(s, s') && NoNewRequests(s, s') && pc'.Working? && pc' == pc.(phase := pc'.phase)
    ensures Knows(s', pc.item.key, pc'.phase)
  {
    ReadCalm(c, s, pc, w, s', pc');
    ReadKnows(c, s, pc, w, s', pc');
    hide HandlerStep, Knows, StateOk, Calm;
    CalmState(c, s, s');
  }

  lemma PayingStep(c: Config, s: State, pc: Pc, w: WorkerLabel)
    requires pc.Working? && pc.phase.Running? && Paying(pc.phase.handler) && HandlerStep(c, s, pc, w).Some?
    ensures var (n, h) := (pc.phase.attempt, pc.phase.handler);
            && (w.ReleaseMilestone? || w.SaveCompleted?) && HandlerStep(c, s, pc, w).value.0.bus == s.bus
            && HandlerStep(c, s, pc, w).value
                 == if h.Release? then AfterRelease(s, pc, n, h.t, h.task, h.escrow, w.o)
                    else AfterSave(s, pc, n, h.t, h.task, h.escrow, w.o)
  {
  }

  lemma HandlerState(c: Config, s: State, pc: Pc, w: WorkerLabel, s': State, pc': Pc)
    requires StateOk(c, s) && pc.Working? && pc.phase.Running? && WorkerOk(s, pc)
    requires HandlerStep(c, s, pc, w) == Some((s', pc'))
    ensures StateOk(c, s') && Onward(s, s') && WorkerOk(s', pc') && NoNewRequests(s, s')
  {
    hide HandlerStep, Knows, StateOk, AfterRelease, AfterSave, Onward;
    if !Paying(pc.phase.handler) {
      ReadState(c, s, pc, w, s', pc');
    } else {
      PayingStep(c, s, pc, w);
      if pc.phase.handler.Release? { ReleaseState(c, s, pc, w.o); } else { SaveState(c, s, pc, w.o); }
    }
    ItemOn(s, s', pc, pc');
  }

  /** One step of one worker. */
  lemma WorkerState(c: Config, s: State, pc: Pc, w: WorkerLabel, s': State, pc': Pc)
    requires StateOk(c, s) && WorkerOk(s, pc) && WorkerStep(c, s, pc, w) == Some((s', pc'))
    ensures StateOk(c, s') && Onward(s, s') && WorkerOk(s', pc') && NoNewRequests(s, s')
  {
    if pc.Working? && pc.phase.Running? && !w.Stop? {
      HandlerState(c, s, pc, w, s', pc');
    } else {
      RestCalm(c, s, pc, w, s', pc');
      hide WorkerStep, WorkerOk, StateOk, RefsOk, RowOfDone;
      CalmState(c, s, s');
    }
  }

  lemma RestCalm(c: Config, s: State, pc: Pc, w: WorkerLabel, s': State, pc': Pc)
    requires StateOk(c, s) && WorkerOk(s, pc) && WorkerStep(c, s, pc, w) == Some((s', pc'))
    requires !(pc.Working? && pc.phase.Running? && !w.Stop?)
    ensures Calm(s, s') && WorkerOk(s', pc')
  {
    hide RefsOk, MoneyOk, EventsOk, LifeOk, RowOfDone, Calm;
    if !pc.Working? {
      OffCalm(c, s, pc, w, s', pc');
      if pc'.Working? { OffGenuine(c, s, pc, w, s', pc'); }
      hide WorkerStep;
    } else {
      Taken(c, Conf(s, pc), w, Conf(s', pc'));
      ItemCalm(c, s, pc, w, s', pc');
    }
  }

  lemma ItemCalm(c: Config, s: State, pc: Pc, w: WorkerLabel, s': State, pc': Pc)
    requires RefsOk(s) && WorkerOk(s, pc) && pc.Working? && (pc.phase.Running? ==> w.Stop?)
    requires if w.Stop? then (s', pc') == (CutOff(s, pc), Idle) else ItemTakes(c, s, pc, w, (s', pc'))
    ensures Calm(s, s') && WorkerOk(s', pc')
  {
    hide AfterBegin, AfterLookup, AfterSucceed, AfterFail, AfterAck, CutOff, HandlerStep, RefsOk, Calm;
    if w.Stop? {
      CutCalm(s, pc);
    } else {
      match pc.phase
      case Fetched => BeginCalm(c, s, pc, w.o); BeginKnows(c, s, pc, w.o);
      case LookingUp(n) => LookupCalm(c, s, pc, n, w.o);
      case Returned(n) => SucceedCalm(s, pc, n, w.o);
      case Threw(n) => FailCalm(s, pc, n, w.o);
      case Acking(abort) => AckCalm(s, pc, abort, pc.item.pos.value, w.o);
    }
  }

  // ---------- The fleet ----------

  lemma SelfOnward(s: State)
    ensures Onward(s, s) && WorkerOk(s, Idle)
  {
    SelfForward(s.market);
  }

  lemma AllLast(f: Fleet, g: Fleet)
    requires Onward(f.s, g.s) && forall w :: w in f.pcs ==> WorkerOk(f.s, f.pcs[w])
    ensures forall w :: w in f.pcs ==> WorkerOk(g.s, f.pcs[w])
  {
    forall w | w in f.pcs ensures WorkerOk(g.s, f.pcs[w]) { WorkerLasts(f.s, g.s, f.pcs[w]); }
  }

  lemma FleetKeeps(c: Config, f: Fleet, l: FleetLabel, g: Fleet)
    requires FleetOk(c, f) && FleetStep(c, f, l, g)
    ensures FleetOk(c, g) && Onward(f.s, g.s)
  {
    hide WorkerStep, EnvStep, StateOk, WorkerOk, Onward;
    match l
    case Env(e) => EnvState(c, f.s, e, g.s); AllLast(f, g);
    case Join(n) => SelfOnward(f.s);
    case Worker(who, w) => WorkerState(c, f.s, f.pcs[who], w, g.s, g.pcs[who]); AllLast(f, g);
  }

  lemma {:induction false} RunSettles(c: Config, run: seq<Fleet>, labels: seq<FleetLabel>, i: nat)
    requires IsFleetRun(c, run, labels) && i <= |labels|
    ensures FleetOk(c, run[i])
  {
    hide FleetStep, FleetOk;
    if i == 0 { StartSettled(c); }
    else {
      RunSettles(c, run, labels, i - 1);
      FleetKeeps(c, run[i - 1], labels[i - 1], run[i]);
    }
  }

  lemma StartSettled(c: Config)
    ensures FleetOk(c, Fleet(START, map[]))
  {
  }

  /** With any number of workers: a SUCCEEDED completion row means that the task is COMPLETED and that its selected escrow,
      the one in the payload, was released. */
  lemma SucceededPaysInFleets(c: Config, run: seq<Fleet>, labels: seq<FleetLabel>, i: nat, e: EventId, t: TaskId)
    requires IsFleetRun(c, run, labels) && i <= |labels|
    requires Requests(run[i].s, e, t) && Done(run[i].s, Key(CompletionRequested, e))
    ensures Completed(run[i].s.market, t) && run[i].s.bus.outbox[e].payload.escrowId.Some?
    ensures var x := run[i].s.bus.outbox[e].payload.escrowId.value;
            WinningEscrow(run[i].s.market, t, x) && run[i].s.hist.cash.released[x] >= 1
  {
    RunSettles(c, run, labels, i);
    var s := run[i].s;
    assert RowOfDone(s, Key(CompletionRequested, e)) && EventOk(s, e);
    assert PaidOk(s, t, s.bus.outbox[e].payload.escrowId.value);
  }

  /** A fleet's requests complete what they begin. */
  predicate WholeFleet(l: FleetLabel) { l.Env? ==> Whole(E(l.e)) }

  lemma {:induction false} WholeFleetRun(c: Config, run: seq<Fleet>, labels: seq<FleetLabel>, i: nat)
    requires IsFleetRun(c, run, labels) && i <= |labels|
    requires forall j :: 0 <= j < i ==> WholeFleet(labels[j])
    ensures NothingMissing(run[i].s.hist.cash)
  {
    hide WorkerStep, EnvStep, Whole, NothingMissing;
    if i == 0 {
      assert NothingMissing(START.hist.cash) by { StartMissesNothing(); }
    } else {
      WholeFleetRun(c, run, labels, i - 1);
      var f, g := run[i - 1], run[i];
      match labels[i - 1]
      case Join(_) =>
      case Env(e) => RequestMissesNothing(c, f.s, e, g.s);
      case Worker(who, w) => WorkerMissesNothing(c, Conf(f.s, f.pcs[who]), w, Conf(g.s, g.pcs[who]));
    }
  }

  lemma StartMissesNothing()
    ensures NothingMissing(START.hist.cash)
  {
  }

  /** With any number of workers: when no settlement lost its task save, in particular when requests complete what they
      begin, no escrow is both released and confiscated, none is confiscated twice, and only selected bids' escrows are
      settled. */
  lemma FleetSettlesExclusively(c: Config, run: seq<Fleet>, labels: seq<FleetLabel>, i: nat, x: EscrowId)
    requires IsFleetRun(c, run, labels) && i <= |labels|
    requires forall j :: 0 <= j < i ==> WholeFleet(labels[j])
    ensures var (m, h) := (run[i].s.market, run[i].s.hist.cash);
            && (h.released[x] > 0 ==> exists t :: WinningEscrow(m, t, x) && Completing(m, t))
            && (h.confiscated[x] > 0 ==> exists t :: WinningEscrow(m, t, x) && Expired(m, t))
            && h.confiscated[x] <= 1 && !(h.released[x] > 0 && h.confiscated[x] > 0)
  {
    RunSettles(c, run, labels, i);
    WholeFleetRun(c, run, labels, i);
    var s := run[i].s;
    var (m, h) := (s.market, s.hist.cash);
    assert SplitOk(s, x);
    forall t, u | WinningEscrow(m, t, x) && WinningEscrow(m, u, x) ensures t == u { OneWinner(m, t, x, u, x); }
  }

  // ---------- How often an escrow is released ----------

  function Unpaid(f: Fleet, k: Key): set<nat> {
    set w | w in f.pcs && BeforePay(f.pcs[w], k)
  }

  /** Every release and every handler on its way to one has been paid for by a dispatch. */
  ghost predicate FundedBy(f: Fleet, e: EventId, t: TaskId, x: EscrowId) {
    var k := Key(CompletionRequested, e);
    Requests(f.s, e, t) && WinningEscrow(f.s.market, t, x) ==>
      f.s.hist.cash.released[x] + |Unpaid(f, k)| <= f.s.hist.att.dispatched[k]
  }

  /** The worker that releases the escrow handles the task's own event. */
  lemma OwnRequest(c: Config, s: State, pc: Pc, e: EventId, t: TaskId, x: EscrowId)
    requires StateOk(c, s) && WorkerOk(s, pc) && pc.Working? && pc.phase.Running? && pc.phase.handler.Release?
    requires pc.phase.handler.escrow == x && Requests(s, e, t) && WinningEscrow(s.market, t, x)
    ensures BeforePay(pc, Key(CompletionRequested, e))
  {
    OneWinner(s.market, t, x, pc.phase.handler.t, x);
    hide LifeOk, MoneyOk, RefsOk, RowOfDone, WinningEscrow;
    assert Requests(s, pc.item.key.id, t);
  }

  ghost predicate Balance(s: State, pc: Pc, s': State, pc': Pc, k: Key, x: EscrowId) {
    s'.hist.cash.released[x] + One(BeforePay(pc', k)) + s.hist.att.dispatched[k]
      <= s.hist.cash.released[x] + One(BeforePay(pc, k)) + s'.hist.att.dispatched[k]
  }

  lemma HandlerBalance(c: Config, s: State, pc: Pc, w: WorkerLabel, s': State, pc': Pc, e: EventId, t: TaskId, x: EscrowId)
    requires StateOk(c, s) && WorkerOk(s, pc) && Requests(s, e, t) && WinningEscrow(s.market, t, x)
    requires pc.Working? && pc.phase.Running? && HandlerStep(c, s, pc, w) == Some((s', pc'))
    ensures Balance(s, pc, s', pc', Key(CompletionRequested, e), x)
  {
    hide HandlerStep, StateOk, WorkerOk, Requests, WinningEscrow, BeforePay;
    HandlerFrame(c, s, pc, w, s', pc');
    PayOnce(c, Conf(s, pc), w, Conf(s', pc'), Key(CompletionRequested, e), x);
    if pc.phase.handler.Release? && pc.phase.handler.escrow == x { OwnRequest(c, s, pc, e, t, x); }
  }

  lemma PayBalance(c: Config, s: State, pc: Pc, w: WorkerLabel, s': State, pc': Pc, e: EventId, t: TaskId, x: EscrowId)
    requires StateOk(c, s) && WorkerOk(s, pc) && WorkerStep(c, s, pc, w) == Some((s', pc'))
    requires Requests(s, e, t) && WinningEscrow(s.market, t, x)
    ensures Balance(s, pc, s', pc', Key(CompletionRequested, e), x)
  {
    var a, b := Conf(s, pc), Conf(s', pc');
    assert Step(c, a, W(w), b);
    hide WorkerStep, StateOk, WorkerOk, Requests, WinningEscrow, BeforePay, Step, HandlerStep, Balance;
    if pc.Working? && pc.phase.Running? && !w.Stop? {
      Taken(c, a, w, b);
      HandlerBalance(c, s, pc, w, s', pc', e, t, x);
    } else {
      RestBalance(c, a, w, b, Key(CompletionRequested, e), x);
    }
  }

  lemma RestBalance(c: Config, a: Conf, w: WorkerLabel, b: Conf, k: Key, x: EscrowId)
    requires Step(c, a, W(w), b) && !(a.pc.Working? && a.pc.phase.Running? && !w.Stop?)
    ensures Balance(a.s, a.pc, b.s, b.pc, k, x)
  {
    OtherwiseSame(c, a, w, b);
    DispatchFirst(c, a, w, b, k);
    hide Step;
  }

  lemma UnpaidOne(f: Fleet, g: Fleet, w: nat, k: Key)
    requires w in f.pcs && w in g.pcs && g.pcs == f.pcs[w := g.pcs[w]]
    ensures |Unpaid(g, k)| - |Unpaid(f, k)| == One(BeforePay(g.pcs[w], k)) - One(BeforePay(f.pcs[w], k))
  {
    CountOne(Unpaid(f, k), Unpaid(g, k), w);
  }

  lemma UnpaidSame(f: Fleet, g: Fleet, k: Key)
    requires forall w :: w in f.pcs ==> w in g.pcs && g.pcs[w] == f.pcs[w]
    requires forall w :: w in g.pcs && w !in f.pcs ==> g.pcs[w] == Idle
    ensures Unpaid(g, k) == Unpaid(f, k)
  {
  }

  /** An old request's winner is old, too. */
  lemma WinnerBack(c: Config, s: State, s': State, e: EventId, t: TaskId, x: EscrowId)
    requires StateOk(c, s) && StateOk(c, s') && Onward(s, s') && Requests(s, e, t) && WinningEscrow(s'.market, t, x)
    ensures WinningEscrow(s.market, t, x)
  {
    assert EventOk(s, e);
    WinsBack(s.market, s'.market, t, x);
  }

  lemma RequestBack(s: State, s': State, e: EventId, t: TaskId)
    requires SameRows(s, s') && NoNewRequests(s, s') && Requests(s', e, t)
    ensures Requests(s, e, t)
  {
  }

  lemma WorkerFundedBy(c: Config, f: Fleet, who: nat, w: WorkerLabel, g: Fleet, e: EventId, t: TaskId, x: EscrowId)
    requires FleetOk(c, f) && FleetOk(c, g) && FleetStep(c, f, FleetLabel.Worker(who, w), g) && FundedBy(f, e, t, x)
    ensures FundedBy(g, e, t, x)
  {
    hide WorkerStep, StateOk, WorkerOk, Requests, WinningEscrow, Forward, SameRows, NoNewRequests, Unpaid;
    WorkerState(c, f.s, f.pcs[who], w, g.s, g.pcs[who]);
    if Requests(g.s, e, t) && WinningEscrow(g.s.market, t, x) {
      RequestBack(f.s, g.s, e, t);
      WinnerBack(c, f.s, g.s, e, t, x);
      PayBalance(c, f.s, f.pcs[who], w, g.s, g.pcs[who], e, t, x);
      UnpaidOne(f, g, who, Key(CompletionRequested, e));
    }
  }

  /** A new request: its task was assigned, its escrow not released, and nobody works on it. */
  lemma NewRequest(c: Config, f: Fleet, l: EnvLabel, g: Fleet, e: EventId, t: TaskId, x: EscrowId)
    requires c.outbox && FleetOk(c, f) && FleetOk(c, g) && EnvStep(c, f.s, l) == Some(g.s)
    requires Requests(g.s, e, t) && !Requests(f.s, e, t) && WinningEscrow(g.s.market, t, x)
    ensures f.s.hist.cash.released[x] == 0 && Unpaid(f, Key(CompletionRequested, e)) == {}
  {
    EnvReleases(c, f.s, l, g.s);
    EnvState(c, f.s, l, g.s);
    hide EnvStep;
    WinsBack(f.s.market, g.s.market, t, x);
    assert ReleaseOk(c, f.s, x);
    hide LifeOk, Forward;
    forall u | WinningEscrow(f.s.market, u, x) ensures u == t { OneWinner(f.s.market, t, x, u, x); }
    forall d: EventId ensures !Requests(f.s, d, t) {
      if d in f.s.bus.outbox { assert EventOk(f.s, d); }
    }
  }

  lemma EnvFundedBy(c: Config, f: Fleet, l: EnvLabel, g: Fleet, e: EventId, t: TaskId, x: EscrowId)
    requires c.outbox && FleetOk(c, f) && FleetOk(c, g) && FleetStep(c, f, Env(l), g) && FundedBy(f, e, t, x)
    ensures FundedBy(g, e, t, x)
  {
    hide EnvStep, StateOk, WorkerOk, Requests, WinningEscrow, Forward, Unpaid;
    EnvState(c, f.s, l, g.s);
    EnvReleases(c, f.s, l, g.s);
    UnpaidSame(f, g, Key(CompletionRequested, e));
    if Requests(g.s, e, t) && WinningEscrow(g.s.market, t, x) {
      if Requests(f.s, e, t) { WinnerBack(c, f.s, g.s, e, t, x); } else { NewRequest(c, f, l, g, e, t, x); }
    }
  }

  lemma {:induction false} FleetFunded(c: Config, run: seq<Fleet>, labels: seq<FleetLabel>, i: nat,
                                       e: EventId, t: TaskId, x: EscrowId)
    requires IsFleetRun(c, run, labels) && i <= |labels| && c.outbox
    ensures FundedBy(run[i], e, t, x)
  {
    hide FleetStep, FleetOk, WinningEscrow;
    if i > 0 {
      FleetFunded(c, run, labels, i - 1, e, t, x);
      RunSettles(c, run, labels, i - 1);
      RunSettles(c, run, labels, i);
      hide FundedBy;
      match labels[i - 1]
      case Env(l) => EnvFundedBy(c, run[i - 1], l, run[i], e, t, x);
      case Join(_) => JoinFundedBy(c, run[i - 1], labels[i - 1], run[i], e, t, x);
      case Worker(who, w) => WorkerFundedBy(c, run[i - 1], who, w, run[i], e, t, x);
    }
  }

  lemma JoinFundedBy(c: Config, f: Fleet, l: FleetLabel, g: Fleet, e: EventId, t: TaskId, x: EscrowId)
    requires l.Join? && FleetStep(c, f, l, g) && FundedBy(f, e, t, x)
    ensures FundedBy(g, e, t, x)
  {
    UnpaidSame(f, g, Key(CompletionRequested, e));
  }

  /** With any number of workers, interleavings, duplicates, stops and failures: a task's escrow is released at most
      max(1, maxAttempts) times. */
  lemma FleetReleases(c: Config, run: seq<Fleet>, labels: seq<FleetLabel>, i: nat, t: TaskId, b: BidId)
    requires IsFleetRun(c, run, labels) && i <= |labels| && c.outbox && IsSelected(run[i].s.market, t, b)
    ensures run[i].s.hist.cash.released[run[i].s.market.bids[b].escrowId] <= Max(1, c.maxAttempts)
  {
    var s, x := run[i].s, run[i].s.market.bids[b].escrowId;
    assert Wins(s.market, t, b, x);
    if s.hist.cash.released[x] > 0 {
      RunSettles(c, run, labels, i);
      assert ReleaseOk(c, s, x);
      var u :| WinningEscrow(s.market, u, x) && exists d :: Requests(s, d, u);
      var d :| Requests(s, d, u);
      FleetFunded(c, run, labels, i, d, u, x);
      AttemptBudget(c, run, labels, i, Key(CompletionRequested, d));
    }
  }
}
