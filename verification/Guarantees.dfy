/** End-to-end guarantees for every single-worker run: who is paid, how often, and what a SUCCEEDED row means. */
module Guarantees {
  import opened Types
  import opened Consumption
  import opened Market
  import opened Protocol
  import opened Delivery
  import opened NoLoss
  import opened Fleets
  import opened Success
  import opened Lifecycle
  import opened SettlementProofs

  lemma StartAgreed(c: Config)
    ensures Agreed(c, Conf(START, Idle))
  {
  }

  lemma {:induction false} RunAgrees(c: Config, run: seq<Conf>, labels: seq<Label>, i: nat)
    requires IsRun(c, run, labels) && i <= |labels|
    ensures Inv(c, run[i]) && Agreed(c, run[i])
  {
    hide Inv, Agreed, Step;
    RunKeeps(c, run, labels, i);
    if i == 0 { StartAgreed(c); }
    else {
      RunAgrees(c, run, labels, i - 1);
      StepAgrees(c, run[i - 1], labels[i - 1], run[i]);
    }
  }

  // ---------- The marketplace ----------

  /** In every reachable state the lifecycle invariant holds, and from any state of a run to any later one statuses
      only move forward and decided bids stay decided. */
  lemma {:induction false} LifecycleHolds(c: Config, run: seq<Conf>, labels: seq<Label>, i: nat, j: nat)
    requires IsRun(c, run, labels) && i <= j <= |labels|
    ensures LifeOk(run[j].s.market) && Forward(run[i].s.market, run[j].s.market)
  {
    hide Inv, Agreed, Step, LifeOk, Forward;
    RunAgrees(c, run, labels, j);
    AgreedLife(c, run[j]);
    if i == j { SelfForward(run[i].s.market); }
    else {
      LifecycleHolds(c, run, labels, i, j - 1);
      RunAgrees(c, run, labels, j - 1);
      StepForward(c, run[j - 1], labels[j - 1], run[j]);
      ForwardTrans(run[i].s.market, run[j - 1].s.market, run[j].s.market);
    }
  }

  lemma AgreedLife(c: Config, a: Conf)
    requires Agreed(c, a)
    ensures LifeOk(a.s.market)
  {
  }

  lemma StepForward(c: Config, a: Conf, l: Label, b: Conf)
    requires Inv(c, a) && Agreed(c, a) && Step(c, a, l, b)
    ensures Forward(a.s.market, b.s.market)
  {
    SelfForward(a.s.market);
    match l
    case E(e) => RequestKeeps(c, a.s, e, b.s);
    case W(w) =>
      if a.pc.Working? && a.pc.phase.Running? && !w.Stop? {
        if a.pc.phase.handler.SaveTask? {
          var y := PaidBid(c, a);
          SaveBooks(c, a, w.o, b, y);
          StatusKeeps(a.s.market, a.pc.phase.handler.t, if w.o.Effect() then COMPLETED else COMPLETING);
        } else if a.pc.phase.handler.Release? { ReleaseHandlerOk(a, w.o, b); }
        else { ReadFrame(c, a, w, b); }
      } else { OtherwiseSame(c, a, w, b); }
  }

  lemma OtherwiseSame(c: Config, a: Conf, w: WorkerLabel, b: Conf)
    requires Step(c, a, W(w), b) && !(a.pc.Working? && a.pc.phase.Running? && !w.Stop?)
    ensures b.s.market == a.s.market
    ensures b.s.hist.cash.released == a.s.hist.cash.released
  {
    if a.pc.Working? {
      Taken(c, a, w, b);
      hide Step, AfterBegin, AfterLookup, CutOff, BackoffMs;
      if w.Stop? { CutSame(a.s, a.pc); }
      else if a.pc.phase.Fetched? { BeginSame(c, a.s, a.pc, w.o); }
      else if a.pc.phase.LookingUp? { LookupSame(a.s, a.pc, a.pc.phase.attempt, w.o); }
    } else {
      OffItem(c, a, W(w), b);
      hide Step;
    }
  }

  lemma BeginSame(c: Config, s: State, pc: Pc, o: Outcome)
    requires pc.Working?
    ensures var s' := AfterBegin(c, s, pc, o).0; s'.market == s.market && s'.hist.cash == s.hist.cash
  {
  }

  lemma LookupSame(s: State, pc: Pc, n: int, o: Outcome)
    requires pc.Working? && pc.phase.LookingUp?
    ensures var s' := AfterLookup(s, pc, n, o).0; s'.market == s.market && s'.hist.cash == s.hist.cash
  {
  }

  lemma CutSame(s: State, pc: Pc)
    ensures CutOff(s, pc).market == s.market && CutOff(s, pc).hist.cash.released == s.hist.cash.released
  {
  }

  /** The selected bid of a task never changes. */
  lemma SelectedForGood(c: Config, run: seq<Conf>, labels: seq<Label>, i: nat, j: nat, t: TaskId, b: BidId)
    requires IsRun(c, run, labels) && i <= j <= |labels| && IsSelected(run[i].s.market, t, b)
    ensures forall x :: IsSelected(run[j].s.market, t, x) <==> x == b
  {
    LifecycleHolds(c, run, labels, i, j);
    LifecycleHolds(c, run, labels, i, i);
    var m := run[j].s.market;
    assert IsSelected(m, t, b);
    assert t in m.tasks && TaskOk(m, t);
  }

  // ---------- Agreement between events, rows, tasks and escrows ----------

  /** With an outbox, a task that reached COMPLETING has exactly one completion event if and only if its emit
      completed, and otherwise none. */
  lemma OneEventPerCompletion(c: Config, run: seq<Conf>, labels: seq<Label>, i: nat, t: TaskId)
    requires IsRun(c, run, labels) && i <= |labels| && c.outbox && Completing(run[i].s.market, t)
    ensures t !in run[i].s.hist.cash.unemitted <==> exists e :: Requests(run[i].s, e, t)
    ensures forall e, f :: Requests(run[i].s, e, t) && Requests(run[i].s, f, t) ==> e == f
  {
    RunAgrees(c, run, labels, i);
    assert Announced(c, run[i].s, t);
  }

  /** The escrow in the payload is that of the task's selected bid, the one the worker looks up and releases. */
  lemma PayloadNamesEscrow(c: Config, run: seq<Conf>, labels: seq<Label>, i: nat, e: EventId, t: TaskId)
    requires IsRun(c, run, labels) && i <= |labels| && Requests(run[i].s, e, t)
    ensures run[i].s.bus.outbox[e].payload.escrowId.Some?
    ensures var x := run[i].s.bus.outbox[e].payload.escrowId.value;
            && (forall b :: IsSelected(run[i].s.market, t, b) ==> run[i].s.market.bids[b].escrowId == x)
            && (At(run[i].pc, Key(CompletionRequested, e)) && run[i].pc.phase.Running? && Paying(run[i].pc.phase.handler) ==>
                  run[i].pc.phase.handler.t == t && run[i].pc.phase.handler.escrow == x)
  {
    RunAgrees(c, run, labels, i);
    var s := run[i].s;
    assert EventOk(s, e);
    var x := s.bus.outbox[e].payload.escrowId.value;
    var b :| Wins(s.market, t, b, x);
    assert TaskOk(s.market, t);
    forall y | IsSelected(s.market, t, y) ensures s.market.bids[y].escrowId == x { assert y == b; }
    if At(run[i].pc, Key(CompletionRequested, e)) && run[i].pc.phase.Running? && Paying(run[i].pc.phase.handler) {
      var y := PaidBid(c, run[i]);
    }
  }

  /** A SUCCEEDED completion row means: the task is COMPLETED and its selected escrow was released. */
  lemma SucceededMeansPaid(c: Config, run: seq<Conf>, labels: seq<Label>, i: nat, e: EventId, t: TaskId)
    requires IsRun(c, run, labels) && i <= |labels|
    requires Requests(run[i].s, e, t) && Done(run[i].s, Key(CompletionRequested, e))
    ensures Completed(run[i].s.market, t)
    ensures run[i].s.bus.outbox[e].payload.escrowId.Some?
    ensures var x := run[i].s.bus.outbox[e].payload.escrowId.value;
            WinningEscrow(run[i].s.market, t, x) && run[i].s.hist.cash.released[x] >= 1
  {
    RunAgrees(c, run, labels, i);
    var s := run[i].s;
    assert EventOk(s, e);
    var x := s.bus.outbox[e].payload.escrowId.value;
    var b :| Wins(s.market, t, b, x);
    assert Books(c, s, run[i].pc, b);
  }

  /** A settlement reached the provider without its task save, and the task went the other way after all: confiscated
      and then released by request or by the worker, or released and then expired. */
  predicate Collides(a: Conf, t: TaskId, x: EscrowId) {
    var h := a.s.hist.cash;
    || (h.leakedConfiscation[x] > 0
        && (Completed(a.s.market, t) || h.cut[x] > 0 || h.leakedRelease[x] > 0 || PaidUnsaved(a.pc, x)))
    || (h.leakedRelease[x] > 0 && t in a.s.market.tasks && a.s.market.tasks[t].status == EXPIRED)
  }

  lemma CollidesExactly(c: Config, a: Conf, t: TaskId, b: BidId, x: EscrowId)
    requires Inv(c, a) && Agreed(c, a) && Wins(a.s.market, t, b, x)
    ensures a.s.hist.cash.released[x] > 0 && a.s.hist.cash.confiscated[x] > 0 <==> Collides(a, t, x)
  {
    assert Books(c, a.s, a.pc, b);
    if PaidUnsaved(a.pc, x) { PaidIsCompleting(c, a, b); }
  }

  /** Only escrows of selected bids are ever released or confiscated, and none is both, unless an API settlement
      took effect at the provider without its task save. */
  lemma SettledOnce(c: Config, run: seq<Conf>, labels: seq<Label>, i: nat, x: EscrowId)
    requires IsRun(c, run, labels) && i <= |labels|
    ensures var h := run[i].s.hist.cash;
            && (h.released[x] > 0 || h.confiscated[x] > 0 ==> exists t, b :: Wins(run[i].s.market, t, b, x))
            && (h.leakedRelease[x] == 0 && h.leakedConfiscation[x] == 0 ==>
                  h.confiscated[x] <= 1 && !(h.released[x] > 0 && h.confiscated[x] > 0))
    ensures forall t, b :: Wins(run[i].s.market, t, b, x) ==>
              (run[i].s.hist.cash.released[x] > 0 && run[i].s.hist.cash.confiscated[x] > 0 <==> Collides(run[i], t, x))
  {
    RunAgrees(c, run, labels, i);
    forall t, b | Wins(run[i].s.market, t, b, x)
      ensures run[i].s.hist.cash.released[x] > 0 && run[i].s.hist.cash.confiscated[x] > 0 <==> Collides(run[i], t, x)
    {
      CollidesExactly(c, run[i], t, b, x);
    }
    var s, pc := run[i].s, run[i].pc;
    if s.hist.cash.released[x] > 0 || s.hist.cash.confiscated[x] > 0 {
      assert !Untouched(s, x);
      var t, b :| Wins(s.market, t, b, x);
      assert Books(c, s, pc, b);
      if PaidUnsaved(pc, x) { PaidIsCompleting(c, run[i], b); }
    }
  }

  // ---------- Requests that complete ----------

  /** A settlement at the provider is followed by its task save, and a completion's save by its event. */
  predicate Whole(l: Label) {
    l.E? ==>
      match l.e
      case Complete(_, _, _, event) => event.Some?
      case CompleteSync(_, _, _, out) => out != Unsaved
      case Expire(_, _, out) => out != Unsaved
      case _ => true
  }

  predicate NothingMissing(h: Cash) {
    h.leakedRelease == multiset{} && h.leakedConfiscation == multiset{} && h.unemitted == {}
  }

  lemma WorkerMissesNothing(c: Config, a: Conf, w: WorkerLabel, b: Conf)
    requires Step(c, a, W(w), b) && NothingMissing(a.s.hist.cash)
    ensures NothingMissing(b.s.hist.cash)
  {
    if a.pc.Working? {
      Taken(c, a, w, b);
      hide Step, AfterBegin, AfterLookup, AfterSucceed, AfterFail, AfterAck, CutOff, HandlerStep;
      if w.Stop? {
        CutMissesNothing(a.s, a.pc);
      } else {
        match a.pc.phase
        case Fetched => BeginMissesNothing(c, a.s, a.pc, w.o);
        case LookingUp(n) => LookupMissesNothing(a.s, a.pc, n, w.o);
        case Running(_, _) => HandlerMissesNothing(c, a.s, a.pc, w);
        case Returned(n) => MarkMissesNothing(a.s, a.pc, n, w.o);
        case Threw(n) => MarkMissesNothing(a.s, a.pc, n, w.o);
        case Acking(abort) => AckMissesNothing(a.s, a.pc, abort, a.pc.item.pos.value, w.o);
      }
    } else {
      OffItem(c, a, W(w), b);
    }
  }

  lemma CutMissesNothing(s: State, pc: Pc)
    requires NothingMissing(s.hist.cash)
    ensures NothingMissing(CutOff(s, pc).hist.cash)
  {
  }

  lemma BeginMissesNothing(c: Config, s: State, pc: Pc, o: Outcome)
    requires NothingMissing(s.hist.cash) && pc.Working?
    ensures NothingMissing(AfterBegin(c, s, pc, o).0.hist.cash)
  {
  }

  lemma LookupMissesNothing(s: State, pc: Pc, n: int, o: Outcome)
    requires NothingMissing(s.hist.cash) && pc.Working?
    ensures NothingMissing(AfterLookup(s, pc, n, o).0.hist.cash)
  {
  }

  lemma HandlerMissesNothing(c: Config, s: State, pc: Pc, w: WorkerLabel)
    requires NothingMissing(s.hist.cash) && pc.Working? && pc.phase.Running? && HandlerStep(c, s, pc, w).Some?
    ensures NothingMissing(HandlerStep(c, s, pc, w).value.0.hist.cash)
  {
  }

  lemma MarkMissesNothing(s: State, pc: Pc, n: int, o: Outcome)
    requires NothingMissing(s.hist.cash) && pc.Working?
    ensures NothingMissing(AfterSucceed(s, pc, n, o).0.hist.cash)
    ensures NothingMissing(AfterFail(s, pc, n, o).0.hist.cash)
  {
  }

  lemma AckMissesNothing(s: State, pc: Pc, abort: bool, p: nat, o: Outcome)
    requires NothingMissing(s.hist.cash) && pc.Working?
    ensures NothingMissing(AfterAck(s, pc, abort, p, o).0.hist.cash)
  {
  }

  lemma RequestMissesNothing(c: Config, s: State, l: EnvLabel, s': State)
    requires EnvStep(c, s, l) == Some(s') && Whole(E(l)) && NothingMissing(s.hist.cash)
    ensures NothingMissing(s'.hist.cash)
  {
    hide SelectWinner, PlaceBid;
  }

  lemma {:induction false} WholeRun(c: Config, run: seq<Conf>, labels: seq<Label>, i: nat)
    requires IsRun(c, run, labels) && i <= |labels|
    requires forall j :: 0 <= j < i ==> Whole(labels[j])
    ensures NothingMissing(run[i].s.hist.cash)
  {
    hide WorkerStep, EnvStep, Whole;
    if i > 0 {
      WholeRun(c, run, labels, i - 1);
      match labels[i - 1]
      case W(w) => WorkerMissesNothing(c, run[i - 1], w, run[i]);
      case E(e) => RequestMissesNothing(c, run[i - 1].s, e, run[i].s);
    }
  }

  /** When requests complete what they begin, no escrow is both released and confiscated, and only escrows of
      selected bids are settled: whatever the worker does, wherever it stops and whatever fails in it. */
  lemma SettledExclusively(c: Config, run: seq<Conf>, labels: seq<Label>, i: nat, x: EscrowId)
    requires IsRun(c, run, labels) && i <= |labels|
    requires forall j :: 0 <= j < i ==> Whole(labels[j])
    ensures var h := run[i].s.hist.cash;
            && (h.released[x] > 0 || h.confiscated[x] > 0 ==> exists t, b :: Wins(run[i].s.market, t, b, x))
            && h.confiscated[x] <= 1 && !(h.released[x] > 0 && h.confiscated[x] > 0)
  {
    WholeRun(c, run, labels, i);
    SettledOnce(c, run, labels, i, x);
  }

  /** When requests complete what they begin, every task that reached COMPLETING has exactly one completion event; it
      names the selected escrow, and once its row is SUCCEEDED the task is COMPLETED and that escrow was released. */
  lemma CompletionAgrees(c: Config, run: seq<Conf>, labels: seq<Label>, i: nat, t: TaskId) returns (e: EventId)
    requires IsRun(c, run, labels) && i <= |labels| && c.outbox && Completing(run[i].s.market, t)
    requires forall j :: 0 <= j < i ==> Whole(labels[j])
    ensures Requests(run[i].s, e, t) && forall f :: Requests(run[i].s, f, t) ==> f == e
    ensures run[i].s.bus.outbox[e].payload.escrowId.Some?
    ensures var x := run[i].s.bus.outbox[e].payload.escrowId.value;
            && (forall b :: IsSelected(run[i].s.market, t, b) ==> run[i].s.market.bids[b].escrowId == x)
            && (Done(run[i].s, Key(CompletionRequested, e)) ==>
                  Completed(run[i].s.market, t) && run[i].s.hist.cash.released[x] >= 1)
  {
    WholeRun(c, run, labels, i);
    OneEventPerCompletion(c, run, labels, i, t);
    e :| Requests(run[i].s, e, t);
    PayloadNamesEscrow(c, run, labels, i, e, t);
    if Done(run[i].s, Key(CompletionRequested, e)) { SucceededMeansPaid(c, run, labels, i, e, t); }
  }

  /** While a release waits for its save, the task is COMPLETING. */
  lemma PaidIsCompleting(c: Config, a: Conf, b: BidId)
    requires Inv(c, a) && Agreed(c, a) && b in a.s.market.bids && PaidUnsaved(a.pc, a.s.market.bids[b].escrowId)
    ensures var t := a.s.market.bids[b].taskId;
            && t in a.s.market.tasks && a.s.market.tasks[t].status == COMPLETING && IsSelected(a.s.market, t, b)
            && a.pc.phase.handler.t == t
  {
    var y := PaidBid(c, a);
    assert y == b;
  }

  // ---------- How often an escrow is released ----------

  /** Paid for by a dispatch, and not yet at the release's reply. */
  predicate BeforePay(pc: Pc, k: Key) {
    At(pc, k) && pc.phase.Running? && (pc.phase.handler.ReadTask? || pc.phase.handler.ReadBids? || pc.phase.handler.Release?)
  }

  ghost predicate Funded(a: Conf, e: EventId, t: TaskId, x: EscrowId) {
    var k := Key(CompletionRequested, e);
    Requests(a.s, e, t) && WinningEscrow(a.s.market, t, x) ==>
      a.s.hist.cash.released[x] + One(BeforePay(a.pc, k)) <= a.s.hist.att.dispatched[k]
  }

  ghost predicate Budgeted(c: Config, a: Conf, k: Key) {
    a.s.hist.att.dispatched[k] + One(Owed(a.pc, k)) <= AttemptsOf(a.s.rows, k) <= Max(1, c.maxAttempts)
  }

  lemma {:induction false} RunBudgeted(c: Config, run: seq<Conf>, labels: seq<Label>, i: nat, k: Key)
    requires IsRun(c, run, labels) && i <= |labels|
    ensures Budgeted(c, run[i], k)
  {
    if i > 0 {
      RunBudgeted(c, run, labels, i - 1, k);
      var a, l, b := run[i - 1], labels[i - 1], run[i];
      hide WorkerStep, EnvStep;
      match l
      case E(e) => EnvFree(c, a.s, e, b.s);
      case W(w) => WorkerPays(c, a.s, a.pc, w, b.s, b.pc, k);
    }
  }

  /** With an outbox, a task that is not completing has had no release. */
  lemma NotYetPaid(c: Config, a: Conf, t: TaskId, x: EscrowId)
    requires Inv(c, a) && Agreed(c, a) && c.outbox && WinningEscrow(a.s.market, t, x) && !Completing(a.s.market, t)
    ensures a.s.hist.cash.released[x] == 0
  {
    var b :| Wins(a.s.market, t, b, x);
    assert Books(c, a.s, a.pc, b);
    if PaidUnsaved(a.pc, x) { PaidIsCompleting(c, a, b); }
  }

  /** The winning escrow of an assigned task was the winning escrow before. */
  lemma WinsBack(m: Market, n: Market, t: TaskId, x: EscrowId)
    requires LifeOk(m) && LifeOk(n) && Forward(m, n) && t in m.tasks && m.tasks[t].status != OPEN
    requires WinningEscrow(n, t, x)
    ensures WinningEscrow(m, t, x)
  {
    assert TaskOk(m, t) && TaskOk(n, t);
    var b :| IsSelected(m, t, b);
    assert IsSelected(n, t, b);
    var y :| Wins(n, t, y, x);
    assert Wins(m, t, b, x);
  }

  lemma EnvReleases(c: Config, s: State, l: EnvLabel, s': State)
    requires c.outbox && EnvStep(c, s, l) == Some(s')
    ensures s'.hist.cash.released == s.hist.cash.released && s'.hist.att == s.hist.att
    ensures forall e, t :: Requests(s', e, t) && !Requests(s, e, t) ==>
              e !in s.bus.outbox && t in s.market.tasks && s.market.tasks[t].status == ASSIGNED
  {
  }

  lemma RequestedTask(c: Config, a: Conf, e: EventId, t: TaskId)
    requires Agreed(c, a) && Requests(a.s, e, t)
    ensures LifeOk(a.s.market) && t in a.s.market.tasks && a.s.market.tasks[t].status != OPEN
  {
    assert EventOk(a.s, e);
  }

  lemma EnvFunds(c: Config, a: Conf, l: EnvLabel, b: Conf, e: EventId, t: TaskId, x: EscrowId)
    requires c.outbox && Inv(c, a) && Agreed(c, a) && Agreed(c, b) && Step(c, a, E(l), b) && Funded(a, e, t, x)
    ensures Funded(b, e, t, x)
  {
    hide EnvStep, Inv, Agreed, Requests, WinningEscrow, Forward;
    AgreedLife(c, a);
    AgreedLife(c, b);
    EnvReleases(c, a.s, l, b.s);
    RequestKeeps(c, a.s, l, b.s);
    if Requests(b.s, e, t) && WinningEscrow(b.s.market, t, x) {
      if Requests(a.s, e, t) { RequestedTask(c, a, e, t); }
      WinsBack(a.s.market, b.s.market, t, x);
      if !Requests(a.s, e, t) {
        NotYetPaid(c, a, t, x);
        EnvStays(c, a, l, b, Key(CompletionRequested, e));
      }
    }
  }

  /** A new request has not been dispatched: nobody is working on it. */
  lemma EnvStays(c: Config, a: Conf, l: EnvLabel, b: Conf, k: Key)
    requires Inv(c, a) && Step(c, a, E(l), b) && k.id !in a.s.bus.outbox
    ensures !BeforePay(b.pc, k)
  {
  }

  /** Entering the handler costs a dispatch; no step takes one back. */
  lemma DispatchFirst(c: Config, a: Conf, w: WorkerLabel, b: Conf, k: Key)
    requires Step(c, a, W(w), b) && !(a.pc.Working? && a.pc.phase.Running? && !w.Stop?)
    ensures a.s.hist.att.dispatched[k] + One(BeforePay(b.pc, k)) <= b.s.hist.att.dispatched[k]
  {
    if a.pc.Working? {
      Taken(c, a, w, b);
      hide Step, AfterBegin, AfterLookup, AfterSucceed, AfterFail, AfterAck, CutOff, HandlerStep;
      if w.Stop? {
        CutFirst(a.s, a.pc);
      } else {
        match a.pc.phase
        case Fetched => BeginFirst(c, a.s, a.pc, w.o, k);
        case LookingUp(n) => LookupFirst(a.s, a.pc, n, w.o, k);
        case Running(_, _) => assert false;
        case Returned(n) => MarkFirst(a.s, a.pc, n, w.o, k);
        case Threw(n) => MarkFirst(a.s, a.pc, n, w.o, k);
        case Acking(abort) => AckFirst(a.s, a.pc, abort, a.pc.item.pos.value, w.o, k);
      }
    } else {
      OffItem(c, a, W(w), b);
    }
  }

  lemma BeginFirst(c: Config, s: State, pc: Pc, o: Outcome, k: Key)
    requires pc.Working? && pc.phase.Fetched?
    ensures var (s', pc') := AfterBegin(c, s, pc, o);
            s.hist.att.dispatched[k] + One(BeforePay(pc', k)) <= s'.hist.att.dispatched[k]
  {
  }

  lemma LookupFirst(s: State, pc: Pc, n: int, o: Outcome, k: Key)
    requires pc.Working? && pc.phase.LookingUp?
    ensures var (s', pc') := AfterLookup(s, pc, n, o);
            s.hist.att.dispatched[k] + One(BeforePay(pc', k)) <= s'.hist.att.dispatched[k]
  {
  }

  lemma MarkFirst(s: State, pc: Pc, n: int, o: Outcome, k: Key)
    requires pc.Working?
    ensures var (s', pc') := AfterSucceed(s, pc, n, o);
            !BeforePay(pc', k) && s'.hist.att.dispatched == s.hist.att.dispatched
    ensures var (s', pc') := AfterFail(s, pc, n, o);
            !BeforePay(pc', k) && s'.hist.att.dispatched == s.hist.att.dispatched
  {
    hide BackoffMs;
  }

  lemma AckFirst(s: State, pc: Pc, abort: bool, p: nat, o: Outcome, k: Key)
    requires pc.Working?
    ensures var (s', pc') := AfterAck(s, pc, abort, p, o);
            !BeforePay(pc', k) && s'.hist.att.dispatched == s.hist.att.dispatched
  {
  }

  lemma CutFirst(s: State, pc: Pc)
    requires pc.Working?
    ensures CutOff(s, pc).hist.att.dispatched == s.hist.att.dispatched
  {
  }

  /** A step of the handler pays only the escrow it holds, and then leaves the stage before payment. */
  lemma PayOnce(c: Config, a: Conf, w: WorkerLabel, b: Conf, k: Key, x: EscrowId)
    requires a.pc.Working? && a.pc.phase.Running?
    requires HandlerStep(c, a.s, a.pc, w) == Some((b.s, b.pc))
    ensures One(BeforePay(b.pc, k)) <= One(BeforePay(a.pc, k))
    ensures b.s.hist.cash.released[x] == a.s.hist.cash.released[x]
            || (b.s.hist.cash.released[x] == a.s.hist.cash.released[x] + 1
                && a.pc.phase.handler.Release? && a.pc.phase.handler.escrow == x && !BeforePay(b.pc, k))
  {
    if !Paying(a.pc.phase.handler) { ReadFrame(c, a, w, b); }
    HandlerFrame(c, a.s, a.pc, w, b.s, b.pc);
  }

  lemma SameRequester(c: Config, a: Conf, e: EventId, t: TaskId, x: EscrowId)
    requires Inv(c, a) && Agreed(c, a) && a.pc.Working? && a.pc.phase.Running? && a.pc.phase.handler.Release?
    requires a.pc.phase.handler.escrow == x && Requests(a.s, e, t) && WinningEscrow(a.s.market, t, x)
    ensures a.pc.item.key == Key(CompletionRequested, e)
  {
    var y := PaidBid(c, a);
    var z :| Wins(a.s.market, t, z, x);
    assert y == z;
    assert EventOk(a.s, a.pc.item.key.id);
    assert Requests(a.s, a.pc.item.key.id, t);
  }

  lemma WorkerRequests(c: Config, a: Conf, w: WorkerLabel, b: Conf)
    requires Inv(c, a) && Step(c, a, W(w), b)
    ensures forall e, t :: Requests(b.s, e, t) ==> Requests(a.s, e, t)
  {
    if a.pc.Working? {
      Taken(c, a, w, b);
      hide Step, AfterBegin, AfterLookup, AfterSucceed, AfterFail, AfterAck, CutOff, HandlerStep;
      hide Inv;
      if w.Stop? {
        CutItem(a.s, a.pc);
      } else {
        match a.pc.phase
        case Fetched => BeginItem(c, a.s, a.pc, w.o);
        case LookingUp(n) => LookupItem(a.s, a.pc, n, w.o);
        case Running(_, _) => HandlerFrame(c, a.s, a.pc, w, b.s, b.pc); ItemFrame(c, a, w, b);
        case Returned(n) => MarkItem(a.s, a.pc, n, w.o);
        case Threw(n) => MarkItem(a.s, a.pc, n, w.o);
        case Acking(abort) => AckItem(a.s, a.pc, abort, a.pc.item.pos.value, w.o);
      }
    } else { OffOutbox(c, a, w, b); }
  }

  /** A request and a winner of the next state were there before. */
  lemma FundsBack(c: Config, a: Conf, w: WorkerLabel, b: Conf, e: EventId, t: TaskId, x: EscrowId)
    requires Inv(c, a) && Agreed(c, a) && Agreed(c, b) && Step(c, a, W(w), b)
    requires Requests(b.s, e, t) && WinningEscrow(b.s.market, t, x)
    ensures Requests(a.s, e, t) && WinningEscrow(a.s.market, t, x)
  {
    hide Step, Inv, Agreed, Forward, Requests, WinningEscrow;
    AgreedLife(c, a);
    AgreedLife(c, b);
    WorkerRequests(c, a, w, b);
    StepForward(c, a, W(w), b);
    RequestedTask(c, a, e, t);
    WinsBack(a.s.market, b.s.market, t, x);
  }

  lemma HandlerFunds(c: Config, a: Conf, w: WorkerLabel, b: Conf, e: EventId, t: TaskId, x: EscrowId)
    requires Inv(c, a) && Agreed(c, a) && Step(c, a, W(w), b) && a.pc.Working? && a.pc.phase.Running? && !w.Stop?
    requires Funded(a, e, t, x) && Requests(a.s, e, t) && WinningEscrow(a.s.market, t, x)
    ensures Funded(b, e, t, x)
  {
    var k := Key(CompletionRequested, e);
    Taken(c, a, w, b);
    HandlerFrame(c, a.s, a.pc, w, b.s, b.pc);
    PayOnce(c, a, w, b, k, x);
    if a.pc.phase.handler.Release? && a.pc.phase.handler.escrow == x { SameRequester(c, a, e, t, x); }
    hide Step, HandlerStep, Inv, Agreed, Requests, WinningEscrow;
  }

  lemma RestFunds(c: Config, a: Conf, w: WorkerLabel, b: Conf, e: EventId, t: TaskId, x: EscrowId)
    requires Step(c, a, W(w), b) && !(a.pc.Working? && a.pc.phase.Running? && !w.Stop?)
    requires Funded(a, e, t, x) && Requests(a.s, e, t) && WinningEscrow(a.s.market, t, x)
    ensures Funded(b, e, t, x)
  {
    hide Step, Requests, WinningEscrow;
    OtherwiseSame(c, a, w, b);
    DispatchFirst(c, a, w, b, Key(CompletionRequested, e));
  }

  lemma WorkerFunds(c: Config, a: Conf, w: WorkerLabel, b: Conf, e: EventId, t: TaskId, x: EscrowId)
    requires Inv(c, a) && Agreed(c, a) && Agreed(c, b) && Step(c, a, W(w), b) && Funded(a, e, t, x)
    ensures Funded(b, e, t, x)
  {
    hide Step, Inv, Agreed, Requests, WinningEscrow;
    if Requests(b.s, e, t) && WinningEscrow(b.s.market, t, x) {
      FundsBack(c, a, w, b, e, t, x);
      if a.pc.Working? && a.pc.phase.Running? && !w.Stop? {
        HandlerFunds(c, a, w, b, e, t, x);
      } else {
        RestFunds(c, a, w, b, e, t, x);
      }
    }
  }

  lemma {:induction false} RunFunded(c: Config, run: seq<Conf>, labels: seq<Label>, i: nat, e: EventId, t: TaskId, x: EscrowId)
    requires IsRun(c, run, labels) && i <= |labels| && c.outbox
    ensures Funded(run[i], e, t, x)
  {
    hide Inv, Agreed, WorkerStep, EnvStep, WinningEscrow;
    if i > 0 {
      RunFunded(c, run, labels, i - 1, e, t, x);
      RunAgrees(c, run, labels, i - 1);
      RunAgrees(c, run, labels, i);
      hide Funded;
      match labels[i - 1]
      case E(l) => EnvFunds(c, run[i - 1], l, run[i], e, t, x);
      case W(w) => WorkerFunds(c, run[i - 1], w, run[i], e, t, x);
    }
  }

  /** Successful releases of a task's escrow, with stops and failures anywhere: exactly one for a COMPLETED task plus
      one for each handler run cut off between the release and the COMPLETED save (plus one still waiting for that
      save), hence at most 1 + cuts; and never more than max(1, maxAttempts). */
  lemma ReleaseCount(c: Config, run: seq<Conf>, labels: seq<Label>, i: nat, t: TaskId, b: BidId)
    requires IsRun(c, run, labels) && i <= |labels| && c.outbox && IsSelected(run[i].s.market, t, b)
    ensures var s, x := run[i].s, run[i].s.market.bids[b].escrowId;
            var h := s.hist.cash;
            && t in s.market.tasks
            && h.released[x] == h.cut[x] + One(s.market.tasks[t].status == COMPLETED) + One(PaidUnsaved(run[i].pc, x))
            && h.released[x] <= 1 + h.cut[x]
            && h.released[x] <= Max(1, c.maxAttempts)
  {
    RunAgrees(c, run, labels, i);
    var s, x := run[i].s, run[i].s.market.bids[b].escrowId;
    assert Books(c, s, run[i].pc, b);
    if PaidUnsaved(run[i].pc, x) { PaidIsCompleting(c, run[i], b); }
    if s.hist.cash.released[x] > 0 {
      assert Wins(s.market, t, b, x);
      ReleasedWasRequested(c, run, labels, i, t, x);
    }
  }

  lemma ReleasedWasRequested(c: Config, run: seq<Conf>, labels: seq<Label>, i: nat, t: TaskId, x: EscrowId)
    requires IsRun(c, run, labels) && i <= |labels| && c.outbox
    requires WinningEscrow(run[i].s.market, t, x) && run[i].s.hist.cash.released[x] > 0
    ensures run[i].s.hist.cash.released[x] <= Max(1, c.maxAttempts)
  {
    RunPaidOnRequest(c, run, labels, i, t, x);
    var e :| Requests(run[i].s, e, t);
    RunFunded(c, run, labels, i, e, t, x);
    RunBudgeted(c, run, labels, i, Key(CompletionRequested, e));
  }

  /** With an outbox, an escrow is released only after its task's completion was requested by an event. */
  ghost predicate PaidOnRequest(a: Conf, t: TaskId, x: EscrowId) {
    WinningEscrow(a.s.market, t, x) && a.s.hist.cash.released[x] > 0 ==> exists e :: Requests(a.s, e, t)
  }

  /** A released escrow already had its winning task. */
  lemma PaidWins(c: Config, a: Conf, n: Market, t: TaskId, x: EscrowId)
    requires Agreed(c, a) && LifeOk(n) && Forward(a.s.market, n)
    requires a.s.hist.cash.released[x] > 0 && WinningEscrow(n, t, x)
    ensures WinningEscrow(a.s.market, t, x)
  {
    assert !Untouched(a.s, x);
    var u, y :| Wins(a.s.market, u, y, x);
    var z :| Wins(n, t, z, x);
    assert Wins(n, u, y, x) && y == z;
    assert Wins(a.s.market, t, y, x);
  }

  lemma RequestsStay(c: Config, a: Conf, l: Label, b: Conf, e: EventId, t: TaskId)
    requires Step(c, a, l, b) && Requests(a.s, e, t)
    ensures Requests(b.s, e, t)
  {
    if l.W? {
      if a.pc.Working? { ItemFrame(c, a, l.w, b); } else { OffOutbox(c, a, l.w, b); }
    }
  }

  lemma PaidOnRequestKeeps(c: Config, a: Conf, l: Label, b: Conf, t: TaskId, x: EscrowId)
    requires c.outbox && Inv(c, a) && Agreed(c, a) && Agreed(c, b) && Step(c, a, l, b) && PaidOnRequest(a, t, x)
    ensures PaidOnRequest(b, t, x)
  {
    hide Inv, Agreed, Step, Requests, WinningEscrow;
    if WinningEscrow(b.s.market, t, x) && b.s.hist.cash.released[x] > 0 {
      if a.s.hist.cash.released[x] > 0 { PaidBefore(c, a, l, b, t, x); } else { PaidFirst(c, a, l, b, t, x); }
    }
  }

  lemma PaidBefore(c: Config, a: Conf, l: Label, b: Conf, t: TaskId, x: EscrowId)
    requires Inv(c, a) && Agreed(c, a) && Agreed(c, b) && Step(c, a, l, b) && PaidOnRequest(a, t, x)
    requires WinningEscrow(b.s.market, t, x) && a.s.hist.cash.released[x] > 0
    ensures exists e :: Requests(b.s, e, t)
  {
    hide Step, Inv, Agreed, Requests, WinningEscrow, Forward;
    AgreedLife(c, b);
    StepForward(c, a, l, b);
    PaidWins(c, a, b.s.market, t, x);
    var e :| Requests(a.s, e, t);
    RequestsStay(c, a, l, b, e, t);
  }

  lemma PaidFirst(c: Config, a: Conf, l: Label, b: Conf, t: TaskId, x: EscrowId)
    requires c.outbox && Inv(c, a) && Agreed(c, a) && Agreed(c, b) && Step(c, a, l, b)
    requires WinningEscrow(b.s.market, t, x) && a.s.hist.cash.released[x] == 0 < b.s.hist.cash.released[x]
    ensures exists e :: Requests(b.s, e, t)
  {
    FirstRelease(c, a, l, b, x);
    PayingRequests(c, a, t, x);
    var e := a.pc.item.key.id;
    hide Inv, Agreed, Step, Requests;
    RequestsStay(c, a, l, b, e, t);
  }

  /** The event at the release is the task's own. */
  lemma PayingRequests(c: Config, a: Conf, t: TaskId, x: EscrowId)
    requires Inv(c, a) && Agreed(c, a) && a.pc.Working? && a.pc.phase.Running? && a.pc.phase.handler.Release?
    requires a.pc.phase.handler.escrow == x && WinningEscrow(a.s.market, t, x)
    ensures Requests(a.s, a.pc.item.key.id, t)
  {
    var y := PaidBid(c, a);
    var z :| Wins(a.s.market, t, z, x);
    assert y == z;
    assert EventOk(a.s, a.pc.item.key.id);
  }

  lemma FirstRelease(c: Config, a: Conf, l: Label, b: Conf, x: EscrowId)
    requires c.outbox && Inv(c, a) && Agreed(c, a) && Step(c, a, l, b)
    requires a.s.hist.cash.released[x] == 0 < b.s.hist.cash.released[x]
    ensures a.pc.Working? && a.pc.phase.Running? && a.pc.phase.handler.Release? && a.pc.phase.handler.escrow == x
    ensures b.s.market == a.s.market
  {
    match l
    case E(e) => EnvReleases(c, a.s, e, b.s);
    case W(w) =>
      if a.pc.Working? && a.pc.phase.Running? && !w.Stop? {
        PayOnce(c, a, w, b, a.pc.item.key, x);
        ReleaseHandlerOk(a, w.o, b);
      } else { OtherwiseSame(c, a, w, b); }
  }

  lemma {:induction false} RunPaidOnRequest(c: Config, run: seq<Conf>, labels: seq<Label>, i: nat, t: TaskId, x: EscrowId)
    requires IsRun(c, run, labels) && i <= |labels| && c.outbox
    ensures PaidOnRequest(run[i], t, x)
  {
    hide Inv, Agreed, WorkerStep, EnvStep, WinningEscrow;
    if i > 0 {
      RunPaidOnRequest(c, run, labels, i - 1, t, x);
      RunAgrees(c, run, labels, i - 1);
      RunAgrees(c, run, labels, i);
      hide PaidOnRequest;
      PaidOnRequestKeeps(c, run[i - 1], labels[i - 1], run[i], t, x);
    }
  }
}
