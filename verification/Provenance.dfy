/** Where tasks and bids come from, who moves a task on, and which bid is selected, over runs: all in terms of the
    requests that were made. */
module Provenance {
  import opened Types
  import opened Market
  import opened Protocol
  import opened Delivery
  import opened NoLoss
  import opened Lifecycle
  import opened SettlementProofs
  import opened Guarantees

  // ---------- Steps ----------

  /** A worker changes no bid, and of the tasks only the status of one that is completing. */
  lemma WorkerMarket(c: Config, a: Conf, w: WorkerLabel, b: Conf)
    requires Inv(c, a) && Agreed(c, a) && Step(c, a, W(w), b)
    ensures b.s.market.bids == a.s.market.bids && b.s.market.tasks.Keys == a.s.market.tasks.Keys
    ensures forall t :: t in a.s.market.tasks ==>
              b.s.market.tasks[t] == a.s.market.tasks[t] || (Completing(a.s.market, t) && Completed(b.s.market, t)
                && b.s.market.tasks[t] == a.s.market.tasks[t].(status := COMPLETED))
  {
    if a.pc.Working? && a.pc.phase.Running? && !w.Stop? {
      Taken(c, a, w, b);
      hide Step, Inv, Agreed;
      if a.pc.phase.handler.SaveTask? {
        var y := PaidBid(c, a);
        SaveBooks(c, a, w.o, b, y);
      } else if a.pc.phase.handler.Release? { ReleaseSame(c, a, w, b); }
      else { ReadFrame(c, a, w, b); }
      hide HandlerStep;
    } else { OtherwiseSame(c, a, w, b); }
  }

  lemma ReleaseSame(c: Config, a: Conf, w: WorkerLabel, b: Conf)
    requires a.pc.Working? && a.pc.phase.Running? && a.pc.phase.handler.Release?
    requires HandlerStep(c, a.s, a.pc, w) == Some((b.s, b.pc))
    ensures b.s.market == a.s.market
  {
  }

  /** Bids come into being by their request only, and keep what it said. */
  lemma EnvBids(c: Config, s: State, l: EnvLabel, s': State, b: BidId)
    requires LifeOk(s.market) && EnvStep(c, s, l) == Some(s') && b in s'.market.bids
    ensures if b in s.market.bids then s'.market.bids[b] == s.market.bids[b].(status := s'.market.bids[b].status)
            else l.NewBid? && l.b == b && Says(l, s.clock, s'.market.bids[b])
  {
    RequestKeeps(c, s, l, s');
    if l.NewBid? {
      if l.bt in s.market.tasks && s.market.tasks[l.bt].status == OPEN && l.escrow.Some? {
        var saved := WithBid(s.market, l.b, l.bt, l.executor, l.amount, l.collateral, l.escrow.value, s.clock);
        if l.auto.Some? { SelectSameBids(saved, l.bt, l.auto.value); }
      }
    } else if l.Select? {
      SelectSameBids(s.market, l.st, l.order);
    }
    hide LifeOk, SelectWinner, Listing;
  }

  /** The bid holds what its request says, and the time at which it was made. */
  predicate Says(l: EnvLabel, now: int, bid: Bid) {
    && l.NewBid? && bid.taskId == l.bt && bid.executor == l.executor && bid.amount == l.amount
    && bid.collateral == l.collateral && l.escrow == Some(bid.escrowId) && bid.createdAt == now
  }

  /** What an API request may do to a task. A completion is made by the task's requester; an expiry comes after the
      deadline. */
  predicate MovesTask(c: Config, s: State, l: EnvLabel, t: TaskId, status: TaskStatus) {
    t in s.market.tasks && var task := s.market.tasks[t];
    match status
    case OPEN => false
    case ASSIGNED => task.status == OPEN && ((l.Select? && l.st == t) || (l.NewBid? && l.bt == t && l.auto.Some?))
    case COMPLETING => task.status == ASSIGNED && c.outbox && l.Complete? && l.ct == t && l.who == task.requester
    case COMPLETED => task.status == ASSIGNED && !c.outbox && l.CompleteSync? && l.yt == t && l.ywho == task.requester
    case EXPIRED => task.status == ASSIGNED && l.Expire? && l.et == t && task.deadline < s.clock
  }

  lemma SelectTasks(m: Market, t: TaskId, order: seq<BidId>, u: TaskId)
    requires Listing(m, t, order) && u in m.tasks
    ensures var n := SelectWinner(m, t, order).0;
            && n.tasks.Keys == m.tasks.Keys
            && (n.tasks[u] == m.tasks[u]
                || (u == t && m.tasks[u].status == OPEN && n.tasks[u] == m.tasks[u].(status := ASSIGNED)))
  {
    hide Pending, Lowest, Listing;
  }

  lemma EnvTasks(c: Config, s: State, l: EnvLabel, s': State, t: TaskId)
    requires EnvStep(c, s, l) == Some(s') && t in s'.market.tasks
    ensures if t in s.market.tasks then
              && s'.market.tasks[t] == s.market.tasks[t].(status := s'.market.tasks[t].status)
              && (s'.market.tasks[t].status != s.market.tasks[t].status ==> MovesTask(c, s, l, t, s'.market.tasks[t].status))
            else
              l.NewTask? && s'.market.tasks[t] == Task(l.requester, l.reserve, l.deadline, OPEN) && l.t == t
  {
    if l.NewBid? {
      if l.bt in s.market.tasks && s.market.tasks[l.bt].status == OPEN && l.escrow.Some? {
        var saved := WithBid(s.market, l.b, l.bt, l.executor, l.amount, l.collateral, l.escrow.value, s.clock);
        if l.auto.Some? { SelectTasks(saved, l.bt, l.auto.value, t); }
      }
    } else if l.Select? && t in s.market.tasks {
      SelectTasks(s.market, l.st, l.order, t);
    }
    hide SelectWinner, Listing, Found;
  }

  // ---------- Runs ----------

  /** Step `j` is the request that placed the bid. */
  predicate PlacedAt(run: seq<Conf>, labels: seq<Label>, j: nat, b: BidId, bid: Bid) {
    j < |labels| && j < |run| && labels[j].E? && labels[j].e.NewBid? && labels[j].e.b == b
    && Says(labels[j].e, run[j].s.clock, bid)
  }

  /** Every bid was placed by a request and holds what it said: task, executor, amount, collateral, escrow and time. */
  lemma {:induction false} BidAsPlaced(c: Config, run: seq<Conf>, labels: seq<Label>, i: nat, b: BidId) returns (j: nat)
    requires IsRun(c, run, labels) && i <= |labels| && b in run[i].s.market.bids
    ensures j < i && PlacedAt(run, labels, j, b, run[i].s.market.bids[b])
  {
    hide WorkerStep, EnvStep, Inv, Agreed, LifeOk;
    RunAgrees(c, run, labels, i - 1);
    var a, l := run[i - 1], labels[i - 1];
    AgreedLife(c, a);
    match l
    case W(w) =>
      WorkerMarket(c, a, w, run[i]);
      j := BidAsPlaced(c, run, labels, i - 1, b);
    case E(e) =>
      EnvBids(c, a.s, e, run[i].s, b);
      if b in a.s.market.bids { j := BidAsPlaced(c, run, labels, i - 1, b); } else { j := i - 1; }
  }

  /** Step `j` is the request that posted the task. */
  predicate PostedAt(labels: seq<Label>, j: nat, t: TaskId, task: Task) {
    j < |labels| && labels[j] == E(NewTask(t, task.requester, task.reserve, task.deadline))
  }

  /** Every task was posted by a request and keeps its requester, reserve price and deadline. */
  lemma {:induction false} TaskAsPosted(c: Config, run: seq<Conf>, labels: seq<Label>, i: nat, t: TaskId) returns (j: nat)
    requires IsRun(c, run, labels) && i <= |labels| && t in run[i].s.market.tasks
    ensures j < i && PostedAt(labels, j, t, run[i].s.market.tasks[t])
  {
    hide WorkerStep, EnvStep, Inv, Agreed;
    RunAgrees(c, run, labels, i - 1);
    var a, l := run[i - 1], labels[i - 1];
    match l
    case W(w) =>
      WorkerMarket(c, a, w, run[i]);
      j := TaskAsPosted(c, run, labels, i - 1, t);
    case E(e) =>
      EnvTasks(c, a.s, e, run[i].s, t);
      if t in a.s.market.tasks { j := TaskAsPosted(c, run, labels, i - 1, t); } else { j := i - 1; }
  }

  predicate Beyond(m: Market, t: TaskId) { t in m.tasks && m.tasks[t].status != OPEN && m.tasks[t].status != ASSIGNED }

  /** The step that took the task out of ASSIGNED. */
  lemma {:induction false} Leaves(c: Config, run: seq<Conf>, labels: seq<Label>, i: nat, t: TaskId) returns (k: nat)
    requires IsRun(c, run, labels) && i <= |labels| && Beyond(run[i].s.market, t)
    ensures k < i && labels[k].E?
    ensures MovesTask(c, run[k].s, labels[k].e, t,
                      if run[i].s.market.tasks[t].status == COMPLETED && c.outbox then COMPLETING
                      else run[i].s.market.tasks[t].status)
  {
    hide WorkerStep, EnvStep, Inv, Agreed, MovesTask;
    RunAgrees(c, run, labels, i - 1);
    var a, l := run[i - 1], labels[i - 1];
    match l
    case W(w) =>
      WorkerMarket(c, a, w, run[i]);
      k := Leaves(c, run, labels, i - 1, t);
      if !c.outbox { NeverCompleting(c, run, labels, i - 1, t, k); }
    case E(e) =>
      EnvTasks(c, a.s, e, run[i].s, t);
      if Beyond(a.s.market, t) && a.s.market.tasks[t].status == run[i].s.market.tasks[t].status {
        k := Leaves(c, run, labels, i - 1, t);
      } else {
        k := i - 1;
        MovedFrom(c, a.s, e, t, run[i].s.market.tasks[t].status);
      }
  }

  lemma MovedFrom(c: Config, s: State, l: EnvLabel, t: TaskId, status: TaskStatus)
    requires MovesTask(c, s, l, t, status)
    ensures status == COMPLETED ==> !c.outbox
  {
  }

  lemma NeverCompleting(c: Config, run: seq<Conf>, labels: seq<Label>, i: nat, t: TaskId, k: nat)
    requires k < |labels| && k < |run| && labels[k].E? && !c.outbox && i < |run| && t in run[i].s.market.tasks
    requires MovesTask(c, run[k].s, labels[k].e, t, run[i].s.market.tasks[t].status)
    ensures run[i].s.market.tasks[t].status != COMPLETING
  {
  }

  /** Only the requester who posted a task completes it: whoever made it COMPLETING or COMPLETED called with the account
      it was posted with. And it expires only after the deadline it was posted with. */
  lemma MovedByRight(c: Config, run: seq<Conf>, labels: seq<Label>, i: nat, t: TaskId) returns (j: nat, k: nat)
    requires IsRun(c, run, labels) && i <= |labels| && Beyond(run[i].s.market, t)
    ensures j < k < i && labels[j].E? && labels[j].e.NewTask? && labels[j].e.t == t && labels[k].E?
    ensures var posted, moved := labels[j].e, labels[k].e;
            if run[i].s.market.tasks[t].status == EXPIRED then
              moved.Expire? && moved.et == t && posted.deadline < run[k].s.clock
            else if c.outbox then moved.Complete? && moved.ct == t && moved.who == posted.requester
            else moved.CompleteSync? && moved.yt == t && moved.ywho == posted.requester
  {
    k := Leaves(c, run, labels, i, t);
    j := TaskAsPosted(c, run, labels, k, t);
  }

  // ---------- The winner ----------

  /** `w` asked for less than `b`, or for the same and not later. */
  predicate AtMost(w: Bid, b: Bid) {
    w.amount < b.amount || (w.amount == b.amount && w.createdAt <= b.createdAt)
  }

  ghost predicate LeastWins(bids: map<BidId, Bid>) {
    forall w, b :: w in bids && b in bids && bids[w].status == SELECTED && bids[b].taskId == bids[w].taskId ==>
      AtMost(bids[w], bids[b])
  }

  lemma SelectLeast(m: Market, t: TaskId, order: seq<BidId>)
    requires LifeOk(m) && LeastWins(m.bids) && Listing(m, t, order)
    ensures LeastWins(SelectWinner(m, t, order).0.bids)
  {
    if t in m.tasks && m.tasks[t].status == OPEN && Pending(m.bids, order) != [] {
      assert TaskOk(m, t);
      var pending := Pending(m.bids, order);
      var i := LowestIsFirstLeast(m.bids, pending);
      hide Lowest;
      forall b | b in m.bids && m.bids[b].taskId == t ensures AtMost(m.bids[pending[i]], m.bids[b]) {
        assert b in order && b in pending;
        var j :| 0 <= j < |pending| && pending[j] == b;
        assert !Beats(m.bids[pending[j]], m.bids[pending[i]]);
      }
    }
  }

  lemma EnvLeast(c: Config, s: State, l: EnvLabel, s': State)
    requires LifeOk(s.market) && LeastWins(s.market.bids) && EnvStep(c, s, l) == Some(s')
    ensures LeastWins(s'.market.bids)
  {
    if l.NewBid? {
      if l.bt in s.market.tasks && s.market.tasks[l.bt].status == OPEN && l.escrow.Some? {
        var saved := WithBid(s.market, l.b, l.bt, l.executor, l.amount, l.collateral, l.escrow.value, s.clock);
        assert TaskOk(s.market, l.bt);
        assert LeastWins(saved.bids);
        BidKeeps(s.market, l.b, l.bt, l.executor, l.amount, l.collateral, l.escrow.value, s.clock);
        if l.auto.Some? { SelectLeast(saved, l.bt, l.auto.value); }
      }
    } else if l.Select? {
      SelectLeast(s.market, l.st, l.order);
    }
    hide SelectWinner, Listing, LifeOk, LeastWins, Found;
  }

  lemma {:induction false} RunLeast(c: Config, run: seq<Conf>, labels: seq<Label>, i: nat)
    requires IsRun(c, run, labels) && i <= |labels|
    ensures LeastWins(run[i].s.market.bids)
  {
    hide WorkerStep, EnvStep, Inv, Agreed, LifeOk;
    if i > 0 {
      RunLeast(c, run, labels, i - 1);
      RunAgrees(c, run, labels, i - 1);
      AgreedLife(c, run[i - 1]);
      match labels[i - 1]
      case W(w) => WorkerMarket(c, run[i - 1], w, run[i]);
      case E(e) => EnvLeast(c, run[i - 1].s, e, run[i].s);
    }
  }

  /** The selected bid of a task asked for the least amount of all bids on it, as their requests said, and was the earliest
      of those that asked for as little. */
  lemma WinnerAskedLeast(c: Config, run: seq<Conf>, labels: seq<Label>, i: nat, t: TaskId, w: BidId, b: BidId)
    returns (jw: nat, jb: nat)
    requires IsRun(c, run, labels) && i <= |labels| && IsSelected(run[i].s.market, t, w)
    requires b in run[i].s.market.bids && run[i].s.market.bids[b].taskId == t
    ensures jw < i && PlacedAt(run, labels, jw, w, run[i].s.market.bids[w])
    ensures jb < i && PlacedAt(run, labels, jb, b, run[i].s.market.bids[b])
    ensures labels[jw].e.amount < labels[jb].e.amount
            || (labels[jw].e.amount == labels[jb].e.amount && run[jw].s.clock <= run[jb].s.clock)
  {
    RunLeast(c, run, labels, i);
    jw := BidAsPlaced(c, run, labels, i, w);
    jb := BidAsPlaced(c, run, labels, i, b);
    hide IsRun;
    assert AtMost(run[i].s.market.bids[w], run[i].s.market.bids[b]);
  }
}
