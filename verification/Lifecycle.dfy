/** The marketplace stores under every API request and worker save. */
module Lifecycle {
  import opened Types
  import opened Consumption
  import opened Market
  import opened Protocol
  import opened Delivery
  import opened NoLoss

  // ---------- The auction ----------

  /** `i` is the first position of a least (amount, createdAt) pair. */
  ghost predicate FirstLeast(bids: map<BidId, Bid>, p: seq<BidId>, i: int)
    requires forall b :: b in p ==> b in bids
  {
    && 0 <= i < |p|
    && (forall j :: 0 <= j < |p| ==> !Beats(bids[p[j]], bids[p[i]]))
    && (forall j :: 0 <= j < i ==> Beats(bids[p[i]], bids[p[j]]))
  }

  /** The reduce returns the first of the least pending bids. */
  lemma {:induction false} LowestIsFirstLeast(bids: map<BidId, Bid>, p: seq<BidId>) returns (i: int)
    requires p != [] && forall b :: b in p ==> b in bids
    ensures FirstLeast(bids, p, i) && Lowest(bids, p) == p[i]
  {
    var n := |p| - 1;
    if n == 0 { i := 0; return; }
    i := LowestIsFirstLeast(bids, p[..n]);
    assert forall j :: 0 <= j < n ==> p[..n][j] == p[j];
    if Beats(bids[p[n]], bids[p[i]]) { i := n; }
  }

  predicate SamePair(a: Bid, b: Bid) {
    a.amount == b.amount && a.createdAt == b.createdAt
  }

  /** When no two pending bids share a pair, every listing of the same bids has the same winner. */
  lemma WinnerIgnoresOrder(bids: map<BidId, Bid>, p: seq<BidId>, q: seq<BidId>)
    requires p != [] && (forall b :: b in p ==> b in bids) && (forall b :: b in p <==> b in q)
    requires forall x, y :: x in p && y in p && SamePair(bids[x], bids[y]) ==> x == y
    ensures q != [] && Lowest(bids, p) == Lowest(bids, q)
  {
    assert p[0] in q;
    var i := LowestIsFirstLeast(bids, p);
    var j := LowestIsFirstLeast(bids, q);
    assert p[i] in q && q[j] in p;
    assert SamePair(bids[p[i]], bids[q[j]]);
  }

  /** Otherwise the order decides: any least bid wins in a listing that starts with it. */
  lemma TieGoesToFirst(bids: map<BidId, Bid>, p: seq<BidId>)
    requires p != [] && forall b :: b in p ==> b in bids
    requires forall j :: 0 <= j < |p| ==> !Beats(bids[p[j]], bids[p[0]])
    ensures Lowest(bids, p) == p[0]
  {
    var i := LowestIsFirstLeast(bids, p);
  }

  // ---------- The lifecycle invariant ----------

  ghost predicate TaskOk(m: Market, t: TaskId)
    requires t in m.tasks
  {
    if m.tasks[t].status == OPEN then
      forall b :: b in m.bids && m.bids[b].taskId == t ==> m.bids[b].status == PENDING
    else
      && (exists b :: IsSelected(m, t, b))
      && (forall x, y :: IsSelected(m, t, x) && IsSelected(m, t, y) ==> x == y)
      && (forall b :: !IsPending(m, t, b))
  }

  /** Open tasks have only pending bids; every other task has exactly one selected and no pending bid. Bids
      belong to tasks, and each has an escrow of its own. */
  ghost predicate LifeOk(m: Market) {
    && (forall t :: t in m.tasks ==> TaskOk(m, t))
    && (forall b :: b in m.bids ==> m.bids[b].taskId in m.tasks && m.bids[b].escrowId in m.escrows)
    && (forall x, y :: x in m.bids && y in m.bids && m.bids[x].escrowId == m.bids[y].escrowId ==> x == y)
  }

  predicate Later(a: TaskStatus, b: TaskStatus) {
    match a
    case OPEN => true
    case ASSIGNED => b != OPEN
    case COMPLETING => b == COMPLETING || b == COMPLETED
    case _ => b == a
  }

  /** What a step may do to tasks and bids: statuses move forward along the lifecycle, a decided bid stays decided,
      and nothing else about a task or a bid changes. */
  ghost predicate Forward(m: Market, n: Market) {
    && (forall t :: t in m.tasks ==>
          t in n.tasks && Later(m.tasks[t].status, n.tasks[t].status)
          && n.tasks[t] == m.tasks[t].(status := n.tasks[t].status))
    && (forall b :: b in m.bids ==>
          b in n.bids && n.bids[b] == m.bids[b].(status := n.bids[b].status)
          && (m.bids[b].status != PENDING ==> n.bids[b].status == m.bids[b].status))
    && m.escrows <= n.escrows
  }

  /** A task whose own bids did not change, and that is open as before or not as before, stays in order. */
  lemma SameBids(m: Market, n: Market, t: TaskId)
    requires t in m.tasks && t in n.tasks && TaskOk(m, t)
    requires m.tasks[t].status == OPEN <==> n.tasks[t].status == OPEN
    requires forall b :: b in m.bids && m.bids[b].taskId == t ==> b in n.bids && n.bids[b] == m.bids[b]
    requires forall b :: b in n.bids && n.bids[b].taskId == t ==> b in m.bids && n.bids[b] == m.bids[b]
    ensures TaskOk(n, t)
  {
    if m.tasks[t].status != OPEN {
      var b :| IsSelected(m, t, b);
      assert IsSelected(n, t, b);
      forall p, q | IsSelected(n, t, p) && IsSelected(n, t, q) ensures p == q {
        assert IsSelected(m, t, p) && IsSelected(m, t, q);
      }
      forall p ensures !IsPending(n, t, p) { assert !IsPending(m, t, p); }
    }
  }

  /** The task a selection assigns: the winner is its one selected bid, all others are rejected. */
  lemma AssignedBids(m: Market, t: TaskId, order: seq<BidId>)
    requires LifeOk(m) && Listing(m, t, order) && t in m.tasks && m.tasks[t].status == OPEN
    requires Pending(m.bids, order) != []
    ensures var p := Pending(m.bids, order);
            var n := Assigned(m, t, Lowest(m.bids, p), p);
            && IsSelected(n, t, Lowest(m.bids, p))
            && forall b :: b in m.bids ==>
                 n.bids[b] == if m.bids[b].taskId != t then m.bids[b]
                              else m.bids[b].(status := if b == Lowest(m.bids, p) then SELECTED else REJECTED)
  {
    var p := Pending(m.bids, order);
    var w := Lowest(m.bids, p);
    var n := Assigned(m, t, w, p);
    assert TaskOk(m, t);
    forall b | b in m.bids
      ensures n.bids[b] == if m.bids[b].taskId != t then m.bids[b]
                           else m.bids[b].(status := if b == w then SELECTED else REJECTED)
    {
      if m.bids[b].taskId == t { assert b in order && b in p; }
    }
  }

  lemma AssignedOk(m: Market, t: TaskId, order: seq<BidId>)
    requires LifeOk(m) && Listing(m, t, order) && t in m.tasks && m.tasks[t].status == OPEN
    requires Pending(m.bids, order) != []
    ensures var p := Pending(m.bids, order);
            var n := Assigned(m, t, Lowest(m.bids, p), p);
            && TaskOk(n, t)
            && forall b :: b in m.bids ==>
                 n.bids[b] == if m.bids[b].taskId != t then m.bids[b]
                              else m.bids[b].(status := if b == Lowest(m.bids, p) then SELECTED else REJECTED)
  {
    AssignedBids(m, t, order);
    var w := Lowest(m.bids, Pending(m.bids, order));
    var n := Assigned(m, t, w, Pending(m.bids, order));
    assert n.bids.Keys == m.bids.Keys && n.tasks[t].status == ASSIGNED;
    hide Pending, Lowest, LifeOk, Listing, Assigned;
    DecidedOk(n, t, w);
  }

  /** One selected bid, all others rejected. */
  lemma DecidedOk(n: Market, t: TaskId, w: BidId)
    requires t in n.tasks && n.tasks[t].status != OPEN && IsSelected(n, t, w)
    requires forall b :: b in n.bids && n.bids[b].taskId == t && b != w ==> n.bids[b].status == REJECTED
    ensures TaskOk(n, t)
  {
  }

  /** A market that differs from `m` in one task, assigned, and in the statuses of that task's bids. */
  lemma AssignKeeps(m: Market, n: Market, t: TaskId)
    requires LifeOk(m) && t in m.tasks && m.tasks[t].status == OPEN
    requires n.tasks == m.tasks[t := m.tasks[t].(status := ASSIGNED)] && n.escrows == m.escrows && TaskOk(n, t)
    requires n.bids.Keys == m.bids.Keys
    requires forall b :: b in m.bids ==>
               n.bids[b] == if m.bids[b].taskId != t then m.bids[b] else m.bids[b].(status := n.bids[b].status)
    ensures LifeOk(n) && Forward(m, n)
  {
    forall x | x in n.tasks ensures TaskOk(n, x) {
      if x != t { assert TaskOk(m, x); SameBids(m, n, x); }
    }
    forall b | b in n.bids
      ensures n.bids[b].taskId == m.bids[b].taskId && n.bids[b].escrowId == m.bids[b].escrowId
    {
      assert b in m.bids;
    }
    AssignForward(m, n, t);
    hide TaskOk, Forward;
  }

  lemma AssignForward(m: Market, n: Market, t: TaskId)
    requires t in m.tasks && m.tasks[t].status == OPEN && TaskOk(m, t)
    requires n.tasks == m.tasks[t := m.tasks[t].(status := ASSIGNED)] && n.escrows == m.escrows
    requires n.bids.Keys == m.bids.Keys
    requires forall b :: b in m.bids ==>
               n.bids[b] == if m.bids[b].taskId != t then m.bids[b] else m.bids[b].(status := n.bids[b].status)
    ensures Forward(m, n)
  {
  }

  lemma SelectKeeps(m: Market, t: TaskId, order: seq<BidId>)
    requires LifeOk(m) && Listing(m, t, order)
    ensures LifeOk(SelectWinner(m, t, order).0) && Forward(m, SelectWinner(m, t, order).0)
  {
    if t in m.tasks && m.tasks[t].status == OPEN && Pending(m.bids, order) != [] {
      hide LifeOk, Forward, TaskOk, Listing, Pending, Lowest;
      AssignedOk(m, t, order);
      AssignKeeps(m, SelectWinner(m, t, order).0, t);
    } else {
      SelfForward(m);
    }
  }

  lemma SelfForward(m: Market)
    ensures Forward(m, m)
  {
  }

  lemma BidKeeps(m: Market, id: BidId, t: TaskId, executor: Account, amount: nat, collateral: nat,
                 escrow: EscrowId, now: int)
    requires LifeOk(m) && t in m.tasks && m.tasks[t].status == OPEN && id !in m.bids && escrow !in m.escrows
    ensures var n := WithBid(m, id, t, executor, amount, collateral, escrow, now); LifeOk(n) && Forward(m, n)
  {
    var n := WithBid(m, id, t, executor, amount, collateral, escrow, now);
    forall x | x in n.tasks ensures TaskOk(n, x) {
      if x != t { SameBids(m, n, x); } else { assert TaskOk(m, x); }
    }
  }

  lemma StatusKeeps(m: Market, t: TaskId, status: TaskStatus)
    requires LifeOk(m) && t in m.tasks && m.tasks[t].status != OPEN && Later(m.tasks[t].status, status)
    ensures LifeOk(WithStatus(m, t, m.tasks[t], status)) && Forward(m, WithStatus(m, t, m.tasks[t], status))
  {
    var n := WithStatus(m, t, m.tasks[t], status);
    forall x | x in n.tasks ensures TaskOk(n, x) { SameBids(m, n, x); }
  }

  lemma NewTaskKeeps(m: Market, t: TaskId, task: Task)
    requires LifeOk(m) && t !in m.tasks && task.status == OPEN
    ensures var n := m.(tasks := m.tasks[t := task]); LifeOk(n) && Forward(m, n)
  {
    var n := m.(tasks := m.tasks[t := task]);
    forall x | x in n.tasks && x != t ensures TaskOk(n, x) { SameBids(m, n, x); }
  }

  lemma ForwardTrans(m: Market, n: Market, o: Market)
    requires Forward(m, n) && Forward(n, o)
    ensures Forward(m, o)
  {
    forall t | t in m.tasks
      ensures t in o.tasks && Later(m.tasks[t].status, o.tasks[t].status)
      ensures o.tasks[t] == m.tasks[t].(status := o.tasks[t].status)
    {
      assert t in n.tasks && n.tasks[t] == m.tasks[t].(status := n.tasks[t].status);
      assert o.tasks[t] == n.tasks[t].(status := o.tasks[t].status);
    }
    forall b | b in m.bids
      ensures b in o.bids && o.bids[b] == m.bids[b].(status := o.bids[b].status)
      ensures m.bids[b].status != PENDING ==> o.bids[b].status == m.bids[b].status
    {
      assert n.bids[b] == m.bids[b].(status := n.bids[b].status);
      assert o.bids[b] == n.bids[b].(status := o.bids[b].status);
    }
  }

  /** Every API request keeps the lifecycle invariant and moves only forward. */
  lemma RequestKeeps(c: Config, s: State, l: EnvLabel, s': State)
    requires LifeOk(s.market) && EnvStep(c, s, l) == Some(s')
    ensures LifeOk(s'.market) && Forward(s.market, s'.market)
  {
    hide LifeOk, Forward, Listing, SelectWinner, Found;
    var m := s.market;
    SelfForward(m);
    match l
    case Elapse(_) =>
    case Emit(_, _) =>
    case NewTask(t, requester, reserve, deadline) => NewTaskKeeps(m, t, Task(requester, reserve, deadline, OPEN));
    case Select(t, order) => SelectKeeps(m, t, order);
    case NewBid(b, t, executor, amount, collateral, escrow, auto) =>
      if t in m.tasks && m.tasks[t].status == OPEN && escrow.Some? {
        BidKeeps(m, b, t, executor, amount, collateral, escrow.value, s.clock);
        if auto.Some? {
          var n := WithBid(m, b, t, executor, amount, collateral, escrow.value, s.clock);
          SelectKeeps(n, t, auto.value);
          ForwardTrans(m, n, SelectWinner(n, t, auto.value).0);
        }
      }
    case Complete(t, who, choice, event) =>
      if CompleteRefusal(m, t, who, choice).None? { StatusKeeps(m, t, COMPLETING); }
    case CompleteSync(t, who, choice, out) =>
      if CompleteRefusal(m, t, who, choice).None? { StatusKeeps(m, t, COMPLETED); }
    case Expire(t, choice, out) => StatusKeeps(m, t, EXPIRED);
  }
}
