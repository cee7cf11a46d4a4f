/** Tasks, bids and the API handlers that change them. Each handler is one atomic step. */
module Market {
  import opened Types

  datatype TaskStatus = OPEN | ASSIGNED | COMPLETING | COMPLETED | EXPIRED
  datatype BidStatus = PENDING | SELECTED | REJECTED

  datatype Task = Task(requester: Account, reserve: nat, deadline: int, status: TaskStatus)

  datatype Bid = Bid(taskId: TaskId, executor: Account, amount: nat, collateral: nat,
                     escrowId: EscrowId, status: BidStatus, createdAt: int)

  /** The two stores, and the ids the escrow provider has handed out so far. */
  datatype Market = Market(tasks: map<TaskId, Task>, bids: map<BidId, Bid>, escrows: set<EscrowId>)

  // ---------- Listings ----------

  /** `order` is a possible answer of `findByTaskId`: each bid of the task once, in some order. */
  predicate Listing(m: Market, t: TaskId, order: seq<BidId>) {
    && Distinct(order)
    && (forall b :: b in order ==> b in m.bids && m.bids[b].taskId == t)
    && (forall b :: b in m.bids && m.bids[b].taskId == t ==> b in order)
  }

  predicate IsSelected(m: Market, t: TaskId, b: BidId) {
    b in m.bids && m.bids[b].taskId == t && m.bids[b].status == SELECTED
  }

  predicate IsPending(m: Market, t: TaskId, b: BidId) {
    b in m.bids && m.bids[b].taskId == t && m.bids[b].status == PENDING
  }

  /** `choice` is a possible answer of `findByTaskId(t).find(SELECTED)`. */
  predicate Found(m: Market, t: TaskId, choice: Option<BidId>) {
    match choice
    case Some(b) => IsSelected(m, t, b)
    case None => forall b :: b in m.bids ==> !IsSelected(m, t, b)
  }

  function Pending(bids: map<BidId, Bid>, order: seq<BidId>): (r: seq<BidId>)
    requires forall b :: b in order ==> b in bids
    ensures forall b :: b in r <==> b in order && bids[b].status == PENDING
  {
    if order == [] then []
    else
      var rest := Pending(bids, order[1..]);
      if bids[order[0]].status == PENDING then [order[0]] + rest else rest
  }

  // ---------- Auction ----------

  /** The test inside the reduce: `a` replaces the current lowest `b`. */
  predicate Beats(a: Bid, b: Bid) {
    a.amount < b.amount || (a.amount == b.amount && a.createdAt < b.createdAt)
  }

  function Better(bids: map<BidId, Bid>, lowest: BidId, b: BidId): BidId
    requires lowest in bids && b in bids
  {
    if Beats(bids[b], bids[lowest]) then b else lowest
  }

  /** The left-to-right reduce over the pending bids. */
  function Lowest(bids: map<BidId, Bid>, pending: seq<BidId>): (w: BidId)
    requires pending != []
    requires forall b :: b in pending ==> b in bids
    ensures w in pending
  {
    var n := |pending| - 1;
    if n == 0 then pending[0] else Better(bids, Lowest(bids, pending[..n]), pending[n])
  }

  function Assigned(m: Market, t: TaskId, winner: BidId, pending: seq<BidId>): Market
    requires t in m.tasks
  {
    m.(tasks := m.tasks[t := m.tasks[t].(status := ASSIGNED)],
       bids := map b | b in m.bids ::
         if b == winner then m.bids[b].(status := SELECTED)
         else if b in pending then m.bids[b].(status := REJECTED)
         else m.bids[b])
  }

  const CREATED := 201
  const OK := 200
  const ACCEPTED := 202
  const FORBIDDEN := 403
  const NOT_FOUND := 404
  const CONFLICT := 409
  const INTERNAL_ERROR := 500
  const BAD_GATEWAY := 502

  function SelectWinner(m: Market, t: TaskId, order: seq<BidId>): (Market, int)
    requires Listing(m, t, order)
  {
    if t !in m.tasks then (m, NOT_FOUND)
    else if m.tasks[t].status != OPEN then (m, CONFLICT)
    else
      var pending := Pending(m.bids, order);
      if pending == [] then (m, CONFLICT)
      else (Assigned(m, t, Lowest(m.bids, pending), pending), OK)
  }

  /** `POST /bids` from the task lookup on. `escrow` is the provider's answer (None: it threw).
      `auto` is the listing that auto-selection read, or None when auto-selection was skipped. */
  function PlaceBid(m: Market, id: BidId, t: TaskId, executor: Account, amount: nat, collateral: nat,
                    escrow: Option<EscrowId>, now: int, auto: Option<seq<BidId>>): (Market, int)
    requires auto.Some? && escrow.Some? ==>
               Listing(WithBid(m, id, t, executor, amount, collateral, escrow.value, now), t, auto.value)
  {
    if t !in m.tasks then (m, NOT_FOUND)
    else if m.tasks[t].status != OPEN then (m, CONFLICT)
    else if escrow.None? then (m, BAD_GATEWAY)
    else
      var saved := WithBid(m, id, t, executor, amount, collateral, escrow.value, now);
      if auto.None? then (saved, CREATED) else (SelectWinner(saved, t, auto.value).0, CREATED)
  }

  function WithBid(m: Market, id: BidId, t: TaskId, executor: Account, amount: nat, collateral: nat,
                   escrow: EscrowId, now: int): Market
  {
    m.(bids := m.bids[id := Bid(t, executor, amount, collateral, escrow, PENDING, now)],
       escrows := m.escrows + {escrow})
  }

  function WithStatus(m: Market, t: TaskId, task: Task, status: TaskStatus): Market {
    m.(tasks := m.tasks[t := task.(status := status)])
  }

  /** The answer of `POST /tasks/:id/complete`. Only ACCEPTED-with-save (None) goes on to settle. */
  function CompleteRefusal(m: Market, t: TaskId, requester: Account, choice: Option<BidId>): Option<int> {
    if t !in m.tasks then Some(NOT_FOUND)
    else if m.tasks[t].requester != requester then Some(FORBIDDEN)
    else if m.tasks[t].status == COMPLETED then Some(OK)
    else if m.tasks[t].status == COMPLETING then Some(ACCEPTED)
    else if m.tasks[t].status != ASSIGNED then Some(CONFLICT)
    else if choice.None? then Some(CONFLICT)
    else None
  }
}
