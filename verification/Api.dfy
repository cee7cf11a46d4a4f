/** The API handlers and the timeout sweep as they change the stores. Each one is proved to take the
    corresponding step of the transition system. */
module Api {
  import opened Types
  import opened Market
  import Auction = Market
  import opened Outbox
  import opened Protocol
  import Lifecycle
  import Provenance

  /** The state after a series of requests. */
  function AfterRequests(c: Config, s: State, labels: seq<EnvLabel>): Option<State>
    decreases |labels|
  {
    if labels == [] then Some(s)
    else
      var n := |labels| - 1;
      var before := AfterRequests(c, s, labels[..n]);
      if before.None? then None else EnvStep(c, before.value, labels[n])
  }

  lemma AfterOneMore(c: Config, s: State, labels: seq<EnvLabel>, l: EnvLabel)
    requires AfterRequests(c, s, labels).Some?
    ensures AfterRequests(c, s, labels + [l]) == EnvStep(c, AfterRequests(c, s, labels).value, l)
  {
    assert (labels + [l])[..|labels|] == labels;
  }

  lemma {:induction false} AfterMany(c: Config, s: State, labels: seq<EnvLabel>, more: seq<EnvLabel>)
    requires AfterRequests(c, s, labels).Some?
    ensures AfterRequests(c, s, labels + more) == AfterRequests(c, AfterRequests(c, s, labels).value, more)
    decreases |more|
  {
    if more == [] {
      assert labels + more == labels;
    } else {
      var n := |more| - 1;
      AfterMany(c, s, labels, more[..n]);
      assert (labels + more)[..|labels + more| - 1] == labels + more[..n];
    }
  }

  predicate Overdue(task: Task, now: int) { task.status == ASSIGNED && task.deadline < now }

  ghost predicate HasSelected(m: Market, t: TaskId) { exists b :: IsSelected(m, t, b) }

  ghost predicate HasPending(m: Market, t: TaskId) { exists b :: IsPending(m, t, b) }

  /** The task exists and belongs to the caller. */
  predicate Mine(m: Market, t: TaskId, who: Account) { t in m.tasks && m.tasks[t].requester == who }

  /** The caller's completion gets as far as settling. */
  ghost predicate Completable(m: Market, t: TaskId, who: Account) {
    Mine(m, t, who) && m.tasks[t].status == ASSIGNED && HasSelected(m, t)
  }

  /** The bids after a selection: `w` is selected, no bid that was pending asked for less or for the same earlier, and all
      others that were pending are rejected. */
  ghost predicate Won(m: Market, n: Market, t: TaskId, w: BidId) {
    && IsPending(m, t, w) && n.bids.Keys == m.bids.Keys
    && n.tasks == (if t in m.tasks then m.tasks[t := m.tasks[t].(status := ASSIGNED)] else m.tasks)
    && forall b :: b in m.bids ==>
         && (IsPending(m, t, b) ==> Provenance.AtMost(m.bids[w], m.bids[b]))
         && n.bids[b] == if !IsPending(m, t, b) then m.bids[b]
                         else m.bids[b].(status := if b == w then SELECTED else REJECTED)
  }

  /** The selection function, said without it: the codes, and who wins. */
  lemma SelectionExactly(m: Market, t: TaskId, order: seq<BidId>)
    requires Listing(m, t, order)
    ensures var (n, code) := Auction.SelectWinner(m, t, order);
            && (code == 404 <==> t !in m.tasks)
            && (code == 409 <==> t in m.tasks && (m.tasks[t].status != OPEN || !HasPending(m, t)))
            && (code == 200 <==> t in m.tasks && m.tasks[t].status == OPEN && HasPending(m, t))
            && (code != 200 ==> n == m)
            && (code == 200 ==> n.escrows == m.escrows && exists w :: Won(m, n, t, w))
  {
    var pending := Pending(m.bids, order);
    assert forall b :: b in pending <==> IsPending(m, t, b);
    if pending == [] {
      assert !HasPending(m, t);
    } else {
      assert IsPending(m, t, pending[0]);
      if t in m.tasks && m.tasks[t].status == OPEN { LeastWon(m, t, order, pending); }
    }
    hide Pending, Lowest, Won, Listing;
  }

  lemma LeastWon(m: Market, t: TaskId, order: seq<BidId>, pending: seq<BidId>)
    requires Listing(m, t, order) && pending == Pending(m.bids, order) && pending != []
    requires t in m.tasks && m.tasks[t].status == OPEN && forall b :: b in pending <==> IsPending(m, t, b)
    ensures Won(m, Auction.SelectWinner(m, t, order).0, t, Lowest(m.bids, pending))
  {
    var i := Lifecycle.LowestIsFirstLeast(m.bids, pending);
    hide Lowest, Pending, Listing;
    forall b | IsPending(m, t, b) ensures Provenance.AtMost(m.bids[pending[i]], m.bids[b]) {
      var j :| 0 <= j < |pending| && pending[j] == b;
      assert !Beats(m.bids[pending[j]], m.bids[pending[i]]);
    }
  }

  lemma SelectedByBids(m: Market, n: Market, t: TaskId)
    requires m.bids == n.bids
    ensures HasSelected(m, t) == HasSelected(n, t)
  {
    assert forall b :: IsSelected(m, t, b) == IsSelected(n, t, b);
  }

  function Rejected(bids: map<BidId, Bid>, losers: seq<BidId>, winner: BidId): map<BidId, Bid> {
    map b | b in bids :: if b in losers && b != winner then bids[b].(status := REJECTED) else bids[b]
  }

  /** The tasks of `before` with those in `expired` set to EXPIRED. */
  function Expired(before: map<TaskId, Task>, expired: seq<TaskId>): map<TaskId, Task> {
    map t | t in before :: if t in expired then before[t].(status := EXPIRED) else before[t]
  }

  class Handlers {
    const c: Config
    var tasks: map<TaskId, Task>
    var bids: map<BidId, Bid>
    var escrows: set<EscrowId>
    var outbox: map<EventId, OutboxRow>
    ghost var s: State

    function Stores(): Market
      reads this`tasks, this`bids, this`escrows
    {
      Market(tasks, bids, escrows)
    }

    ghost predicate Valid()
      reads this
    {
      s.market == Stores() && s.bus.outbox == outbox
    }

    constructor (c: Config)
      ensures Valid() && s == START
    {
      this.c := c;
      tasks, bids, escrows, outbox, s := map[], map[], {}, map[], START;
    }

    // ---------- Bid store ----------

    /** The bids of a task, each once, in whatever order the store keeps them. */
    method FindByTaskId(t: TaskId) returns (order: seq<BidId>)
      ensures Listing(Stores(), t, order)
    {
      order := [];
      var left := bids.Keys;
      while left != {}
        invariant left <= bids.Keys && Distinct(order)
        invariant forall b :: b in order <==> b in bids && b !in left && bids[b].taskId == t
        decreases left
      {
        var b :| b in left;
        if bids[b].taskId == t {
          order := order + [b];
        }
        left := left - {b};
      }
    }

    /** `findByTaskId(t).find(SELECTED)` */
    method FindSelected(t: TaskId) returns (choice: Option<BidId>)
      ensures Found(Stores(), t, choice)
    {
      var order := FindByTaskId(t);
      for i := 0 to |order|
        invariant forall j :: 0 <= j < i ==> bids[order[j]].status != SELECTED
      {
        if bids[order[i]].status == SELECTED {
          return Some(order[i]);
        }
      }
      choice := None;
    }

    // ---------- Auction ----------

    method Reduce(pending: seq<BidId>) returns (lowest: BidId)
      requires pending != [] && forall b :: b in pending ==> b in bids
      ensures lowest == Lowest(bids, pending)
    {
      lowest := pending[0];
      for i := 1 to |pending|
        invariant lowest in bids && lowest == Lowest(bids, pending[..i])
      {
        assert pending[..i + 1][..i] == pending[..i];
        if bids[pending[i]].amount < bids[lowest].amount {
          lowest := pending[i];
        } else if bids[pending[i]].amount == bids[lowest].amount && bids[pending[i]].createdAt < bids[lowest].createdAt {
          lowest := pending[i];
        }
      }
      assert pending[..|pending|] == pending;
    }

    /** Saves every pending bid but the winner as REJECTED, one by one. */
    method RejectOthers(pending: seq<BidId>, winner: BidId)
      requires forall b :: b in pending ==> b in bids
      modifies this`bids
      ensures bids == Rejected(old(bids), pending, winner)
    {
      ghost var before := bids;
      assert bids == Rejected(before, [], winner);
      for i := 0 to |pending|
        invariant bids == Rejected(before, pending[..i], winner)
      {
        assert pending[..i + 1] == pending[..i] + [pending[i]];
        if pending[i] != winner {
          bids := bids[pending[i] := bids[pending[i]].(status := REJECTED)];
        }
      }
      assert pending[..|pending|] == pending;
    }

    /** The winner is what the reduce finds; then the task, the winner and every loser are saved in turn. */
    method SelectWinner(t: TaskId) returns (code: int, ghost order: seq<BidId>)
      requires Valid()
      modifies this`tasks, this`bids, this`s
      ensures Valid() && EnvStep(c, old(s), Select(t, order)) == Some(s)
      ensures Listing(old(Stores()), t, order) && (Stores(), code) == Auction.SelectWinner(old(Stores()), t, order)
      ensures code == 404 <==> t !in old(tasks)
      ensures code == 409 <==> t in old(tasks) && (old(tasks)[t].status != OPEN || !HasPending(old(Stores()), t))
      ensures code == 200 || (code in {404, 409} && tasks == old(tasks) && bids == old(bids))
      ensures code == 200 ==> exists w :: Won(old(Stores()), Stores(), t, w)
    {
      var listed := FindByTaskId(t);
      order := listed;
      SelectionExactly(Stores(), t, order);
      hide Won, HasPending;
      if t !in tasks {
        return NOT_FOUND, order;
      }
      if tasks[t].status != OPEN {
        return CONFLICT, order;
      }
      var pending := Pending(bids, listed);
      if pending == [] {
        return CONFLICT, order;
      }
      var winner := Reduce(pending);
      ghost var before := bids;
      tasks := tasks[t := tasks[t].(status := ASSIGNED)];
      bids := bids[winner := bids[winner].(status := SELECTED)];
      RejectOthers(pending, winner);
      assert bids == Assigned(old(Stores()), t, winner, pending).bids;
      code := OK;
      s := s.(market := Stores());
    }

    // ---------- Bids ----------

    /** `POST /bids`. `escrow` is the provider's answer, `auto` whether auto-selection gets to run. */
    method CreateBid(id: BidId, t: TaskId, executor: Account, amount: nat, collateral: nat, escrow: Option<EscrowId>,
                     now: int, auto: bool) returns (code: int, ghost order: Option<seq<BidId>>)
      requires Valid() && s.clock == now && id !in bids && (escrow.Some? ==> escrow.value !in escrows)
      modifies this`tasks, this`bids, this`escrows, this`s
      ensures Valid() && EnvStep(c, old(s), NewBid(id, t, executor, amount, collateral, escrow, order)) == Some(s)
      ensures code == 404 <==> t !in old(tasks)
      ensures code == 409 <==> t in old(tasks) && old(tasks)[t].status != OPEN
      ensures code == 502 <==> t in old(tasks) && old(tasks)[t].status == OPEN && escrow.None?
      ensures code == 201 || (code in {404, 409, 502} && Stores() == old(Stores()))
      ensures code == 201 ==>
                && id in bids && bids[id].taskId == t && bids[id].executor == executor && bids[id].amount == amount
                && bids[id].collateral == collateral && bids[id].createdAt == now && escrow == Some(bids[id].escrowId)
                && bids.Keys == old(bids.Keys) + {id} && escrows == old(escrows) + {bids[id].escrowId}
    {
      order := None;
      if t !in tasks {
        return NOT_FOUND, None;
      }
      if tasks[t].status != OPEN {
        return CONFLICT, None;
      }
      if escrow.None? {
        return BAD_GATEWAY, None;
      }
      escrows := escrows + {escrow.value};
      bids := bids[id := Bid(t, executor, amount, collateral, escrow.value, PENDING, now)];
      s := s.(market := Stores());
      code := CREATED;
      if auto {
        var _, listed := SelectWinner(t);
        order := Some(listed);
      }
    }

    // ---------- Completion ----------

    /** `POST /tasks/:id/complete`. With an outbox: save, then emit (`event` is None when emitting throws).
        Without: release, then save. An exception that the handler does not catch is answered with 500. */
    method Complete(t: TaskId, requester: Account, event: Option<EventId>, out: Settlement, now: int)
      returns (code: int, choice: Option<BidId>, ghost l: EnvLabel)
      requires Valid() && s.clock == now && (event.Some? ==> event.value !in outbox)
      modifies this`tasks, this`outbox, this`s
      ensures Valid() && EnvStep(c, old(s), l) == Some(s)
      ensures l == (if c.outbox then EnvLabel.Complete(t, requester, choice, event)
                    else CompleteSync(t, requester, choice, out))
      ensures Found(old(Stores()), t, choice)
      ensures code == 404 <==> t !in old(tasks)
      ensures code == 403 <==> t in old(tasks) && old(tasks)[t].requester != requester
      ensures code == 200 <==>
                && Mine(old(Stores()), t, requester)
                && (old(tasks)[t].status == COMPLETED
                    || (Completable(old(Stores()), t, requester) && !c.outbox && out == Saved))
      ensures code == 202 <==>
                && Mine(old(Stores()), t, requester)
                && (old(tasks)[t].status == COMPLETING
                    || (Completable(old(Stores()), t, requester) && c.outbox && event.Some?))
      ensures code == 409 <==>
                && Mine(old(Stores()), t, requester)
                && (old(tasks)[t].status == OPEN || old(tasks)[t].status == EXPIRED
                    || (old(tasks)[t].status == ASSIGNED && !HasSelected(old(Stores()), t)))
      ensures code == 500 <==> Completable(old(Stores()), t, requester) && c.outbox && event.None?
      ensures code == 502 <==> Completable(old(Stores()), t, requester) && !c.outbox && out != Saved
      ensures tasks == if !Completable(old(Stores()), t, requester) || (!c.outbox && out != Saved) then old(tasks)
                       else old(tasks)[t := old(tasks)[t].(status := if c.outbox then COMPLETING else COMPLETED)]
      ensures outbox != old(outbox) ==>
                && code == 202 && event.Some? && choice.Some?
                && outbox == old(outbox)[event.value :=
                     OutboxRow(CompletionRequested, Completion(Some(t), Some(bids[choice.value].escrowId)), false, 0, now)]
      ensures Completable(old(Stores()), t, requester) && code == 202 ==> event.value in outbox
    {
      choice := FindSelected(t);
      assert choice.Some? <==> HasSelected(Stores(), t);
      hide Found, HasSelected;
      l := if c.outbox then EnvLabel.Complete(t, requester, choice, event)
           else CompleteSync(t, requester, choice, out);
      if t !in tasks {
        return NOT_FOUND, choice, l;
      }
      var task := tasks[t];
      if task.requester != requester {
        return FORBIDDEN, choice, l;
      }
      if task.status == COMPLETED {
        return OK, choice, l;
      }
      if task.status == COMPLETING {
        return ACCEPTED, choice, l;
      }
      if task.status != ASSIGNED || choice.None? {
        return CONFLICT, choice, l;
      }
      var escrow := bids[choice.value].escrowId;
      if !c.outbox {
        code := BAD_GATEWAY;
        if out == Saved {
          tasks := tasks[t := task.(status := COMPLETED)];
          code := OK;
        }
        s := EnvStep(c, s, l).value;
        return;
      }
      tasks := tasks[t := task.(status := COMPLETING)];
      code := INTERNAL_ERROR;
      if event.Some? {
        code := ACCEPTED;
        outbox := outbox[event.value := OutboxRow(CompletionRequested, Completion(Some(t), Some(escrow)), false, 0, now)];
      }
      s := EnvStep(c, s, l).value;
    }

    // ---------- Timeout sweep ----------

    method ListOverdue(now: int) returns (due: seq<TaskId>)
      ensures Distinct(due) && forall t :: t in due <==> t in tasks && tasks[t].status == ASSIGNED && tasks[t].deadline < now
    {
      due := [];
      var left := tasks.Keys;
      while left != {}
        invariant left <= tasks.Keys && Distinct(due)
        invariant forall t :: t in due <==> t in tasks && t !in left && Overdue(tasks[t], now)
        decreases left
      {
        var t :| t in left;
        if tasks[t].status == ASSIGNED && tasks[t].deadline < now {
          due := due + [t];
        }
        left := left - {t};
      }
    }

    /** One overdue task of the sweep. `saved`: the task is EXPIRED now; `threw`: the sweep ends here. */
    method ExpireTask(t: TaskId, task: Task, now: int, out: Settlement, emits: bool)
      returns (saved: bool, threw: bool, ghost labels: seq<EnvLabel>)
      requires Valid() && s.clock == now && t in tasks && task == tasks[t] && Overdue(task, now)
      modifies this`tasks, this`outbox, this`s
      ensures Valid() && s.clock == now && AfterRequests(c, old(s), labels) == Some(s)
      ensures saved <==> HasSelected(old(Stores()), t) && out == Saved
      ensures tasks == if saved then old(tasks)[t := task.(status := EXPIRED)] else old(tasks)
      ensures threw ==> HasSelected(old(Stores()), t) && (out == Unsaved || (c.outbox && !emits))
    {
      saved, threw, labels := false, false, [];
      var choice := FindSelected(t);
      if choice.None? {
        return;
      }
      assert IsSelected(Stores(), t, choice.value);
      ghost var l := Expire(t, choice, out);
      AfterOneMore(c, s, labels, l);
      labels := labels + [l];
      s := EnvStep(c, s, l).value;
      if out == Refused {
        return;
      }
      if out == Unsaved {
        threw := true;
        return;
      }
      tasks := tasks[t := task.(status := EXPIRED)];
      saved := true;
      if c.outbox {
        if !emits {
          threw := true;
          return;
        }
        var id := FreshId(outbox.Keys);
        l := Emit(id, Other);
        AfterOneMore(c, old(s), labels, l);
        labels := labels + [l];
        outbox := outbox[id := OutboxRow(Other, Opaque, false, 0, now)];
        s := EnvStep(c, s, l).value;
      }
    }

    /** One sweep at time `now`. `out` says how each task's confiscation and save end (Unsaved: the save threw),
        `emits` whether its event was inserted. `saved` are the tasks set to EXPIRED; `expired` is the reply. */
    method RunOnce(now: int, out: TaskId -> Settlement, emits: TaskId -> bool)
      returns (expired: seq<TaskId>, ghost saved: seq<TaskId>, threw: bool, ghost labels: seq<EnvLabel>)
      requires Valid() && s.clock == now
      modifies this`tasks, this`outbox, this`s
      ensures Valid() && AfterRequests(c, old(s), labels) == Some(s)
      ensures tasks == Expired(old(tasks), saved) && (!threw ==> saved == expired)
      ensures forall t :: t in saved ==>
                t in old(tasks) && old(tasks)[t].status == ASSIGNED && old(tasks)[t].deadline < now
                && HasSelected(old(Stores()), t) && out(t) == Saved
      ensures !threw ==> forall t ::
                (t in old(tasks) && old(tasks)[t].status == ASSIGNED && old(tasks)[t].deadline < now && HasSelected(old(Stores()), t) && out(t) == Saved
                 ==> t in expired)
    {
      expired, saved, labels := [], [], [];
      var due := ListOverdue(now);
      var snapshot := tasks;
      assert tasks == Expired(snapshot, []);
      for i := 0 to |due|
        invariant Valid() && AfterRequests(c, old(s), labels) == Some(s) && s.clock == now
        invariant saved == expired && tasks == Expired(snapshot, expired)
        invariant forall t :: t in expired <==> t in due[..i] && HasSelected(old(Stores()), t) && out(t) == Saved
      {
        var t := due[i];
        assert due[..i + 1] == due[..i] + [t];
        assert t !in due[..i];
        SelectedByBids(Stores(), old(Stores()), t);
        var one, stop, more := ExpireTask(t, snapshot[t], now, out(t), emits(t));
        AfterMany(c, old(s), labels, more);
        labels := labels + more;
        if one {
          saved := saved + [t];
        }
        assert tasks == Expired(snapshot, saved);
        if stop {
          return expired, saved, true, labels;
        }
        if one {
          expired := expired + [t];
        }
      }
      assert due[..|due|] == due;
      threw := false;
    }
  }
}
