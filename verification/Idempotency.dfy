/** The idempotency-key middleware: look the key up, then replay, refuse, or run the handler and record its
    answer. The insert starts when the answer has gone out and nothing waits for it, so lookup, answer and
    insert are three steps, and requests may come in between any two of them. */
module Idempotency {
  import opened Types

  type RequestId = nat
  type IdemKey = nat
  type Body = nat

  /** `key` is None for a missing header; `hash` covers method, path and body. */
  datatype Request = Request(key: Option<IdemKey>, scope: nat, owner: Option<nat>, hash: nat)

  /** What the handler answered. `body` is None when it did not answer through `res.json`. */
  datatype Reply = Reply(status: int, body: Option<Body>)

  datatype Record = Record(scope: nat, owner: Option<nat>, hash: nat, status: int, body: Body)

  /** An answer whose insert is under way. */
  datatype Insertion = Insertion(r: Request, reply: Reply)

  /** `open`: requests in the handler; `inserting`: inserts that have started and not ended. */
  datatype State = State(table: map<IdemKey, Record>, open: map<RequestId, Request>, inserting: map<RequestId, Insertion>)

  const EMPTY := State(map[], map[], map[])

  datatype Answer = MissingKey | Conflict | Replay(status: int, body: Body) | Handler

  function Lookup(table: map<IdemKey, Record>, r: Request, headerRequired: bool): Answer {
    if r.key.None? then (if headerRequired then MissingKey else Handler)
    else if r.key.value !in table then Handler
    else
      var rec := table[r.key.value];
      if rec.scope != r.scope || rec.owner != r.owner || rec.hash != r.hash then Conflict
      else Replay(rec.status, rec.body)
  }

  /** `Respond`: the answer has gone out and the insert, if one is due, starts. `Insert`: it ends, with outcome `o`. */
  datatype Step =
    | Begin(id: RequestId, r: Request, headerRequired: bool)
    | Respond(id: RequestId, reply: Reply)
    | Insert(id: RequestId, o: Outcome)

  predicate Can(s: State, step: Step) {
    match step
    case Begin(id, _, _) => id !in s.open && id !in s.inserting
    case Respond(id, _) => id in s.open
    case Insert(id, _) => id in s.inserting
  }

  /** Only captured answers below 500 to requests with a key are recorded. */
  predicate Recordable(r: Request, reply: Reply) {
    r.key.Some? && reply.body.Some? && reply.status < 500
  }

  predicate Valid(s: State) {
    && (forall id :: id in s.inserting ==> Recordable(s.inserting[id].r, s.inserting[id].reply))
    && s.open.Keys !! s.inserting.Keys
  }

  /** The insert `step` makes the key's record. The table is insert-only: a second one fails on the primary key. */
  predicate Inserts(s: State, step: Step, k: IdemKey) {
    && step.Insert? && step.id in s.inserting && s.inserting[step.id].r.key == Some(k)
    && step.o.Effect() && k !in s.table
  }

  function Made(r: Request, reply: Reply): Record
    requires Recordable(r, reply)
  {
    Record(r.scope, r.owner, r.hash, reply.status, reply.body.value)
  }

  function Next(s: State, step: Step): (n: State)
    requires Valid(s) && Can(s, step)
    ensures Valid(n)
  {
    match step
    case Begin(id, r, required) =>
      if Lookup(s.table, r, required) == Handler then s.(open := s.open[id := r]) else s
    case Respond(id, reply) =>
      var r := s.open[id];
      s.(open := s.open - {id},
         inserting := if Recordable(r, reply) then s.inserting[id := Insertion(r, reply)] else s.inserting)
    case Insert(id, o) =>
      var x := s.inserting[id];
      s.(inserting := s.inserting - {id},
         table := if Inserts(s, step, x.r.key.value) then s.table[x.r.key.value := Made(x.r, x.reply)] else s.table)
  }

  predicate IsRun(s: State, steps: seq<Step>)
    requires Valid(s)
    decreases |steps|
  {
    steps == [] || (Can(s, steps[0]) && IsRun(Next(s, steps[0]), steps[1..]))
  }

  function Final(s: State, steps: seq<Step>): (n: State)
    requires Valid(s) && IsRun(s, steps)
    ensures Valid(n)
    decreases |steps|
  {
    if steps == [] then s else Final(Next(s, steps[0]), steps[1..])
  }

  // ---------- Executions against records ----------

  /** The step answers an execution for `k`, and the answer is to be recorded. */
  predicate Executes(s: State, step: Step, k: IdemKey) {
    step.Respond? && step.id in s.open && s.open[step.id].key == Some(k) && Recordable(s.open[step.id], step.reply)
  }

  function Executions(s: State, steps: seq<Step>, k: IdemKey): nat
    requires Valid(s) && IsRun(s, steps)
    decreases |steps|
  {
    if steps == [] then 0
    else (if Executes(s, steps[0], k) then 1 else 0) + Executions(Next(s, steps[0]), steps[1..], k)
  }

  /** The step ends an insert for `k` that does not go through. */
  predicate Fails(s: State, step: Step, k: IdemKey) {
    step.Insert? && step.id in s.inserting && s.inserting[step.id].r.key == Some(k) && !Inserts(s, step, k)
  }

  function Unrecorded(s: State, steps: seq<Step>, k: IdemKey): nat
    requires Valid(s) && IsRun(s, steps)
    decreases |steps|
  {
    if steps == [] then 0
    else (if Fails(s, steps[0], k) then 1 else 0) + Unrecorded(Next(s, steps[0]), steps[1..], k)
  }

  function Has(s: State, k: IdemKey): nat { if k in s.table then 1 else 0 }

  function Inserting(m: map<RequestId, Insertion>, k: IdemKey): set<RequestId> {
    set id | id in m && m[id].r.key == Some(k)
  }

  function InFlight(s: State, k: IdemKey): set<RequestId> { Inserting(s.inserting, k) }

  lemma OneMoreInserting(m: map<RequestId, Insertion>, id: RequestId, x: Insertion, k: IdemKey)
    requires id !in m
    ensures |Inserting(m[id := x], k)| == |Inserting(m, k)| + if x.r.key == Some(k) then 1 else 0
  {
    if x.r.key == Some(k) {
      assert Inserting(m[id := x], k) == Inserting(m, k) + {id};
    } else {
      assert Inserting(m[id := x], k) == Inserting(m, k);
    }
  }

  lemma StepBalance(s: State, step: Step, k: IdemKey)
    requires Valid(s) && Can(s, step)
    ensures var n := Next(s, step);
            (if Executes(s, step, k) then 1 else 0) + Has(s, k) + |InFlight(s, k)|
            == Has(n, k) + |InFlight(n, k)| + (if Fails(s, step, k) then 1 else 0)
  {
    var n := Next(s, step);
    match step
    case Begin(_, _, _) =>
    case Respond(id, reply) =>
      OneMoreInserting(s.inserting, id, Insertion(s.open[id], reply), k);
    case Insert(id, _) =>
      OneMoreInserting(n.inserting, id, s.inserting[id], k);
      assert n.inserting[id := s.inserting[id]] == s.inserting;
  }

  /** Every execution made the key's one record, or is still being inserted, or failed to be. */
  lemma {:induction false} ExecutionsBalance(s: State, steps: seq<Step>, k: IdemKey)
    requires Valid(s) && IsRun(s, steps)
    ensures Executions(s, steps, k) + Has(s, k) + |InFlight(s, k)|
         == Has(Final(s, steps), k) + |InFlight(Final(s, steps), k)| + Unrecorded(s, steps, k)
    decreases |steps|
  {
    if steps != [] {
      StepBalance(s, steps[0], k);
      ExecutionsBalance(Next(s, steps[0]), steps[1..], k);
    }
  }

  /** No request begins between an earlier request with its key and the end of that one's insert, and every insert
      works. Waiting for the answer is not enough. */
  predicate Orderly(s: State, steps: seq<Step>)
    requires Valid(s) && IsRun(s, steps)
    decreases |steps|
  {
    steps == [] ||
    (&& (steps[0].Begin? && steps[0].r.key.Some? ==>
           && (forall id :: id in s.open ==> s.open[id].key != steps[0].r.key)
           && (forall id :: id in s.inserting ==> s.inserting[id].r.key != steps[0].r.key))
     && (steps[0].Insert? ==> steps[0].o.Effect())
     && Orderly(Next(s, steps[0]), steps[1..]))
  }

  /** The key a request occupies, in the handler or with its insert under way. */
  function Occupied(s: State, id: RequestId): Option<IdemKey> {
    if id in s.open then s.open[id].key else if id in s.inserting then s.inserting[id].r.key else None
  }

  /** Occupied keys have no record yet, and are occupied once. */
  ghost predicate Apart(s: State) {
    && (forall id :: Occupied(s, id).Some? ==> Occupied(s, id).value !in s.table)
    && (forall i, j :: i != j && Occupied(s, i).Some? ==> Occupied(s, i) != Occupied(s, j))
  }

  lemma OrderlyStep(s: State, steps: seq<Step>, k: IdemKey)
    requires Valid(s) && IsRun(s, steps) && steps != [] && Apart(s) && Orderly(s, steps)
    ensures Apart(Next(s, steps[0])) && !Fails(s, steps[0], k)
  {
    var step, n := steps[0], Next(s, steps[0]);
    assert forall id :: id != step.id ==> Occupied(n, id) == Occupied(s, id);
    if step.Begin? {
      assert forall id :: id != step.id && step.r.key.Some? ==> Occupied(s, id) != step.r.key;
      assert Occupied(n, step.id).Some? ==> Occupied(n, step.id) == step.r.key && step.r.key.value !in s.table;
    } else if step.Respond? {
      assert Occupied(n, step.id).Some? ==> Occupied(n, step.id) == Occupied(s, step.id);
    } else {
      assert step.id !in s.open;
      assert Occupied(s, step.id) == s.inserting[step.id].r.key && Occupied(n, step.id).None?;
    }
  }

  lemma {:induction false} OrderlyRun(s: State, steps: seq<Step>, k: IdemKey)
    requires Valid(s) && IsRun(s, steps) && Apart(s) && Orderly(s, steps)
    ensures Unrecorded(s, steps, k) == 0 && Apart(Final(s, steps))
    decreases |steps|
  {
    if steps != [] {
      OrderlyStep(s, steps, k);
      OrderlyRun(Next(s, steps[0]), steps[1..], k);
    }
  }

  lemma ApartHoldsOne(s: State, k: IdemKey)
    requires Valid(s) && Apart(s)
    ensures Has(s, k) + |InFlight(s, k)| <= 1
  {
    if id :| id in InFlight(s, k) {
      assert Occupied(s, id) == Some(k);
      forall j | j in InFlight(s, k) ensures j == id { assert Occupied(s, j) == Some(k); }
      assert InFlight(s, k) == {id};
    } else {
      assert InFlight(s, k) == {};
    }
  }

  /** When no request begins before the insert of an earlier one with its key has ended, and inserts work, a key is
      executed at most once with an answer to be recorded, and once it was, it has its record or is getting it. */
  lemma ExecutedOnce(steps: seq<Step>, k: IdemKey)
    requires IsRun(EMPTY, steps) && Orderly(EMPTY, steps)
    ensures Executions(EMPTY, steps, k) <= 1
    ensures var s := Final(EMPTY, steps); Executions(EMPTY, steps, k) == 1 <==> k in s.table || InFlight(s, k) != {}
  {
    assert InFlight(EMPTY, k) == {};
    ExecutionsBalance(EMPTY, steps, k);
    OrderlyRun(EMPTY, steps, k);
    ApartHoldsOne(Final(EMPTY, steps), k);
  }

  // ---------- Where it breaks ----------

  /** Some insert of the run makes a record for `k`. */
  predicate Landed(s: State, steps: seq<Step>, k: IdemKey)
    requires Valid(s) && IsRun(s, steps)
    decreases |steps|
  {
    steps != [] && (Inserts(s, steps[0], k) || Landed(Next(s, steps[0]), steps[1..], k))
  }

  lemma {:induction false} RecordedExactly(s: State, steps: seq<Step>, k: IdemKey)
    requires Valid(s) && IsRun(s, steps)
    ensures k in Final(s, steps).table <==> k in s.table || Landed(s, steps, k)
    decreases |steps|
  {
    if steps != [] { RecordedExactly(Next(s, steps[0]), steps[1..], k); }
  }

  /** Exactly when a request reaches the handler: no insert of its key has landed. Whether an earlier request with the
      key has been answered does not matter. */
  lemma ReachesHandlerExactly(steps: seq<Step>, r: Request, required: bool)
    requires IsRun(EMPTY, steps) && r.key.Some?
    ensures Lookup(Final(EMPTY, steps).table, r, required) == Handler <==> !Landed(EMPTY, steps, r.key.value)
  {
    RecordedExactly(EMPTY, steps, r.key.value);
  }

  /** All inserts of the run are answered OK. */
  predicate AllOk(steps: seq<Step>) {
    forall i :: 0 <= i < |steps| && steps[i].Insert? ==> steps[i].o == Ok
  }

  /** No request with a key begins while another one with it is in the handler. */
  predicate Sequential(s: State, steps: seq<Step>)
    requires Valid(s) && IsRun(s, steps)
    decreases |steps|
  {
    steps == [] ||
    (&& (steps[0].Begin? && steps[0].r.key.Some? ==> forall id :: id in s.open ==> s.open[id].key != steps[0].r.key)
     && Sequential(Next(s, steps[0]), steps[1..]))
  }

  lemma LastStep(s: State, step: Step, k: IdemKey)
    requires Valid(s) && Can(s, step) && !step.Begin?
    ensures IsRun(s, [step]) && Sequential(s, [step]) && Executions(s, [step], k) == if Executes(s, step, k) then 1 else 0
  {
    assert [step][1..] == [];
  }

  lemma FirstStep(s: State, step: Step, rest: seq<Step>, k: IdemKey)
    requires Valid(s) && Can(s, step) && IsRun(Next(s, step), rest)
    ensures IsRun(s, [step] + rest)
    ensures Executions(s, [step] + rest, k) == (if Executes(s, step, k) then 1 else 0) + Executions(Next(s, step), rest, k)
    ensures Sequential(Next(s, step), rest) && s.open == map[] ==> Sequential(s, [step] + rest)
    ensures Sequential(Next(s, step), rest) && !step.Begin? ==> Sequential(s, [step] + rest)
  {
    assert ([step] + rest)[1..] == rest;
  }

  /** Two requests that both look the key up before either is recorded. */
  lemma OverlapExecutesTwice(r: Request, a: Reply, b: Reply)
    requires Recordable(r, a) && Recordable(r, b)
    ensures exists steps: seq<Step> :: IsRun(EMPTY, steps) && AllOk(steps) && Executions(EMPTY, steps, r.key.value) == 2
  {
    var k := r.key.value;
    var t1 := Next(EMPTY, Begin(0, r, true));
    var t2 := Next(t1, Begin(1, r, true));
    var t3 := Next(t2, Respond(0, a));
    hide IsRun, Executions, Sequential;
    LastStep(t3, Respond(1, b), k);
    FirstStep(t2, Respond(0, a), [Respond(1, b)], k);
    FirstStep(t1, Begin(1, r, true), [Respond(0, a)] + [Respond(1, b)], k);
    FirstStep(EMPTY, Begin(0, r, true), [Begin(1, r, true)] + ([Respond(0, a)] + [Respond(1, b)]), k);
  }

  /** Waiting for the answer does not help: the second request begins after the first is answered, and its lookup
      still comes before the first insert ends. */
  lemma SequentialExecutesTwice(r: Request, a: Reply, b: Reply)
    requires Recordable(r, a) && Recordable(r, b)
    ensures exists steps: seq<Step> ::
              IsRun(EMPTY, steps) && AllOk(steps) && Sequential(EMPTY, steps) && Executions(EMPTY, steps, r.key.value) == 2
  {
    var k := r.key.value;
    var t1 := Next(EMPTY, Begin(0, r, true));
    var t2 := Next(t1, Respond(0, a));
    var t3 := Next(t2, Begin(1, r, true));
    var t4 := Next(t3, Insert(0, Ok));
    hide IsRun, Executions, Sequential;
    LastStep(t4, Respond(1, b), k);
    FirstStep(t3, Insert(0, Ok), [Respond(1, b)], k);
    FirstStep(t2, Begin(1, r, true), [Insert(0, Ok)] + [Respond(1, b)], k);
    FirstStep(t1, Respond(0, a), [Begin(1, r, true)] + ([Insert(0, Ok)] + [Respond(1, b)]), k);
    FirstStep(EMPTY, Begin(0, r, true), [Respond(0, a)] + ([Begin(1, r, true)] + ([Insert(0, Ok)] + [Respond(1, b)])), k);
  }

  /** Only answers below 500 through `res.json` count. In every run, once no insert of a key is under way and none has
      failed, a request reaches the handler if and only if none of the executions so far had such an answer. */
  lemma ReexecutedExactly(steps: seq<Step>, r: Request, required: bool)
    requires IsRun(EMPTY, steps) && r.key.Some?
    requires InFlight(Final(EMPTY, steps), r.key.value) == {} && Unrecorded(EMPTY, steps, r.key.value) == 0
    ensures Lookup(Final(EMPTY, steps).table, r, required) == Handler <==> Executions(EMPTY, steps, r.key.value) == 0
  {
    ExecutionsBalance(EMPTY, steps, r.key.value);
  }

  /** A request without a key is refused where one is required, and changes nothing. Elsewhere it reaches the handler in
      every state, and whatever the answer, no record is made or begun. */
  lemma KeylessExactly(s: State, id: RequestId, r: Request, required: bool, reply: Reply)
    requires Valid(s) && Can(s, Begin(id, r, required)) && r.key.None?
    ensures var n := Next(s, Begin(id, r, required));
            if required then Lookup(s.table, r, required) == MissingKey && n == s
            else Lookup(s.table, r, required) == Handler && Can(n, Respond(id, reply)) && Next(n, Respond(id, reply)) == s
  {
    assert s.open[id := r] - {id} == s.open;
  }

  // ---------- What a repeated request receives ----------

  lemma {:induction false} RecordStays(s: State, steps: seq<Step>, k: IdemKey)
    requires Valid(s) && IsRun(s, steps) && k in s.table
    ensures k in Final(s, steps).table && Final(s, steps).table[k] == s.table[k]
    decreases |steps|
  {
    if steps != [] { RecordStays(Next(s, steps[0]), steps[1..], k); }
  }

  /** Once an insert has landed, whatever happens next, the same request gets the recorded answer, and a different
      request under the same key is refused; neither reaches the handler. */
  lemma RepeatsReceiveTheRecord(s: State, insert: Step, steps: seq<Step>, r: Request, required: bool)
    requires Valid(s) && r.key.Some? && Inserts(s, insert, r.key.value) && IsRun(Next(s, insert), steps)
    ensures var first := s.inserting[insert.id];
            Lookup(Final(Next(s, insert), steps).table, r, required)
            == if r == first.r then Replay(first.reply.status, first.reply.body.value) else Conflict
  {
    RecordStays(Next(s, insert), steps, r.key.value);
  }

  predicate Answers(x: Insertion, r: Request, status: int, body: Body) {
    x.r == r && x.reply == Reply(status, Some(body)) && status < 500
  }

  /** Some step of the run, taken in the state the run has reached, answers an execution of exactly `r`. */
  predicate AnsweredIn(s: State, steps: seq<Step>, r: Request, status: int, body: Body)
    requires Valid(s) && IsRun(s, steps)
    decreases |steps|
  {
    steps != [] &&
    ((steps[0].Respond? && Answers(Insertion(s.open[steps[0].id], steps[0].reply), r, status, body))
     || AnsweredIn(Next(s, steps[0]), steps[1..], r, status, body))
  }

  lemma {:induction false} RecordWasAnswered(s: State, steps: seq<Step>, k: IdemKey)
    requires Valid(s) && IsRun(s, steps) && k !in s.table && k in Final(s, steps).table
    ensures var rec := Final(s, steps).table[k];
            var r := Request(Some(k), rec.scope, rec.owner, rec.hash);
            || AnsweredIn(s, steps, r, rec.status, rec.body)
            || exists id :: id in s.inserting && Answers(s.inserting[id], r, rec.status, rec.body)
    decreases |steps|
  {
    if steps != [] {
      var step, next := steps[0], Next(s, steps[0]);
      if k in next.table {
        RecordStays(next, steps[1..], k);
        assert Answers(s.inserting[step.id], s.inserting[step.id].r, next.table[k].status, next.table[k].body);
      } else {
        RecordWasAnswered(next, steps[1..], k);
        var rec := Final(s, steps).table[k];
        var r := Request(Some(k), rec.scope, rec.owner, rec.hash);
        if !AnsweredIn(next, steps[1..], r, rec.status, rec.body) {
          var id :| id in next.inserting && Answers(next.inserting[id], r, rec.status, rec.body);
          if !(step.Respond? && step.id == id) { assert id in s.inserting && s.inserting[id] == next.inserting[id]; }
        }
      }
    }
  }

  /** A replayed answer is the answer of an earlier execution of the very same request. */
  lemma ReplayIsFaithful(steps: seq<Step>, r: Request, required: bool)
    requires IsRun(EMPTY, steps) && Lookup(Final(EMPTY, steps).table, r, required).Replay?
    ensures var a := Lookup(Final(EMPTY, steps).table, r, required);
            AnsweredIn(EMPTY, steps, r, a.status, a.body)
  {
    RecordWasAnswered(EMPTY, steps, r.key.value);
  }

  // ---------- The middleware ----------

  const BAD_REQUEST := 400
  const CONFLICT_CODE := 409

  class Middleware {
    var table: map<IdemKey, Record>
    var open: map<RequestId, Request>
    var inserting: map<RequestId, Insertion>

    ghost function Contents(): State
      reads this
    {
      State(table, open, inserting)
    }

    constructor ()
      ensures Contents() == EMPTY
    {
      table, open, inserting := map[], map[], map[];
    }

    /** Up to the answer, or to `next()` (None). */
    method Handle(id: RequestId, r: Request, headerRequired: bool) returns (answer: Option<Reply>)
      requires Valid(Contents()) && id !in open && id !in inserting
      modifies this`open
      ensures Contents() == Next(old(Contents()), Begin(id, r, headerRequired))
      ensures r.key.None? ==> answer == if headerRequired then Some(Reply(400, None)) else None
      ensures r.key.Some? && r.key.value !in table ==> answer == None
      ensures r.key.Some? && r.key.value in table ==>
                var rec := table[r.key.value];
                answer == Some(if rec.scope == r.scope && rec.owner == r.owner && rec.hash == r.hash
                               then Reply(rec.status, Some(rec.body)) else Reply(409, None))
      ensures open == if answer.None? then old(open)[id := r] else old(open)
    {
      if r.key.None? {
        if headerRequired {
          return Some(Reply(BAD_REQUEST, None));
        }
      } else if r.key.value in table {
        var existing := table[r.key.value];
        if existing.scope != r.scope {
          return Some(Reply(CONFLICT_CODE, None));
        }
        if existing.owner != r.owner {
          return Some(Reply(CONFLICT_CODE, None));
        }
        if existing.hash != r.hash {
          return Some(Reply(CONFLICT_CODE, None));
        }
        return Some(Reply(existing.status, Some(existing.body)));
      }
      open := open[id := r];
      answer := None;
    }

    /** The `finish` listener, up to the start of the insert. */
    method Finish(id: RequestId, reply: Reply)
      requires Valid(Contents()) && id in open
      modifies this`open, this`inserting
      ensures Contents() == Next(old(Contents()), Respond(id, reply))
      ensures inserting == if old(open)[id].key.None? || reply.body.None? || reply.status >= 500 then old(inserting)
                           else old(inserting)[id := Insertion(old(open)[id], reply)]
    {
      var r := open[id];
      open := open - {id};
      if reply.body.None? || r.key.None? {
        return;
      }
      if reply.status >= 500 {
        return;
      }
      inserting := inserting[id := Insertion(r, reply)];
    }

    /** The insert itself; its failure is swallowed. */
    method InsertRecord(id: RequestId, o: Outcome)
      requires Valid(Contents()) && id in inserting
      modifies this`table, this`inserting
      ensures Contents() == Next(old(Contents()), Insert(id, o))
    {
      var x := inserting[id];
      inserting := inserting - {id};
      if o != Err && x.r.key.value !in table {
        table := table[x.r.key.value := Record(x.r.scope, x.r.owner, x.r.hash, x.reply.status, x.reply.body.value)];
      }
    }
  }
}
