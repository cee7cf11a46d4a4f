/** Outbox, stream, consumption rows and worker as one transition system. Every `await` of the worker
    is a step of its own; a step carries the outcome of the call it waits for, and the process may
    stop between any two steps. */
module Protocol {
  import opened Types
  import opened Consumption
  import opened Market
  import opened Outbox

  /** `WORKER_MAX_ATTEMPTS`, `WEBHOOK_MAX_RETRIES`, and whether the API runs with an outbox. */
  datatype Config = Config(maxAttempts: int, maxRetries: nat, outbox: bool)

  const PUBLISH_BATCH := 50
  const READ_COUNT := 20
  const RETRY_LIMIT := 25
  const MIN_IDLE_MS := 30000

  // ---------- Stores ----------

  datatype Entry = Entry(id: EventId, kind: Kind, payload: Payload)

  /** The outbox table, the stream, the consumer group's delivered mark, and its pending entries
      (stream position to the time of the last delivery). */
  datatype Bus = Bus(outbox: map<EventId, OutboxRow>, stream: seq<Entry>, delivered: nat, pending: map<nat, int>)

  /** What happened to consumption rows so far; like the rest of the history, no step reads it.
      dispatched   handler invocations
      unmarked     invocations that returned but were not marked SUCCEEDED, because of a stop or a failed mark
      starts       times at which `tryStart` started a key
      interrupted  keys left PROCESSING with nobody working on them */
  datatype Attempts = Attempts(
    dispatched: multiset<Key>, unmarked: multiset<Key>, starts: map<Key, seq<int>>, interrupted: set<Key>)

  /** What happened to escrows so far.
      released      successful releases
      cut           worker releases not followed by the COMPLETED save
      confiscated   successful confiscations
      leakedRelease, leakedConfiscation   API settlements not followed by the task save
      unemitted     tasks saved COMPLETING whose completion event was not inserted */
  datatype Cash = Cash(
    released: multiset<EscrowId>, cut: multiset<EscrowId>, leakedRelease: multiset<EscrowId>,
    confiscated: multiset<EscrowId>, leakedConfiscation: multiset<EscrowId>, unemitted: set<TaskId>)

  /** `normal`: invocations that returned without throwing; `posts`: webhook POSTs. */
  datatype History = History(att: Attempts, cash: Cash, normal: multiset<Key>, posts: multiset<Key>)

  datatype State = State(clock: int, market: Market, bus: Bus, rows: Table, hist: History)

  const NO_HISTORY := History(
    Attempts(multiset{}, multiset{}, map[], {}),
    Cash(multiset{}, multiset{}, multiset{}, multiset{}, multiset{}, {}),
    multiset{}, multiset{})

  const START := State(0, Market(map[], map[], {}), Bus(map[], [], 0, map[]), map[], NO_HISTORY)

  // ---------- Worker program counter ----------

  /** Which loop of the tick an item comes from. */
  datatype Source = Claimed | Polled | Retried(kind: Kind)

  /** A unit of work: a stream entry (with its position), or a due row (without). */
  datatype Item = Item(key: Key, payload: Payload, pos: Option<nat>)

  /** Where the dispatched handler waits. The task is the snapshot that `findById` returned. */
  datatype Handler =
    | ReadTask(t: TaskId)
    | ReadBids(t: TaskId, task: Task)
    | Release(t: TaskId, task: Task, escrow: EscrowId)
    | SaveTask(t: TaskId, task: Task, escrow: EscrowId)
    | EmitDone(t: TaskId)
    | PostWebhook

  datatype Phase =
    | Fetched                                   // next: tryStart
    | LookingUp(attempt: int)                   // next: outbox.findById (retry loop only)
    | Running(attempt: int, handler: Handler)   // inside dispatch
    | Returned(attempt: int)                    // next: markSucceeded
    | Threw(attempt: int)                       // next: markFailed
    | Acking(abort: bool)                       // next: XACK; `abort` when an exception is on its way out

  datatype Pc =
    | Idle
    | Publishing(batch: seq<EventId>)           // next: XADD of batch[0]
    | Marking(batch: seq<EventId>)              // next: markProcessed of batch[0]
    | Refusing(batch: seq<EventId>)             // next: outbox.markFailed of batch[0]
    | Claiming
    | Polling
    | Scanning(kind: Kind)
    | Working(src: Source, item: Item, rest: seq<Item>, phase: Phase)

  /** What follows the loop over one source. */
  function After(src: Source): Pc {
    match src
    case Claimed => Polling
    case Polled => Scanning(CompletionRequested)
    case Retried(CompletionRequested) => Scanning(ResultPublished)
    case Retried(_) => Idle
  }

  function NextItem(src: Source, rest: seq<Item>): Pc {
    if rest == [] then After(src) else Working(src, rest[0], rest[1..], Fetched)
  }

  function NextPublish(batch: seq<EventId>): Pc {
    if batch == [] then Claiming else Publishing(batch)
  }

  /** The handler body has begun for the current item and has not returned or thrown. */
  predicate InHand(pc: Pc, k: Key) {
    && pc.Working? && pc.item.key == k
    && (pc.phase.LookingUp? || pc.phase.Running? || pc.phase.Returned? || pc.phase.Threw?)
  }

  // ---------- Steps ----------

  datatype WorkerLabel =
    | ListUnprocessed(o: Outcome, events: seq<EventId>)
    | XAdd(o: Outcome)
    | MarkProcessed(o: Outcome)
    | MarkUnpublished(o: Outcome)
    | Pause
    | AutoClaim(o: Outcome, positions: seq<nat>)
    | ReadGroup(o: Outcome, count: nat)
    | Begin(o: Outcome)
    | Lookup(o: Outcome)
    | FindTask(o: Outcome)
    | FindBids(o: Outcome, choice: Option<BidId>)
    | ReleaseMilestone(o: Outcome)
    | SaveCompleted(o: Outcome)
    | EmitCompleted(o: Outcome, id: EventId)
    | DeliverWebhook(posts: nat, ok: bool)
    | Succeed(o: Outcome)
    | Fail(o: Outcome)
    | Ack(o: Outcome)
    | ListDue(o: Outcome, ids: seq<EventId>)
    | Stop

  /** API handlers and time. `Unsaved`: the provider call took effect but the task save did not. */
  datatype Settlement = Saved | Refused | Unsaved

  datatype EnvLabel =
    | Elapse(ms: nat)
    | NewTask(t: TaskId, requester: Account, reserve: nat, deadline: int)
    | NewBid(b: BidId, bt: TaskId, executor: Account, amount: nat, collateral: nat,
             escrow: Option<EscrowId>, auto: Option<seq<BidId>>)
    | Select(st: TaskId, order: seq<BidId>)
    | Complete(ct: TaskId, who: Account, chosen: Option<BidId>, event: Option<EventId>)
    | CompleteSync(yt: TaskId, ywho: Account, ychosen: Option<BidId>, yout: Settlement)
    | Expire(et: TaskId, echosen: Option<BidId>, eout: Settlement)
    | Emit(id: EventId, kind: Kind)

  function WithOutbox(s: State, id: EventId, row: OutboxRow): State {
    s.(bus := s.bus.(outbox := s.bus.outbox[id := row]))
  }

  function Emitted(s: State, id: EventId, kind: Kind, payload: Payload): State {
    WithOutbox(s, id, OutboxRow(kind, payload, false, 0, s.clock))
  }

  function Appended(s: State, id: EventId): State
    requires id in s.bus.outbox
  {
    var row := s.bus.outbox[id];
    s.(bus := s.bus.(stream := s.bus.stream + [Entry(id, row.kind, row.payload)]))
  }

  function StreamItem(b: Bus, pos: nat): Item
    requires pos < |b.stream|
  {
    Item(Key(b.stream[pos].kind, b.stream[pos].id), b.stream[pos].payload, Some(pos))
  }

  function StreamItems(b: Bus, positions: seq<nat>): (r: seq<Item>)
    requires forall i :: 0 <= i < |positions| ==> positions[i] < |b.stream|
  {
    seq(|positions|, i requires 0 <= i < |positions| => StreamItem(b, positions[i]))
  }

  function RowItems(kind: Kind, ids: seq<EventId>): seq<Item> {
    seq(|ids|, i requires 0 <= i < |ids| => Item(Key(kind, ids[i]), Opaque, None))
  }

  function Range(lo: nat, n: nat): seq<nat> {
    seq(n, i requires 0 <= i < n => lo + i)
  }

  function Delivered(b: Bus, positions: seq<nat>, now: int): map<nat, int> {
    map p | p in b.pending.Keys + (set q | q in positions) :: if p in positions then now else b.pending[p]
  }

  function Noted(s: State, att: Attempts): State {
    s.(hist := s.hist.(att := att))
  }

  function Settled(s: State, cash: Cash): State {
    s.(hist := s.hist.(cash := cash))
  }

  function Started(s: State, k: Key, n: int): State {
    var before := if k in s.hist.att.starts then s.hist.att.starts[k] else [];
    Noted(s.(rows := s.rows[k := Row(PROCESSING, n, if k in s.rows then s.rows[k].nextRetryAt else None)]),
          s.hist.att.(starts := s.hist.att.starts[k := before + [s.clock]]))
  }

  function Interrupted(s: State, k: Key): State {
    Noted(s, s.hist.att.(interrupted := s.hist.att.interrupted + {k}))
  }

  /** Calling `dispatch`: everything up to the handler's first `await`. */
  function Dispatched(s: State, pc: Pc, payload: Payload, n: int): (State, Pc)
    requires pc.Working?
  {
    var k := pc.item.key;
    var s' := Noted(s, s.hist.att.(dispatched := s.hist.att.dispatched + multiset{k}));
    match k.kind
    case CompletionRequested =>
      if payload.Completion? && payload.taskId.Some? && payload.escrowId.Some?
      then (s', pc.(phase := Running(n, ReadTask(payload.taskId.value))))
      else (s', pc.(phase := Threw(n)))
    case ResultPublished => (s', pc.(phase := Running(n, PostWebhook)))
    case Other => Return(s', pc, n)
  }

  function Return(s: State, pc: Pc, n: int): (State, Pc)
    requires pc.Working?
  {
    (s.(hist := s.hist.(normal := s.hist.normal + multiset{pc.item.key})), pc.(phase := Returned(n)))
  }

  /** History of a run that is cut off where it stands: by a process stop or an exception out of the tick. */
  function CutOff(s: State, pc: Pc): State {
    if !pc.Working? then s
    else
      var k := pc.item.key;
      match pc.phase
      case Fetched => s
      case Acking(_) => s
      case Returned(_) =>
        Noted(s,
              s.hist.att.(interrupted := s.hist.att.interrupted + {k}, unmarked := s.hist.att.unmarked + multiset{k}))
      case Running(_, SaveTask(_, _, escrow)) =>
        Settled(Interrupted(s, k), s.hist.cash.(cut := s.hist.cash.cut + multiset{escrow}))
      case _ => Interrupted(s, k)
  }

  function Throw(s: State, pc: Pc, n: int): (State, Pc)
    requires pc.Working?
  {
    (s, pc.(phase := Threw(n)))
  }

  function Continue(s: State, pc: Pc, n: int, h: Handler): (State, Pc)
    requires pc.Working?
  {
    (s, pc.(phase := Running(n, h)))
  }

  function AfterFindTask(s: State, pc: Pc, n: int, t: TaskId, o: Outcome): (State, Pc)
    requires pc.Working?
  {
    if o != Ok || t !in s.market.tasks then Throw(s, pc, n)
    else if s.market.tasks[t].status == COMPLETED then Return(s, pc, n)
    else if s.market.tasks[t].status != COMPLETING then Throw(s, pc, n)
    else Continue(s, pc, n, ReadBids(t, s.market.tasks[t]))
  }

  function AfterRelease(s: State, pc: Pc, n: int, t: TaskId, task: Task, escrow: EscrowId, o: Outcome): (State, Pc)
    requires pc.Working?
  {
    var released := s.hist.cash.(released := s.hist.cash.released + multiset{escrow});
    match o
    case Ok => Continue(Settled(s, released), pc, n, SaveTask(t, task, escrow))
    case Err => Throw(s, pc, n)
    case Lost => Throw(Settled(s, released.(cut := s.hist.cash.cut + multiset{escrow})), pc, n)
  }

  function AfterSave(s: State, pc: Pc, n: int, t: TaskId, task: Task, escrow: EscrowId, o: Outcome): (State, Pc)
    requires pc.Working?
  {
    var saved := s.(market := WithStatus(s.market, t, task, COMPLETED));
    match o
    case Ok => Continue(saved, pc, n, EmitDone(t))
    case Err => Throw(Settled(s, s.hist.cash.(cut := s.hist.cash.cut + multiset{escrow})), pc, n)
    case Lost => Throw(saved, pc, n)
  }

  function AfterEmit(s: State, pc: Pc, n: int, id: EventId, o: Outcome): (State, Pc)
    requires pc.Working?
  {
    var s' := if o.Effect() then Emitted(s, id, Other, Opaque) else s;
    if o == Ok then Return(s', pc, n) else Throw(s', pc, n)
  }

  function AfterPost(s: State, pc: Pc, n: int, posts: nat, ok: bool): (State, Pc)
    requires pc.Working?
  {
    var k := pc.item.key;
    var s' := s.(hist := s.hist.(posts := s.hist.posts[k := s.hist.posts[k] + posts]));
    if ok then Return(s', pc, n) else Throw(s', pc, n)
  }

  /** One step of the handler for completion and webhook events. */
  ghost function HandlerStep(c: Config, s: State, pc: Pc, l: WorkerLabel): Option<(State, Pc)>
    requires pc.Working? && pc.phase.Running?
  {
    var n := pc.phase.attempt;
    match pc.phase.handler
    case ReadTask(t) =>
      if l.FindTask? then Some(AfterFindTask(s, pc, n, t, l.o)) else None
    case ReadBids(t, task) =>
      if !l.FindBids? || !Found(s.market, t, l.choice) then None
      else if l.o != Ok || l.choice.None? then Some(Throw(s, pc, n))
      else Some(Continue(s, pc, n, Release(t, task, s.market.bids[l.choice.value].escrowId)))
    case Release(t, task, escrow) =>
      if l.ReleaseMilestone? then Some(AfterRelease(s, pc, n, t, task, escrow, l.o)) else None
    case SaveTask(t, task, escrow) =>
      if l.SaveCompleted? then Some(AfterSave(s, pc, n, t, task, escrow, l.o)) else None
    case EmitDone(t) =>
      if l.EmitCompleted? && l.id !in s.bus.outbox then Some(AfterEmit(s, pc, n, l.id, l.o)) else None
    case PostWebhook =>
      if l.DeliverWebhook? && l.posts <= c.maxRetries + 1 then Some(AfterPost(s, pc, n, l.posts, l.ok)) else None
  }

  /** `tryStart` for the current item, up to the next `await`. */
  function AfterBegin(c: Config, s: State, pc: Pc, o: Outcome): (State, Pc)
    requires pc.Working?
  {
    var k := pc.item.key;
    var attempt := StartAttempt(s.rows, k, c.maxAttempts, s.clock);
    if o == Err then (s, Idle)
    else if o == Lost then
      (if attempt.None? then s else Interrupted(Started(s, k, attempt.value), k), Idle)
    else if attempt.None? then
      (s, if pc.item.pos.Some? then pc.(phase := Acking(false)) else NextItem(pc.src, pc.rest))
    else if pc.item.pos.Some? then
      Dispatched(Started(s, k, attempt.value), pc, pc.item.payload, attempt.value)
    else (Started(s, k, attempt.value), pc.(phase := LookingUp(attempt.value)))
  }

  function AfterLookup(s: State, pc: Pc, n: int, o: Outcome): (State, Pc)
    requires pc.Working?
  {
    var k := pc.item.key;
    if o != Ok then (CutOff(s, pc), Idle)
    else if k.id !in s.bus.outbox then Throw(s, pc, n)
    else Dispatched(s, pc, s.bus.outbox[k.id].payload, n)
  }

  /** A failed `markSucceeded` lands in the catch block, and so in `markFailed`. */
  function AfterSucceed(s: State, pc: Pc, n: int, o: Outcome): (State, Pc)
    requires pc.Working?
  {
    var k := pc.item.key;
    var marked := if o.Effect() then s.(rows := MarkSucceeded(s.rows, k)) else s;
    if o == Ok then (marked, if pc.item.pos.Some? then pc.(phase := Acking(false)) else NextItem(pc.src, pc.rest))
    else Throw(Noted(marked, s.hist.att.(unmarked := s.hist.att.unmarked + multiset{k})), pc, n)
  }

  /** A failed `markFailed` leaves the tick; on the stream paths the `finally` still acknowledges. */
  function AfterFail(s: State, pc: Pc, n: int, o: Outcome): (State, Pc)
    requires pc.Working?
  {
    var k := pc.item.key;
    var s' := if o == Err then Interrupted(s, k)
              else s.(rows := MarkFailed(s.rows, k, s.clock + BackoffMs(n)));
    (s', if pc.item.pos.Some? then pc.(phase := Acking(o.Throws()))
         else if o == Ok then NextItem(pc.src, pc.rest) else Idle)
  }

  function AfterAck(s: State, pc: Pc, abort: bool, p: nat, o: Outcome): (State, Pc)
    requires pc.Working?
  {
    (if o.Effect() then s.(bus := s.bus.(pending := s.bus.pending - {p})) else s,
     if abort || o != Ok then Idle else NextItem(pc.src, pc.rest))
  }

  /** One step of the worker on its current item. */
  ghost function ItemStep(c: Config, s: State, pc: Pc, l: WorkerLabel): Option<(State, Pc)>
    requires pc.Working?
  {
    match pc.phase
    case Fetched => if l.Begin? then Some(AfterBegin(c, s, pc, l.o)) else None
    case LookingUp(n) => if l.Lookup? then Some(AfterLookup(s, pc, n, l.o)) else None
    case Running(_, _) => HandlerStep(c, s, pc, l)
    case Returned(n) => if l.Succeed? then Some(AfterSucceed(s, pc, n, l.o)) else None
    case Threw(n) => if l.Fail? then Some(AfterFail(s, pc, n, l.o)) else None
    case Acking(abort) =>
      if l.Ack? && pc.item.pos.Some? then Some(AfterAck(s, pc, abort, pc.item.pos.value, l.o)) else None
  }

  predicate Claimable(s: State, positions: seq<nat>) {
    && |positions| <= READ_COUNT
    && Distinct(positions)
    && forall i :: 0 <= i < |positions| ==>
         && positions[i] in s.bus.pending && positions[i] < |s.bus.stream|
         && s.clock - s.bus.pending[positions[i]] >= MIN_IDLE_MS
  }

  ghost predicate DueBatch(s: State, kind: Kind, ids: seq<EventId>) {
    IsDueList(s.rows, kind, s.clock, RETRY_LIMIT, ids)
  }

  ghost predicate PublishBatch(s: State, events: seq<EventId>) {
    IsBatch(s.bus.outbox, PUBLISH_BATCH, events)
  }

  function AfterXAdd(s: State, batch: seq<EventId>, o: Outcome): (State, Pc)
    requires batch != [] && batch[0] in s.bus.outbox
  {
    (if o.Effect() then Appended(s, batch[0]) else s, if o == Ok then Marking(batch) else Refusing(batch))
  }

  function AfterMarkProcessed(s: State, batch: seq<EventId>, o: Outcome): (State, Pc)
    requires batch != [] && batch[0] in s.bus.outbox
  {
    (if o.Effect() then WithOutbox(s, batch[0], s.bus.outbox[batch[0]].(processed := true)) else s,
     if o == Ok then NextPublish(batch[1..]) else Refusing(batch))
  }

  function AfterMarkUnpublished(s: State, batch: seq<EventId>, o: Outcome): (State, Pc)
    requires batch != [] && batch[0] in s.bus.outbox
  {
    var row := s.bus.outbox[batch[0]];
    (if o.Effect() then WithOutbox(s, batch[0], row.(attempts := row.attempts + 1)) else s,
     if o == Ok then NextPublish(batch[1..]) else Idle)
  }

  function AfterClaim(s: State, positions: seq<nat>, o: Outcome): (State, Pc)
    requires Claimable(s, positions)
  {
    (if o.Effect() then s.(bus := s.bus.(pending := Delivered(s.bus, positions, s.clock))) else s,
     if o == Ok then NextItem(Claimed, StreamItems(s.bus, positions)) else Idle)
  }

  function AfterRead(s: State, count: nat, o: Outcome): (State, Pc)
    requires s.bus.delivered + count <= |s.bus.stream|
  {
    var positions := Range(s.bus.delivered, count);
    (if o.Effect() then s.(bus := s.bus.(pending := Delivered(s.bus, positions, s.clock),
                                         delivered := s.bus.delivered + count)) else s,
     if o == Ok then NextItem(Polled, StreamItems(s.bus, positions)) else Idle)
  }

  /** One step of one worker; None when the label does not fit where the worker stands. */
  ghost function WorkerStep(c: Config, s: State, pc: Pc, l: WorkerLabel): Option<(State, Pc)>
  {
    if l.Stop? then Some((CutOff(s, pc), Idle))
    else match pc
    case Idle =>
      if !l.ListUnprocessed? then None
      else if l.o != Ok then Some((s, Idle))
      else if PublishBatch(s, l.events) then Some((s, NextPublish(l.events)))
      else None
    case Publishing(batch) =>
      if l.XAdd? && batch != [] && batch[0] in s.bus.outbox then Some(AfterXAdd(s, batch, l.o)) else None
    case Marking(batch) =>
      if l.MarkProcessed? && batch != [] && batch[0] in s.bus.outbox then Some(AfterMarkProcessed(s, batch, l.o))
      else None
    case Refusing(batch) =>
      if l.MarkUnpublished? && batch != [] && batch[0] in s.bus.outbox then Some(AfterMarkUnpublished(s, batch, l.o))
      else None
    case Claiming =>
      if l.Pause? then Some((s, Idle))
      else if l.AutoClaim? && Claimable(s, l.positions) then Some(AfterClaim(s, l.positions, l.o))
      else None
    case Polling =>
      if l.ReadGroup? && l.count == Min(READ_COUNT, |s.bus.stream| - s.bus.delivered)
      then Some(AfterRead(s, l.count, l.o))
      else None
    case Scanning(kind) =>
      if !l.ListDue? then None
      else if l.o != Ok then Some((s, Idle))
      else if DueBatch(s, kind, l.ids) then Some((s, NextItem(Retried(kind), RowItems(kind, l.ids))))
      else None
    case Working(_, _, _, _) => ItemStep(c, s, pc, l)
  }

  /** One API request or the passing of time. Refused requests leave the stores as they are. */
  function EnvStep(c: Config, s: State, l: EnvLabel): Option<State>
  {
    var m := s.market;
    match l
    case Elapse(ms) => Some(s.(clock := s.clock + ms))
    case NewTask(t, requester, reserve, deadline) =>
      if t in m.tasks then None
      else Some(s.(market := m.(tasks := m.tasks[t := Task(requester, reserve, deadline, OPEN)])))
    case NewBid(b, t, executor, amount, collateral, escrow, auto) =>
      if b in m.bids || (escrow.Some? && escrow.value in m.escrows) then None
      else if escrow.Some? && auto.Some?
           && !Listing(WithBid(m, b, t, executor, amount, collateral, escrow.value, s.clock), t, auto.value) then None
      else Some(s.(market := PlaceBid(m, b, t, executor, amount, collateral, escrow, s.clock, auto).0))
    case Select(t, order) =>
      if !Listing(m, t, order) then None else Some(s.(market := SelectWinner(m, t, order).0))
    case Complete(t, who, choice, event) =>
      if !c.outbox || !Found(m, t, choice) || (event.Some? && event.value in s.bus.outbox) then None
      else if CompleteRefusal(m, t, who, choice).Some? then Some(s)
      else
        var s' := s.(market := WithStatus(m, t, m.tasks[t], COMPLETING));
        Some(match event
             case None => Settled(s', s.hist.cash.(unemitted := s.hist.cash.unemitted + {t}))
             case Some(id) => Emitted(s', id, CompletionRequested,
                                      Completion(Some(t), Some(m.bids[choice.value].escrowId))))
    case CompleteSync(t, who, choice, out) =>
      if c.outbox || !Found(m, t, choice) then None
      else if CompleteRefusal(m, t, who, choice).Some? then Some(s)
      else
        var escrow := m.bids[choice.value].escrowId;
        var paid := s.hist.cash.(released := s.hist.cash.released + multiset{escrow});
        Some(match out
             case Refused => s
             case Saved => Settled(s.(market := WithStatus(m, t, m.tasks[t], COMPLETED)), paid)
             case Unsaved => Settled(s, paid.(leakedRelease := s.hist.cash.leakedRelease + multiset{escrow})))
    case Expire(t, choice, out) =>
      if !Found(m, t, choice) || t !in m.tasks || m.tasks[t].status != ASSIGNED || m.tasks[t].deadline >= s.clock
      then None
      else if choice.None? then Some(s)
      else
        var escrow := m.bids[choice.value].escrowId;
        var taken := s.hist.cash.(confiscated := s.hist.cash.confiscated + multiset{escrow});
        Some(match out
             case Refused => s
             case Saved => Settled(s.(market := WithStatus(m, t, m.tasks[t], EXPIRED)), taken)
             case Unsaved => Settled(s, taken.(leakedConfiscation := s.hist.cash.leakedConfiscation + multiset{escrow})))
    case Emit(id, kind) =>
      if id in s.bus.outbox || kind == CompletionRequested then None else Some(Emitted(s, id, kind, Opaque))
  }

  // ---------- Runs of a single worker ----------

  datatype Label = W(w: WorkerLabel) | E(e: EnvLabel)

  datatype Conf = Conf(s: State, pc: Pc)

  ghost predicate Step(c: Config, a: Conf, l: Label, b: Conf) {
    match l
    case W(w) => WorkerStep(c, a.s, a.pc, w) == Some((b.s, b.pc))
    case E(e) => EnvStep(c, a.s, e) == Some(b.s) && b.pc == a.pc
  }

  /** `run` is a run from the empty system, taking `labels` one after the other. */
  ghost predicate IsRun(c: Config, run: seq<Conf>, labels: seq<Label>) {
    && |run| == |labels| + 1
    && run[0] == Conf(START, Idle)
    && forall i :: 0 <= i < |labels| ==> Step(c, run[i], labels[i], run[i + 1])
  }

  /** A run with the labels of its steps. */
  datatype Trace = Trace(run: seq<Conf>, labels: seq<Label>)

  /** Adding one step to a run. */
  lemma Extend(c: Config, run: seq<Conf>, labels: seq<Label>, l: Label, b: Conf)
    requires IsRun(c, run, labels) && Step(c, run[|labels|], l, b)
    ensures IsRun(c, run + [b], labels + [l])
    ensures (run + [b])[|labels + [l]|] == b
  {
    var run', labels' := run + [b], labels + [l];
    forall i | 0 <= i < |labels'| ensures Step(c, run'[i], labels'[i], run'[i + 1]) {
      if i < |labels| { assert Step(c, run[i], labels[i], run[i + 1]); }
    }
  }
}
