/** No event is lost, except by the steps named here. */
module NoLoss {
  import opened Types
  import opened Consumption
  import opened Market
  import opened Protocol
  import opened Delivery

  function KeyOf(s: State, e: EventId): Key
    requires e in s.bus.outbox
  {
    Key(s.bus.outbox[e].kind, e)
  }

  /** The retry loop has started the event's row and not yet marked it. */
  predicate RetryHand(pc: Pc, k: Key) {
    InHand(pc, k) && pc.item.pos.None?
  }

  /** Left PROCESSING with attempts left: the row alone will not bring the event back. */
  predicate Dangling(c: Config, s: State, k: Key) {
    k in s.rows && s.rows[k].status == PROCESSING && !Exhausted(s.rows[k], c.maxAttempts)
  }

  /** The places an event can be: not published yet; in the stream, unread or pending; in the hands of the
      retry loop; SUCCEEDED; FAILED (with attempts left the retry loop will pick it up); out of attempts. */
  ghost predicate Located(c: Config, a: Conf, e: EventId)
    requires e in a.s.bus.outbox
  {
    var k := KeyOf(a.s, e);
    || !a.s.bus.outbox[e].processed
    || HasLive(a.s.bus, e)
    || RetryHand(a.pc, k)
    || (k in a.s.rows && (a.s.rows[k].status != PROCESSING || Exhausted(a.s.rows[k], c.maxAttempts)))
  }

  /** Published, no copy left to deliver, nobody working on it, and its row stuck at PROCESSING. */
  ghost predicate Stranded(c: Config, a: Conf, e: EventId)
    requires e in a.s.bus.outbox
  {
    && a.s.bus.outbox[e].processed
    && !HasLive(a.s.bus, e)
    && !RetryHand(a.pc, KeyOf(a.s, e))
    && Dangling(c, a.s, KeyOf(a.s, e))
  }

  lemma LocatedOrStranded(c: Config, a: Conf, e: EventId)
    requires Inv(c, a) && e in a.s.bus.outbox
    ensures Located(c, a, e) <==> !Stranded(c, a, e)
  {
    if a.s.bus.outbox[e].processed { assert HasLive(a.s.bus, e) || HasRow(a.s, e); }
  }

  // ---------- Exactly which step strands an event ----------

  /** The retry loop leaves a started row unmarked: the process stops, the outbox lookup throws, the
      `markFailed` throws, or the reply of `tryStart` is lost. */
  predicate DropsRetry(c: Config, a: Conf, w: WorkerLabel, k: Key) {
    && a.pc.Working? && a.pc.item.key == k && a.pc.item.pos.None?
    && if a.pc.phase.Fetched?
       then w == Begin(Lost) && k in a.s.rows && Startable(a.s.rows[k], c.maxAttempts, a.s.clock)
            && a.s.rows[k].attempts + 1 < c.maxAttempts
       else InHand(a.pc, k) && Dangling(c, a.s, k)
            && (w.Stop? || (w.Lookup? && w.o != Ok && a.pc.phase.LookingUp?) || (w == Fail(Err) && a.pc.phase.Threw?))
  }

  /** The `finally` acknowledges an entry whose row could not be marked FAILED. */
  predicate AcksUnmarked(c: Config, a: Conf, w: WorkerLabel, k: Key) {
    && a.pc.Working? && a.pc.item.key == k && a.pc.item.pos.Some? && a.pc.phase.Acking?
    && w.Ack? && w.o.Effect() && Dangling(c, a.s, k)
  }

  ghost predicate Strands(c: Config, a: Conf, l: Label, e: EventId)
    requires e in a.s.bus.outbox
  {
    var k := KeyOf(a.s, e);
    && l.W? && a.s.bus.outbox[e].processed
    && ((DropsRetry(c, a, l.w, k) && !HasLive(a.s.bus, e))
        || (AcksUnmarked(c, a, l.w, k) && forall i :: Live(a.s.bus, e, i) ==> i == a.pc.item.pos.value))
  }

  /** Where `HasLive` can go from one state to the next. */
  ghost predicate SameLive(b: Bus, b': Bus, e: EventId) {
    HasLive(b', e) <==> HasLive(b, e)
  }

  lemma SameBusLive(b: Bus, b': Bus, e: EventId)
    requires b'.stream == b.stream && b'.delivered == b.delivered && b'.pending == b.pending
    ensures SameLive(b, b', e)
  {
    if i :| Live(b, e, i) { assert Live(b', e, i); }
    if i :| Live(b', e, i) { assert Live(b, e, i); }
  }

  /** What a request may touch: no row, no stream position, new outbox rows only. */
  lemma EnvItem(c: Config, s: State, l: EnvLabel, s': State)
    requires EnvStep(c, s, l) == Some(s')
    ensures s'.rows == s.rows && s'.hist.att == s.hist.att
    ensures s'.bus == s.bus.(outbox := s'.bus.outbox)
    ensures forall e :: e in s.bus.outbox ==> e in s'.bus.outbox && s'.bus.outbox[e] == s.bus.outbox[e]
  {
  }

  /** An event only becomes `processed` by the publisher's mark, while a live copy exists. */
  lemma EnvStranding(c: Config, a: Conf, l: EnvLabel, b: Conf, e: EventId)
    requires Inv(c, a) && Step(c, a, E(l), b) && e in a.s.bus.outbox
    ensures e in b.s.bus.outbox && KeyOf(b.s, e) == KeyOf(a.s, e)
    ensures Stranded(c, b, e) <==> Stranded(c, a, e)
    ensures b.s.hist.att.dispatched == a.s.hist.att.dispatched
  {
    EnvItem(c, a.s, l, b.s);
    SameBusLive(a.s.bus, b.s.bus, e);
    hide EnvStep, Inv, HasLive;
  }

  lemma LiveGrows(b: Bus, b': Bus, e: EventId)
    requires |b'.stream| >= |b.stream| && b'.stream[..|b.stream|] == b.stream
    requires b'.delivered == b.delivered && b'.pending == b.pending
    requires HasLive(b, e)
    ensures HasLive(b', e)
  {
    var i :| Live(b, e, i);
    assert b'.stream[..|b.stream|][i] == b'.stream[i];
    assert Live(b', e, i);
  }

  lemma XAddStranding(c: Config, a: Conf, o: Outcome, b: Conf, e: EventId)
    requires BusOk(a.s.bus) && a.pc.Publishing? && a.pc.batch != [] && a.pc.batch[0] in a.s.bus.outbox
    requires (b.s, b.pc) == AfterXAdd(a.s, a.pc.batch, o) && e in a.s.bus.outbox
    requires a.s.bus.outbox[a.pc.batch[0]].processed == false
    ensures b.s.bus.outbox == a.s.bus.outbox
    ensures Stranded(c, b, e) <==> Stranded(c, a, e)
  {
    if HasLive(a.s.bus, e) { LiveGrows(a.s.bus, b.s.bus, e); }
    if i :| Live(b.s.bus, e, i) {
      if e != a.pc.batch[0] { assert Live(a.s.bus, e, i); }
    }
  }

  lemma PublishStranding(c: Config, a: Conf, w: WorkerLabel, b: Conf, e: EventId)
    requires Inv(c, a) && Step(c, a, W(w), b) && e in a.s.bus.outbox
    requires a.pc.Idle? || a.pc.Publishing? || a.pc.Marking? || a.pc.Refusing?
    ensures e in b.s.bus.outbox && KeyOf(b.s, e) == KeyOf(a.s, e)
    ensures Stranded(c, b, e) <==> Stranded(c, a, e)
    ensures b.s.hist.att.dispatched == a.s.hist.att.dispatched
  {
    hide RowsOk, Covered;
    if w.XAdd? {
      hide HasLive;
      XAddStranding(c, a, w.o, b, e);
    } else {
      hide BusOk;
      SameBusLive(a.s.bus, b.s.bus, e);
      hide HasLive;
    }
  }

  /** Delivering positions, read or claimed, keeps exactly the live copies. */
  lemma DeliveredLive(b: Bus, b': Bus, positions: seq<nat>, now: int, e: EventId)
    requires b'.stream == b.stream && b'.pending == Delivered(b, positions, now)
    requires b.delivered <= b'.delivered <= |b.stream|
    requires forall i :: b.delivered <= i < b'.delivered ==> i in positions
    requires forall i :: 0 <= i < |positions| ==> positions[i] in b.pending || positions[i] >= b.delivered
    ensures SameLive(b, b', e)
  {
    if i :| Live(b, e, i) { assert Live(b', e, i); }
    if i :| Live(b', e, i) { assert Live(b, e, i); }
  }

  lemma FetchStranding(c: Config, a: Conf, w: WorkerLabel, b: Conf, e: EventId)
    requires Inv(c, a) && Step(c, a, W(w), b) && e in a.s.bus.outbox
    requires a.pc.Claiming? || a.pc.Polling? || a.pc.Scanning?
    ensures e in b.s.bus.outbox && KeyOf(b.s, e) == KeyOf(a.s, e)
    ensures Stranded(c, b, e) <==> Stranded(c, a, e)
    ensures b.s.hist.att.dispatched == a.s.hist.att.dispatched
  {
    hide RowsOk, Covered, PcOk, HasLive, Delivered, StreamItems, RowItems;
    var p, p' := a.s.bus, b.s.bus;
    if w.AutoClaim? && w.o.Effect() {
      DeliveredLive(p, p', w.positions, a.s.clock, e);
    } else if w.ReadGroup? && w.o.Effect() {
      var positions := Range(p.delivered, w.count);
      forall i | p.delivered <= i < p'.delivered ensures i in positions {
        assert positions[i - p.delivered] == i;
      }
      DeliveredLive(p, p', positions, a.s.clock, e);
    } else {
      SameBusLive(p, p', e);
    }
  }

  /** Only the current item's row changed, and the outbox only grew. */
  ghost predicate OnlyItem(s: State, pc: Pc, s': State, pc': Pc)
    requires pc.Working?
  {
    && (forall k :: k != pc.item.key ==> (k in s'.rows <==> k in s.rows) && (k in s.rows ==> s'.rows[k] == s.rows[k]))
    && (forall e :: e in s.bus.outbox ==> e in s'.bus.outbox && s'.bus.outbox[e] == s.bus.outbox[e])
    && s'.bus.stream == s.bus.stream && s'.bus.delivered == s.bus.delivered
    && (pc'.Working? && !pc'.phase.Fetched? ==> pc' == pc.(phase := pc'.phase))
  }

  lemma BeginItem(c: Config, s: State, pc: Pc, o: Outcome)
    requires pc.Working?
    ensures var (s', pc') := AfterBegin(c, s, pc, o); OnlyItem(s, pc, s', pc') && s'.bus == s.bus
  {
    var n := StartAttempt(s.rows, pc.item.key, c.maxAttempts, s.clock);
    if n.Some? {
      DispatchFrame(Started(s, pc.item.key, n.value), pc, pc.item.payload, n.value);
      hide Dispatched;
    }
  }

  lemma LookupItem(s: State, pc: Pc, n: int, o: Outcome)
    requires pc.Working?
    ensures var (s', pc') := AfterLookup(s, pc, n, o); OnlyItem(s, pc, s', pc') && s'.bus == s.bus && s'.rows == s.rows
  {
    hide CutOff, Dispatched;
    CutItem(s, pc);
    var id := pc.item.key.id;
    if o == Ok && id in s.bus.outbox { DispatchFrame(s, pc, s.bus.outbox[id].payload, n); }
  }

  lemma MarkItem(s: State, pc: Pc, n: int, o: Outcome)
    requires pc.Working?
    ensures var (s', pc') := AfterSucceed(s, pc, n, o); OnlyItem(s, pc, s', pc') && s'.bus == s.bus
    ensures var (s', pc') := AfterFail(s, pc, n, o); OnlyItem(s, pc, s', pc') && s'.bus == s.bus
  {
    hide BackoffMs;
  }

  lemma AckItem(s: State, pc: Pc, abort: bool, p: nat, o: Outcome)
    requires pc.Working?
    ensures var (s', pc') := AfterAck(s, pc, abort, p, o);
            && OnlyItem(s, pc, s', pc') && s'.rows == s.rows
            && s'.bus == s.bus.(pending := if o.Effect() then s.bus.pending - {p} else s.bus.pending)
  {
  }

  lemma CutItem(s: State, pc: Pc)
    ensures CutOff(s, pc).rows == s.rows && CutOff(s, pc).bus == s.bus
  {
  }

  /** What a step on the current item may touch: that item's row, one pending entry, new outbox rows. */
  lemma ItemFrame(c: Config, a: Conf, w: WorkerLabel, b: Conf)
    requires Step(c, a, W(w), b) && a.pc.Working?
    ensures forall k :: k != a.pc.item.key ==> (k in b.s.rows <==> k in a.s.rows) && (k in a.s.rows ==> b.s.rows[k] == a.s.rows[k])
    ensures forall e :: e in a.s.bus.outbox ==> e in b.s.bus.outbox && b.s.bus.outbox[e] == a.s.bus.outbox[e]
    ensures b.s.bus.stream == a.s.bus.stream && b.s.bus.delivered == a.s.bus.delivered
    ensures !(w.Ack? && w.o.Effect()) ==> b.s.bus.pending == a.s.bus.pending
    ensures w.Ack? && w.o.Effect() ==>
              a.pc.item.pos.Some? && b.s.bus.pending == a.s.bus.pending - {a.pc.item.pos.value}
    ensures b.pc.Working? && !b.pc.phase.Fetched? ==> b.pc == a.pc.(phase := b.pc.phase)
  {
    Taken(c, a, w, b);
    hide Step, AfterBegin, AfterLookup, AfterSucceed, AfterFail, AfterAck, CutOff, HandlerStep;
    if w.Stop? {
      CutItem(a.s, a.pc);
    } else {
      match a.pc.phase
      case Fetched => BeginItem(c, a.s, a.pc, w.o);
      case LookingUp(n) => LookupItem(a.s, a.pc, n, w.o);
      case Running(_, _) => HandlerFrame(c, a.s, a.pc, w, b.s, b.pc); HandlerLabels(c, a.s, a.pc, w);
      case Returned(n) => MarkItem(a.s, a.pc, n, w.o);
      case Threw(n) => MarkItem(a.s, a.pc, n, w.o);
      case Acking(abort) => AckItem(a.s, a.pc, abort, a.pc.item.pos.value, w.o);
    }
  }

  lemma HandlerLabels(c: Config, s: State, pc: Pc, w: WorkerLabel)
    requires pc.Working? && pc.phase.Running? && HandlerStep(c, s, pc, w).Some?
    ensures !w.Ack? && !w.Stop? && !w.Fail? && !w.Lookup? && !w.Begin?
  {
  }

  lemma OtherStranding(c: Config, a: Conf, w: WorkerLabel, b: Conf, e: EventId)
    requires Inv(c, a) && Step(c, a, W(w), b) && e in a.s.bus.outbox
    requires a.pc.Working? && e != a.pc.item.key.id
    ensures e in b.s.bus.outbox && KeyOf(b.s, e) == KeyOf(a.s, e)
    ensures Stranded(c, b, e) <==> Stranded(c, a, e)
  {
    ItemFrame(c, a, w, b);
    if i :| Live(a.s.bus, e, i) { assert Live(b.s.bus, e, i); }
    if i :| Live(b.s.bus, e, i) { assert Live(a.s.bus, e, i); }
  }

  /** The event the worker is on: a stream item is live until it is acknowledged. */
  lemma OwnStreamStranding(c: Config, a: Conf, w: WorkerLabel, b: Conf)
    requires Inv(c, a) && Step(c, a, W(w), b) && a.pc.Working? && a.pc.item.pos.Some?
    ensures var e := a.pc.item.key.id;
            e in b.s.bus.outbox && KeyOf(b.s, e) == KeyOf(a.s, e) && !Stranded(c, a, e)
            && (Stranded(c, b, e) <==> Strands(c, a, W(w), e))
  {
    var e, p := a.pc.item.key.id, a.pc.item.pos.value;
    ItemFrame(c, a, w, b);
    assert Live(a.s.bus, e, p);
    if w.Ack? && w.o.Effect() {
      if i :| Live(a.s.bus, e, i) && i != p { assert Live(b.s.bus, e, i); }
      if i :| Live(b.s.bus, e, i) { assert Live(a.s.bus, e, i); }
      assert a.pc.phase.Acking?;
    } else {
      assert Live(b.s.bus, e, p);
    }
  }

  /** A due row the retry loop is on: its row, and a live copy if there is one, decide. */
  lemma OwnRetryStranding(c: Config, a: Conf, w: WorkerLabel, b: Conf)
    requires Inv(c, a) && Step(c, a, W(w), b) && a.pc.Working? && a.pc.item.pos.None?
    ensures var e := a.pc.item.key.id;
            e in b.s.bus.outbox && KeyOf(b.s, e) == KeyOf(a.s, e) && !Stranded(c, a, e)
            && (Stranded(c, b, e) <==> Strands(c, a, W(w), e))
  {
    hide Step, Stranded, Strands;
    if w.Stop? || !(a.pc.phase.Fetched? || a.pc.phase.LookingUp?) { OwnRetryEnd(c, a, w, b); }
    else { OwnRetryStart(c, a, w, b); }
  }

  lemma OwnRetryStart(c: Config, a: Conf, w: WorkerLabel, b: Conf)
    requires Inv(c, a) && Step(c, a, W(w), b) && a.pc.Working? && a.pc.item.pos.None?
    requires !w.Stop? && (a.pc.phase.Fetched? || a.pc.phase.LookingUp?)
    ensures var e := a.pc.item.key.id;
            e in b.s.bus.outbox && KeyOf(b.s, e) == KeyOf(a.s, e) && !Stranded(c, a, e)
            && (Stranded(c, b, e) <==> Strands(c, a, W(w), e))
  {
    var e := a.pc.item.key.id;
    ItemFrame(c, a, w, b);
    SameBusLive(a.s.bus, b.s.bus, e);
    Taken(c, a, w, b);
    hide Step, BusOk, Covered, HasLive, AfterLookup, AfterBegin;
    if a.pc.phase.Fetched? {
      RetryBegin(c, a.s, a.pc, w.o);
    } else {
      RetryLookup(a.s, a.pc, a.pc.phase.attempt, w.o);
    }
  }

  lemma OwnRetryEnd(c: Config, a: Conf, w: WorkerLabel, b: Conf)
    requires Inv(c, a) && Step(c, a, W(w), b) && a.pc.Working? && a.pc.item.pos.None?
    requires w.Stop? || !(a.pc.phase.Fetched? || a.pc.phase.LookingUp?)
    ensures var e := a.pc.item.key.id;
            e in b.s.bus.outbox && KeyOf(b.s, e) == KeyOf(a.s, e) && !Stranded(c, a, e)
            && (Stranded(c, b, e) <==> Strands(c, a, W(w), e))
  {
    var e := a.pc.item.key.id;
    ItemFrame(c, a, w, b);
    SameBusLive(a.s.bus, b.s.bus, e);
    Taken(c, a, w, b);
    hide Step, BusOk, Covered, HasLive, CutOff, HandlerStep, AfterSucceed, AfterFail, AfterAck;
    if w.Stop? {
      CutItem(a.s, a.pc);
    } else if a.pc.phase.Running? {
      HandlerFrame(c, a.s, a.pc, w, b.s, b.pc);
      HandlerLabels(c, a.s, a.pc, w);
    } else if !a.pc.phase.Acking? {
      RetryMark(a.s, a.pc, a.pc.phase.attempt, w.o);
    }
  }

  lemma RetryLookup(s: State, pc: Pc, n: int, o: Outcome)
    requires pc.Working? && pc.item.key.id in s.bus.outbox
    ensures var (s', pc') := AfterLookup(s, pc, n, o);
            && s'.rows == s.rows && s'.bus == s.bus
            && (if o == Ok then pc'.Working? && pc' == pc.(phase := pc'.phase)
                                && (pc'.phase.Running? || pc'.phase.Returned? || pc'.phase.Threw?)
                else pc' == Idle)
  {
    DispatchFrame(s, pc, s.bus.outbox[pc.item.key.id].payload, n);
    LookupItem(s, pc, n, o);
    hide Dispatched;
  }

  lemma RetryBegin(c: Config, s: State, pc: Pc, o: Outcome)
    requires pc.Working? && pc.item.pos.None? && pc.item.key in s.rows && s.rows[pc.item.key].status == FAILED
    ensures var ((s', pc'), k) := (AfterBegin(c, s, pc, o), pc.item.key);
            if o == Err || !Startable(s.rows[k], c.maxAttempts, s.clock) then
              s'.rows == s.rows && !InHand(pc', k)
            else
              && k in s'.rows && s'.rows[k].status == PROCESSING && s'.rows[k].attempts == s.rows[k].attempts + 1
              && (InHand(pc', k) <==> o == Ok) && (o == Ok ==> pc'.item == pc.item)
  {
  }

  lemma RetryMark(s: State, pc: Pc, n: int, o: Outcome)
    requires pc.Working? && pc.item.pos.None? && pc.item.key in s.rows
    ensures var ((s', pc'), k) := (AfterSucceed(s, pc, n, o), pc.item.key);
            && k in s'.rows && (s'.rows[k].status == if o == Err then s.rows[k].status else SUCCEEDED)
            && s'.rows[k].attempts == s.rows[k].attempts
            && (if o == Ok then !InHand(pc', k) else pc' == pc.(phase := Threw(n)))
    ensures var ((s', pc'), k) := (AfterFail(s, pc, n, o), pc.item.key);
            && k in s'.rows && s'.rows[k].status == (if o == Err then s.rows[k].status else FAILED)
            && s'.rows[k].attempts == s.rows[k].attempts && !InHand(pc', k)
  {
    hide BackoffMs;
  }

  /** Main step theorem. From a state in which event `e` is where it should be, a step loses it if and only if
      it is one of the two kinds of step described by `Strands`. */
  lemma LostExactlyBy(c: Config, a: Conf, l: Label, b: Conf, e: EventId)
    requires Inv(c, a) && Step(c, a, l, b) && e in a.s.bus.outbox && Located(c, a, e)
    ensures e in b.s.bus.outbox
    ensures !Located(c, b, e) <==> Strands(c, a, l, e)
  {
    LocatedOrStranded(c, a, e);
    StepKeeps(c, a, l, b);
    match l {
      case E(env) => EnvStranding(c, a, env, b, e);
      case W(w) =>
        if a.pc.Working? {
          if e != a.pc.item.key.id { OtherStranding(c, a, w, b, e); }
          else if a.pc.item.pos.Some? { OwnStreamStranding(c, a, w, b); }
          else { OwnRetryStranding(c, a, w, b); }
        } else if a.pc.Claiming? || a.pc.Polling? || a.pc.Scanning? { FetchStranding(c, a, w, b, e); }
        else { PublishStranding(c, a, w, b, e); }
    }
    LocatedOrStranded(c, b, e);
  }

  /** A stranded event stays stranded and is never dispatched again. */
  lemma StrandedForGood(c: Config, a: Conf, l: Label, b: Conf, e: EventId)
    requires Inv(c, a) && Step(c, a, l, b) && e in a.s.bus.outbox && Stranded(c, a, e)
    ensures e in b.s.bus.outbox && KeyOf(b.s, e) == KeyOf(a.s, e) && Stranded(c, b, e)
    ensures b.s.hist.att.dispatched[KeyOf(a.s, e)] == a.s.hist.att.dispatched[KeyOf(a.s, e)]
  {
    match l
    case E(env) => EnvStranding(c, a, env, b, e);
    case W(w) =>
      if a.pc.Working? {
        if e != a.pc.item.key.id { OtherStranding(c, a, w, b, e); OneDispatch(c, a, w, b); }
        else if a.pc.item.pos.Some? { OwnStreamStranding(c, a, w, b); }
        else { OwnRetryStranding(c, a, w, b); }
      } else if a.pc.Claiming? || a.pc.Polling? || a.pc.Scanning? { FetchStranding(c, a, w, b, e); }
      else { PublishStranding(c, a, w, b, e); }
  }

  /** A step dispatches at most the item it works on. */
  lemma OneDispatch(c: Config, a: Conf, w: WorkerLabel, b: Conf)
    requires Step(c, a, W(w), b) && a.pc.Working?
    ensures forall k :: k != a.pc.item.key ==> b.s.hist.att.dispatched[k] == a.s.hist.att.dispatched[k]
  {
    Taken(c, a, w, b);
    hide Step, HandlerStep, AfterBegin, AfterLookup, CutOff, BackoffMs;
    if w.Stop? { CutDispatch(a.s, a.pc); }
    else if a.pc.phase.Running? { HandlerFrame(c, a.s, a.pc, w, b.s, b.pc); }
    else if a.pc.phase.Fetched? { BeginDispatch(c, a.s, a.pc, w.o); }
    else if a.pc.phase.LookingUp? { LookupDispatch(a.s, a.pc, a.pc.phase.attempt, w.o); }
  }

  lemma BeginDispatch(c: Config, s: State, pc: Pc, o: Outcome)
    requires pc.Working?
    ensures forall k :: k != pc.item.key ==> AfterBegin(c, s, pc, o).0.hist.att.dispatched[k] == s.hist.att.dispatched[k]
  {
  }

  lemma LookupDispatch(s: State, pc: Pc, n: int, o: Outcome)
    requires pc.Working?
    ensures forall k :: k != pc.item.key ==> AfterLookup(s, pc, n, o).0.hist.att.dispatched[k] == s.hist.att.dispatched[k]
  {
  }

  lemma CutDispatch(s: State, pc: Pc)
    ensures CutOff(s, pc).hist.att.dispatched == s.hist.att.dispatched
  {
  }

  // ---------- Whole runs ----------

  lemma {:induction false} RunKeeps(c: Config, run: seq<Conf>, labels: seq<Label>, i: nat)
    requires IsRun(c, run, labels) && i <= |labels|
    ensures Inv(c, run[i])
  {
    if i > 0 {
      RunKeeps(c, run, labels, i - 1);
      StepKeeps(c, run[i - 1], labels[i - 1], run[i]);
    }
  }

  /** An event enters the outbox unprocessed, and never leaves it. */
  lemma NewEvent(c: Config, a: Conf, l: Label, b: Conf, e: EventId)
    requires Step(c, a, l, b)
    ensures e in a.s.bus.outbox ==> e in b.s.bus.outbox
    ensures e in b.s.bus.outbox && e !in a.s.bus.outbox ==> !b.s.bus.outbox[e].processed
  {
    if l.W? && a.pc.Working? { FreshFromHandler(c, a, l.w, b, e); }
  }

  lemma FreshFromHandler(c: Config, a: Conf, w: WorkerLabel, b: Conf, e: EventId)
    requires Step(c, a, W(w), b) && a.pc.Working?
    ensures e in a.s.bus.outbox ==> e in b.s.bus.outbox
    ensures e in b.s.bus.outbox && e !in a.s.bus.outbox ==> !b.s.bus.outbox[e].processed
  {
    if a.pc.phase.Running? && !w.Stop? { HandlerFrame(c, a.s, a.pc, w, b.s, b.pc); }
  }

  ghost predicate StrandedBy(c: Config, run: seq<Conf>, labels: seq<Label>, j: int, e: EventId)
    requires IsRun(c, run, labels) && 0 <= j < |labels|
  {
    e in run[j].s.bus.outbox && Strands(c, run[j], labels[j], e)
  }

  /** In every run, an event is where it should be if and only if no step so far was one of the two
      losing steps for it. */
  lemma {:induction false} NoEventLost(c: Config, run: seq<Conf>, labels: seq<Label>, i: nat, e: EventId)
    requires IsRun(c, run, labels) && i <= |labels| && e in run[i].s.bus.outbox
    ensures Located(c, run[i], e) <==> forall j :: 0 <= j < i ==> !StrandedBy(c, run, labels, j, e)
  {
    hide Inv, Step, Stranded, Located, Strands;
    RunKeeps(c, run, labels, i);
    if i == 0 { AtStart(c, e); return; }
    RunKeeps(c, run, labels, i - 1);
    var a, l, b := run[i - 1], labels[i - 1], run[i];
    NewEvent(c, a, l, b, e);
    if e !in a.s.bus.outbox {
      NotThereBefore(c, run, labels, i - 1, e);
      Fresh(c, b, e);
    } else {
      NoEventLost(c, run, labels, i - 1, e);
      if Located(c, a, e) {
        LostExactlyBy(c, a, l, b, e);
        assert StrandedBy(c, run, labels, i - 1, e) <==> Strands(c, a, l, e);
      } else {
        LocatedOrStranded(c, a, e);
        StrandedForGood(c, a, l, b, e);
        LocatedOrStranded(c, b, e);
      }
    }
  }

  lemma AtStart(c: Config, e: EventId)
    ensures e !in START.bus.outbox
  {
  }

  lemma Fresh(c: Config, a: Conf, e: EventId)
    requires e in a.s.bus.outbox && !a.s.bus.outbox[e].processed
    ensures Located(c, a, e)
  {
  }

  lemma {:induction false} NotThereBefore(c: Config, run: seq<Conf>, labels: seq<Label>, i: nat, e: EventId)
    requires IsRun(c, run, labels) && i <= |labels| && e !in run[i].s.bus.outbox
    ensures forall j :: 0 <= j <= i ==> e !in run[j].s.bus.outbox
  {
    if i > 0 {
      NewEvent(c, run[i - 1], labels[i - 1], run[i], e);
      NotThereBefore(c, run, labels, i - 1, e);
    }
  }

  /** Once lost, an event is never dispatched again in the rest of the run. */
  lemma {:induction false} LostForGood(c: Config, run: seq<Conf>, labels: seq<Label>, i: nat, j: nat, e: EventId)
    requires IsRun(c, run, labels) && i <= j <= |labels| && e in run[i].s.bus.outbox && Stranded(c, run[i], e)
    ensures e in run[j].s.bus.outbox && Stranded(c, run[j], e)
    ensures KeyOf(run[j].s, e) == KeyOf(run[i].s, e)
    ensures run[j].s.hist.att.dispatched[KeyOf(run[i].s, e)] == run[i].s.hist.att.dispatched[KeyOf(run[i].s, e)]
  {
    if j > i {
      LostForGood(c, run, labels, i, j - 1, e);
      RunKeeps(c, run, labels, j - 1);
      StrandedForGood(c, run[j - 1], labels[j - 1], run[j], e);
    }
  }

  // ---------- Runs that stop only outside the retry loop ----------

  /** No `markFailed` throws without effect, and the retry loop is neither stopped nor left by an exception
      between `tryStart` and the mark. Stops and failures everywhere else are allowed. */
  predicate Gentle(a: Conf, l: Label) {
    l.W? ==>
      && l.w != Fail(Err)
      && (a.pc.Working? && a.pc.item.pos.None? ==>
            !l.w.Stop? && l.w != Begin(Lost) && (l.w.Lookup? ==> l.w.o == Ok))
  }

  /** At an acknowledgement the row is marked, or has no attempts left. */
  predicate Calm(c: Config, a: Conf) {
    a.pc.Working? && a.pc.phase.Acking? ==> !Dangling(c, a.s, a.pc.item.key)
  }

  lemma GentleCalm(c: Config, a: Conf, l: Label, b: Conf)
    requires Inv(c, a) && Calm(c, a) && Gentle(a, l) && Step(c, a, l, b)
    ensures Calm(c, b)
  {
    if l.W? && a.pc.Working? {
      ItemFrame(c, a, l.w, b);
      Taken(c, a, l.w, b);
      hide Step, BusOk, Covered, CutOff, HandlerStep, AfterLookup, AfterBegin, AfterSucceed, AfterFail, AfterAck;
      if !l.w.Stop? {
        match a.pc.phase
        case Fetched =>
          if a.pc.item.key in a.s.rows { assert RowOk(c, a.s, a.pc.item.key); }
          CalmBegin(c, a.s, a.pc, l.w.o);
        case LookingUp(n) => RetryLookup(a.s, a.pc, n, l.w.o);
        case Running(_, _) => HandlerFrame(c, a.s, a.pc, l.w, b.s, b.pc);
        case Returned(n) => CalmMark(c, a.s, a.pc, n, l.w.o);
        case Threw(n) => CalmMark(c, a.s, a.pc, n, l.w.o);
        case Acking(abort) => CalmAck(a.s, a.pc, abort, a.pc.item.pos.value, l.w.o);
      }
    } else {
      OffCalm(c, a, l, b);
    }
  }

  lemma OffCalm(c: Config, a: Conf, l: Label, b: Conf)
    requires Step(c, a, l, b) && (l.E? || !a.pc.Working?)
    ensures b.pc == a.pc || !(b.pc.Working? && b.pc.phase.Acking?)
    ensures l.E? ==> b.pc == a.pc && b.s.rows == a.s.rows
  {
    if l.E? { EnvItem(c, a.s, l.e, b.s); }
  }

  lemma CalmBegin(c: Config, s: State, pc: Pc, o: Outcome)
    requires pc.Working? && pc.phase == Fetched && (pc.item.key in s.rows ==> RowOk(c, s, pc.item.key))
    ensures var (s', pc') := AfterBegin(c, s, pc, o);
            pc'.Working? && pc'.phase.Acking? ==> s'.rows == s.rows && pc'.item == pc.item && !Dangling(c, s, pc.item.key)
  {
  }

  lemma CalmMark(c: Config, s: State, pc: Pc, n: int, o: Outcome)
    requires pc.Working? && pc.item.key in s.rows
    ensures var (s', pc') := AfterSucceed(s, pc, n, o);
            pc'.Working? && pc'.phase.Acking? ==> pc'.item == pc.item && !Dangling(c, s', pc.item.key)
    ensures var (s', pc') := AfterFail(s, pc, n, o);
            o != Err && pc'.Working? && pc'.phase.Acking? ==> pc'.item == pc.item && !Dangling(c, s', pc.item.key)
  {
    hide BackoffMs;
  }

  lemma CalmAck(s: State, pc: Pc, abort: bool, p: nat, o: Outcome)
    requires pc.Working?
    ensures !AfterAck(s, pc, abort, p, o).1.Working? || AfterAck(s, pc, abort, p, o).1.phase.Fetched?
  {
  }

  lemma {:induction false} NoEventLostGently(c: Config, run: seq<Conf>, labels: seq<Label>, i: nat)
    requires IsRun(c, run, labels) && i <= |labels|
    requires forall j :: 0 <= j < i ==> Gentle(run[j], labels[j])
    ensures Calm(c, run[i])
    ensures forall e :: e in run[i].s.bus.outbox ==> Located(c, run[i], e)
  {
    if i > 0 {
      RunKeeps(c, run, labels, i - 1);
      NoEventLostGently(c, run, labels, i - 1);
      var a, l, b := run[i - 1], labels[i - 1], run[i];
      GentleCalm(c, a, l, b);
      forall e | e in b.s.bus.outbox ensures Located(c, b, e) {
        NewEvent(c, a, l, b, e);
        if e in a.s.bus.outbox { LostExactlyBy(c, a, l, b, e); }
      }
    }
  }

  /** A processed outbox row has at least one stream entry carrying its id, type and payload. */
  lemma ProcessedIsInStream(c: Config, run: seq<Conf>, labels: seq<Label>, i: nat, e: EventId)
    requires IsRun(c, run, labels) && i <= |labels|
    requires e in run[i].s.bus.outbox && run[i].s.bus.outbox[e].processed
    ensures var row := run[i].s.bus.outbox[e]; Entry(e, row.kind, row.payload) in run[i].s.bus.stream
  {
    RunKeeps(c, run, labels, i);
    var p :| Copy(run[i].s.bus, e, p);
    assert EntryOk(run[i].s.bus, run[i].s.bus.stream[p]);
    assert run[i].s.bus.stream[p] == Entry(e, run[i].s.bus.outbox[e].kind, run[i].s.bus.outbox[e].payload);
  }
}
