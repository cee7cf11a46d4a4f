/** SUCCEEDED is absorbing, in single-worker runs. */
module Success {
  import opened Types
  import opened Consumption
  import opened Market
  import opened Protocol
  import opened Delivery
  import opened NoLoss
  import opened Fleets

  predicate Done(s: State, k: Key) {
    k in s.rows && s.rows[k].status == SUCCEEDED
  }

  predicate At(pc: Pc, k: Key) { pc.Working? && pc.item.key == k }

  predicate ReturnedAt(pc: Pc, k: Key) { At(pc, k) && pc.phase.Returned? }

  predicate ThrewAt(pc: Pc, k: Key) { At(pc, k) && pc.phase.Threw? }

  // ---------- One step, seen from one key ----------

  /** Outside a work item nothing touches rows, attempts or the worker's hand. */
  lemma OffItem(c: Config, a: Conf, l: Label, b: Conf)
    requires Step(c, a, l, b) && (l.E? || !a.pc.Working?)
    ensures b.s.rows == a.s.rows && b.s.hist.att == a.s.hist.att && b.s.hist.normal == a.s.hist.normal
    ensures b.s.hist.posts == a.s.hist.posts && b.s.clock >= a.s.clock
    ensures l.W? ==> b.s.hist == a.s.hist && b.s.market == a.s.market && b.s.clock == a.s.clock
    ensures l.W? && b.pc.Working? ==> b.pc.phase.Fetched?
  {
  }

  /** The parts of the state that belong to one key. */
  ghost predicate SameKey(s: State, s': State, k: Key) {
    && (k in s'.rows <==> k in s.rows) && (k in s.rows ==> s'.rows[k] == s.rows[k])
    && s'.hist.att.dispatched[k] == s.hist.att.dispatched[k]
    && s'.hist.att.unmarked[k] == s.hist.att.unmarked[k]
    && s'.hist.normal[k] == s.hist.normal[k]
    && StartsOf(s'.hist.att, k) == StartsOf(s.hist.att, k)
    && (k in s'.hist.att.interrupted <==> k in s.hist.att.interrupted)
    && s'.clock == s.clock
  }

  /** The worker is on a fresh item, or still on the same one. */
  predicate SameItem(pc: Pc, pc': Pc) {
    pc.Working? && pc'.Working? ==> pc'.phase.Fetched? || pc' == pc.(phase := pc'.phase)
  }

  lemma NormalFrame(c: Config, s: State, pc: Pc, l: WorkerLabel, s': State, pc': Pc)
    requires pc.Working? && pc.phase.Running?
    requires HandlerStep(c, s, pc, l) == Some((s', pc'))
    ensures forall k :: s'.hist.normal[k] == s.hist.normal[k] + One(k == pc.item.key && pc'.phase.Returned?)
  {
  }

  lemma DispatchNormal(s: State, pc: Pc, payload: Payload, n: int)
    requires pc.Working?
    ensures var (s', pc') := Dispatched(s, pc, payload, n);
            forall k :: s'.hist.normal[k] == s.hist.normal[k] + One(k == pc.item.key && pc'.phase.Returned?)
  {
  }

  lemma BeginOther(c: Config, s: State, pc: Pc, o: Outcome, k: Key)
    requires pc.Working? && pc.item.key != k
    ensures var (s', pc') := AfterBegin(c, s, pc, o); SameKey(s, s', k) && SameItem(pc, pc')
  {
    var x := pc.item.key;
    var n := StartAttempt(s.rows, x, c.maxAttempts, s.clock);
    if n.Some? {
      DispatchFrame(Started(s, x, n.value), pc, pc.item.payload, n.value);
      DispatchNormal(Started(s, x, n.value), pc, pc.item.payload, n.value);
      hide Dispatched;
    }
  }

  lemma LookupOther(s: State, pc: Pc, n: int, o: Outcome, k: Key)
    requires pc.Working? && pc.item.key != k
    ensures var (s', pc') := AfterLookup(s, pc, n, o); SameKey(s, s', k) && SameItem(pc, pc')
  {
    hide CutOff, Dispatched;
    CutOther(s, pc, k);
    var x := pc.item.key;
    if o == Ok && x.id in s.bus.outbox {
      DispatchFrame(s, pc, s.bus.outbox[x.id].payload, n);
      DispatchNormal(s, pc, s.bus.outbox[x.id].payload, n);
    }
  }

  lemma CutOther(s: State, pc: Pc, k: Key)
    requires pc.Working? && pc.item.key != k
    ensures SameKey(s, CutOff(s, pc), k)
  {
  }

  lemma MarkOther(s: State, pc: Pc, n: int, o: Outcome, k: Key)
    requires pc.Working? && pc.item.key != k
    ensures var (s', pc') := AfterSucceed(s, pc, n, o); SameKey(s, s', k) && SameItem(pc, pc')
    ensures var (s', pc') := AfterFail(s, pc, n, o); SameKey(s, s', k) && SameItem(pc, pc')
  {
    hide BackoffMs;
  }

  lemma AckOther(s: State, pc: Pc, abort: bool, p: nat, o: Outcome, k: Key)
    requires pc.Working? && pc.item.key != k
    ensures var (s', pc') := AfterAck(s, pc, abort, p, o); SameKey(s, s', k) && SameItem(pc, pc')
  {
  }

  /** A step on another item leaves key `k` alone. */
  lemma OtherKey(c: Config, a: Conf, w: WorkerLabel, b: Conf, k: Key)
    requires Step(c, a, W(w), b) && a.pc.Working? && a.pc.item.key != k
    ensures SameKey(a.s, b.s, k) && SameItem(a.pc, b.pc)
  {
    Taken(c, a, w, b);
    hide Step, AfterBegin, AfterLookup, AfterSucceed, AfterFail, AfterAck, CutOff, HandlerStep;
    if w.Stop? {
      CutOther(a.s, a.pc, k);
    } else {
      match a.pc.phase
      case Fetched => BeginOther(c, a.s, a.pc, w.o, k);
      case LookingUp(n) => LookupOther(a.s, a.pc, n, w.o, k);
      case Running(_, _) =>
        HandlerFrame(c, a.s, a.pc, w, b.s, b.pc);
        NormalFrame(c, a.s, a.pc, w, b.s, b.pc);
      case Returned(n) => MarkOther(a.s, a.pc, n, w.o, k);
      case Threw(n) => MarkOther(a.s, a.pc, n, w.o, k);
      case Acking(abort) => AckOther(a.s, a.pc, abort, a.pc.item.pos.value, w.o, k);
    }
  }

  // ---------- Absorbing success ----------

  /** Invocations that returned: each was marked SUCCEEDED, is about to be, or was cut off before it was. */
  predicate Counted(a: Conf, k: Key) {
    a.s.hist.normal[k] <= a.s.hist.att.unmarked[k]
      + One(ReturnedAt(a.pc, k)) + One(Done(a.s, k) && !ThrewAt(a.pc, k))
  }

  lemma CountedBegin(c: Config, a: Conf, k: Key, o: Outcome)
    requires Counted(a, k) && At(a.pc, k) && a.pc.phase.Fetched?
    ensures var (s', pc') := AfterBegin(c, a.s, a.pc, o); Counted(Conf(s', pc'), k)
  {
    var n := StartAttempt(a.s.rows, k, c.maxAttempts, a.s.clock);
    if n.Some? {
      DispatchFrame(Started(a.s, k, n.value), a.pc, a.pc.item.payload, n.value);
      DispatchNormal(Started(a.s, k, n.value), a.pc, a.pc.item.payload, n.value);
      hide Dispatched;
    }
  }

  lemma CountedLookup(a: Conf, k: Key, n: int, o: Outcome)
    requires Counted(a, k) && At(a.pc, k) && a.pc.phase.LookingUp? && !Done(a.s, k)
    ensures var (s', pc') := AfterLookup(a.s, a.pc, n, o); Counted(Conf(s', pc'), k)
  {
    hide Dispatched;
    if o == Ok && k.id in a.s.bus.outbox {
      DispatchFrame(a.s, a.pc, a.s.bus.outbox[k.id].payload, n);
      DispatchNormal(a.s, a.pc, a.s.bus.outbox[k.id].payload, n);
    }
  }

  lemma CountedMark(a: Conf, k: Key, n: int, o: Outcome)
    requires Counted(a, k) && At(a.pc, k)
    ensures a.pc.phase.Returned? && k in a.s.rows && !Done(a.s, k) ==>
              var (s', pc') := AfterSucceed(a.s, a.pc, n, o); Counted(Conf(s', pc'), k)
    ensures a.pc.phase.Threw? ==> var (s', pc') := AfterFail(a.s, a.pc, n, o); Counted(Conf(s', pc'), k)
  {
    hide BackoffMs;
  }

  lemma CountedRest(a: Conf, k: Key, abort: bool, p: nat, o: Outcome)
    requires Counted(a, k) && At(a.pc, k)
    ensures Counted(Conf(CutOff(a.s, a.pc), Idle), k)
    ensures a.pc.phase.Acking? ==> var (s', pc') := AfterAck(a.s, a.pc, abort, p, o); Counted(Conf(s', pc'), k)
  {
  }

  lemma CountedItem(c: Config, a: Conf, w: WorkerLabel, b: Conf, k: Key)
    requires Inv(c, a) && Counted(a, k) && Step(c, a, W(w), b) && At(a.pc, k)
    ensures Counted(b, k)
  {
    Taken(c, a, w, b);
    hide Step, AfterBegin, AfterLookup, AfterSucceed, AfterFail, AfterAck, CutOff, HandlerStep, BusOk, RowsOk, Covered;
    if w.Stop? {
      CountedRest(a, k, false, 0, Ok);
    } else {
      match a.pc.phase
      case Fetched => CountedBegin(c, a, k, w.o);
      case LookingUp(n) => CountedLookup(a, k, n, w.o);
      case Running(_, _) =>
        HandlerFrame(c, a.s, a.pc, w, b.s, b.pc);
        NormalFrame(c, a.s, a.pc, w, b.s, b.pc);
      case Returned(n) => CountedMark(a, k, n, w.o);
      case Threw(n) => CountedMark(a, k, n, w.o);
      case Acking(abort) => CountedRest(a, k, abort, a.pc.item.pos.value, w.o);
    }
  }

  lemma CountedKeeps(c: Config, a: Conf, l: Label, b: Conf, k: Key)
    requires Inv(c, a) && Counted(a, k) && Step(c, a, l, b)
    ensures Counted(b, k)
  {
    if l.E? || !a.pc.Working? { OffItem(c, a, l, b); }
    else if !At(a.pc, k) { OtherKey(c, a, l.w, b, k); }
    else { CountedItem(c, a, l.w, b, k); }
    hide Step, Inv;
  }

  /** The row of a handler that has returned is still PROCESSING. */
  lemma CountedBound(c: Config, a: Conf, k: Key)
    requires Inv(c, a) && Counted(a, k)
    ensures a.s.hist.normal[k] <= 1 + a.s.hist.att.unmarked[k]
  {
  }

  /** Over every single-worker run, invocations of one handler for one event that returned normally number at most
      one, plus the stops and failed marks that fell between the return and the SUCCEEDED mark. */
  lemma {:induction false} NormalDispatches(c: Config, run: seq<Conf>, labels: seq<Label>, i: nat, k: Key)
    requires IsRun(c, run, labels) && i <= |labels|
    ensures Counted(run[i], k)
    ensures run[i].s.hist.normal[k] <= 1 + run[i].s.hist.att.unmarked[k]
  {
    hide Inv, Counted, Step;
    CountedAtStart(k);
    if i > 0 {
      NormalDispatches(c, run, labels, i - 1, k);
      RunKeeps(c, run, labels, i - 1);
      CountedKeeps(c, run[i - 1], labels[i - 1], run[i], k);
    }
    RunKeeps(c, run, labels, i);
    CountedBound(c, run[i], k);
  }

  lemma CountedAtStart(k: Key)
    ensures Counted(Conf(START, Idle), k)
  {
  }

  /** A SUCCEEDED row leaves that status by one step only: the `markFailed` that follows a `markSucceeded`
      whose reply was lost. */
  lemma SuccessLeftExactlyBy(c: Config, a: Conf, l: Label, b: Conf, k: Key)
    requires Inv(c, a) && Step(c, a, l, b) && Done(a.s, k)
    ensures !Done(b.s, k) <==> ThrewAt(a.pc, k) && l.W? && l.w.Fail? && l.w.o.Effect()
  {
    if l.E? || !a.pc.Working? { OffItem(c, a, l, b); }
    else if !At(a.pc, k) { OtherKey(c, a, l.w, b, k); }
    else { ItemFrame(c, a, l.w, b); }
  }

  /** And while it stays SUCCEEDED no duplicate entry, claim or retry dispatches the event. */
  lemma SuccessAbsorbs(c: Config, a: Conf, l: Label, b: Conf, k: Key)
    requires Inv(c, a) && Step(c, a, l, b) && Done(a.s, k) && !ThrewAt(a.pc, k)
    ensures Done(b.s, k) && !ThrewAt(b.pc, k)
    ensures b.s.hist.att.dispatched[k] == a.s.hist.att.dispatched[k]
    ensures b.s.hist.normal[k] == a.s.hist.normal[k]
  {
    if l.E? || !a.pc.Working? { OffItem(c, a, l, b); }
    else if !At(a.pc, k) { OtherKey(c, a, l.w, b, k); }
  }

  lemma {:induction false} SuccessAbsorbsForever(c: Config, run: seq<Conf>, labels: seq<Label>, i: nat, j: nat, k: Key)
    requires IsRun(c, run, labels) && i <= j <= |labels|
    requires Done(run[i].s, k) && !ThrewAt(run[i].pc, k)
    ensures Done(run[j].s, k) && !ThrewAt(run[j].pc, k)
    ensures run[j].s.hist.att.dispatched[k] == run[i].s.hist.att.dispatched[k]
  {
    if j > i {
      SuccessAbsorbsForever(c, run, labels, i, j - 1, k);
      RunKeeps(c, run, labels, j - 1);
      SuccessAbsorbs(c, run[j - 1], labels[j - 1], run[j], k);
    }
  }
}
