/** The backoff schedule: how far apart the attempts of one event start, in single-worker runs. */
module Schedule {
  import opened Types
  import opened Consumption
  import opened Market
  import opened Protocol
  import opened Delivery
  import opened NoLoss
  import opened Fleets
  import opened Success

  /** Attempt number i + 2 starts at least the backoff of attempt i + 1 after it. */
  predicate Spaced(st: seq<int>) {
    forall i :: 0 <= i < |st| - 1 ==> st[i + 1] - st[i] >= BackoffMs(i + 1)
  }

  predicate Paced(a: Conf, k: Key) {
    var st := StartsOf(a.s.hist.att, k);
    && |st| == AttemptsOf(a.s.rows, k)
    && Spaced(st)
    && (k in a.s.rows ==>
          var row := a.s.rows[k];
          && |st| >= 1 && st[|st| - 1] <= a.s.clock
          && (row.status == FAILED ==>
                row.nextRetryAt.Some? && row.nextRetryAt.value >= st[|st| - 1] + BackoffMs(row.attempts))
          && (row.status == PROCESSING ==> InHand(a.pc, k)))
  }

  predicate PacedUnlessInterrupted(a: Conf, k: Key) {
    k in a.s.hist.att.interrupted || Paced(a, k)
  }

  lemma StartPaced(c: Config, a: Conf, k: Key, n: int, pc': Pc)
    requires Inv(c, a) && Paced(a, k) && !InHand(a.pc, k)
    requires StartAttempt(a.s.rows, k, c.maxAttempts, a.s.clock) == Some(n) && InHand(pc', k)
    ensures Paced(Conf(Started(a.s, k, n), pc'), k)
  {
  }

  lemma PacedBegin(c: Config, a: Conf, k: Key, o: Outcome)
    requires Inv(c, a) && Paced(a, k) && At(a.pc, k) && a.pc.phase.Fetched?
    ensures var (s', pc') := AfterBegin(c, a.s, a.pc, o); PacedUnlessInterrupted(Conf(s', pc'), k)
  {
    var n := StartAttempt(a.s.rows, k, c.maxAttempts, a.s.clock);
    if n.Some? {
      StartPaced(c, a, k, n.value, a.pc.(phase := LookingUp(n.value)));
      DispatchFrame(Started(a.s, k, n.value), a.pc, a.pc.item.payload, n.value);
    }
    hide Inv, Spaced, BackoffMs, Dispatched, StartAttempt;
  }

  lemma PacedLookup(a: Conf, k: Key, n: int, o: Outcome)
    requires Paced(a, k) && At(a.pc, k) && a.pc.phase.LookingUp? && k in a.s.rows && a.s.rows[k].status == PROCESSING
    ensures var (s', pc') := AfterLookup(a.s, a.pc, n, o); PacedUnlessInterrupted(Conf(s', pc'), k)
  {
    hide Spaced, BackoffMs, Dispatched;
    if k.id in a.s.bus.outbox { DispatchFrame(a.s, a.pc, a.s.bus.outbox[k.id].payload, n); }
  }

  lemma PacedCut(a: Conf, k: Key)
    requires Paced(a, k) && At(a.pc, k)
    ensures PacedUnlessInterrupted(Conf(CutOff(a.s, a.pc), Idle), k)
  {
    hide Spaced, BackoffMs;
  }

  lemma PacedSucceed(a: Conf, k: Key, n: int, o: Outcome)
    requires Paced(a, k) && At(a.pc, k) && k in a.s.rows && (a.pc.item.pos.None? ==> !a.pc.phase.Acking?)
    ensures var (s', pc') := AfterSucceed(a.s, a.pc, n, o); PacedUnlessInterrupted(Conf(s', pc'), k)
  {
    hide Spaced, BackoffMs;
  }

  lemma PacedFail(a: Conf, k: Key, n: int, o: Outcome)
    requires Paced(a, k) && At(a.pc, k) && k in a.s.rows && a.s.rows[k].attempts == n
    ensures var (s', pc') := AfterFail(a.s, a.pc, n, o); PacedUnlessInterrupted(Conf(s', pc'), k)
  {
    hide Spaced, BackoffMs;
  }

  lemma PacedAck(a: Conf, k: Key, abort: bool, p: nat, o: Outcome)
    requires Paced(a, k) && At(a.pc, k) && a.pc.phase.Acking?
    ensures var (s', pc') := AfterAck(a.s, a.pc, abort, p, o); PacedUnlessInterrupted(Conf(s', pc'), k)
  {
    hide Spaced, BackoffMs;
  }

  lemma PacedItem(c: Config, a: Conf, w: WorkerLabel, b: Conf, k: Key)
    requires Inv(c, a) && Paced(a, k) && Step(c, a, W(w), b) && At(a.pc, k)
    ensures PacedUnlessInterrupted(b, k)
  {
    Taken(c, a, w, b);
    hide Step, BusOk, RowsOk, Covered, Paced, PacedUnlessInterrupted;
    hide AfterBegin, AfterLookup, CutOff, HandlerStep, AfterSucceed, AfterFail, AfterAck;
    if w.Stop? {
      PacedCut(a, k);
    } else {
      match a.pc.phase
      case Fetched => PacedBegin(c, a, k, w.o);
      case LookingUp(n) => PacedLookup(a, k, n, w.o);
      case Running(n, _) => PacedRunning(c, a, w, b, k, n);
      case Returned(n) => PacedSucceed(a, k, n, w.o);
      case Threw(n) => PacedFail(a, k, n, w.o);
      case Acking(abort) => PacedAck(a, k, abort, a.pc.item.pos.value, w.o);
    }
  }

  lemma PacedRunning(c: Config, a: Conf, w: WorkerLabel, b: Conf, k: Key, n: int)
    requires Paced(a, k) && At(a.pc, k) && a.pc.phase.Running? && HandlerStep(c, a.s, a.pc, w) == Some((b.s, b.pc))
    ensures PacedUnlessInterrupted(b, k)
  {
    HandlerFrame(c, a.s, a.pc, w, b.s, b.pc);
    hide HandlerStep, Spaced, BackoffMs;
  }

  lemma PacedKeeps(c: Config, a: Conf, l: Label, b: Conf, k: Key)
    requires Inv(c, a) && PacedUnlessInterrupted(a, k) && Step(c, a, l, b)
    ensures PacedUnlessInterrupted(b, k)
  {
    if l.E? || !a.pc.Working? { OffItem(c, a, l, b); }
    else if !At(a.pc, k) { OtherKey(c, a, l.w, b, k); }
    else if k in a.s.hist.att.interrupted { InterruptedStays(c, a, l.w, b, k); }
    else { PacedItem(c, a, l.w, b, k); }
  }

  lemma InterruptedStays(c: Config, a: Conf, w: WorkerLabel, b: Conf, k: Key)
    requires Step(c, a, W(w), b) && a.pc.Working? && k in a.s.hist.att.interrupted
    ensures k in b.s.hist.att.interrupted
  {
    if a.pc.phase.Running? && !w.Stop? { HandlerFrame(c, a.s, a.pc, w, b.s, b.pc); }
  }

  // ---------- Sums of delays ----------

  /** The sum of the first `m` backoff delays. */
  function Wait(m: nat): int {
    if m == 0 then 0 else Wait(m - 1) + BackoffMs(m)
  }

  lemma {:induction false} SpacedSum(st: seq<int>, n: nat)
    requires Spaced(st) && n < |st|
    ensures st[n] - st[0] >= Wait(n)
  {
    if n > 0 {
      SpacedSum(st, n - 1);
      assert st[n - 1 + 1] - st[n - 1] >= BackoffMs(n - 1 + 1);
    }
  }

  /** The delay doubles up to the eighth retry and is five minutes from the ninth on. */
  lemma {:induction false} DelayCap(k: nat)
    requires k >= 1
    ensures k <= 8 ==> BackoffMs(k) == 2000 * Pow2(k - 1)
    ensures k >= 9 ==> BackoffMs(k) == 300000
  {
    assert Pow2(7) == 128 by { assert Pow2(3) == 8; assert Pow2(5) == 32; }
    Pow2Monotone(k - 1, 7);
    Pow2Monotone(8, k - 1);
  }

  lemma {:induction false} Pow2Monotone(a: nat, b: nat)
    ensures a <= b ==> Pow2(a) <= Pow2(b)
  {
    if a < b { Pow2Monotone(a, b - 1); }
  }

  /** Closed form: 2000 * (2^m - 1) for the first eight delays, then 300000 ms each. */
  lemma {:induction false} WaitClosedForm(m: nat)
    ensures m <= 8 ==> Wait(m) == 2000 * (Pow2(m) - 1)
    ensures m >= 8 ==> Wait(m) == 510000 + 300000 * (m - 8)
  {
    assert Pow2(8) == 256 by { assert Pow2(3) == 8; assert Pow2(5) == 32; assert Pow2(7) == 128; }
    if m > 0 {
      WaitClosedForm(m - 1);
      DelayCap(m);
    }
  }

  // ---------- Whole runs ----------

  lemma {:induction false} RunPaced(c: Config, run: seq<Conf>, labels: seq<Label>, i: nat, k: Key)
    requires IsRun(c, run, labels) && i <= |labels|
    ensures PacedUnlessInterrupted(run[i], k)
  {
    if i > 0 {
      RunPaced(c, run, labels, i - 1, k);
      RunKeeps(c, run, labels, i - 1);
      PacedKeeps(c, run[i - 1], labels[i - 1], run[i], k);
    }
  }

  /** The labels that leave a key PROCESSING with nobody working on it. */
  predicate Undisturbed(l: Label) {
    l.W? ==> !l.w.Stop? && l.w != Begin(Lost) && l.w != Fail(Err) && (l.w.Lookup? ==> l.w.o == Ok)
  }

  lemma UndisturbedStep(c: Config, a: Conf, l: Label, b: Conf)
    requires Step(c, a, l, b) && Undisturbed(l)
    ensures b.s.hist.att.interrupted == a.s.hist.att.interrupted
  {
    if l.E? || !a.pc.Working? { OffItem(c, a, l, b); }
    else if a.pc.phase.Running? { HandlerFrame(c, a.s, a.pc, l.w, b.s, b.pc); }
  }

  lemma {:induction false} UndisturbedRun(c: Config, run: seq<Conf>, labels: seq<Label>, i: nat)
    requires IsRun(c, run, labels) && i <= |labels|
    requires forall j :: 0 <= j < i ==> Undisturbed(labels[j])
    ensures run[i].s.hist.att.interrupted == {}
  {
    if i > 0 {
      UndisturbedRun(c, run, labels, i - 1);
      UndisturbedStep(c, run[i - 1], labels[i - 1], run[i]);
    }
  }

  /** In a single-worker run without process stops, lost starts or failed failure marks, the n-th attempt of an event
      starts no sooner than the sum of the first n - 1 backoff delays after the first attempt. */
  lemma BackoffSchedule(c: Config, run: seq<Conf>, labels: seq<Label>, i: nat, k: Key, n: nat)
    requires IsRun(c, run, labels) && i <= |labels|
    requires forall j :: 0 <= j < i ==> Undisturbed(labels[j])
    requires 1 <= n <= |StartsOf(run[i].s.hist.att, k)|
    ensures |StartsOf(run[i].s.hist.att, k)| == AttemptsOf(run[i].s.rows, k)
    ensures var st := StartsOf(run[i].s.hist.att, k);
            && st[n - 1] - st[0] >= Wait(n - 1)
            && (n <= 9 ==> st[n - 1] - st[0] >= 2000 * (Pow2(n - 1) - 1))
            && (n >= 9 ==> st[n - 1] - st[0] >= 510000 + 300000 * (n - 9))
  {
    UndisturbedRun(c, run, labels, i);
    RunPaced(c, run, labels, i, k);
    SpacedSum(StartsOf(run[i].s.hist.att, k), n - 1);
    WaitClosedForm(n - 1);
  }

  // ---------- Any number of workers ----------

  predicate DueRows(s: State) {
    forall k :: k in s.rows && s.rows[k].status == PROCESSING ==> Due(s.rows[k], s.clock)
  }

  lemma DueBegin(c: Config, s: State, pc: Pc, o: Outcome)
    requires DueRows(s) && pc.Working?
    ensures DueRows(AfterBegin(c, s, pc, o).0)
  {
    var n := StartAttempt(s.rows, pc.item.key, c.maxAttempts, s.clock);
    if n.Some? {
      DispatchFrame(Started(s, pc.item.key, n.value), pc, pc.item.payload, n.value);
      hide Dispatched;
    }
  }

  lemma DueMark(s: State, pc: Pc, n: int, o: Outcome)
    requires DueRows(s) && pc.Working?
    ensures DueRows(AfterSucceed(s, pc, n, o).0) && DueRows(AfterFail(s, pc, n, o).0)
  {
    hide BackoffMs;
  }

  lemma DueStep(c: Config, s: State, pc: Pc, l: WorkerLabel, s': State, pc': Pc)
    requires DueRows(s) && WorkerStep(c, s, pc, l) == Some((s', pc'))
    ensures DueRows(s')
  {
    var a, b := Conf(s, pc), Conf(s', pc');
    assert Step(c, a, W(l), b);
    if pc.Working? {
      Taken(c, a, l, b);
      hide Step, CutOff, HandlerStep, AfterBegin, AfterLookup, AfterSucceed, AfterFail, AfterAck;
      if l.Stop? {
        CutItem(s, pc);
        CutClock(s, pc);
      } else {
        match pc.phase
        case Fetched => DueBegin(c, s, pc, l.o);
        case LookingUp(n) => LookupItem(s, pc, n, l.o); LookupClock(s, pc, n, l.o);
        case Running(_, _) => HandlerFrame(c, s, pc, l, s', pc');
        case Returned(n) => DueMark(s, pc, n, l.o);
        case Threw(n) => DueMark(s, pc, n, l.o);
        case Acking(abort) => AckClock(s, pc, abort, pc.item.pos.value, l.o);
      }
    } else {
      OffItem(c, a, W(l), b);
    }
  }

  lemma CutClock(s: State, pc: Pc)
    ensures CutOff(s, pc).clock == s.clock
  {
  }

  lemma LookupClock(s: State, pc: Pc, n: int, o: Outcome)
    requires pc.Working?
    ensures AfterLookup(s, pc, n, o).0.clock == s.clock
  {
  }

  lemma AckClock(s: State, pc: Pc, abort: bool, p: nat, o: Outcome)
    requires pc.Working?
    ensures AfterAck(s, pc, abort, p, o).0.clock == s.clock && AfterAck(s, pc, abort, p, o).0.rows == s.rows
  {
  }

  /** However many workers there are, a PROCESSING row never has a `next_retry_at` in the future. */
  lemma {:induction false} ProcessingIsDue(c: Config, run: seq<Fleet>, labels: seq<FleetLabel>, i: nat)
    requires IsFleetRun(c, run, labels) && i <= |labels|
    ensures DueRows(run[i].s)
  {
    if i > 0 {
      ProcessingIsDue(c, run, labels, i - 1);
      var f, l, g := run[i - 1], labels[i - 1], run[i];
      match l
      case Worker(who, w) => DueStep(c, f.s, f.pcs[who], w, g.s, g.pcs[who]);
      case Env(e) => EnvFree(c, f.s, e, g.s);
      case Join(_) =>
    }
  }
}
