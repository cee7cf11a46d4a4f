/** Concrete runs in which a result event is lost, by a failed `markFailed` (for every attempt limit above one) or by leaving
    the retry loop (above two), and one in which a delivered result is delivered again. */
module LossExamples {
  import opened Types
  import opened Consumption
  import opened Market
  import opened Outbox
  import opened Protocol
  import opened Delivery
  import opened NoLoss
  import Success

  const K := Key(ResultPublished, 0)
  const ENTRY := Entry(0, ResultPublished, Opaque)
  const ITEM := Item(K, Opaque, Some(0))
  const ROW := Item(K, Opaque, None)

  function At(now: int, processed: bool, stream: seq<Entry>, delivered: nat, pending: map<nat, int>,
              rows: Table, hist: History): State
  {
    State(now, Market(map[], map[], {}),
          Bus(map[0 := OutboxRow(ResultPublished, Opaque, processed, 0, 0)], stream, delivered, pending), rows, hist)
  }

  const ONCE := NO_HISTORY.(att := Attempts(multiset{K}, multiset{}, map[K := [0]], {}), posts := multiset{K})
  const PROCESSING_1: Table := map[K := Row(PROCESSING, 1, None)]
  const FAILED_1: Table := map[K := Row(FAILED, 1, Some(2000))]
  const TWICE := ONCE.(att := ONCE.att.(starts := map[K := [0, 2000]]))
  const PROCESSING_2: Table := map[K := Row(PROCESSING, 2, Some(2000))]

  const C0 := Conf(START, Idle)
  const C1 := Conf(At(0, false, [], 0, map[], map[], NO_HISTORY), Idle)
  const C2 := Conf(C1.s, Publishing([0]))
  const C3 := Conf(At(0, false, [ENTRY], 0, map[], map[], NO_HISTORY), Marking([0]))
  const C4 := Conf(At(0, true, [ENTRY], 0, map[], map[], NO_HISTORY), Claiming)
  const C5 := Conf(C4.s, Polling)
  const C6 := Conf(At(0, true, [ENTRY], 1, map[0 := 0], map[], NO_HISTORY), Working(Polled, ITEM, [], Fetched))
  const C7 := Conf(At(0, true, [ENTRY], 1, map[0 := 0], PROCESSING_1, ONCE.(posts := multiset{})),
                   Working(Polled, ITEM, [], Running(1, PostWebhook)))
  const C8 := Conf(C7.s.(hist := ONCE), Working(Polled, ITEM, [], Threw(1)))

  // `markFailed` throws, and the entry is acknowledged all the same.
  const M9 := Conf(C8.s.(hist := ONCE.(att := ONCE.att.(interrupted := {K}))), Working(Polled, ITEM, [], Acking(true)))
  const M10 := Conf(M9.s.(bus := M9.s.bus.(pending := map[])), Idle)

  // `markFailed` succeeds; two seconds later the retry loop starts the row and the process stops.
  const R9 := Conf(C8.s.(rows := FAILED_1), Working(Polled, ITEM, [], Acking(false)))
  const R10 := Conf(R9.s.(bus := R9.s.bus.(pending := map[])), Scanning(CompletionRequested))
  const R11 := Conf(R10.s, Scanning(ResultPublished))
  const R12 := Conf(R10.s.(clock := 2000), Scanning(ResultPublished))
  const R13 := Conf(R12.s, Working(Retried(ResultPublished), ROW, [], Fetched))
  const R14 := Conf(R12.s.(rows := PROCESSING_2, hist := TWICE), Working(Retried(ResultPublished), ROW, [], LookingUp(2)))
  const R15 := Conf(R14.s.(hist := TWICE.(att := TWICE.att.(interrupted := {K}))), Idle)

  // The handler returns and `markSucceeded` takes effect, but its reply is lost.
  const DONE := ONCE.(normal := multiset{K})
  const CAUGHT := DONE.(att := ONCE.att.(unmarked := multiset{K}))
  const SUCCEEDED_1: Table := map[K := Row(SUCCEEDED, 1, None)]
  const S8 := Conf(C7.s.(hist := DONE), Working(Polled, ITEM, [], Returned(1)))
  const S9 := Conf(S8.s.(rows := SUCCEEDED_1, hist := CAUGHT), Working(Polled, ITEM, [], Threw(1)))
  const S10 := Conf(S9.s.(rows := FAILED_1), Working(Polled, ITEM, [], Acking(false)))
  const S11 := Conf(S10.s.(bus := S10.s.bus.(pending := map[])), Scanning(CompletionRequested))
  const S12 := Conf(S11.s, Scanning(ResultPublished))
  const S13 := Conf(S11.s.(clock := 2000), Scanning(ResultPublished))
  const S14 := Conf(S13.s, Working(Retried(ResultPublished), ROW, [], Fetched))
  const AGAIN := CAUGHT.(att := CAUGHT.att.(starts := map[K := [0, 2000]]))
  const S15 := Conf(S13.s.(rows := PROCESSING_2, hist := AGAIN), Working(Retried(ResultPublished), ROW, [], LookingUp(2)))
  const S16 := Conf(S15.s.(hist := AGAIN.(att := AGAIN.att.(dispatched := multiset{K, K}))),
                    Working(Retried(ResultPublished), ROW, [], Running(2, PostWebhook)))

  lemma C0ToC1(c: Config)
    ensures Step(c, C0, E(Emit(0, ResultPublished)), C1)
  {
  }

  lemma C1ToC2(c: Config)
    ensures Step(c, C1, W(ListUnprocessed(Ok, [0])), C2)
  {
  }

  lemma C2ToC3(c: Config)
    ensures Step(c, C2, W(XAdd(Ok)), C3)
  {
    assert [] + [ENTRY] == [ENTRY];
  }

  lemma C3ToC4(c: Config)
    ensures Step(c, C3, W(MarkProcessed(Ok)), C4)
  {
    assert C3.s.bus.outbox[0 := C3.s.bus.outbox[0].(processed := true)] == C4.s.bus.outbox;
  }

  lemma C4ToC5(c: Config)
    ensures Step(c, C4, W(AutoClaim(Ok, [])), C5)
  {
    assert Delivered(C4.s.bus, [], 0) == map[];
  }

  lemma C5ToC6(c: Config)
    ensures Step(c, C5, W(ReadGroup(Ok, 1)), C6)
  {
    assert [ITEM][1..] == [];
    assert Range(0, 1) == [0];
    assert Delivered(C5.s.bus, [0], 0) == map[0 := 0];
    assert StreamItems(C5.s.bus, [0]) == [ITEM];
  }

  lemma C6ToC7(c: Config)
    ensures Step(c, C6, W(Begin(Ok)), C7)
  {
    assert map[][K := Row(PROCESSING, 1, None)] == PROCESSING_1;
    assert [] + [0] == [0];
    assert multiset{} + multiset{K} == multiset{K};
  }

  lemma C7ToC8(c: Config)
    ensures Step(c, C7, W(DeliverWebhook(1, false)), C8)
  {
    assert multiset{}[K := 1] == multiset{K};
  }

  lemma C8ToM9(c: Config)
    ensures Step(c, C8, W(Fail(Err)), M9)
  {
    assert {} + {K} == {K};
  }

  lemma M9ToM10(c: Config)
    ensures Step(c, M9, W(Ack(Ok)), M10)
  {
    assert map[0 := 0] - {0} == map[];
  }

  lemma C8ToR9(c: Config)
    ensures Step(c, C8, W(Fail(Ok)), R9)
  {
    assert PROCESSING_1[K := Row(FAILED, 1, Some(2000))] == FAILED_1;
    assert BackoffMs(1) == 2000;
    assert Pow2(0) == 1;
  }

  lemma R9ToR10(c: Config)
    ensures Step(c, R9, W(Ack(Ok)), R10)
  {
    assert map[0 := 0] - {0} == map[];
  }

  lemma R10ToR11(c: Config)
    ensures Step(c, R10, W(ListDue(Ok, [])), R11)
  {
  }

  lemma R11ToR12(c: Config)
    ensures Step(c, R11, E(Elapse(2000)), R12)
  {
  }

  lemma R12ToR13(c: Config)
    ensures Step(c, R12, W(ListDue(Ok, [0])), R13)
  {
    assert [ROW][1..] == [];
    assert RowItems(ResultPublished, [0]) == [ROW];
  }

  lemma R13ToR14(c: Config)
    requires c.maxAttempts > 1
    ensures Step(c, R13, W(Begin(Ok)), R14)
  {
    assert FAILED_1[K := Row(PROCESSING, 2, Some(2000))] == PROCESSING_2;
    assert map[K := [0]][K := [0, 2000]] == map[K := [0, 2000]];
    assert [0] + [2000] == [0, 2000];
  }

  lemma R14ToR15(c: Config)
    ensures Step(c, R14, W(Stop), R15) && Step(c, R14, W(Lookup(Err)), R15)
  {
    assert {} + {K} == {K};
  }

  lemma R13ToR15(c: Config)
    requires c.maxAttempts > 1
    ensures Step(c, R13, W(Begin(Lost)), R15)
  {
    assert FAILED_1[K := Row(PROCESSING, 2, Some(2000))] == PROCESSING_2;
    assert map[K := [0]][K := [0, 2000]] == map[K := [0, 2000]];
    assert [0] + [2000] == [0, 2000];
    assert {} + {K} == {K};
  }

  lemma C7ToS8(c: Config)
    ensures Step(c, C7, W(DeliverWebhook(1, true)), S8)
  {
    assert multiset{}[K := 1] == multiset{K};
    assert multiset{} + multiset{K} == multiset{K};
  }

  lemma S8ToS9(c: Config)
    ensures Step(c, S8, W(Succeed(Lost)), S9)
  {
    assert PROCESSING_1[K := Row(SUCCEEDED, 1, None)] == SUCCEEDED_1;
    assert multiset{} + multiset{K} == multiset{K};
  }

  lemma S9ToS10(c: Config)
    ensures Step(c, S9, W(Fail(Ok)), S10)
  {
    assert SUCCEEDED_1[K := Row(FAILED, 1, Some(2000))] == FAILED_1;
    assert BackoffMs(1) == 2000;
    assert Pow2(0) == 1;
  }

  lemma S10ToS13(c: Config)
    ensures Step(c, S10, W(Ack(Ok)), S11) && Step(c, S11, W(ListDue(Ok, [])), S12) && Step(c, S12, E(Elapse(2000)), S13)
  {
    assert map[0 := 0] - {0} == map[];
  }

  lemma S13ToS14(c: Config)
    ensures Step(c, S13, W(ListDue(Ok, [0])), S14)
  {
    assert [ROW][1..] == [];
    assert RowItems(ResultPublished, [0]) == [ROW];
  }

  lemma S14ToS15(c: Config)
    requires c.maxAttempts > 1
    ensures Step(c, S14, W(Begin(Ok)), S15)
  {
    assert FAILED_1[K := Row(PROCESSING, 2, Some(2000))] == PROCESSING_2;
    assert map[K := [0]][K := [0, 2000]] == map[K := [0, 2000]];
    assert [0] + [2000] == [0, 2000];
  }

  lemma S15ToS16(c: Config)
    ensures Step(c, S15, W(Lookup(Ok)), S16)
  {
    assert multiset{K} + multiset{K} == multiset{K, K};
  }

  /** A published result event, dispatched for the first time. */
  lemma RunToDispatch(c: Config) returns (run: seq<Conf>, labels: seq<Label>)
    requires c.maxAttempts > 1
    ensures IsRun(c, run, labels) && run[|labels|] == C7
    ensures W(Stop) !in labels && W(Fail(Err)) !in labels
  {
    hide Step;
    run, labels := [C0], [];
    C0ToC1(c); Extend(c, run, labels, E(Emit(0, ResultPublished)), C1); run, labels := run + [C1], labels + [E(Emit(0, ResultPublished))];
    C1ToC2(c); Extend(c, run, labels, W(ListUnprocessed(Ok, [0])), C2); run, labels := run + [C2], labels + [W(ListUnprocessed(Ok, [0]))];
    C2ToC3(c); Extend(c, run, labels, W(XAdd(Ok)), C3); run, labels := run + [C3], labels + [W(XAdd(Ok))];
    C3ToC4(c); Extend(c, run, labels, W(MarkProcessed(Ok)), C4); run, labels := run + [C4], labels + [W(MarkProcessed(Ok))];
    C4ToC5(c); Extend(c, run, labels, W(AutoClaim(Ok, [])), C5); run, labels := run + [C5], labels + [W(AutoClaim(Ok, []))];
    C5ToC6(c); Extend(c, run, labels, W(ReadGroup(Ok, 1)), C6); run, labels := run + [C6], labels + [W(ReadGroup(Ok, 1))];
    C6ToC7(c); Extend(c, run, labels, W(Begin(Ok)), C7); run, labels := run + [C7], labels + [W(Begin(Ok))];
  }

  /** Its webhook fails. */
  lemma RunToThrow(c: Config) returns (run: seq<Conf>, labels: seq<Label>)
    requires c.maxAttempts > 1
    ensures IsRun(c, run, labels) && run[|labels|] == C8
    ensures W(Stop) !in labels && W(Fail(Err)) !in labels
  {
    hide Step;
    run, labels := RunToDispatch(c);
    C7ToC8(c); Extend(c, run, labels, W(DeliverWebhook(1, false)), C8); run, labels := run + [C8], labels + [W(DeliverWebhook(1, false))];
  }

  /** Losing an event with one failed store call: the row stays PROCESSING and its entry is acknowledged. */
  lemma FailedMarkLosesEvent(c: Config) returns (run: seq<Conf>, labels: seq<Label>)
    requires c.maxAttempts > 1
    ensures IsRun(c, run, labels) && 0 in run[|labels|].s.bus.outbox && Stranded(c, run[|labels|], 0)
    ensures W(Stop) !in labels
  {
    hide Step;
    run, labels := RunToThrow(c);
    C8ToM9(c); Extend(c, run, labels, W(Fail(Err)), M9); run, labels := run + [M9], labels + [W(Fail(Err))];
    M9ToM10(c); Extend(c, run, labels, W(Ack(Ok)), M10); run, labels := run + [M10], labels + [W(Ack(Ok))];
    assert forall i :: !Live(M10.s.bus, 0, i);
  }

  /** Its row is marked FAILED, and the retry loop is about to start it. */
  lemma RunToRetry(c: Config) returns (run: seq<Conf>, labels: seq<Label>)
    requires c.maxAttempts > 1
    ensures IsRun(c, run, labels) && run[|labels|] == R13
    ensures W(Stop) !in labels && W(Fail(Err)) !in labels
  {
    hide Step;
    run, labels := RunToThrow(c);
    C8ToR9(c); Extend(c, run, labels, W(Fail(Ok)), R9); run, labels := run + [R9], labels + [W(Fail(Ok))];
    R9ToR10(c); Extend(c, run, labels, W(Ack(Ok)), R10); run, labels := run + [R10], labels + [W(Ack(Ok))];
    R10ToR11(c); Extend(c, run, labels, W(ListDue(Ok, [])), R11); run, labels := run + [R11], labels + [W(ListDue(Ok, []))];
    R11ToR12(c); Extend(c, run, labels, E(Elapse(2000)), R12); run, labels := run + [R12], labels + [E(Elapse(2000))];
    R12ToR13(c); Extend(c, run, labels, W(ListDue(Ok, [0])), R13); run, labels := run + [R13], labels + [W(ListDue(Ok, [0]))];
  }

  lemma Left(c: Config)
    requires c.maxAttempts > 2
    ensures 0 in R15.s.bus.outbox && Stranded(c, R15, 0)
  {
    assert forall i :: !Live(R15.s.bus, 0, i);
  }

  /** Losing an event with one process stop, inside the retry loop, and no failed call at all; or with one failing outbox
      lookup there, and no stop. */
  lemma RetryLeftLosesEvent(c: Config, l: WorkerLabel) returns (run: seq<Conf>, labels: seq<Label>)
    requires c.maxAttempts > 2 && (l == Stop || l == Lookup(Err))
    ensures IsRun(c, run, labels) && 0 in run[|labels|].s.bus.outbox && Stranded(c, run[|labels|], 0)
    ensures W(Fail(Err)) !in labels && (l != Stop ==> W(Stop) !in labels)
  {
    hide Step;
    run, labels := RunToRetry(c);
    R13ToR14(c); Extend(c, run, labels, W(Begin(Ok)), R14); run, labels := run + [R14], labels + [W(Begin(Ok))];
    R14ToR15(c); Extend(c, run, labels, W(l), R15); run, labels := run + [R15], labels + [W(l)];
    Left(c);
  }

  /** The reply to `tryStart` that is lost in the retry loop does the same. */
  lemma LostStartLosesEvent(c: Config) returns (run: seq<Conf>, labels: seq<Label>)
    requires c.maxAttempts > 2
    ensures IsRun(c, run, labels) && 0 in run[|labels|].s.bus.outbox && Stranded(c, run[|labels|], 0)
    ensures W(Fail(Err)) !in labels && W(Stop) !in labels
  {
    hide Step;
    run, labels := RunToRetry(c);
    R13ToR15(c); Extend(c, run, labels, W(Begin(Lost)), R15); run, labels := run + [R15], labels + [W(Begin(Lost))];
    Left(c);
  }

  /** A row leaves SUCCEEDED: the reply to `markSucceeded` is lost, the catch block marks the row FAILED, and two seconds
      later the retry loop dispatches an event whose handler had returned. */
  lemma SuccessDispatchedAgain(c: Config) returns (run: seq<Conf>, labels: seq<Label>, i: nat)
    requires c.maxAttempts > 1
    ensures IsRun(c, run, labels) && W(Stop) !in labels && i < |labels|
    ensures Success.Done(run[i].s, K) && run[i].s.hist.normal[K] == 1 && run[i].s.hist.att.dispatched[K] == 1
    ensures run[|labels|].s.hist.att.dispatched[K] == 2
  {
    hide Step;
    run, labels := RunToDispatch(c);
    C7ToS8(c); Extend(c, run, labels, W(DeliverWebhook(1, true)), S8); run, labels := run + [S8], labels + [W(DeliverWebhook(1, true))];
    S8ToS9(c); Extend(c, run, labels, W(Succeed(Lost)), S9); run, labels := run + [S9], labels + [W(Succeed(Lost))];
    i := |labels|;
    S9ToS10(c); Extend(c, run, labels, W(Fail(Ok)), S10); run, labels := run + [S10], labels + [W(Fail(Ok))];
    S10ToS13(c); Extend(c, run, labels, W(Ack(Ok)), S11); run, labels := run + [S11], labels + [W(Ack(Ok))];
    Extend(c, run, labels, W(ListDue(Ok, [])), S12); run, labels := run + [S12], labels + [W(ListDue(Ok, []))];
    Extend(c, run, labels, E(Elapse(2000)), S13); run, labels := run + [S13], labels + [E(Elapse(2000))];
    S13ToS14(c); Extend(c, run, labels, W(ListDue(Ok, [0])), S14); run, labels := run + [S14], labels + [W(ListDue(Ok, [0]))];
    S14ToS15(c); Extend(c, run, labels, W(Begin(Ok)), S15); run, labels := run + [S15], labels + [W(Begin(Ok))];
    S15ToS16(c); Extend(c, run, labels, W(Lookup(Ok)), S16); run, labels := run + [S16], labels + [W(Lookup(Ok))];
  }
}
