/** What requests that break off leave behind: an escrow both confiscated and released, because the confiscation went
    through and the EXPIRED save did not; and a COMPLETING task without an event, because the insert failed. */
module SettlementExample {
  import opened Types
  import opened Market
  import opened Protocol

  const SYNC := Config(1, 0, false)
  const TASK := Task(0, 0, 0, OPEN)
  const BID := Bid(0, 1, 0, 0, 0, SELECTED, 0)
  const ASSIGNED_MARKET := Market(map[0 := TASK.(status := ASSIGNED)], map[0 := BID], {0})

  const S1 := START.(market := Market(map[0 := TASK], map[], {}))
  const S2 := S1.(market := ASSIGNED_MARKET)
  const S3 := S2.(clock := 1)
  const S4 := Settled(S3, NO_HISTORY.cash.(confiscated := multiset{0}, leakedConfiscation := multiset{0}))
  const S5 := Settled(S4.(market := WithStatus(S4.market, 0, S4.market.tasks[0], COMPLETED)),
                      S4.hist.cash.(released := multiset{0}))

  const WITH_OUTBOX := Config(1, 0, true)

  lemma BidWins(c: Config)
    ensures EnvStep(c, S1, NewBid(0, 0, 1, 0, 0, Some(0), Some([0]))) == Some(S2)
  {
    var saved := WithBid(S1.market, 0, 0, 1, 0, 0, 0, 0);
    assert saved.bids == map[0 := BID.(status := PENDING)];
    assert Listing(saved, 0, [0]);
    assert [0][1..] == [];
    assert Pending(saved.bids, [0]) == [0];
    assert Assigned(saved, 0, 0, [0]).bids == ASSIGNED_MARKET.bids;
    assert Lowest(saved.bids, [0]) == 0;
    assert Assigned(saved, 0, 0, [0]).tasks == ASSIGNED_MARKET.tasks && saved.escrows == {0};
    assert SelectWinner(saved, 0, [0]).0 == ASSIGNED_MARKET;
  }

  lemma LeakThenRelease()
    ensures EnvStep(SYNC, S3, Expire(0, Some(0), Unsaved)) == Some(S4)
    ensures EnvStep(SYNC, S4, CompleteSync(0, 0, Some(0), Saved)) == Some(S5)
  {
    assert multiset{} + multiset{0} == multiset{0};
    assert IsSelected(S3.market, 0, 0);
    assert Found(S3.market, 0, Some(0));
  }

  lemma ConfiscatedAndReleased() returns (run: seq<Conf>, labels: seq<Label>)
    ensures IsRun(SYNC, run, labels)
    ensures var h := run[|labels|].s.hist.cash; h.confiscated[0] == 1 && h.released[0] == 1
  {
    BidWins(SYNC);
    LeakThenRelease();
    run, labels := [Conf(START, Idle)], [];
    Extend(SYNC, run, labels, E(NewTask(0, 0, 0, 0)), Conf(S1, Idle));
    run, labels := run + [Conf(S1, Idle)], labels + [E(NewTask(0, 0, 0, 0))];
    Extend(SYNC, run, labels, E(NewBid(0, 0, 1, 0, 0, Some(0), Some([0]))), Conf(S2, Idle));
    run, labels := run + [Conf(S2, Idle)], labels + [E(NewBid(0, 0, 1, 0, 0, Some(0), Some([0])))];
    Extend(SYNC, run, labels, E(Elapse(1)), Conf(S3, Idle));
    run, labels := run + [Conf(S3, Idle)], labels + [E(Elapse(1))];
    Extend(SYNC, run, labels, E(Expire(0, Some(0), Unsaved)), Conf(S4, Idle));
    run, labels := run + [Conf(S4, Idle)], labels + [E(Expire(0, Some(0), Unsaved))];
    Extend(SYNC, run, labels, E(CompleteSync(0, 0, Some(0), Saved)), Conf(S5, Idle));
    run, labels := run + [Conf(S5, Idle)], labels + [E(CompleteSync(0, 0, Some(0), Saved))];
  }

  const S6 := Settled(S2.(market := WithStatus(S2.market, 0, S2.market.tasks[0], COMPLETING)),
                      NO_HISTORY.cash.(unemitted := {0}))

  lemma CompletesWithoutEvent()
    ensures EnvStep(WITH_OUTBOX, S2, Complete(0, 0, Some(0), None)) == Some(S6)
  {
    assert {} + {0} == {0};
    assert IsSelected(S2.market, 0, 0);
    assert Found(S2.market, 0, Some(0));
  }

  /** The task is saved COMPLETING, the event is not inserted, and so no event asks for the release. */
  lemma CompletingWithoutEvent() returns (run: seq<Conf>, labels: seq<Label>)
    ensures IsRun(WITH_OUTBOX, run, labels)
    ensures var s := run[|labels|].s;
            0 in s.market.tasks && s.market.tasks[0].status == COMPLETING && s.bus.outbox == map[]
  {
    BidWins(WITH_OUTBOX);
    CompletesWithoutEvent();
    run, labels := [Conf(START, Idle)], [];
    Extend(WITH_OUTBOX, run, labels, E(NewTask(0, 0, 0, 0)), Conf(S1, Idle));
    run, labels := run + [Conf(S1, Idle)], labels + [E(NewTask(0, 0, 0, 0))];
    Extend(WITH_OUTBOX, run, labels, E(NewBid(0, 0, 1, 0, 0, Some(0), Some([0]))), Conf(S2, Idle));
    run, labels := run + [Conf(S2, Idle)], labels + [E(NewBid(0, 0, 1, 0, 0, Some(0), Some([0])))];
    Extend(WITH_OUTBOX, run, labels, E(Complete(0, 0, Some(0), None)), Conf(S6, Idle));
    run, labels := run + [Conf(S6, Idle)], labels + [E(Complete(0, 0, Some(0), None))];
  }
}
