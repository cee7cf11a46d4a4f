/** What the theorems about runs say of one worker at two moments, and so of a tick. */
module Ticks {
  import opened Types
  import opened Consumption
  import opened Protocol
  import opened DueList
  import opened Outbox
  import opened Progress
  import opened TickScript
  import NoLoss
  import Success
  import Starvation
  import Publishing

  ghost predicate IsPast(c: Config, t: Trace) { IsRun(c, t.run, t.labels) }

  ghost function Now(t: Trace): Conf
    requires |t.run| == |t.labels| + 1
  {
    t.run[|t.labels|]
  }

  /** `u` is a later moment of the run `t`. */
  ghost predicate Later(c: Config, t: Trace, u: Trace) {
    IsPast(c, t) && IsPast(c, u) && t.run <= u.run && t.labels <= u.labels
  }

  lemma SuccessLasts(c: Config, t: Trace, u: Trace, k: Key)
    requires Later(c, t, u) && Success.Done(Now(t).s, k) && !Success.ThrewAt(Now(t).pc, k)
    ensures Success.Done(Now(u).s, k) && Now(u).s.hist.att.dispatched[k] == Now(t).s.hist.att.dispatched[k]
  {
    Success.SuccessAbsorbsForever(c, u.run, u.labels, |t.labels|, |u.labels|, k);
  }

  ghost predicate Gone(c: Config, a: Conf, e: EventId) {
    e in a.s.bus.outbox && NoLoss.Stranded(c, a, e)
  }

  lemma LossLasts(c: Config, t: Trace, u: Trace, e: EventId)
    requires Later(c, t, u) && Gone(c, Now(t), e)
    ensures Gone(c, Now(u), e)
  {
    NoLoss.LostForGood(c, u.run, u.labels, |t.labels|, |u.labels|, e);
  }

  lemma StarvationLasts(c: Config, t: Trace, u: Trace, kind: Kind, blockers: set<EventId>, at: int)
    requires Later(c, t, u) && Starvation.Starving(c, Now(t), kind, blockers, at)
    ensures Starvation.Starving(c, Now(u), kind, blockers, at)
  {
    Starvation.StarvedForGood(c, u.run, u.labels, |t.labels|, |u.labels|, kind, blockers, at);
  }

  /** At some moment between the two the due rows of `kind` were queried, and if one was near then, an event that waited
      has been dispatched since. */
  ghost predicate Serves(c: Config, t: Trace, u: Trace, kind: Kind)
    requires |u.run| == |u.labels| + 1
  {
    exists i: nat :: |t.labels| <= i <= |u.labels| && ServedSince(c, u.run[i], Now(u), kind)
  }

  ghost predicate ServedSince(c: Config, a: Conf, b: Conf, kind: Kind) {
    && a.pc == Scanning(kind)
    && (Near(c, a.s, kind) ==>
          exists e :: UnexhaustedDue(a.s.rows, kind, c.maxAttempts, a.s.clock, e)
                      && b.s.hist.att.dispatched[Key(kind, e)] > a.s.hist.att.dispatched[Key(kind, e)])
  }

  lemma TickServes(c: Config, t: Trace, u: Trace, kind: Kind)
    requires Later(c, t, u) && HasPass(t, u, kind)
    ensures Serves(c, t, u, kind)
  {
    var i: nat, j: nat :| |t.labels| <= i && CompletePass(u.run, u.labels, i, j, kind);
    if Near(c, u.run[i].s, kind) {
      var e := PassProgress(c, u.run, u.labels, i, j, kind);
      DispatchesGrowOn(c, u.run, u.labels, j, |u.labels|, Key(kind, e));
    }
    hide IsRun, Near, UnexhaustedDue;
    assert ServedSince(c, u.run[i], Now(u), kind);
  }

  /** At some moment between the two the outbox was queried, and every event that was unprocessed then, with fewer than 50
      others as old, has been marked processed since, or has one more failure on record. */
  ghost predicate Delivers(t: Trace, u: Trace)
    requires |u.run| == |u.labels| + 1
  {
    exists i: nat :: |t.labels| <= i <= |u.labels| && DeliveredSince(u.run[i], Now(u))
  }

  ghost predicate DeliveredSince(a: Conf, b: Conf) {
    && a.pc == Idle
    && forall e: EventId :: Unprocessed(a.s.bus.outbox, e) && |Older(a.s.bus.outbox, e)| < 50 ==>
         Publishing.Settled(b.s, e, a.s.bus.outbox[e].attempts)
  }

  lemma TickDelivers(c: Config, t: Trace, u: Trace)
    requires Later(c, t, u) && HasPublish(t, u)
    ensures Delivers(t, u)
  {
    var i: nat, j: nat :| |t.labels| <= i && CompletePublish(u.run, u.labels, i, j);
    var a, b := u.run[i], Now(u);
    forall e: EventId | Unprocessed(a.s.bus.outbox, e) && |Older(a.s.bus.outbox, e)| < 50
      ensures Publishing.Settled(b.s, e, a.s.bus.outbox[e].attempts)
    {
      Publishing.OldestArePublished(c, u.run, u.labels, i, j, e);
      Publishing.Onward(c, u.run, u.labels, j, |u.labels|, e);
    }
    hide IsRun;
    assert DeliveredSince(a, b);
  }
}
