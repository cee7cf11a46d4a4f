/** How often, and for whom, a signed request gets in. */
module AuthProofs {
  import opened Types
  import opened RateWindow
  import opened Auth

  // ---------- At most one admission a nonce ----------

  /** Admissions by `GETDEL` still to come from the nonce that the store holds. */
  function Open(s: Store, slot: Slot): nat { if slot in s.nonces then 1 else 0 }

  /** Whether a client nonce may still be accepted with a timestamp that reads as `v`: no, once its
      key lives to the end of that timestamp's window. */
  function Spare(c: Config, s: Store, slot: Slot, v: Option<real>): nat {
    if c.clientNonces && !(v.Some? && slot in s.legacy && s.legacy[slot] as real >= v.value + SKEW_MS as real) then 1
    else 0
  }

  lemma FailKeeps(s: Store, r: Request, byIp: Hit, byKey: Hit)
    ensures Fail(s, r, byIp, byKey).0.nonces == s.nonces
    ensures Fail(s, r, byIp, byKey).0.legacy == s.legacy
  {}

  lemma StepSpends(c: Config, s: Store, call: Call, slot: Slot, v: Option<real>)
    requires When(call) >= 0
    requires c.clientNonces ==> v.Some? && c.ttlMs >= 2 * SKEW_MS
    ensures var s' := Next(c, s, call);
      (if AdmitsSlot(c, s, call, slot, v) then 1 else 0) + Open(s', slot) + Spare(c, s', slot, v)
      <= Open(s, slot) + Spare(c, s, slot, v) + (if IssuesSlot(s, call, slot) then 1 else 0)
  {
    if call.DoAdmit? {
      var (s', verdict) := Admit(c, s, call.r, call.now, call.replies);
      FailKeeps(s', call.r, call.byIp, call.byKey);
    }
  }

  /** A (key, nonce) is admitted no more often than it was issued; client nonces add one admission
      per timestamp when their keys live at least as long as the two halves of the window together. */
  lemma {:induction false} AdmittedFrom(c: Config, s: Store, calls: seq<Call>, slot: Slot, v: Option<real>)
    requires WellTimed(calls)
    requires c.clientNonces ==> v.Some? && c.ttlMs >= 2 * SKEW_MS
    ensures Admissions(c, s, calls, slot, v) <= Issuances(c, s, calls, slot) + Open(s, slot) + Spare(c, s, slot, v)
    decreases |calls|
  {
    if calls != [] {
      StepSpends(c, s, calls[0], slot, v);
      AdmittedFrom(c, Next(c, s, calls[0]), calls[1..], slot, v);
    }
  }

  lemma ServerNonceOnce(c: Config, calls: seq<Call>, slot: Slot)
    requires WellTimed(calls) && !c.clientNonces
    ensures Admissions(c, EMPTY, calls, slot, None) <= Issuances(c, EMPTY, calls, slot)
  {
    AdmittedFrom(c, EMPTY, calls, slot, None);
  }

  ghost predicate ClientNonceBound(c: Config) {
    forall calls: seq<Call>, slot: Slot, v: real :: WellTimed(calls) ==>
      Admissions(c, EMPTY, calls, slot, Some(v)) <= Issuances(c, EMPTY, calls, slot) + 1
  }

  /** The bound for client nonces holds exactly when the key's life covers the whole window. */
  lemma ClientNonceOnce(c: Config)
    requires c.clientNonces
    ensures ClientNonceBound(c) <==> c.ttlMs >= 2 * SKEW_MS
  {
    if c.ttlMs >= 2 * SKEW_MS {
      forall calls: seq<Call>, slot: Slot, v: real | WellTimed(calls)
        ensures Admissions(c, EMPTY, calls, slot, Some(v)) <= Issuances(c, EMPTY, calls, slot) + 1
      {
        AdmittedFrom(c, EMPTY, calls, slot, Some(v));
      }
    } else {
      ShortLifeReplays(c);
    }
  }

  const SLOT := Slot(0, 0)

  function Present(stamp: Stamp, now: nat): Call {
    DoAdmit(Request(SLOT, stamp, true, 0), now, ALL_OK, Hit(now, true), Hit(now, true))
  }

  lemma Alone(c: Config, s: Store, call: Call, slot: Slot, v: Option<real>)
    requires When(call) >= 0
    ensures Admissions(c, s, [call], slot, v) == if AdmitsSlot(c, s, call, slot, v) then 1 else 0
    ensures Issuances(c, s, [call], slot) == if IssuesSlot(s, call, slot) then 1 else 0
  {
    assert [call][1..] == [];
  }

  /** A timestamp 300 s ahead of the clock is admitted, and again 600 s later. */
  lemma ShortLifeReplays(c: Config)
    requires c.clientNonces && c.ttlMs < 2 * SKEW_MS
    ensures !ClientNonceBound(c)
  {
    var early, late := Present(Decimal(SKEW_MS), 0), Present(Decimal(SKEW_MS), 2 * SKEW_MS);
    var calls := [early, late];
    var v := SKEW_MS as real;
    assert AdmitsSlot(c, EMPTY, early, SLOT, Some(v));
    var s := Next(c, EMPTY, early);
    assert AdmitsSlot(c, s, late, SLOT, Some(v));
    assert calls[1..] == [late];
    Alone(c, s, late, SLOT, Some(v));
    assert Admissions(c, EMPTY, calls, SLOT, Some(v)) > Issuances(c, EMPTY, calls, SLOT) + 1;
  }

  /** With client nonces on, an issued nonce is admitted twice: once by `GETDEL`, once as a client nonce. */
  lemma IssuedNonceReplays(c: Config)
    requires c.clientNonces
    ensures exists calls: seq<Call>, v: Option<real> :: WellTimed(calls)
              && Issuances(c, EMPTY, calls, SLOT) == 1 && Admissions(c, EMPTY, calls, SLOT, v) == 2
  {
    var issue, use := DoIssue(SLOT, 0, Hit(0, true), Ok), Present(Decimal(0), 0);
    var calls := [issue, use, use];
    var s1 := Next(c, EMPTY, issue);
    var s2 := Next(c, s1, use);
    assert SLOT !in s2.nonces && SLOT !in s2.legacy;
    assert AdmitsSlot(c, s2, use, SLOT, None);
    Alone(c, s2, use, SLOT, None);
    assert calls[1..] == [use, use] && [use, use][1..] == [use];
    assert Issuances(c, s1, [use, use], SLOT) == 0 && Admissions(c, s1, [use, use], SLOT, None) == 2;
    assert Issuances(c, EMPTY, calls, SLOT) == 1 && Admissions(c, EMPTY, calls, SLOT, None) == 2;
  }

  // ---------- Who gets in ----------

  lemma {:induction false} RunSnoc(c: Config, s: Store, calls: seq<Call>)
    requires WellTimed(calls) && calls != []
    ensures WellTimed(calls[..|calls| - 1])
    ensures Run(c, s, calls) == Next(c, Run(c, s, calls[..|calls| - 1]), calls[|calls| - 1])
    decreases |calls|
  {
    var n := |calls| - 1;
    if n > 0 {
      assert calls[..n][1..] == calls[1..][..n - 1];
      RunSnoc(c, Next(c, s, calls[0]), calls[1..]);
    }
  }

  /** Call `j` of the run stored the slot, with timestamp `ms`. */
  ghost predicate IssuedAt(c: Config, calls: seq<Call>, j: nat, slot: Slot, ms: nat)
    requires WellTimed(calls)
  {
    && j < |calls| && WellTimed(calls[..j]) && When(calls[j]) == ms
    && IssuesSlot(Run(c, EMPTY, calls[..j]), calls[j], slot)
  }

  lemma HeldAfter(c: Config, s: Store, call: Call, slot: Slot)
    requires When(call) >= 0 && slot in Next(c, s, call).nonces
    ensures if IssuesSlot(s, call, slot) then Next(c, s, call).nonces[slot].ms == When(call)
            else slot in s.nonces && Next(c, s, call).nonces[slot] == s.nonces[slot]
  {
    if call.DoAdmit? { FailKeeps(Admit(c, s, call.r, call.now, call.replies).0, call.r, call.byIp, call.byKey); }
  }

  lemma {:induction false} HeldWasIssued(c: Config, calls: seq<Call>, slot: Slot) returns (j: nat)
    requires WellTimed(calls)
    requires slot in Run(c, EMPTY, calls).nonces
    ensures IssuedAt(c, calls, j, slot, Run(c, EMPTY, calls).nonces[slot].ms)
    decreases |calls|
  {
    hide Next;
    var n := |calls| - 1;
    RunSnoc(c, EMPTY, calls);
    var before, last := Run(c, EMPTY, calls[..n]), calls[n];
    HeldAfter(c, before, last, slot);
    if IssuesSlot(before, last, slot) {
      j := n;
    } else {
      j := HeldWasIssued(c, calls[..n], slot);
      assert calls[..n][..j] == calls[..j];
    }
  }

  /** With client nonces off, whoever gets in presents a nonce that an earlier call issued for the same
      key, with exactly the timestamp it was issued with, no more than 300 s after that. */
  lemma AdmittedWasIssued(c: Config, calls: seq<Call>, call: Call) returns (j: nat)
    requires !c.clientNonces && call.DoAdmit? && WellTimed(calls + [call])
    requires WellTimed(calls)
    requires Admit(c, Run(c, EMPTY, calls), call.r, call.now, call.replies).1 == Admitted
    ensures j < |calls| && When(calls[j]) >= 0 && IssuedAt(c, calls, j, call.r.slot, When(calls[j]))
    ensures call.r.signed && call.r.stamp == Decimal(When(calls[j]))
    ensures When(calls[j]) <= call.now <= When(calls[j]) + 300000
  {
    j := HeldWasIssued(c, calls, call.r.slot);
    assert (calls + [call])[j] == calls[j] && (calls + [call])[|calls|] == call;
  }

  /** The call asks the store to use the slot's nonce up. */
  predicate Uses(call: Call, slot: Slot) {
    call.DoAdmit? && call.r.slot == slot && Presentable(call.r, call.now)
  }

  lemma {:induction false} NonceSurvives(c: Config, s: Store, calls: seq<Call>, slot: Slot, ms: nat)
    requires WellTimed(calls) && slot in s.nonces && s.nonces[slot] == Issued(ms, ms + NONCE_TTL_MS)
    requires forall i :: 0 <= i < |calls| ==> !Uses(calls[i], slot) && When(calls[i]) <= ms + NONCE_TTL_MS
    ensures slot in Run(c, s, calls).nonces && Run(c, s, calls).nonces[slot] == s.nonces[slot]
    decreases |calls|
  {
    if calls != [] {
      var first := calls[0];
      if first.DoAdmit? {
        FailKeeps(Admit(c, s, first.r, first.now, first.replies).0, first.r, first.byIp, first.byKey);
      }
      NonceSurvives(c, Next(c, s, first), calls[1..], slot, ms);
    }
  }

  /** Requests without a valid signature cannot use a nonce up: between its issue and its use anything
      else may happen, and the holder of the key still gets in within 300 s. */
  lemma HolderGetsIn(c: Config, s: Store, issue: Call, calls: seq<Call>, r: Request, now: nat)
    requires WellTimed([issue] + calls) && WellTimed(calls) && IssuesSlot(s, issue, r.slot)
    requires forall i :: 0 <= i < |calls| ==> !Uses(calls[i], r.slot) && When(calls[i]) <= now
    requires When(issue) >= 0 && r.signed && r.stamp == Decimal(When(issue))
    requires When(issue) <= now <= When(issue) + 300000
    ensures Admit(c, Run(c, Next(c, s, issue), calls), r, now, ALL_OK).1 == Admitted
  {
    NonceSurvives(c, Next(c, s, issue), calls, r.slot, When(issue));
  }

  // ---------- From 401 to 429 ----------

  /** One refused request, with the hits on the two counters. */
  datatype Refusal = Refusal(r: Request, byIp: Hit, byKey: Hit)

  function After(s: Store, fs: seq<Refusal>): Store {
    if fs == [] then s
    else
      var n := |fs| - 1;
      Fail(After(s, fs[..n]), fs[n].r, fs[n].byIp, fs[n].byKey).0
  }

  /** How many of the refusals are for the key. */
  function OfKey(fs: seq<Refusal>, pk: PublicKey): nat {
    if fs == [] then 0 else OfKey(fs[..|fs| - 1], pk) + if fs[|fs| - 1].r.slot.pk == pk then 1 else 0
  }

  /** Refusals from one address in the minute from `t` on, with working EXPIRE calls. */
  predicate InOneMinute(fs: seq<Refusal>, ip: Ip, t: int) {
    forall i :: 0 <= i < |fs| ==>
      && fs[i].r.ip == ip && fs[i].byIp.expireOk && fs[i].byKey.expireOk
      && t <= fs[i].byIp.now <= t + 60000 && t <= fs[i].byKey.now <= t + 60000
  }

  /** The counter stands at `n` and its window outlives the minute; at 0 it has none. */
  predicate Stands(s: Store, k: CounterKey, n: nat, t: int) {
    if n == 0 then k !in s.windows
    else k in s.windows && s.windows[k].count == n && s.windows[k].expires.Some? && s.windows[k].expires.value >= t + 60000
  }

  lemma {:induction false} CountersStand(s: Store, fs: seq<Refusal>, ip: Ip, t: int, pk: PublicKey)
    requires InOneMinute(fs, ip, t) && FailByIp(ip) !in s.windows && FailByKey(pk) !in s.windows
    ensures Stands(After(s, fs), FailByIp(ip), |fs|, t) && Stands(After(s, fs), FailByKey(pk), OfKey(fs, pk), t)
  {
    if fs != [] {
      var n := |fs| - 1;
      assert InOneMinute(fs[..n], ip, t) by { assert forall i :: 0 <= i < n ==> fs[..n][i] == fs[i]; }
      CountersStand(s, fs[..n], ip, t, pk);
      assert fs[n].r.ip == ip;
    }
  }

  /** Where the answer to a bad request turns from 401 to 429: after 30 refusals of the address, or 10 of the key, in the
      minute since the first of them. */
  lemma TurnsTo429(s: Store, fs: seq<Refusal>, ip: Ip, t: int)
    requires fs != [] && InOneMinute(fs, ip, t) && FailByIp(ip) !in s.windows
    requires FailByKey(fs[|fs| - 1].r.slot.pk) !in s.windows
    ensures var f, before := fs[|fs| - 1], fs[..|fs| - 1];
            Fail(After(s, before), f.r, f.byIp, f.byKey).1
              == if |before| >= 30 || OfKey(before, f.r.slot.pk) >= 10 then 429 else 401
  {
    var n := |fs| - 1;
    assert InOneMinute(fs[..n], ip, t) by { assert forall i :: 0 <= i < n ==> fs[..n][i] == fs[i]; }
    CountersStand(s, fs[..n], ip, t, fs[n].r.slot.pk);
    assert fs[n].r.ip == ip;
  }

  // ---------- Rate of issue ----------

  /** Nonces stored for one address in `[from, from + WINDOW_MS]`. */
  function IssuedTo(c: Config, s: Store, calls: seq<Call>, ip: Ip, from: int): nat
    requires WellTimed(calls)
    decreases |calls|
  {
    if calls == [] then 0
    else
      var one := calls[0].DoIssue? && calls[0].ip == ip && from <= calls[0].hit.now <= from + WINDOW_MS
                 && IssuesSlot(s, calls[0], calls[0].slot);
      (if one then 1 else 0) + IssuedTo(c, Next(c, s, calls[0]), calls[1..], ip, from)
  }

  function HitsOf(calls: seq<Call>, ip: Ip): seq<Hit> {
    if calls == [] then []
    else if calls[0].DoIssue? && calls[0].ip == ip then [calls[0].hit] + HitsOf(calls[1..], ip)
    else HitsOf(calls[1..], ip)
  }

  lemma {:induction false} HitsFrom(calls: seq<Call>, ip: Ip, from: int)
    requires forall i :: 0 <= i < |calls| ==> from <= When(calls[i])
    ensures forall h :: h in HitsOf(calls, ip) ==> from <= h.now
    decreases |calls|
  {
    if calls != [] { HitsFrom(calls[1..], ip, from); }
  }

  lemma {:induction false} HitsInOrder(calls: seq<Call>, ip: Ip)
    requires WellTimed(calls)
    ensures InOrder(HitsOf(calls, ip))
    decreases |calls|
  {
    if calls != [] {
      HitsInOrder(calls[1..], ip);
      HitsFrom(calls[1..], ip, When(calls[0]));
    }
  }

  lemma CounterAfter(c: Config, s: Store, call: Call, ip: Ip)
    requires When(call) >= 0
    ensures Counter(Next(c, s, call), IssueByIp(ip)) ==
            if call.DoIssue? && call.ip == ip then Some(Incr(Counter(s, IssueByIp(ip)), call.hit))
            else Counter(s, IssueByIp(ip))
  {}

  lemma {:induction false} IssuedPassed(c: Config, s: Store, calls: seq<Call>, ip: Ip, from: int)
    requires WellTimed(calls)
    ensures IssuedTo(c, s, calls, ip, from)
         <= Passed(Counter(s, IssueByIp(ip)), HitsOf(calls, ip), NONCES_PER_WINDOW, from)
    decreases |calls|
  {
    if calls != [] {
      CounterAfter(c, s, calls[0], ip);
      IssuedPassed(c, Next(c, s, calls[0]), calls[1..], ip, from);
      var hits := HitsOf(calls, ip);
      if calls[0].DoIssue? && calls[0].ip == ip {
        assert hits[0] == calls[0].hit && hits[1..] == HitsOf(calls[1..], ip);
      }
    }
  }

  /** Two fixed windows of 60 meet in a minute, but the first nonce of the earlier one lies outside:
      at most 119 nonces for one address in any 60 s. */
  lemma IssuedInAnyMinute(c: Config, calls: seq<Call>, ip: Ip, from: int)
    requires WellTimed(calls)
    ensures IssuedTo(c, EMPTY, calls, ip, from) <= 119
  {
    HitsInOrder(calls, ip);
    IssuedPassed(c, EMPTY, calls, ip, from);
    PassedInAnyInterval(None, HitsOf(calls, ip), NONCES_PER_WINDOW, from);
  }
}
