/** The auth handlers as they run: statements against the shared Redis keys. */
module AuthStore {
  import opened Types
  import opened RateWindow
  import opened Auth

  const ADMITTED := 200
  const UNAVAILABLE := 503

  /** The status a request is answered with; `ADMITTED` stands for `next()`. */
  function Status(c: Config, s: Store, r: Request, now: int, replies: Replies, byIp: Hit, byKey: Hit): int {
    var (s', v) := Admit(c, s, r, now, replies);
    match v
    case Admitted => ADMITTED
    case Unavailable => UNAVAILABLE
    case Refused => Fail(s', r, byIp, byKey).1
  }

  /** What INCR answers: one more than the hits in the key's window, if it has one now. */
  function CountAfter(windows: map<CounterKey, Window>, k: CounterKey, now: int): nat {
    if k in windows && (windows[k].expires.None? || now <= windows[k].expires.value) then windows[k].count + 1 else 1
  }

  /** The timestamp reads as a number at most five minutes away from the clock. */
  predicate Timely(stamp: Stamp, now: int) {
    Number(stamp).Some? && -300000.0 <= now as real - Number(stamp).value <= 300000.0
  }

  predicate Holds(nonces: map<Slot, Issued>, slot: Slot, now: int) { slot in nonces && now <= nonces[slot].expires }

  predicate Used(legacy: map<Slot, int>, slot: Slot, now: int) { slot in legacy && now <= legacy[slot] }

  class Redis {
    var windows: map<CounterKey, Window>
    var nonces: map<Slot, Issued>
    var legacy: map<Slot, int>

    ghost function Contents(): Store
      reads this
    {
      Store(windows, nonces, legacy)
    }

    constructor ()
      ensures Contents() == EMPTY
    {
      windows, nonces, legacy := map[], map[], map[];
    }

    /** INCR, and EXPIRE when the count is 1. None: EXPIRE threw. */
    method IncrWithTtl(key: CounterKey, h: Hit) returns (count: Option<nat>)
      modifies this`windows
      ensures Contents() == Hits(old(Contents()), key, h)
      ensures count == var w := Incr(Counter(old(Contents()), key), h);
                       if w.count == 1 && !h.expireOk then None else Some(w.count)
    {
      var n: Positive := 1;
      if key in windows && (windows[key].expires.None? || h.now <= windows[key].expires.value) {
        n := windows[key].count + 1;
        windows := windows[key := windows[key].(count := n)];
      } else {
        windows := windows[key := Window(1, None)];
      }
      if n == 1 {
        if !h.expireOk {
          assert windows == old(windows)[key := windows[key]];
          return None;
        }
        windows := windows[key := windows[key].(expires := Some(h.now + WINDOW_MS))];
      }
      count := Some(n);
      assert windows == old(windows)[key := windows[key]];
    }

    method IssueNonce(slot: Slot, ip: Ip, h: Hit, o: Outcome) returns (told: Option<nat>)
      requires h.now >= 0
      modifies this
      ensures (Contents(), told) == Issue(old(Contents()), slot, ip, h, o)
      ensures var n := CountAfter(old(windows), IssueByIp(ip), h.now);
              told.Some? <==> n <= 60 && (n > 1 || h.expireOk) && !Holds(old(nonces), slot, h.now) && o == Ok
      ensures told.Some? ==> told == Some(h.now) && slot in nonces && nonces[slot] == Issued(h.now, h.now + 600000)
    {
      told := None;
      var count := IncrWithTtl(IssueByIp(ip), h);
      if count.None? || count.value > NONCES_PER_WINDOW {
        return;
      }
      if slot in nonces && h.now <= nonces[slot].expires {
        return;
      }
      if o != Err {
        nonces := nonces[slot := Issued(h.now, h.now + NONCE_TTL_MS)];
      }
      if o == Ok {
        told := Some(h.now);
      }
    }

    method RejectRequest(r: Request, byIp: Hit, byKey: Hit) returns (status: int)
      modifies this`windows
      ensures (Contents(), status) == Fail(old(Contents()), r, byIp, byKey)
      ensures status == 401 || status == 429
      ensures var i := CountAfter(old(windows), FailByIp(r.ip), byIp.now);
              var k := CountAfter(old(windows), FailByKey(r.slot.pk), byKey.now);
              status == 429 <==> (i > 30 || k > 10) && (i > 1 || byIp.expireOk) && (k > 1 || byKey.expireOk)
    {
      status := UNAUTHORIZED;
      var ipCount := IncrWithTtl(FailByIp(r.ip), byIp);
      if ipCount.None? {
        return;
      }
      var keyCount := IncrWithTtl(FailByKey(r.slot.pk), byKey);
      if keyCount.Some? && (ipCount.value > FAILS_PER_IP || keyCount.value > FAILS_PER_KEY) {
        status := TOO_MANY;
      }
    }

    /** The middleware, for a request that carries all four headers. */
    method Authenticate(c: Config, r: Request, now: nat, replies: Replies, byIp: Hit, byKey: Hit)
      returns (status: int)
      modifies this
      ensures Contents() == Next(c, old(Contents()), DoAdmit(r, now, replies, byIp, byKey))
      ensures status == Status(c, old(Contents()), r, now, replies, byIp, byKey)
      ensures status == 200 <==>
                && Timely(r.stamp, now) && r.signed && replies.connect && replies.getDel == Ok
                && if Holds(old(nonces), r.slot, now) then r.stamp == Decimal(old(nonces)[r.slot].ms)
                   else c.clientNonces && !Used(old(legacy), r.slot, now) && replies.store == Ok
      ensures status == 503 <==>
                && Timely(r.stamp, now) && r.signed
                && (!replies.connect || replies.getDel != Ok
                    || (!Holds(old(nonces), r.slot, now) && c.clientNonces && !Used(old(legacy), r.slot, now)
                        && replies.store != Ok))
      ensures status in {200, 401, 429, 503}
      ensures status == 200 ==> r.slot !in nonces
    {
      if !InWindow(r.stamp, now) || !r.signed {
        status := RejectRequest(r, byIp, byKey);
        return;
      }
      if !replies.connect {
        return UNAVAILABLE;
      }
      var found := if r.slot in nonces && now <= nonces[r.slot].expires then Some(nonces[r.slot].ms) else None;
      if replies.getDel != Err {
        nonces := nonces - {r.slot};
      }
      if replies.getDel != Ok {
        return UNAVAILABLE;
      }
      if found.Some? {
        if r.stamp != Decimal(found.value) {
          status := RejectRequest(r, byIp, byKey);
          return;
        }
      } else if c.clientNonces {
        if r.slot in legacy && now <= legacy[r.slot] {
          status := RejectRequest(r, byIp, byKey);
          return;
        }
        if replies.store != Err {
          legacy := legacy[r.slot := now + c.ttlMs];
        }
        if replies.store != Ok {
          return UNAVAILABLE;
        }
      } else {
        status := RejectRequest(r, byIp, byKey);
        return;
      }
      status := ADMITTED;
    }
  }
}
