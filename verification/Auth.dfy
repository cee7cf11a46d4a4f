/** Nonce issue and signed-request admission over the shared Redis keys. */
module Auth {
  import opened Types
  import opened RateWindow

  type PublicKey = nat
  type Nonce = nat
  type Ip = nat

  const NONCE_TTL_MS := 600000
  const SKEW_MS := 300000
  const NONCES_PER_WINDOW := 60
  const FAILS_PER_IP := 30
  const FAILS_PER_KEY := 10

  /** The timestamp header: the decimal spelling of a millisecond count, which is what the server
      hands out, or some other text whose `Number` is `number` (None: not finite). */
  datatype Stamp = Decimal(ms: nat) | Text(id: nat, number: Option<real>)

  function Number(s: Stamp): Option<real> {
    match s
    case Decimal(ms) => Some(ms as real)
    case Text(_, n) => n
  }

  datatype Slot = Slot(pk: PublicKey, nonce: Nonce)

  datatype CounterKey = IssueByIp(ip: Ip) | FailByIp(ip: Ip) | FailByKey(pk: PublicKey)

  /** A server nonce: the timestamp it was issued with, and the expiry of its key. */
  datatype Issued = Issued(ms: nat, expires: int)

  datatype Store = Store(windows: map<CounterKey, Window>, nonces: map<Slot, Issued>, legacy: map<Slot, int>)

  const EMPTY := Store(map[], map[], map[])

  /** `TG_ALLOW_CLIENT_NONCE`, and the life of a client nonce's key. */
  datatype Config = Config(clientNonces: bool, ttlMs: int)

  function Counter(s: Store, k: CounterKey): Option<Window> {
    if k in s.windows then Some(s.windows[k]) else None
  }

  function Hits(s: Store, k: CounterKey, h: Hit): Store {
    s.(windows := s.windows[k := Incr(Counter(s, k), h)])
  }

  // ---------- Issue ----------

  predicate HeldNonce(s: Store, slot: Slot, now: int) {
    slot in s.nonces && now <= s.nonces[slot].expires
  }

  /** `POST /auth/nonce` with a valid public key gets as far as storing `slot`: under the rate limit,
      the key not taken (`NX`), and the SET (outcome `o`) taking effect. */
  predicate Stores(s: Store, slot: Slot, ip: Ip, h: Hit, o: Outcome) {
    var count := Incr(Counter(s, IssueByIp(ip)), h).count;
    (count > 1 || h.expireOk) && count <= NONCES_PER_WINDOW && !HeldNonce(s, slot, h.now) && o.Effect()
  }

  /** The reply carries the nonce's timestamp, or nothing when the request fails. */
  function Issue(s: Store, slot: Slot, ip: Ip, h: Hit, o: Outcome): (Store, Option<nat>)
    requires h.now >= 0
  {
    var counted := Hits(s, IssueByIp(ip), h);
    if Stores(s, slot, ip, h, o) then
      (counted.(nonces := s.nonces[slot := Issued(h.now, h.now + NONCE_TTL_MS)]), if o == Ok then Some(h.now) else None)
    else (counted, None)
  }

  // ---------- Admission ----------

  /** A request with all four headers. `signed`: the body's key (if compared) matches, the key and
      signature parse, and the signature verifies. */
  datatype Request = Request(slot: Slot, stamp: Stamp, signed: bool, ip: Ip)

  /** How the Redis calls of one request end. */
  datatype Replies = Replies(connect: bool, getDel: Outcome, store: Outcome)

  const ALL_OK := Replies(true, Ok, Ok)

  /** `Unavailable`: the nonce store could not be asked, or its answer was lost. */
  datatype Verdict = Admitted | Refused | Unavailable

  predicate InWindow(stamp: Stamp, now: int) {
    Number(stamp).Some? && -(SKEW_MS as real) <= now as real - Number(stamp).value <= SKEW_MS as real
  }

  predicate HeldLegacy(s: Store, slot: Slot, now: int) {
    slot in s.legacy && now <= s.legacy[slot]
  }

  /** Everything up to the nonce store: timestamp window first, then the signature. */
  predicate Presentable(r: Request, now: int) {
    InWindow(r.stamp, now) && r.signed
  }

  /** The nonce part. A `GETDEL` that takes effect uses the nonce up whatever happens next. */
  function Consume(c: Config, s: Store, r: Request, now: int, replies: Replies): (Store, Verdict) {
    if !replies.connect then (s, Unavailable)
    else
      var s' := if replies.getDel.Effect() then s.(nonces := s.nonces - {r.slot}) else s;
      if replies.getDel != Ok then (s', Unavailable)
      else if HeldNonce(s, r.slot, now) then
        (s', if r.stamp == Decimal(s.nonces[r.slot].ms) then Admitted else Refused)
      else if !c.clientNonces || HeldLegacy(s, r.slot, now) then (s', Refused)
      else
        (if replies.store.Effect() then s'.(legacy := s'.legacy[r.slot := now + c.ttlMs]) else s',
         if replies.store == Ok then Admitted else Unavailable)
  }

  function Admit(c: Config, s: Store, r: Request, now: int, replies: Replies): (Store, Verdict) {
    if Presentable(r, now) then Consume(c, s, r, now, replies) else (s, Refused)
  }

  const UNAUTHORIZED := 401
  const TOO_MANY := 429

  /** The failure counters behind a refusal; the key's counter is not reached when `EXPIRE` fails on
      the address's counter. */
  function Fail(s: Store, r: Request, byIp: Hit, byKey: Hit): (Store, int) {
    var s1 := Hits(s, FailByIp(r.ip), byIp);
    var ipCount := s1.windows[FailByIp(r.ip)].count;
    if ipCount == 1 && !byIp.expireOk then (s1, UNAUTHORIZED)
    else
      var s2 := Hits(s1, FailByKey(r.slot.pk), byKey);
      var keyCount := s2.windows[FailByKey(r.slot.pk)].count;
      if keyCount == 1 && !byKey.expireOk then (s2, UNAUTHORIZED)
      else (s2, if ipCount > FAILS_PER_IP || keyCount > FAILS_PER_KEY then TOO_MANY else UNAUTHORIZED)
  }

  // ---------- Runs ----------

  datatype Call =
    | DoIssue(slot: Slot, ip: Ip, hit: Hit, o: Outcome)
    | DoAdmit(r: Request, now: nat, replies: Replies, byIp: Hit, byKey: Hit)

  function When(call: Call): int { if call.DoIssue? then call.hit.now else call.now }

  predicate WellTimed(calls: seq<Call>) {
    && (forall i :: 0 <= i < |calls| ==> When(calls[i]) >= 0)
    && (forall i, j :: 0 <= i < j < |calls| ==> When(calls[i]) <= When(calls[j]))
  }

  function Next(c: Config, s: Store, call: Call): Store
    requires When(call) >= 0
  {
    match call
    case DoIssue(slot, ip, hit, o) => Issue(s, slot, ip, hit, o).0
    case DoAdmit(r, now, replies, byIp, byKey) =>
      var (s', v) := Admit(c, s, r, now, replies);
      if v == Refused then Fail(s', r, byIp, byKey).0 else s'
  }

  function Run(c: Config, s: Store, calls: seq<Call>): Store
    requires WellTimed(calls)
    decreases |calls|
  {
    if calls == [] then s else Run(c, Next(c, s, calls[0]), calls[1..])
  }

  predicate IssuesSlot(s: Store, call: Call, slot: Slot) {
    call.DoIssue? && call.slot == slot && Stores(s, slot, call.ip, call.hit, call.o)
  }

  /** The call is a request for `slot` with a timestamp that reads as `v` (None: any), and is admitted. */
  predicate AdmitsSlot(c: Config, s: Store, call: Call, slot: Slot, v: Option<real>) {
    && call.DoAdmit? && call.r.slot == slot && (v.None? || Number(call.r.stamp) == v)
    && Admit(c, s, call.r, call.now, call.replies).1 == Admitted
  }

  function Issuances(c: Config, s: Store, calls: seq<Call>, slot: Slot): nat
    requires WellTimed(calls)
    decreases |calls|
  {
    if calls == [] then 0
    else (if IssuesSlot(s, calls[0], slot) then 1 else 0) + Issuances(c, Next(c, s, calls[0]), calls[1..], slot)
  }

  function Admissions(c: Config, s: Store, calls: seq<Call>, slot: Slot, v: Option<real>): nat
    requires WellTimed(calls)
    decreases |calls|
  {
    if calls == [] then 0
    else (if AdmitsSlot(c, s, calls[0], slot, v) then 1 else 0)
         + Admissions(c, Next(c, s, calls[0]), calls[1..], slot, v)
  }
}
