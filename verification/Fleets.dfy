/** Any number of workers over the same stores, interleaved at every `await`: the attempt budget. */
module Fleets {
  import opened Types
  import opened Consumption
  import opened Market
  import opened Protocol
  import opened Delivery

  datatype Fleet = Fleet(s: State, pcs: map<nat, Pc>)

  datatype FleetLabel = Worker(who: nat, w: WorkerLabel) | Env(e: EnvLabel) | Join(new_: nat)

  ghost predicate FleetStep(c: Config, f: Fleet, l: FleetLabel, g: Fleet) {
    match l
    case Worker(who, w) =>
      && who in f.pcs && who in g.pcs
      && WorkerStep(c, f.s, f.pcs[who], w) == Some((g.s, g.pcs[who]))
      && g.pcs == f.pcs[who := g.pcs[who]]
    case Env(e) => EnvStep(c, f.s, e) == Some(g.s) && g.pcs == f.pcs
    case Join(n) => n !in f.pcs && g == f.(pcs := f.pcs[n := Idle])
  }

  ghost predicate IsFleetRun(c: Config, run: seq<Fleet>, labels: seq<FleetLabel>) {
    && |run| == |labels| + 1
    && run[0] == Fleet(START, map[])
    && forall i :: 0 <= i < |labels| ==> FleetStep(c, run[i], labels[i], run[i + 1])
  }

  function AttemptsOf(t: Table, k: Key): int {
    if k in t then t[k].attempts else 0
  }

  function StartsOf(h: Attempts, k: Key): seq<int> {
    if k in h.starts then h.starts[k] else []
  }

  /** An attempt that was paid for and not yet dispatched. */
  predicate Owed(pc: Pc, k: Key) {
    pc.Working? && pc.item.key == k && pc.phase.LookingUp?
  }

  /** A dispatch that has not posted yet. */
  predicate ToPost(pc: Pc, k: Key) {
    pc.Working? && pc.item.key == k && pc.phase.Running? && pc.phase.handler.PostWebhook?
  }

  function One(b: bool): int { if b then 1 else 0 }

  // ---------- One worker step, whatever the state ----------

  /** New posts are at most (maxRetries + 1) for each dispatch that is no longer waiting to post. */
  predicate Posted(c: Config, before: int, after: int, done: int) {
    (done >= 0 && after <= before) || (done >= 1 && after <= before + c.maxRetries + 1)
  }

  /** The account of key `k` before and after a step of one worker. */
  ghost predicate Pays(c: Config, s: State, pc: Pc, s': State, pc': Pc, k: Key) {
    && s'.hist.att.dispatched[k] - s.hist.att.dispatched[k] + One(Owed(pc', k)) - One(Owed(pc, k))
         <= AttemptsOf(s'.rows, k) - AttemptsOf(s.rows, k)
    && Posted(c, s.hist.posts[k], s'.hist.posts[k],
              (s'.hist.att.dispatched[k] - One(ToPost(pc', k))) - (s.hist.att.dispatched[k] - One(ToPost(pc, k))))
    && (AttemptsOf(s'.rows, k) == AttemptsOf(s.rows, k)
        || AttemptsOf(s'.rows, k) == AttemptsOf(s.rows, k) + 1 <= Max(1, c.maxAttempts))
    && |StartsOf(s'.hist.att, k)| - |StartsOf(s.hist.att, k)| == AttemptsOf(s'.rows, k) - AttemptsOf(s.rows, k)
  }

  lemma DispatchPays(c: Config, s: State, pc: Pc, payload: Payload, n: int, k: Key)
    requires pc.Working?
    ensures var (s', pc') := Dispatched(s, pc, payload, n);
            && s'.rows == s.rows && !Owed(pc', k) && StartsOf(s'.hist.att, k) == StartsOf(s.hist.att, k)
            && s'.hist.att.dispatched[k] == s.hist.att.dispatched[k] + One(k == pc.item.key)
            && s'.hist.posts[k] == s.hist.posts[k]
            && (ToPost(pc', k) ==> k == pc.item.key)
  {
    DispatchFrame(s, pc, payload, n);
  }

  lemma StartPays(s: State, x: Key, n: int, k: Key)
    ensures var s' := Started(s, x, n);
            && s'.hist.att.dispatched == s.hist.att.dispatched && s'.hist.posts == s.hist.posts
            && AttemptsOf(s'.rows, k) == (if k == x then n else AttemptsOf(s.rows, k))
            && |StartsOf(s'.hist.att, k)| == |StartsOf(s.hist.att, k)| + One(k == x)
  {
  }

  lemma BeginPays(c: Config, s: State, pc: Pc, o: Outcome, k: Key)
    requires pc.Working? && pc.phase.Fetched?
    ensures var (s', pc') := AfterBegin(c, s, pc, o); Pays(c, s, pc, s', pc', k)
  {
    var x := pc.item.key;
    var n := StartAttempt(s.rows, x, c.maxAttempts, s.clock);
    if n.Some? {
      StartPays(s, x, n.value, k);
      DispatchPays(c, Started(s, x, n.value), pc, pc.item.payload, n.value, k);
      hide Dispatched, Started, StartsOf;
    }
  }

  lemma LookupPays(c: Config, s: State, pc: Pc, o: Outcome, k: Key)
    requires pc.Working? && pc.phase.LookingUp?
    ensures var (s', pc') := AfterLookup(s, pc, pc.phase.attempt, o); Pays(c, s, pc, s', pc', k)
  {
    var x := pc.item.key;
    if x.id in s.bus.outbox { DispatchPays(c, s, pc, s.bus.outbox[x.id].payload, pc.phase.attempt, k); }
  }

  lemma HandlerPays(c: Config, s: State, pc: Pc, l: WorkerLabel, s': State, pc': Pc, k: Key)
    requires pc.Working? && pc.phase.Running? && HandlerStep(c, s, pc, l) == Some((s', pc'))
    ensures Pays(c, s, pc, s', pc', k)
  {
    HandlerFrame(c, s, pc, l, s', pc');
  }

  lemma MarkPays(c: Config, s: State, pc: Pc, n: int, o: Outcome, k: Key)
    requires pc.Working? && (pc.phase.Returned? || pc.phase.Threw?)
    ensures var (s', pc') := AfterSucceed(s, pc, n, o); Pays(c, s, pc, s', pc', k)
    ensures var (s', pc') := AfterFail(s, pc, n, o); Pays(c, s, pc, s', pc', k)
  {
    hide BackoffMs;
  }

  lemma AckPays(c: Config, s: State, pc: Pc, abort: bool, p: nat, o: Outcome, k: Key)
    requires pc.Working? && pc.phase.Acking?
    ensures var (s', pc') := AfterAck(s, pc, abort, p, o); Pays(c, s, pc, s', pc', k)
  {
  }

  lemma CutPays(c: Config, s: State, pc: Pc, k: Key)
    ensures Pays(c, s, pc, CutOff(s, pc), Idle, k)
  {
  }

  lemma OffSame(c: Config, s: State, pc: Pc, l: WorkerLabel, s': State, pc': Pc)
    requires WorkerStep(c, s, pc, l) == Some((s', pc')) && !pc.Working? && !l.Stop?
    ensures s'.rows == s.rows && s'.hist == s.hist && (pc'.Working? ==> pc'.phase.Fetched?)
  {
  }

  lemma OffPays(c: Config, s: State, pc: Pc, l: WorkerLabel, s': State, pc': Pc, k: Key)
    requires WorkerStep(c, s, pc, l) == Some((s', pc')) && !pc.Working? && !l.Stop?
    ensures Pays(c, s, pc, s', pc', k)
  {
    OffSame(c, s, pc, l, s', pc');
    hide WorkerStep;
  }

  lemma WorkerPays(c: Config, s: State, pc: Pc, l: WorkerLabel, s': State, pc': Pc, k: Key)
    requires WorkerStep(c, s, pc, l) == Some((s', pc'))
    ensures Pays(c, s, pc, s', pc', k)
  {
    hide Pays;
    if l.Stop? {
      CutPays(c, s, pc, k);
    } else if pc.Working? {
      assert Step(c, Conf(s, pc), W(l), Conf(s', pc'));
      Taken(c, Conf(s, pc), l, Conf(s', pc'));
      hide WorkerStep, AfterBegin, AfterLookup, AfterSucceed, AfterFail, AfterAck, HandlerStep;
      match pc.phase
      case Fetched => BeginPays(c, s, pc, l.o, k);
      case LookingUp(_) => LookupPays(c, s, pc, l.o, k);
      case Running(_, _) => HandlerPays(c, s, pc, l, s', pc', k);
      case Returned(n) => MarkPays(c, s, pc, n, l.o, k);
      case Threw(n) => MarkPays(c, s, pc, n, l.o, k);
      case Acking(abort) => AckPays(c, s, pc, abort, pc.item.pos.value, l.o, k);
    } else {
      OffPays(c, s, pc, l, s', pc', k);
    }
  }

  // ---------- The whole fleet ----------

  function Owing(f: Fleet, k: Key): set<nat> {
    set w | w in f.pcs && Owed(f.pcs[w], k)
  }

  function Posting(f: Fleet, k: Key): set<nat> {
    set w | w in f.pcs && ToPost(f.pcs[w], k)
  }

  ghost predicate Account(c: Config, f: Fleet, k: Key) {
    && f.s.hist.att.dispatched[k] + |Owing(f, k)| <= AttemptsOf(f.s.rows, k) <= Max(1, c.maxAttempts)
    && f.s.hist.posts[k] <= (c.maxRetries + 1) * (f.s.hist.att.dispatched[k] - |Posting(f, k)|)
    && |StartsOf(f.s.hist.att, k)| == AttemptsOf(f.s.rows, k)
  }

  /** Changing one worker changes a count of workers by what it says about that worker. */
  lemma CountOne(a: set<nat>, b: set<nat>, w: nat)
    requires forall x :: x != w ==> (x in a <==> x in b)
    ensures |b| - |a| == One(w in b) - One(w in a)
  {
    assert a - {w} == b - {w};
    assert |a| == |a - {w}| + One(w in a) by { if w in a { assert a == (a - {w}) + {w}; } else { assert a == a - {w}; } }
    assert |b| == |b - {w}| + One(w in b) by { if w in b { assert b == (b - {w}) + {w}; } else { assert b == b - {w}; } }
  }

  lemma CountWorkers(f: Fleet, g: Fleet, w: nat, k: Key)
    requires w in f.pcs && w in g.pcs && g.pcs == f.pcs[w := g.pcs[w]]
    ensures |Owing(g, k)| - |Owing(f, k)| == One(Owed(g.pcs[w], k)) - One(Owed(f.pcs[w], k))
    ensures |Posting(g, k)| - |Posting(f, k)| == One(ToPost(g.pcs[w], k)) - One(ToPost(f.pcs[w], k))
  {
    CountOne(Owing(f, k), Owing(g, k), w);
    CountOne(Posting(f, k), Posting(g, k), w);
  }

  lemma SameWorkers(f: Fleet, g: Fleet, k: Key)
    requires forall w :: w in f.pcs ==> w in g.pcs && g.pcs[w] == f.pcs[w]
    requires forall w :: w in g.pcs && w !in f.pcs ==> g.pcs[w] == Idle
    ensures Owing(g, k) == Owing(f, k) && Posting(g, k) == Posting(f, k)
  {
  }

  lemma WorkerAccount(c: Config, f: Fleet, w: nat, g: Fleet, k: Key)
    requires w in f.pcs && w in g.pcs && g.pcs == f.pcs[w := g.pcs[w]]
    requires Pays(c, f.s, f.pcs[w], g.s, g.pcs[w], k) && Account(c, f, k)
    ensures Account(c, g, k)
  {
    hide Owed, ToPost, Owing, Posting, Posted;
    CountWorkers(f, g, w, k);
    PostedAdds(c, f.s.hist.posts[k], g.s.hist.posts[k], f.s.hist.att.dispatched[k] - |Posting(f, k)|,
               g.s.hist.att.dispatched[k] - |Posting(g, k)|);
  }

  lemma AccountKeeps(c: Config, f: Fleet, l: FleetLabel, g: Fleet, k: Key)
    requires FleetStep(c, f, l, g) && Account(c, f, k)
    ensures Account(c, g, k)
  {
    hide WorkerStep, EnvStep, Pays;
    match l
    case Env(e) => EnvFree(c, f.s, e, g.s); SameWorkers(f, g, k);
    case Join(n) => SameWorkers(f, g, k);
    case Worker(w, wl) =>
      WorkerPays(c, f.s, f.pcs[w], wl, g.s, g.pcs[w], k);
      WorkerAccount(c, f, w, g, k);
  }

  lemma EnvFree(c: Config, s: State, e: EnvLabel, s': State)
    requires EnvStep(c, s, e) == Some(s')
    ensures s'.rows == s.rows && s'.hist.att == s.hist.att && s'.hist.posts == s.hist.posts && s'.hist.normal == s.hist.normal
  {
  }

  lemma PostedAdds(c: Config, before: int, after: int, x: int, y: int)
    requires before <= (c.maxRetries + 1) * x && Posted(c, before, after, y - x)
    ensures after <= (c.maxRetries + 1) * y
  {
    Scale(c.maxRetries + 1, x + One(after > before), y);
  }

  lemma Scale(r: nat, x: int, y: int)
    requires x <= y
    ensures r * x <= r * y
  {
  }

  /** With any number of workers, any interleaving, duplicate stream entries, stops and failures, a handler is
      invoked for an event at most max(1, maxAttempts) times, and posts at most (maxRetries + 1) times as often. */
  lemma {:induction false} AttemptBudget(c: Config, run: seq<Fleet>, labels: seq<FleetLabel>, i: nat, k: Key)
    requires IsFleetRun(c, run, labels) && i <= |labels|
    ensures Account(c, run[i], k)
    ensures run[i].s.hist.att.dispatched[k] <= Max(1, c.maxAttempts)
    ensures run[i].s.hist.posts[k] <= (c.maxRetries + 1) * Max(1, c.maxAttempts)
  {
    hide FleetStep;
    if i == 0 {
      assert Owing(run[0], k) == {} && Posting(run[0], k) == {};
    } else {
      hide Account;
      AttemptBudget(c, run, labels, i - 1, k);
      AccountKeeps(c, run[i - 1], labels[i - 1], run[i], k);
    }
    WithinBudget(c, run[i], k);
  }

  lemma WithinBudget(c: Config, f: Fleet, k: Key)
    requires Account(c, f, k)
    ensures f.s.hist.att.dispatched[k] <= Max(1, c.maxAttempts)
    ensures f.s.hist.posts[k] <= (c.maxRetries + 1) * Max(1, c.maxAttempts)
  {
    Scale(c.maxRetries + 1, f.s.hist.att.dispatched[k] - |Posting(f, k)|, Max(1, c.maxAttempts));
  }
}
