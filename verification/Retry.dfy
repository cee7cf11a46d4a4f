/** `withRetry`, and webhook delivery on top of it. */
module Retry {
  import opened Types
  import opened Consumption

  /** A thrown value: whether it is an `Error`, its name, its `type` if that is a string, and its message (or what
      `String` makes of it). */
  datatype Exception = Exception(isError: bool, name: string, typ: Option<string>, message: string)

  /** An HTTP answer outside 2xx with its parsed delta-seconds header, or an exception without an answer. */
  datatype Error = Http(status: int, retryAfter: Option<nat>) | Thrown(x: Exception)

  datatype Attempt = Done(status: int) | Failed(e: Error)

  /** `jitterPct` as configured by the caller, 0 for none. */
  datatype Options = Options(retries: nat, baseMs: nat, jitterPct: real)

  function Trunc(x: real): int {
    if x >= 0.0 then x.Floor else -((-x).Floor)
  }

  function RawDelay(o: Options, attempt: nat): nat { o.baseMs * Pow2(attempt) }

  /** `random` is the answer of `Math.random`. */
  function Jitter(raw: real, pct: real, random: real): real {
    if pct > 0.0 then (random * 2.0 - 1.0) * raw * pct else 0.0
  }

  /** The computed delay. */
  function Delay(o: Options, attempt: nat, random: real): int {
    var raw := RawDelay(o, attempt) as real;
    Max(0, Trunc(raw + Jitter(raw, o.jitterPct, random)))
  }

  function RetryAfterMs(e: Error): nat {
    if e.Http? && e.retryAfter.Some? then e.retryAfter.value * 1000 else 0
  }

  /** How long `withRetry` sleeps after a failed attempt: never less than the computed delay, than the
      caller's override, or than what the server asked for, and no longer than the largest of them. */
  function SleepMs(o: Options, e: Error, attempt: nat, random: real, override: Option<real>): (ms: int)
    ensures ms >= Delay(o, attempt, random) && ms >= RetryAfterMs(e)
    ensures override.Some? ==> ms >= Trunc(override.value)
    ensures ms == Delay(o, attempt, random) || ms == RetryAfterMs(e)
            || (override.Some? && ms == Trunc(override.value))
  {
    var computed := Delay(o, attempt, random);
    var hinted := if override.Some? && override.value > computed as real then Trunc(override.value) else computed;
    if RetryAfterMs(e) > hinted then RetryAfterMs(e) else hinted
  }

  // ---------- Attempts ----------

  /** Calls number `start` to `start + n - 1` are what `withRetry` makes: all but the last fail in a way
      worth retrying, and the last succeeds, fails otherwise, or is the last one allowed. */
  ghost predicate Makes(script: nat -> Attempt, start: nat, n: nat, retries: nat, shouldRetry: Error -> bool) {
    && 1 <= n <= retries + 1
    && (forall k :: start <= k < start + n - 1 ==> script(k).Failed? && shouldRetry(script(k).e))
    && var last := script(start + n - 1);
       last.Done? || !shouldRetry(last.e) || n == retries + 1
  }

  lemma MakesIsExact(script: nat -> Attempt, start: nat, n: nat, m: nat, retries: nat, shouldRetry: Error -> bool)
    requires Makes(script, start, n, retries, shouldRetry) && Makes(script, start, m, retries, shouldRetry)
    ensures n == m
  {
    var k: nat := start + Min(n, m) - 1;
    var last := script(k);
    assert last == script(k);
  }

  /** The flaky operation: each call answers as the outside world does at that point, and is counted. */
  class Operation {
    const script: nat -> Attempt
    var attempts: nat

    constructor (script: nat -> Attempt)
      ensures this.script == script && attempts == 0
    {
      this.script := script;
      attempts := 0;
    }

    method Call() returns (a: Attempt)
      modifies this`attempts
      ensures a == script(old(attempts)) && attempts == old(attempts) + 1
    {
      a := script(attempts);
      attempts := attempts + 1;
    }
  }

  method WithRetry(op: Operation, o: Options, shouldRetry: Error -> bool, random: nat -> real,
                   override: nat -> Option<real>) returns (last: Attempt, sleeps: seq<int>)
    modifies op
    ensures op.attempts > old(op.attempts)
    ensures var n := op.attempts - old(op.attempts);
      && Makes(op.script, old(op.attempts), n, o.retries, shouldRetry)
      && last == op.script(op.attempts - 1)
      && |sleeps| == n - 1
      && forall i :: 0 <= i < n - 1 ==>
           sleeps[i] == SleepMs(o, op.script(old(op.attempts) + i).e, i, random(i), override(i))
  {
    sleeps := [];
    ghost var start := op.attempts;
    var attempt := 0;
    while attempt < o.retries + 1
      invariant 0 <= attempt <= o.retries && op.attempts == start + attempt && |sleeps| == attempt
      invariant forall k :: start <= k < start + attempt ==> op.script(k).Failed? && shouldRetry(op.script(k).e)
      invariant forall i :: 0 <= i < attempt ==>
        sleeps[i] == SleepMs(o, op.script(start + i).e, i, random(i), override(i))
    {
      last := op.Call();
      assert last == op.script(start + attempt);
      if last.Done? {
        return;
      }
      if attempt == o.retries || !shouldRetry(last.e) {
        return;
      }
      var sleepMs := Delay(o, attempt, random(attempt));
      var hint := override(attempt);
      if hint.Some? && hint.value > sleepMs as real {
        sleepMs := Trunc(hint.value);
      }
      var retryAfterMs := RetryAfterMs(last.e);
      if retryAfterMs > sleepMs {
        sleepMs := retryAfterMs;
      }
      sleeps := sleeps + [sleepMs];
      attempt := attempt + 1;
    }
  }

  // ---------- How long it takes ----------

  function Total(sleeps: seq<int>): int {
    if sleeps == [] then 0 else Total(sleeps[..|sleeps| - 1]) + sleeps[|sleeps| - 1]
  }

  predicate Random(x: real) { 0.0 <= x < 1.0 }

  /** The part of `x` milliseconds that jitter cannot take away. */
  function Firm(o: Options, x: int): real { (1.0 - o.jitterPct) * x as real }

  lemma FirmAdds(o: Options, x: int, y: int)
    ensures Firm(o, x + y) == Firm(o, x) + Firm(o, y)
  {
    assert (x + y) as real == x as real + y as real;
  }

  lemma Regroup(t: real, raw: real, pct: real)
    ensures t * raw * pct == t * (raw * pct)
  {}

  lemma Nonnegative(a: real, b: real)
    requires a >= 0.0 && b >= 0.0
    ensures a * b >= 0.0
  {}

  lemma AtLeastMinus(t: real, share: real)
    requires t >= -1.0 && share >= 0.0
    ensures t * share >= -share
  {
    Nonnegative(t + 1.0, share);
    assert (t + 1.0) * share == t * share + share;
  }

  lemma JitterAtLeast(raw: real, pct: real, random: real)
    requires raw >= 0.0 && pct >= 0.0 && Random(random)
    ensures Jitter(raw, pct, random) >= -(raw * pct)
  {
    Nonnegative(raw, pct);
    if pct > 0.0 {
      Regroup(random * 2.0 - 1.0, raw, pct);
      AtLeastMinus(random * 2.0 - 1.0, raw * pct);
    }
  }

  lemma FirmSplits(o: Options, x: nat)
    requires 0.0 <= o.jitterPct <= 1.0
    ensures Firm(o, x) == x as real - x as real * o.jitterPct
    ensures Firm(o, x) >= 0.0
  {
    Nonnegative(1.0 - o.jitterPct, x as real);
  }

  /** Jitter takes away at most its share of the delay, and truncation less than a millisecond. */
  lemma DelayAtLeast(o: Options, attempt: nat, random: real)
    requires 0.0 <= o.jitterPct <= 1.0 && Random(random)
    ensures Delay(o, attempt, random) as real > Firm(o, RawDelay(o, attempt)) - 1.0
  {
    hide Jitter, Firm, RawDelay;
    var raw := RawDelay(o, attempt);
    JitterAtLeast(raw as real, o.jitterPct, random);
    FirmSplits(o, raw);
    var x := raw as real + Jitter(raw as real, o.jitterPct, random);
    assert x >= Firm(o, raw);
  }

  lemma AtMostPlus(t: real, share: real)
    requires t <= 1.0 && share >= 0.0
    ensures t * share <= share
  {
    Nonnegative(1.0 - t, share);
    assert (1.0 - t) * share == share - t * share;
  }

  lemma TruncAtMost(x: real, y: real)
    requires x <= y && y >= 0.0
    ensures Max(0, Trunc(x)) as real <= y
  {
  }

  lemma JitterAtMost(raw: real, pct: real, random: real)
    requires raw >= 0.0 && pct >= 0.0 && Random(random)
    ensures Jitter(raw, pct, random) <= raw * pct
  {
    Nonnegative(raw, pct);
    if pct > 0.0 {
      Regroup(random * 2.0 - 1.0, raw, pct);
      AtMostPlus(random * 2.0 - 1.0, raw * pct);
    }
  }

  /** And adds at most its share. */
  lemma DelayAtMost(o: Options, attempt: nat, random: real)
    requires 0.0 <= o.jitterPct <= 1.0 && Random(random)
    ensures Delay(o, attempt, random) as real <= RawDelay(o, attempt) as real + RawDelay(o, attempt) as real * o.jitterPct
  {
    hide RawDelay, Jitter, Trunc;
    var raw := RawDelay(o, attempt) as real;
    Nonnegative(raw, o.jitterPct);
    JitterAtMost(raw, o.jitterPct, random);
    TruncAtMost(raw + Jitter(raw, o.jitterPct, random), raw + raw * o.jitterPct);
  }

  lemma Doubles(base: nat, n: nat)
    ensures base * (Pow2(n + 1) - 1) == base * (Pow2(n) - 1) + base * Pow2(n)
  {}

  /** After `n` sleeps, at least the firm part of `base * (2^n - 1)` has passed, up to a millisecond each. */
  lemma {:induction false} SleepsAddUp(o: Options, sleeps: seq<int>, random: nat -> real)
    requires 0.0 <= o.jitterPct <= 1.0
    requires forall i :: 0 <= i < |sleeps| ==> Random(random(i)) && sleeps[i] >= Delay(o, i, random(i))
    ensures Total(sleeps) as real >= Firm(o, o.baseMs * (Pow2(|sleeps|) - 1)) - |sleeps| as real
    decreases |sleeps|
  {
    hide Firm, Delay;
    var n := |sleeps| - 1;
    if n < 0 {
      assert Firm(o, 0) == 0.0 by { FirmAdds(o, 0, 0); }
    } else {
      SleepsAddUp(o, sleeps[..n], random);
      DelayAtLeast(o, n, random(n));
      Doubles(o.baseMs, n);
      FirmAdds(o, o.baseMs * (Pow2(n) - 1), RawDelay(o, n));
    }
  }

  // ---------- Webhooks ----------

  const TYPE_WORDS := ["network", "timeout", "fetch"]

  const MESSAGE_WORDS := [
    "fetch failed", "econnreset", "etimedout", "dns", "enotfound", "tls", "socket", "aborted", "timeout", "timed out"]

  function Lower(c: char): char {
    if 'A' <= c <= 'Z' then (c as int + 32) as char else c
  }

  predicate SameWord(text: string, word: string) {
    |text| == |word| && forall i :: 0 <= i < |word| ==> Lower(text[i]) == word[i]
  }

  /** The case-insensitive search, from left to right. */
  predicate Contains(text: string, word: string) {
    (|word| <= |text| && SameWord(text[..|word|], word)) || (text != "" && Contains(text[1..], word))
  }

  predicate ContainsAny(text: string, words: seq<string>) {
    exists i :: 0 <= i < |words| && Contains(text, words[i])
  }

  predicate WebhookRetryable(e: Error) {
    match e
    case Http(status, _) => status == 408 || status == 429 || 500 <= status < 600
    case Thrown(x) =>
      || (x.isError && x.name == "AbortError")
      || (x.typ.Some? && ContainsAny(x.typ.value, TYPE_WORDS))
      || ContainsAny(x.message, MESSAGE_WORDS)
  }

  /** `word` stands at position `at` of the text, up to case. */
  predicate StandsAt(text: string, word: string, at: nat) {
    at + |word| <= |text| && SameWord(text[at..at + |word|], word)
  }

  lemma {:induction false} ContainsExactly(text: string, word: string)
    ensures Contains(text, word) <==> exists at: nat :: StandsAt(text, word, at)
    decreases |text|
  {
    if |word| <= |text| { assert text[0..|word|] == text[..|word|]; }
    if |word| <= |text| && SameWord(text[..|word|], word) {
      assert StandsAt(text, word, 0);
    } else if text != "" {
      ContainsExactly(text[1..], word);
      forall at: nat ensures StandsAt(text[1..], word, at) <==> StandsAt(text, word, at + 1) {
        if at + 1 + |word| <= |text| { assert text[1..][at..at + |word|] == text[at + 1..at + 1 + |word|]; }
      }
      if at: nat :| StandsAt(text, word, at) {
        assert at > 0;
        assert StandsAt(text[1..], word, at - 1);
      }
    }
  }

  /** The listed word number `w` stands somewhere in the text, up to case. */
  predicate Reads(text: string, words: seq<string>, w: int, at: nat) {
    0 <= w < |words| && StandsAt(text, words[w], at)
  }

  /** An AbortError, or one of the listed words stands in its type or its message. */
  ghost predicate Transient(x: Exception) {
    || (x.isError && x.name == "AbortError")
    || (x.typ.Some? && exists w, at: nat :: Reads(x.typ.value, TYPE_WORDS, w, at))
    || exists w, at: nat :: Reads(x.message, MESSAGE_WORDS, w, at)
  }

  /** Those exceptions are retried, and no others. */
  lemma RetriedExactly(x: Exception)
    ensures WebhookRetryable(Thrown(x)) <==> Transient(x)
  {
    AnyExactly(x.message, MESSAGE_WORDS);
    if x.typ.Some? { AnyExactly(x.typ.value, TYPE_WORDS); }
  }

  lemma AnyExactly(text: string, words: seq<string>)
    ensures ContainsAny(text, words) <==> exists w, at: nat :: Reads(text, words, w, at)
  {
    if i :| 0 <= i < |words| && Contains(text, words[i]) {
      ContainsExactly(text, words[i]);
      var at: nat :| StandsAt(text, words[i], at);
      assert Reads(text, words, i, at);
    }
    if w, at: nat :| Reads(text, words, w, at) {
      ContainsExactly(text, words[w]);
      assert Contains(text, words[w]);
    }
  }

  lemma {:induction false} LetterMissing(text: string, word: string, j: nat)
    requires j < |word| && forall i :: 0 <= i < |text| ==> Lower(text[i]) != word[j]
    ensures !Contains(text, word)
    decreases |text|
  {
    if |word| <= |text| { assert text[..|word|][j] == text[j]; }
    if text != "" { LetterMissing(text[1..], word, j); }
  }

  const TERMINATED := "terminated"

  /** How `fetch` reports an answer whose body breaks off. */
  const BROKEN_OFF := Exception(true, "TypeError", None, TERMINATED)

  lemma NotIn(word: string, j: nat)
    requires j < |word| && word[j] !in TERMINATED
    ensures !Contains(TERMINATED, word)
  {
    forall i | 0 <= i < |TERMINATED| ensures Lower(TERMINATED[i]) != word[j] {
      assert 'a' <= TERMINATED[i] <= 'z' && TERMINATED[i] in TERMINATED;
    }
    LetterMissing(TERMINATED, word, j);
  }

  /** An exception of `fetch` that is not retried. */
  lemma BrokenOffIsNotRetried()
    ensures !WebhookRetryable(Thrown(BROKEN_OFF))
  {
    hide Contains;
    forall w | 0 <= w < |MESSAGE_WORDS| ensures !Contains(TERMINATED, MESSAGE_WORDS[w]) {
      NotIn(MESSAGE_WORDS[w], [0, 1, 6, 2, 2, 2, 0, 1, 4, 6][w]);
    }
  }

  /** One answer of the webhook's server, or none. */
  datatype Response = Answer(status: int, retryAfter: Option<nat>) | NoAnswer(x: Exception)

  function Judge(r: Response): Attempt {
    match r
    case Answer(status, after) => if 200 <= status < 300 then Done(status) else Failed(Http(status, after))
    case NoAnswer(x) => Failed(Thrown(x))
  }

  /** The server may be asked again: it timed the request out, is asked too often, failed, or did not answer. */
  ghost predicate AskAgain(r: Response) {
    match r
    case Answer(status, _) => status == 408 || status == 429 || 500 <= status <= 599
    case NoAnswer(x) => Transient(x)
  }

  lemma JudgedExactly(r: Response)
    ensures Judge(r).Failed? && WebhookRetryable(Judge(r).e) <==> AskAgain(r)
  {
    if r.NoAnswer? { RetriedExactly(r.x); }
    hide Transient, ContainsAny;
  }

  /** With half jitter the delay stays between half and one and a half of the doubling base. */
  lemma HalfJitter(o: Options, i: nat, random: real)
    requires o.jitterPct == 0.5 && Random(random)
    ensures Delay(o, i, random) as real > 0.5 * (o.baseMs * Pow2(i)) as real - 1.0
    ensures Delay(o, i, random) as real <= 1.5 * (o.baseMs * Pow2(i)) as real
  {
    hide Delay, Pow2;
    DelayAtLeast(o, i, random);
    DelayAtMost(o, i, random);
    assert RawDelay(o, i) == o.baseMs * Pow2(i);
  }

  /** A sleep after answer `r`: at least what its Retry-After asks for, and otherwise the doubling delay with its jitter. */
  predicate Slept(o: Options, r: Response, i: nat, random: real, ms: int) {
    && (r.Answer? && r.retryAfter.Some? ==> ms >= r.retryAfter.value * 1000)
    && (Random(random) && o.jitterPct == 0.5 ==>
          && ms as real > 0.5 * (o.baseMs * Pow2(i)) as real - 1.0
          && (ms as real <= 1.5 * (o.baseMs * Pow2(i)) as real
              || (r.Answer? && r.retryAfter.Some? && ms == r.retryAfter.value * 1000)))
  }

  lemma SleepOf(o: Options, r: Response, i: nat, random: real)
    ensures Judge(r).Failed? ==> Slept(o, r, i, random, SleepMs(o, Judge(r).e, i, random, None))
  {
    hide Delay, Pow2;
    if Random(random) && o.jitterPct == 0.5 { HalfJitter(o, i, random); }
    NoNegative(o, i, random);
  }

  lemma NoNegative(o: Options, i: nat, random: real)
    ensures Delay(o, i, random) >= 0
  {
  }

  class WebhookService {
    const maxRetries: int
    const baseBackoffMs: int

    constructor (maxRetries: int, baseBackoffMs: int)
      ensures this.maxRetries == maxRetries && this.baseBackoffMs == baseBackoffMs
    {
      this.maxRetries := maxRetries;
      this.baseBackoffMs := baseBackoffMs;
    }

    function RetryOptions(): Options { Options(Max(0, maxRetries), Max(50, baseBackoffMs), 0.5) }

    /** `attempts` counts the POSTs; the last answer is returned or thrown. */
    method PostJson(server: nat -> Response, random: nat -> real)
      returns (last: Attempt, attempts: nat, sleeps: seq<int>)
      ensures 1 <= attempts <= Max(0, maxRetries) + 1 && |sleeps| == attempts - 1
      ensures forall i :: 0 <= i < attempts - 1 ==> AskAgain(server(i))
      ensures AskAgain(server(attempts - 1)) ==> attempts == Max(0, maxRetries) + 1
      ensures last == match server(attempts - 1)
                      case Answer(status, after) =>
                        if 200 <= status <= 299 then Done(status) else Failed(Http(status, after))
                      case NoAnswer(x) => Failed(Thrown(x))
      ensures forall i :: 0 <= i < attempts - 1 ==>
                Slept(Options(Max(0, maxRetries), Max(50, baseBackoffMs), 0.5), server(i), i, random(i), sleeps[i])
    {
      hide Delay, AskAgain, WebhookRetryable, Slept;
      var script: nat -> Attempt := (i: nat) => Judge(server(i));
      var op := new Operation(script);
      last, sleeps := WithRetry(op, RetryOptions(), WebhookRetryable, random, i => None);
      attempts := op.attempts;
      JudgedExactly(server(attempts - 1));
      forall i: nat | i < attempts - 1 ensures AskAgain(server(i)) && Slept(RetryOptions(), server(i), i, random(i), sleeps[i]) {
        assert op.script(i) == op.script(0 + i) == Judge(server(i));
        JudgedExactly(server(i));
        SleepOf(RetryOptions(), server(i), i, random(i));
      }
    }
  }
}
