/** What one tick of the worker leaves in the run: which calls it makes, in which order, and with which outcomes. */
module TickScript {
  import opened Types
  import opened Protocol
  import opened Progress

  // ---------- Runs that grow ----------

  /** The worker's own calls among the labels; the others are API requests and time. */
  function Did(labels: seq<Label>): seq<WorkerLabel> {
    if labels == [] then []
    else
      var last := labels[|labels| - 1];
      Did(labels[..|labels| - 1]) + if last.W? then [last.w] else []
  }

  lemma {:induction false} DidMore(a: seq<Label>, b: seq<Label>)
    ensures Did(a + b) == Did(a) + Did(b)
  {
    if b == [] {
      assert a + b == a;
    } else {
      var n := |b| - 1;
      DidMore(a, b[..n]);
      assert (a + b)[..|a| + n] == a + b[..n];
    }
  }

  lemma {:induction false} DidHas(labels: seq<Label>, i: nat)
    requires i < |labels| && labels[i].W?
    ensures labels[i].w in Did(labels)
  {
    if i < |labels| - 1 { DidHas(labels[..|labels| - 1], i); }
  }

  /** `u` goes on from `t`, and in between the worker makes the calls `w`. */
  ghost predicate Grows(t: Trace, u: Trace, w: seq<WorkerLabel>) {
    t.run <= u.run && t.labels <= u.labels && |u.run| == |u.labels| + 1 && Did(u.labels[|t.labels|..]) == w
  }

  /** Only others take steps; the worker stands at `pc`. */
  ghost predicate Stays(t: Trace, u: Trace, pc: Pc) {
    Grows(t, u, []) && forall m :: |t.labels| <= m <= |u.labels| ==> u.run[m].pc == pc
  }

  /** Others take steps while the worker stands at `pc`, and then its call ends as `l`. */
  ghost predicate Takes(t: Trace, pc: Pc, u: Trace, l: WorkerLabel) {
    && Grows(t, u, [l]) && |t.labels| < |u.labels| && u.labels[|u.labels| - 1] == W(l)
    && forall m :: |t.labels| <= m < |u.labels| ==> u.run[m].pc == pc
  }

  /** The calls `w` are all made on items from `src`. */
  ghost predicate Works(t: Trace, u: Trace, w: seq<WorkerLabel>, src: Source) {
    Grows(t, u, w) && forall m :: |t.labels| <= m < |u.labels| ==> u.run[m].pc.Working? && u.run[m].pc.src == src
  }

  lemma GrowsMore(t: Trace, u: Trace, v: Trace, w: seq<WorkerLabel>, x: seq<WorkerLabel>)
    returns (y: seq<WorkerLabel>)
    requires Grows(t, u, w) && Grows(u, v, x)
    ensures y == w + x && Grows(t, v, y)
  {
    y := w + x;
    var n, m := |t.labels|, |u.labels|;
    assert v.labels[..m] == u.labels;
    assert v.labels[n..] == u.labels[n..] + v.labels[m..];
    DidMore(u.labels[n..], v.labels[m..]);
  }

  lemma WorksGrow(t: Trace, u: Trace, w: seq<WorkerLabel>, src: Source)
    requires Works(t, u, w, src)
    ensures Grows(t, u, w)
  {
  }

  lemma WorksMore(t: Trace, u: Trace, v: Trace, w: seq<WorkerLabel>, x: seq<WorkerLabel>, src: Source)
    returns (y: seq<WorkerLabel>)
    requires Works(t, u, w, src) && Works(u, v, x, src)
    ensures y == w + x && Works(t, v, y, src)
  {
    y := GrowsMore(t, u, v, w, x);
    hide Did;
  }

  lemma OneMore(t: Trace, u: Trace, v: Trace, w: seq<WorkerLabel>, pc: Pc, l: WorkerLabel)
    returns (y: seq<WorkerLabel>)
    requires pc.Working? && Works(t, u, w, pc.src) && Takes(u, pc, v, l)
    ensures y == w + [l] && Works(t, v, y, pc.src)
  {
    y := WorksMore(t, u, v, w, [l], pc.src);
  }

  predicate InPublisher(pc: Pc) { pc.Publishing? || pc.Marking? || pc.Refusing? }

  /** The calls `w` are all made by the publisher on its batch. */
  ghost predicate Publishes(t: Trace, u: Trace, w: seq<WorkerLabel>) {
    Grows(t, u, w) && forall m :: |t.labels| <= m < |u.labels| ==> InPublisher(u.run[m].pc)
  }

  lemma PublishesGrow(t: Trace, u: Trace, w: seq<WorkerLabel>)
    requires Publishes(t, u, w)
    ensures Grows(t, u, w)
  {
  }

  lemma TakesPublish(t: Trace, pc: Pc, u: Trace, l: WorkerLabel)
    requires Takes(t, pc, u, l) && InPublisher(pc)
    ensures Publishes(t, u, [l])
  {
  }

  lemma PublishesMore(t: Trace, u: Trace, v: Trace, w: seq<WorkerLabel>, x: seq<WorkerLabel>) returns (y: seq<WorkerLabel>)
    requires Publishes(t, u, w) && Publishes(u, v, x)
    ensures y == w + x && Publishes(t, v, y)
  {
    y := GrowsMore(t, u, v, w, x);
    hide Did;
  }

  lemma TakesGrow(t: Trace, pc: Pc, u: Trace, l: WorkerLabel)
    requires Takes(t, pc, u, l)
    ensures Grows(t, u, [l])
  {
  }

  lemma First(t: Trace, v: Trace, pc: Pc, l: WorkerLabel)
    requires pc.Working? && Takes(t, pc, v, l)
    ensures Works(t, v, [l], pc.src)
  {
  }

  lemma Nothing(t: Trace, src: Source, pc: Pc)
    requires |t.run| == |t.labels| + 1 && t.run[|t.labels|].pc == pc
    ensures Works(t, t, [], src) && Stays(t, t, pc)
  {
  }

  lemma OtherSteps(t: Trace, u: Trace, pc: Pc, e: EnvLabel, b: Conf)
    requires Stays(t, u, pc) && b.pc == pc
    ensures Stays(t, Trace(u.run + [b], u.labels + [E(e)]), pc)
  {
    var v := Trace(u.run + [b], u.labels + [E(e)]);
    assert v.labels[|t.labels|..] == u.labels[|t.labels|..] + [E(e)];
    DidMore(u.labels[|t.labels|..], [E(e)]);
  }

  lemma Own(t: Trace, u: Trace, pc: Pc, l: WorkerLabel, b: Conf)
    requires Stays(t, u, pc)
    ensures Takes(t, pc, Trace(u.run + [b], u.labels + [W(l)]), l)
  {
    var v := Trace(u.run + [b], u.labels + [W(l)]);
    assert v.labels[|t.labels|..] == u.labels[|t.labels|..] + [W(l)];
    DidMore(u.labels[|t.labels|..], [W(l)]);
    assert Did([W(l)]) == [l];
  }

  // ---------- Outcomes ----------

  predicate Failed(l: WorkerLabel) {
    match l
    case Stop => true
    case Pause => false
    case DeliverWebhook(_, ok) => !ok
    case _ => l.o != Ok
  }

  /** The calls end with the one whose exception leaves the tick. A `markFailed` that throws on a stream path is followed
      by the acknowledgement in the `finally`. */
  predicate Breaks(w: seq<WorkerLabel>) {
    && w != []
    && (Failed(w[|w| - 1]) || (|w| >= 2 && w[|w| - 1].Ack? && w[|w| - 2].Fail? && Failed(w[|w| - 2])))
  }

  lemma BreaksLater(a: seq<WorkerLabel>, b: seq<WorkerLabel>)
    requires Breaks(b)
    ensures Breaks(a + b)
  {
    assert (a + b)[|a + b| - 1] == b[|b| - 1];
    if |b| >= 2 { assert (a + b)[|a + b| - 2] == b[|b| - 2]; }
  }

  function Flat(parts: seq<seq<WorkerLabel>>): seq<WorkerLabel> {
    if parts == [] then [] else Flat(parts[..|parts| - 1]) + parts[|parts| - 1]
  }

  lemma FlatMore(parts: seq<seq<WorkerLabel>>, w: seq<WorkerLabel>)
    ensures Flat(parts + [w]) == Flat(parts) + w
  {
    assert (parts + [w])[..|parts|] == parts;
  }

  // ---------- One item ----------

  /** One event of the publisher: added and marked processed, or marked failed. */
  predicate PublishScript(w: seq<WorkerLabel>, threw: bool) {
    && 2 <= |w| <= 3 && w[0].XAdd?
    && if w[0].o != Ok then |w| == 2 && w[1].MarkUnpublished? && threw == (w[1].o != Ok)
       else && w[1].MarkProcessed?
            && if w[1].o == Ok then |w| == 2 && !threw
               else |w| == 3 && w[2].MarkUnpublished? && threw == (w[2].o != Ok)
  }

  /** The n-th call of the handler for completion requests: the task, its bids, the release, the save, the event. */
  predicate CompletionCall(l: WorkerLabel, n: nat) {
    match n
    case 0 => l.FindTask?
    case 1 => l.FindBids?
    case 2 => l.ReleaseMilestone?
    case 3 => l.SaveCompleted?
    case _ => l.EmitCompleted?
  }

  /** Each call is made only after the one before worked, and the last only when it is due. */
  predicate CompletionCalls(w: seq<WorkerLabel>) {
    && |w| <= 5 && (forall i :: 0 <= i < |w| ==> CompletionCall(w[i], i))
    && (forall i :: 0 <= i < |w| - 1 ==> !Failed(w[i]))
  }

  /** The handler returns after all five calls, or after the first if the task is COMPLETED already. It throws after a call
      that fails, and after a read that shows the task or its selected bid missing or the task in another status. */
  predicate CompletionScript(w: seq<WorkerLabel>, ok: bool) {
    && w != [] && CompletionCalls(w)
    && if ok then !Failed(w[|w| - 1]) && (|w| == 1 || |w| == 5) else Failed(w[|w| - 1]) || |w| <= 2
  }

  /** The calls so far worked. */
  predicate CompletionGoes(w: seq<WorkerLabel>) {
    CompletionCalls(w) && (w == [] || !Failed(w[|w| - 1]))
  }

  lemma CompletionFirst(o: Outcome)
    ensures o == Ok ==> CompletionGoes([FindTask(o)]) && CompletionScript([FindTask(o)], true)
    ensures CompletionScript([FindTask(o)], false)
  {
  }

  lemma CompletionMore(w: seq<WorkerLabel>, l: WorkerLabel)
    requires CompletionGoes(w) && |w| < 5 && CompletionCall(l, |w|)
    ensures !Failed(l) ==> CompletionGoes(w + [l])
    ensures Failed(l) || |w| <= 1 ==> CompletionScript(w + [l], false)
    ensures !Failed(l) && (|w| == 0 || |w| == 4) ==> CompletionScript(w + [l], true)
  {
  }

  /** A call of `dispatch`. */
  predicate HandlerScript(kind: Kind, w: seq<WorkerLabel>, ok: bool) {
    match kind
    case CompletionRequested => (w == [] && !ok) || CompletionScript(w, ok)
    case ResultPublished => |w| == 1 && w[0].DeliverWebhook? && w[0].ok == ok
    case Other => w == [] && ok
  }

  /** `markSucceeded` after a return, and `markFailed` after an exception, be it of the handler or of `markSucceeded`. */
  predicate MarkScript(w: seq<WorkerLabel>, ok: bool, threw: bool) {
    if ok then
      && 1 <= |w| <= 2 && w[0].Succeed?
      && if w[0].o == Ok then |w| == 1 && !threw else |w| == 2 && w[1].Fail? && threw == (w[1].o != Ok)
    else |w| == 1 && w[0].Fail? && threw == (w[0].o != Ok)
  }

  /** A dispatch and the mark of its outcome. */
  ghost predicate ItemScript(kind: Kind, w: seq<WorkerLabel>, threw: bool) {
    exists h, marks, ok :: ItemBy(kind, w, h, marks, ok, threw)
  }

  predicate ItemBy(kind: Kind, w: seq<WorkerLabel>, h: seq<WorkerLabel>, marks: seq<WorkerLabel>, ok: bool, threw: bool) {
    w == h + marks && HandlerScript(kind, h, ok) && MarkScript(marks, ok, threw)
  }

  /** A claimed or polled entry: start, dispatch, mark, and in any case acknowledge; only acknowledge when the row may not
      be started. */
  ghost predicate EntryScript(kind: Kind, w: seq<WorkerLabel>, threw: bool) {
    && w != [] && w[0].Begin?
    && if w[0].o != Ok then |w| == 1 && threw
       else
         && |w| >= 2 && w[|w| - 1].Ack?
         && if |w| == 2 then threw == Failed(w[1])
            else
              || (ItemScript(kind, w[1..|w| - 1], true) && threw)
              || (ItemScript(kind, w[1..|w| - 1], false) && threw == Failed(w[|w| - 1]))
  }

  /** A due row: start, look the event up, dispatch, mark; nothing after the start when the row may not be started, and no
      dispatch when the event is gone. */
  ghost predicate RowScript(kind: Kind, w: seq<WorkerLabel>, threw: bool) {
    && w != [] && w[0].Begin?
    && if w[0].o != Ok then |w| == 1 && threw
       else if |w| == 1 then !threw
       else
         && w[1].Lookup?
         && if w[1].o != Ok then |w| == 2 && threw
            else (|w| == 3 && w[2].Fail? && threw == Failed(w[2])) || ItemScript(kind, w[2..], threw)
  }

  lemma ItemEnds(kind: Kind, w: seq<WorkerLabel>, threw: bool)
    requires ItemScript(kind, w, threw)
    ensures w != [] && (if threw then w[|w| - 1].Fail? && Failed(w[|w| - 1]) else forall l :: l in w ==> Goes(l))
  {
    var h, marks, ok :| ItemBy(kind, w, h, marks, ok, threw);
    assert w[|w| - 1] == marks[|marks| - 1];
    assert forall l :: l in h ==> Goes(l);
    assert !threw ==> forall l :: l in marks ==> Goes(l);
  }

  lemma EntryShort(kind: Kind, o: Outcome)
    ensures o != Ok ==> EntryScript(kind, [Begin(o)], true)
    ensures EntryScript(kind, [Begin(Ok)] + [Ack(o)], o != Ok)
  {
  }

  lemma EntryDone(kind: Kind, w: seq<WorkerLabel>, abort: bool, o: Outcome)
    requires ItemScript(kind, w, abort)
    ensures EntryScript(kind, [Begin(Ok)] + w + [Ack(o)], abort || o != Ok)
  {
    ItemEnds(kind, w, abort);
    hide ItemScript;
    var v := [Begin(Ok)] + w + [Ack(o)];
    assert v[1..|v| - 1] == w;
  }

  lemma RowShort(kind: Kind, o: Outcome)
    ensures RowScript(kind, [Begin(o)], o != Ok)
    ensures o != Ok ==> RowScript(kind, [Begin(Ok)] + [Lookup(o)], true)
    ensures RowScript(kind, [Begin(Ok)] + [Lookup(Ok)] + [Fail(o)], o != Ok)
  {
  }

  lemma RowDone(kind: Kind, w: seq<WorkerLabel>, threw: bool)
    requires ItemScript(kind, w, threw)
    ensures RowScript(kind, [Begin(Ok)] + [Lookup(Ok)] + w, threw)
  {
    ItemEnds(kind, w, threw);
    hide ItemScript;
    var v := [Begin(Ok)] + [Lookup(Ok)] + w;
    assert v[2..] == w;
  }

  lemma PublishBreaks(w: seq<WorkerLabel>)
    requires PublishScript(w, true)
    ensures Breaks(w)
  {
  }

  lemma EntryBreaks(kind: Kind, w: seq<WorkerLabel>)
    requires EntryScript(kind, w, true)
    ensures Breaks(w)
  {
    hide ItemScript;
    if w[0].o == Ok && |w| != 2 && ItemScript(kind, w[1..|w| - 1], true) { ItemEnds(kind, w[1..|w| - 1], true); }
  }

  lemma RowBreaks(kind: Kind, w: seq<WorkerLabel>)
    requires RowScript(kind, w, true)
    ensures Breaks(w)
  {
    hide ItemScript;
    if w[0].o == Ok && w[1].o == Ok && ItemScript(kind, w[2..], true) { ItemEnds(kind, w[2..], true); }
  }

  /** A due row that lets the retry loop go on. */
  lemma RowGoes(kind: Kind, w: seq<WorkerLabel>)
    requires RowScript(kind, w, false)
    ensures forall l :: l in w ==> Goes(l)
  {
    hide ItemScript;
    if w[0].o == Ok && |w| != 1 && ItemScript(kind, w[2..], false) {
      ItemEnds(kind, w[2..], false);
      assert w == w[..2] + w[2..];
    }
  }

  // ---------- Loops, and the tick ----------

  predicate PublishParts(n: nat, parts: seq<seq<WorkerLabel>>) {
    |parts| == n && forall i :: 0 <= i < n ==> PublishScript(parts[i], false)
  }

  ghost predicate EntryParts(items: seq<Item>, parts: seq<seq<WorkerLabel>>) {
    |parts| == |items| && forall i :: 0 <= i < |items| ==> EntryScript(items[i].key.kind, parts[i], false)
  }

  ghost predicate RowParts(kind: Kind, n: nat, parts: seq<seq<WorkerLabel>>) {
    |parts| == n && forall i :: 0 <= i < n ==> RowScript(kind, parts[i], false)
  }

  /** A query and what is done for each of its answers. */
  function Section(l: WorkerLabel, parts: seq<seq<WorkerLabel>>): seq<WorkerLabel> {
    [l] + Flat(parts)
  }

  lemma NoParts(l: WorkerLabel)
    ensures Section(l, []) == [l] && EntryParts([], [])
  {
  }

  /** The answers of the five queries of a tick, and what is done for each of them. */
  datatype TickLog = TickLog(
    events: seq<EventId>, published: seq<seq<WorkerLabel>>,
    positions: seq<nat>, claimed: seq<Item>, claimedParts: seq<seq<WorkerLabel>>,
    count: nat, polled: seq<Item>, polledParts: seq<seq<WorkerLabel>>,
    first: seq<EventId>, firstParts: seq<seq<WorkerLabel>>,
    second: seq<EventId>, secondParts: seq<seq<WorkerLabel>>)

  const NO_LOG := TickLog([], [], [], [], [], 0, [], [], [], [], [], [])

  /** The calls of a tick that no exception left: publish; claim; poll; then the due rows of the one handler and of the
      other. */
  function TickCalls(g: TickLog): seq<WorkerLabel> {
    Section(ListUnprocessed(Ok, g.events), g.published) + Section(AutoClaim(Ok, g.positions), g.claimedParts)
      + Section(ReadGroup(Ok, g.count), g.polledParts)
      + Section(ListDue(Ok, g.first), g.firstParts) + Section(ListDue(Ok, g.second), g.secondParts)
  }

  predicate ItemsAt(items: seq<Item>, positions: seq<nat>) {
    |items| == |positions| && forall i :: 0 <= i < |items| ==> items[i].pos == Some(positions[i])
  }

  /** Each list is worked off completely. */
  ghost predicate TickParts(g: TickLog) {
    && PublishParts(|g.events|, g.published)
    && ItemsAt(g.claimed, g.positions) && EntryParts(g.claimed, g.claimedParts)
    && |g.polled| == g.count && EntryParts(g.polled, g.polledParts)
    && RowParts(CompletionRequested, |g.first|, g.firstParts) && RowParts(ResultPublished, |g.second|, g.secondParts)
  }

  /** What a tick leaves in the run, with the pause gate and with exceptions. */
  ghost predicate Ticked(paused: bool, threw: bool, g: TickLog, w: seq<WorkerLabel>) {
    if threw then Breaks(w)
    else if paused then
      w == Section(ListUnprocessed(Ok, g.events), g.published) + [Pause] && PublishParts(|g.events|, g.published)
    else w == TickCalls(g) && TickParts(g)
  }

  lemma TickDone(g: TickLog)
    requires PublishParts(|g.events|, g.published)
    requires ItemsAt(g.claimed, g.positions) && EntryParts(g.claimed, g.claimedParts)
    requires |g.polled| == g.count && EntryParts(g.polled, g.polledParts)
    requires RowParts(CompletionRequested, |g.first|, g.firstParts) && RowParts(ResultPublished, |g.second|, g.secondParts)
    ensures TickParts(g)
    ensures TickCalls(g)
         == Section(ListUnprocessed(Ok, g.events), g.published) + Section(AutoClaim(Ok, g.positions), g.claimedParts)
            + Section(ReadGroup(Ok, g.count), g.polledParts)
            + Section(ListDue(Ok, g.first), g.firstParts) + Section(ListDue(Ok, g.second), g.secondParts)
  {
  }

  // ---------- Publisher passes ----------

  /** One pass of the publisher that does not throw, from its query at i to its end at j. */
  ghost predicate CompletePublish(run: seq<Conf>, labels: seq<Label>, i: nat, j: nat) {
    && i < j <= |labels| && |run| == |labels| + 1
    && run[i].pc == Idle && labels[i].W? && labels[i].w.ListUnprocessed? && labels[i].w.o == Ok
    && (forall m :: i < m < j ==> InPublisher(run[m].pc))
    && run[j].pc == Claiming
  }

  /** Between `t` and `u` lies a complete pass of the publisher. */
  ghost predicate HasPublish(t: Trace, u: Trace) {
    exists i: nat, j: nat :: |t.labels| <= i && CompletePublish(u.run, u.labels, i, j)
  }

  lemma PublishDone(t: Trace, u: Trace, v: Trace, events: seq<EventId>, w: seq<WorkerLabel>)
    requires Takes(t, Idle, u, ListUnprocessed(Ok, events)) && Publishes(u, v, w)
    requires v.run[|v.labels|].pc == Claiming
    ensures HasPublish(t, v)
  {
    var i: nat, j := |u.labels| - 1, |v.labels|;
    hide Did, InPublisher;
    assert v.labels[i] == u.labels[i] && v.run[i] == u.run[i];
    assert CompletePublish(v.run, v.labels, i, j);
  }

  lemma PublishStays(t: Trace, u: Trace, v: Trace, d: seq<WorkerLabel>, w: seq<WorkerLabel>) returns (y: seq<WorkerLabel>)
    requires HasPublish(t, u) && Grows(t, u, d) && Grows(u, v, w)
    ensures HasPublish(t, v) && y == d + w && Grows(t, v, y)
  {
    y := GrowsMore(t, u, v, d, w);
    hide Grows;
    var i: nat, j: nat :| |t.labels| <= i && CompletePublish(u.run, u.labels, i, j);
    assert CompletePublish(v.run, v.labels, i, j);
  }

  // ---------- Retry passes ----------

  /** Between `t` and `u` lies a complete retry pass of `kind`. */
  ghost predicate HasPass(t: Trace, u: Trace, kind: Kind) {
    exists i: nat, j: nat :: |t.labels| <= i && CompletePass(u.run, u.labels, i, j, kind)
  }

  lemma {:induction false} FlatGoes(kind: Kind, parts: seq<seq<WorkerLabel>>)
    requires RowParts(kind, |parts|, parts)
    ensures forall l :: l in Flat(parts) ==> Goes(l)
  {
    if parts != [] {
      FlatGoes(kind, parts[..|parts| - 1]);
      RowGoes(kind, parts[|parts| - 1]);
    }
  }

  lemma Passing(t: Trace, u: Trace, w: seq<WorkerLabel>, kind: Kind, m: nat)
    requires Works(t, u, w, Retried(kind)) && |t.labels| <= m < |u.labels| && forall l :: l in w ==> Goes(l)
    ensures InPass(u.run[m].pc, kind) && Smooth(u.labels[m])
  {
    hide Did, Goes;
    if u.labels[m].W? {
      assert u.labels[|t.labels|..][m - |t.labels|] == u.labels[m];
      DidHas(u.labels[|t.labels|..], m - |t.labels|);
    }
  }

  /** The query and the rows after it are a pass. */
  lemma PassDone(t: Trace, u: Trace, v: Trace, kind: Kind, ids: seq<EventId>, w: seq<WorkerLabel>)
    requires Takes(t, Scanning(kind), u, ListDue(Ok, ids)) && Works(u, v, w, Retried(kind))
    requires (forall l :: l in w ==> Goes(l)) && !InPass(v.run[|v.labels|].pc, kind)
    ensures HasPass(t, v, kind)
  {
    var i: nat, j := |u.labels| - 1, |v.labels|;
    hide Did, Goes, InPass, Smooth;
    forall m | i < m < j ensures InPass(v.run[m].pc, kind) && Smooth(v.labels[m]) {
      Passing(u, v, w, kind, m);
    }
    assert v.labels[i] == u.labels[i] && v.run[i] == u.run[i];
    assert CompletePass(v.run, v.labels, i, j, kind);
  }

  /** The passes of a tick, seen from its begin and its end. */
  lemma TwoPasses(s: Trace, t: Trace, u: Trace, v: Trace, d: seq<WorkerLabel>, e: seq<WorkerLabel>, w: seq<WorkerLabel>)
    requires Grows(s, t, d) && Grows(t, u, e) && Grows(u, v, w)
    requires HasPass(t, u, CompletionRequested) && HasPass(u, v, ResultPublished)
    ensures HasPass(s, v, CompletionRequested) && HasPass(s, v, ResultPublished)
  {
    PassStays(s, t, u, v, CompletionRequested);
    PassStays(s, u, v, v, ResultPublished);
  }

  lemma PassStays(s: Trace, t: Trace, u: Trace, v: Trace, kind: Kind)
    requires HasPass(t, u, kind) && |s.labels| <= |t.labels|
    requires u.run <= v.run && u.labels <= v.labels && |v.run| == |v.labels| + 1
    ensures HasPass(s, v, kind)
  {
    var i: nat, j: nat :| |t.labels| <= i && CompletePass(u.run, u.labels, i, j, kind);
    assert CompletePass(v.run, v.labels, i, j, kind);
  }
}
