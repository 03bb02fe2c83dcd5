// The queue of helper operations behind the user interface.
module ServiceController {
  import opened Wrappers
  import opened RequestValidation
  import opened DecimalText

  const INITIAL_SCAN_DELAY_MS := 30 * 1000
  const POST_HANDOFF_SCAN_DELAY_MS := 10 * 60 * 1000

  datatype OperationKind = SnapshotOperation | ScanOperation | InventoryOperation | StarOperation

  // A parsed helper response, with the times that Date.parse understood.
  datatype Reply =
    | SnapshotReply(generatedAt: Option<int>, freshUntil: seq<Option<int>>)
    | InventoryReply(source: string)
    | StarReply(itemId: string)
    | ErrorReply(code: string, message: string)

  datatype HelperResult =
    | TimedOut
    | OutputTooLarge
    | Exited(exitCode: int, parsed: Result<Reply, string>)

  datatype Verdict = Accepted(reply: Reply) | Refused(kind: string, message: string)

  datatype Identity = Identity(id: nat, kind: OperationKind, star: Option<StarRequest>)

  datatype Schedules = Schedules(initial: Option<int>, periodic: Option<int>, retry: Option<int>, handoff: Option<int>)

  datatype ScheduleName = Initial | Periodic | Retry | Handoff

  const NO_SCHEDULES := Schedules(None, None, None, None)

  datatype UiState = UiState(
    lastSnapshot: Option<Reply>, inventories: map<string, Reply>, lastStarResult: Option<Reply>,
    lastError: string, lastFailureKind: string, lastFailureOperation: Option<Identity>,
    lastAttemptAt: Option<int>, lastSuccessAt: Option<int>, handoffAt: Option<int>,
    activeOperation: Option<nat>, queuedOperations: nat, refreshing: bool, nextWakeAt: Option<int>)

  const EMPTY_UI := UiState(None, map[], None, "", "", None, None, None, None, None, 0, false, None)

  // Schedules

  function Dues(s: Schedules): seq<Option<int>> {
    [s.initial, s.periodic, s.retry, s.handoff]
  }

  ghost predicate IsEarliest(dues: seq<Option<int>>, earliest: Option<int>) {
    && (earliest.Some? ==> earliest in dues)
    && forall due :: due in dues && due.Some? ==> earliest.Some? && earliest.value <= due.value
  }

  // The earliest of some times after a moment, if there is one.
  ghost predicate IsEarliestAfter(dues: seq<Option<int>>, after: int, earliest: Option<int>) {
    && (earliest.Some? ==> earliest in dues && after < earliest.value)
    && forall due :: due in dues && due.Some? && after < due.value ==> earliest.Some? && earliest.value <= due.value
  }

  function Sooner(a: Option<int>, b: Option<int>): Option<int> {
    if a.None? then b else if b.None? || a.value <= b.value then a else b
  }

  function NextWake(s: Schedules): Option<int> {
    Sooner(Sooner(s.initial, s.periodic), Sooner(s.retry, s.handoff))
  }

  // The next wake is the earliest schedule, and the only value that is.
  lemma NextWakeIsEarliest(s: Schedules, earliest: Option<int>)
    ensures IsEarliest(Dues(s), earliest) <==> earliest == NextWake(s)
  {
    var dues := Dues(s);
    assert dues[0] == s.initial && dues[1] == s.periodic && dues[2] == s.retry && dues[3] == s.handoff;
    assert s.initial in dues && s.periodic in dues && s.retry in dues && s.handoff in dues;
    assert forall due :: due in dues ==> due == s.initial || due == s.periodic || due == s.retry || due == s.handoff;
  }

  predicate IsDue(due: Option<int>, at: int) {
    due.Some? && due.value <= at
  }

  function Scheduled(s: Schedules, name: ScheduleName): Option<int> {
    match name
    case Initial => s.initial
    case Periodic => s.periodic
    case Retry => s.retry
    case Handoff => s.handoff
  }

  function Cleared(s: Schedules, name: ScheduleName): Schedules {
    match name
    case Initial => s.(initial := None)
    case Periodic => s.(periodic := None)
    case Retry => s.(retry := None)
    case Handoff => s.(handoff := None)
  }

  // What a wake leaves of the schedules: it clears what is due, except that a due
  // initial scan keeps it from looking at the periodic one.
  function Woken(s: Schedules, at: int): Schedules {
    Schedules(if IsDue(s.initial, at) then None else s.initial,
              if IsDue(s.periodic, at) && !IsDue(s.initial, at) then None else s.periodic,
              if IsDue(s.retry, at) then None else s.retry,
              if IsDue(s.handoff, at) then None else s.handoff)
  }

  predicate AnyDue(s: Schedules, at: int) {
    exists due :: due in Dues(s) && IsDue(due, at)
  }

  // Whether a time has been reached.
  ghost predicate Reached(due: Option<int>, at: int) {
    due.Some? && due.value <= at
  }

  // A wake finds something to do exactly when the next wake that was shown has come.
  lemma DueWhenShown(s: Schedules, at: int)
    ensures AnyDue(s, at) <==> Reached(NextWake(s), at)
  {
    NextWakeIsEarliest(s, NextWake(s));
    assert s.initial in Dues(s);
  }

  // A wake leaves something overdue exactly when the initial and the periodic scan
  // were due together; what it leaves is the periodic one, and the next wake takes it.
  // What has not been reached stays.
  lemma WakeLeavesPeriodic(s: Schedules, at: int)
    ensures (exists due :: due in Dues(Woken(s, at)) && Reached(due, at)) <==> Reached(s.initial, at) && Reached(s.periodic, at)
    ensures forall due :: due in Dues(Woken(Woken(s, at), at)) ==> !Reached(due, at)
    ensures forall i :: 0 <= i < 4 ==> !Reached(Dues(s)[i], at) ==> Dues(Woken(s, at))[i] == Dues(s)[i]
  {
    var w := Woken(s, at);
    assert Dues(w)[1] == w.periodic && w.periodic in Dues(w);
    assert IsDue(s.initial, at) && IsDue(s.periodic, at) <==> IsDue(w.periodic, at);
  }

  // The next periodic scan is within a tenth of the interval, rounded to a millisecond.
  function JitteredInterval(interval: int, random: real): int {
    (interval as real * (0.9 + random * 0.2) + 0.5).Floor
  }

  lemma JitterBounds(interval: nat, random: real)
    requires 0.0 <= random < 1.0
    ensures 0.9 * interval as real - 0.5 < JitteredInterval(interval, random) as real <= 1.1 * interval as real + 0.5
  {
    ScaleBounds(interval as real, random);
    Rounded(interval as real, interval as real * (0.9 + random * 0.2), JitteredInterval(interval, random));
  }

  // The interval itself is in the middle, and the draw moves it evenly.
  lemma JitterEven(interval: nat, low: real, high: real)
    ensures JitteredInterval(interval, 0.5) == interval
    ensures var moved := 0.2 * interval as real * (high - low);
            moved - 1.0 < (JitteredInterval(interval, high) - JitteredInterval(interval, low)) as real < moved + 1.0
  {
    var x := interval as real;
    Spread(x, low, high);
    var a, b := x * (0.9 + low * 0.2) + 0.5, x * (0.9 + high * 0.2) + 0.5;
    assert a - 1.0 < a.Floor as real <= a && b - 1.0 < b.Floor as real <= b;
    assert x * (0.9 + 0.5 * 0.2) == x;
  }

  lemma Spread(x: real, low: real, high: real)
    ensures x * (0.9 + high * 0.2) - x * (0.9 + low * 0.2) == 0.2 * x * (high - low)
  {
  }

  lemma Rounded(x: real, y: real, n: int)
    requires 0.9 * x <= y <= 1.1 * x && n == (y + 0.5).Floor
    ensures 0.9 * x - 0.5 < n as real <= 1.1 * x + 0.5
  {
  }

  lemma ScaleBounds(x: real, random: real)
    requires x >= 0.0 && 0.0 <= random < 1.0
    ensures 0.9 * x <= x * (0.9 + random * 0.2) <= 1.1 * x
  {
    var extra := random * 0.2;
    assert x * (0.9 + extra) == 0.9 * x + x * extra;
    Product(x, extra);
    Product(x, 0.2 - extra);
    assert x * (0.2 - extra) == 0.2 * x - x * extra;
  }

  lemma Product(a: real, b: real)
    requires a >= 0.0 && b >= 0.0
    ensures a * b >= 0.0
  {
  }

  // Judging a result

  predicate Expected(reply: Reply, kind: OperationKind) {
    match kind
    case SnapshotOperation => reply.SnapshotReply?
    case ScanOperation => reply.SnapshotReply?
    case InventoryOperation => reply.InventoryReply?
    case StarOperation => reply.StarReply?
  }

  function IntegerText(n: int): string {
    if n < 0 then "-" + Numeral(-n) else Numeral(n)
  }

  function Judge(result: HelperResult, kind: OperationKind): Verdict {
    match result
    case TimedOut => Refused("timeout", "helper operation timed out")
    case OutputTooLarge => Refused("output", "helper output exceeded the five MiB limit")
    case Exited(exitCode, parsed) =>
      if parsed.Ok? && parsed.value.ErrorReply? then
        Refused("helper", parsed.value.code + ": " + parsed.value.message)
      else if exitCode != 0 then Refused("command", "helper exited with status " + IntegerText(exitCode))
      else if parsed.Err? then Refused("incompatible", parsed.error)
      else if !Expected(parsed.value, kind) then
        Refused("incompatible", "helper response kind does not match the operation")
      else Accepted(parsed.value)
  }

  // The response that an operation is there for.
  ghost predicate Answers(reply: Reply, kind: OperationKind) {
    || (reply.SnapshotReply? && kind in {SnapshotOperation, ScanOperation})
    || (reply.InventoryReply? && kind == InventoryOperation)
    || (reply.StarReply? && kind == StarOperation)
  }

  // Exactly a clean exit with the operation's own kind of response is accepted; an error
  // that the helper reports counts before its exit status, and that before anything else.
  lemma JudgedIff(result: HelperResult, kind: OperationKind)
    ensures Judge(result, kind).Accepted? <==>
            result.Exited? && result.exitCode == 0 && result.parsed.Ok? && Answers(result.parsed.value, kind)
    ensures Judge(result, kind).Accepted? ==> result.parsed == Ok(Judge(result, kind).reply)
    ensures Judge(result, kind).Refused? ==>
              var because := Judge(result, kind).kind;
              var reported := result.Exited? && result.parsed.Ok? && result.parsed.value.ErrorReply?;
              && (because == "timeout" <==> result.TimedOut?)
              && (because == "output" <==> result.OutputTooLarge?)
              && (because == "helper" <==> reported)
              && (because == "command" <==> result.Exited? && !reported && result.exitCode != 0)
              && (because == "incompatible" <==> result.Exited? && !reported && result.exitCode == 0)
  {
    assert "timeout"[0] == 't' && "output"[0] == 'o' && "helper"[0] == 'h' && "command"[0] == 'c' && "incompatible"[0] == 'i';
  }

  class Operation {
    const id: nat
    const kind: OperationKind
    const star: Option<StarRequest>
    var argv: seq<string>

    constructor (id: nat, kind: OperationKind, argv: seq<string>, star: Option<StarRequest>)
      ensures this.id == id && this.kind == kind && this.argv == argv && this.star == star
    {
      this.id, this.kind, this.argv, this.star := id, kind, argv, star;
    }

    function OperationIdentity(): Identity {
      Identity(id, kind, star)
    }
  }

  function Ids(ops: seq<Operation>): seq<nat> {
    seq(|ops|, i requires 0 <= i < |ops| => ops[i].id)
  }

  ghost predicate Increasing(ids: seq<nat>) {
    forall i, j :: 0 <= i < j < |ids| ==> ids[i] < ids[j]
  }

  // How many operations at the front of a queue the transport refuses.
  function LeadingRefused(transport: nat -> bool, ops: seq<Operation>): (n: nat)
    ensures n <= |ops|
    ensures forall i :: 0 <= i < n ==> !transport(ops[i].id)
    ensures n < |ops| ==> transport(ops[n].id)
  {
    if ops == [] || transport(ops[0].id) then 0 else 1 + LeadingRefused(transport, ops[1..])
  }

  function ScanCount(ops: seq<Operation>): nat {
    if ops == [] then 0 else (if ops[0].kind.ScanOperation? then 1 else 0) + ScanCount(ops[1..])
  }

  ghost predicate InOrder(ops: seq<Operation>) {
    forall i, j :: 0 <= i < j < |ops| ==> ops[i].id < ops[j].id
  }

  lemma FirstIsLeast(ops: seq<Operation>)
    requires InOrder(ops) && ops != []
    ensures InOrder(ops[1..])
    ensures forall op :: op in ops[1..] ==> op in ops && ops[0].id < op.id
    ensures forall op :: op in ops ==> op == ops[0] || op in ops[1..]
  {
    assert ops == [ops[0]] + ops[1..];
  }

  lemma {:induction false} OneScan(ops: seq<Operation>, scan: Operation?)
    requires InOrder(ops)
    requires forall op :: op in ops ==> (op.kind.ScanOperation? <==> op == scan)
    ensures ScanCount(ops) == if scan != null && scan in ops then 1 else 0
  {
    if ops != [] {
      FirstIsLeast(ops);
      OneScan(ops[1..], scan);
    }
  }

  // The queue is in order behind the active operation, and the one scan it may hold
  // is the one that refreshes are merged into.
  ghost predicate Structured(q: seq<Operation>, active: Operation?, nextId: nat, refreshQueued: bool,
                             queuedRefresh: Operation?) {
    && InOrder(q)
    && (forall op :: op in q ==> op.id < nextId)
    && (forall op :: op in q ==> (op.kind.ScanOperation? <==> op == queuedRefresh))
    && (refreshQueued <==> queuedRefresh != null)
    && (queuedRefresh != null ==> queuedRefresh in q)
    && (active != null ==> active.id < nextId && forall op :: op in q ==> active.id < op.id)
  }

  // Operations start in the order of their numbers, and all but the active one have
  // finished, or were dropped by the shutdown.
  ghost predicate Logged(q: seq<Operation>, active: Operation?, accepting: bool, nextId: nat, started: seq<nat>,
                         finished: seq<nat>) {
    && Increasing(started)
    && (forall id :: id in started ==> id < nextId && forall op :: op in q ==> id < op.id)
    && (if active != null then started != [] && started[|started| - 1] == active.id && finished == started[..|started| - 1]
        else if accepting then finished == started
        else finished == started || (started != [] && finished == started[..|started| - 1]))
  }

  lemma StructuredAfterTake(q: seq<Operation>, nextId: nat, refreshQueued: bool, queuedRefresh: Operation?)
    requires Structured(q, null, nextId, refreshQueued, queuedRefresh) && q != []
    ensures if queuedRefresh == q[0] then Structured(q[1..], q[0], nextId, false, null)
            else Structured(q[1..], q[0], nextId, refreshQueued, queuedRefresh)
  {
    FirstIsLeast(q);
  }

  lemma LoggedAfterTake(q: seq<Operation>, nextId: nat, started: seq<nat>, finished: seq<nat>)
    requires Logged(q, null, true, nextId, started, finished) && q != [] && InOrder(q) && q[0].id < nextId
    ensures Logged(q[1..], q[0], true, nextId, started + [q[0].id], finished)
  {
    FirstIsLeast(q);
    forall i | 0 <= i < |started|
      ensures started[i] < q[0].id
    {
      assert started[i] in started && q[0] in q;
    }
  }

  lemma StructuredAppend(q: seq<Operation>, active: Operation?, nextId: nat, refreshQueued: bool,
                         queuedRefresh: Operation?, next: Operation)
    requires Structured(q, active, nextId, refreshQueued, queuedRefresh) && next.id == nextId
    requires queuedRefresh == null || !next.kind.ScanOperation?
    ensures if next.kind.ScanOperation? then Structured(q + [next], active, nextId + 1, true, next)
            else Structured(q + [next], active, nextId + 1, refreshQueued, queuedRefresh)
  {
  }

  lemma LoggedAppend(q: seq<Operation>, active: Operation?, accepting: bool, nextId: nat, started: seq<nat>,
                     finished: seq<nat>, next: Operation)
    requires Logged(q, active, accepting, nextId, started, finished) && next.id == nextId
    ensures Logged(q + [next], active, accepting, nextId + 1, started, finished)
  {
  }

  lemma LoggedAfterEnd(q: seq<Operation>, active: Operation, nextId: nat, started: seq<nat>, finished: seq<nat>)
    requires Logged(q, active, true, nextId, started, finished)
    ensures Logged(q, null, true, nextId, started, finished + [active.id])
  {
  }

  // How many operations leave a queue: the refused ones and the one that is taken.
  function Taken(transport: nat -> bool, q: seq<Operation>): (n: nat)
    ensures n <= |q|
  {
    var n := LeadingRefused(transport, q);
    if n == |q| then n else n + 1
  }

  function TakenOperation(transport: nat -> bool, q: seq<Operation>): Operation? {
    var n := LeadingRefused(transport, q);
    if n == |q| then null else q[n]
  }

  // Starting from a queue took off it the operations that the transport refused and
  // the first one that it took, which is now active.
  ghost predicate StartedFrom(transport: nat -> bool, q: seq<Operation>, startedBefore: seq<nat>,
                              refreshBefore: Operation?,
                              queue: seq<Operation>, active: Operation?, started: seq<nat>, queuedRefresh: Operation?)
  {
    && started == startedBefore + Ids(q[..Taken(transport, q)])
    && queue == q[Taken(transport, q)..]
    && active == TakenOperation(transport, q)
    && queuedRefresh == (if refreshBefore in queue then refreshBefore else null)
  }

  lemma StartedFromEmpty(transport: nat -> bool, started: seq<nat>, queuedRefresh: Operation?)
    requires queuedRefresh == null
    ensures StartedFrom(transport, [], started, queuedRefresh, [], null, started, queuedRefresh)
  {
    var none: seq<Operation> := [];
    assert Taken(transport, none) == 0 && none[..0] == none && none[0..] == none;
    assert Ids(none) == [];
  }

  lemma StartedFromOne(transport: nat -> bool, next: Operation, startedBefore: seq<nat>, refreshBefore: Operation?,
                       queue: seq<Operation>, active: Operation?, started: seq<nat>, queuedRefresh: Operation?)
    requires StartedFrom(transport, [next], startedBefore, refreshBefore, queue, active, started, queuedRefresh)
    ensures queue == [] && started == startedBefore + [next.id] && queuedRefresh == null
    ensures active == if transport(next.id) then next else null
  {
    assert Taken(transport, [next]) == 1;
    assert Ids([next][..1]) == [next.id];
  }

  lemma StartedFromTaken(transport: nat -> bool, q: seq<Operation>, startedBefore: seq<nat>, refreshBefore: Operation?,
                         queuedRefresh: Operation?)
    requires q != [] && transport(q[0].id) && InOrder(q)
    requires refreshBefore == null || refreshBefore in q
    requires queuedRefresh == (if refreshBefore == q[0] then null else refreshBefore)
    ensures StartedFrom(transport, q, startedBefore, refreshBefore, q[1..], q[0], startedBefore + [q[0].id], queuedRefresh)
  {
    FirstIsLeast(q);
    assert Ids(q[..1]) == [q[0].id];
  }

  lemma StartedFromRefused(transport: nat -> bool, q: seq<Operation>, startedBefore: seq<nat>,
                           refreshBefore: Operation?,
                           queue: seq<Operation>, active: Operation?, started: seq<nat>, queuedRefresh: Operation?,
                           startedThen: seq<nat>, refreshThen: Operation?)
    requires q != [] && !transport(q[0].id) && InOrder(q)
    requires startedThen == startedBefore + [q[0].id]
    requires refreshThen == (if refreshBefore == q[0] then null else refreshBefore)
    requires StartedFrom(transport, q[1..], startedThen, refreshThen, queue, active, started, queuedRefresh)
    ensures StartedFrom(transport, q, startedBefore, refreshBefore, queue, active, started, queuedRefresh)
  {
    var n := Taken(transport, q[1..]);
    TakenAfterRefusal(transport, q);
    IdsOfRefused(q, n);
    FirstNotBehind(q, n);
    assert started == startedBefore + ([q[0].id] + Ids(q[1..][..n]));
  }

  lemma FirstNotBehind(q: seq<Operation>, n: nat)
    requires q != [] && n <= |q| - 1 && InOrder(q)
    ensures q[0] !in q[1..][n..]
  {
    var rest := q[1..][n..];
    forall i | 0 <= i < |rest|
      ensures rest[i] != q[0]
    {
      assert rest[i] == q[1 + n + i];
      assert q[0].id < q[1 + n + i].id;
    }
  }

  lemma TakenAfterRefusal(transport: nat -> bool, q: seq<Operation>)
    requires q != [] && !transport(q[0].id)
    ensures Taken(transport, q) == 1 + Taken(transport, q[1..])
    ensures TakenOperation(transport, q) == TakenOperation(transport, q[1..])
  {
  }

  lemma IdsOfRefused(q: seq<Operation>, n: nat)
    requires q != [] && n <= |q| - 1
    ensures Ids(q[..1 + n]) == [q[0].id] + Ids(q[1..][..n])
    ensures q[1 + n..] == q[1..][n..]
  {
  }

  class Controller {
    // The transport's answers, the clock, the random draws and the settings provider.
    const transport: nat -> bool
    const clock: nat -> int
    const random: nat -> real
    const settings: nat -> seq<string>
    const refreshIntervalMs: int

    var ticks: nat
    var queue: seq<Operation>
    var active: Operation?
    var accepting: bool
    var nextId: nat
    var refreshQueued: bool
    var queuedRefresh: Operation?
    var schedules: Schedules
    var state: UiState
    var published: UiState

    // The operations started and finished so far, in order.
    ghost var started: seq<nat>
    ghost var finished: seq<nat>
    // The operation created last.
    ghost var newest: Operation?

    ghost predicate Core(q: seq<Operation>)
      reads this
    {
      && Structured(q, active, nextId, refreshQueued, queuedRefresh)
      && Logged(q, active, accepting, nextId, started, finished)
      && (!accepting ==> active == null && queuedRefresh == null && schedules == NO_SCHEDULES)
    }

    // The interface state shows the queue, the active operation and the earliest schedule.
    ghost predicate Mirrors()
      reads this
    {
      && state.activeOperation == (if active == null then None else Some(active.id))
      && state.queuedOperations == |queue|
      && state.refreshing == ((active != null && active.kind.ScanOperation?) || refreshQueued)
      && state.nextWakeAt == NextWake(schedules)
    }

    ghost predicate Valid()
      reads this
    {
      && Core(queue)
      && (accepting && active == null ==> queue == [])
      && (accepting ==> Mirrors())
      && (!accepting ==> ShowsNothing())
      && published == state
    }

    ghost predicate ShowsNothing()
      reads this
    {
      state.activeOperation.None? && state.queuedOperations == 0 && !state.refreshing && state.nextWakeAt.None?
    }

    predicate HasScanOperation()
      reads this
    {
      (active != null && active.kind.ScanOperation?) || exists op :: op in queue && op.kind.ScanOperation?
    }

    constructor (transport: nat -> bool, clock: nat -> int, random: nat -> real, settings: nat -> seq<string>, refreshIntervalMs: int)
      ensures Valid() && accepting && active == null && queue == [] && started == [] && schedules == NO_SCHEDULES
      ensures state == EMPTY_UI && nextId == 1 && ticks == 0
      ensures this.transport == transport && this.clock == clock && this.random == random && this.settings == settings
      ensures this.refreshIntervalMs == refreshIntervalMs
    {
      this.transport, this.clock, this.random, this.settings := transport, clock, random, settings;
      this.refreshIntervalMs := refreshIntervalMs;
      ticks, queue, active, accepting, nextId := 0, [], null, true, 1;
      refreshQueued, queuedRefresh, schedules := false, null, NO_SCHEDULES;
      state, published := EMPTY_UI, EMPTY_UI;
      started, finished, newest := [], [], null;
    }

    // The published state shows the queue, whether a scan is running or waiting, and
    // the earliest schedule, exactly as long as the controller accepts work or nothing
    // was queued after the shutdown.
    lemma ShowsQueueIff()
      requires Valid()
      ensures published == state
      ensures && published.activeOperation == (if active == null then None else Some(active.id))
              && published.queuedOperations == |queue|
              && published.refreshing == HasScanOperation()
              && IsEarliest(Dues(schedules), published.nextWakeAt)
              <==> accepting || queue == []
    {
      NextWakeIsEarliest(schedules, published.nextWakeAt);
      if queuedRefresh != null {
        assert queuedRefresh in queue && queuedRefresh.kind.ScanOperation?;
      }
    }

    // At most one scan waits, and it is the one that refreshes are merged into.
    lemma OneQueuedScan()
      requires Valid()
      ensures ScanCount(queue) == if refreshQueued then 1 else 0
    {
      OneScan(queue, queuedRefresh);
    }

    // No operation starts or finishes twice.
    lemma StartedOnce()
      requires Valid()
      ensures Increasing(started) && Increasing(finished) && finished <= started
      ensures active != null ==> active.id !in finished
    {
    }

    method ReadClock() returns (t: int)
      modifies `ticks
      ensures ticks == old(ticks) + 1 && t == clock(old(ticks))
    {
      t := clock(ticks);
      ticks := ticks + 1;
    }

    method Publish()
      modifies `published
      ensures published == state
    {
      published := state;
    }

    method Earliest(dues: seq<Option<int>>, after: Option<int>) returns (earliest: Option<int>)
      ensures earliest.Some? ==> earliest in dues && (after.Some? ==> after.value < earliest.value)
      ensures forall due :: due in dues && due.Some? && (after.Some? ==> after.value < due.value)
                ==> earliest.Some? && earliest.value <= due.value
    {
      earliest := None;
      var index := 0;
      while index < |dues|
        invariant 0 <= index <= |dues|
        invariant earliest.Some? ==> earliest in dues[..index] && (after.Some? ==> after.value < earliest.value)
        invariant forall due :: due in dues[..index] && due.Some? && (after.Some? ==> after.value < due.value)
                    ==> earliest.Some? && earliest.value <= due.value
      {
        var due := dues[index];
        if due.Some? && (after.Some? ==> after.value < due.value)
           && (earliest.None? || due.value < earliest.value) {
          earliest := due;
        }
        index := index + 1;
      }
      assert dues[..index] == dues;
    }

    method UpdateQueueState()
      requires Structured(queue, active, nextId, refreshQueued, queuedRefresh)
      modifies `state
      ensures Mirrors()
      ensures state == old(state).(activeOperation := state.activeOperation, queuedOperations := state.queuedOperations,
                                   refreshing := state.refreshing, nextWakeAt := state.nextWakeAt)
    {
      var earliest := Earliest(Dues(schedules), None);
      NextWakeIsEarliest(schedules, earliest);
      if queuedRefresh != null {
        assert queuedRefresh in queue && queuedRefresh.kind.ScanOperation?;
      }
      state := state.(activeOperation := if active == null then None else Some(active.id),
                      queuedOperations := |queue|,
                      refreshing := HasScanOperation(),
                      nextWakeAt := earliest);
    }

    function Recorded(before: UiState, op: Operation, kind: string, message: string): UiState {
      before.(lastFailureKind := kind, lastError := message, lastFailureOperation := Some(op.OperationIdentity()))
    }

    // What every load of the queue front keeps of the interface state.
    ghost predicate KeepsFailure(before: UiState)
      reads this
    {
      && state.lastFailureKind == before.lastFailureKind && state.lastError == before.lastError
      && state.lastFailureOperation == before.lastFailureOperation
    }

    ghost predicate KeepsResponses(before: UiState)
      reads this
    {
      && state.lastSnapshot == before.lastSnapshot && state.inventories == before.inventories
      && state.lastStarResult == before.lastStarResult && state.lastSuccessAt == before.lastSuccessAt
      && state.handoffAt == before.handoffAt
    }

    // A scan that was started is recorded as attempted at the next reading of the clock.
    ghost predicate AttemptRecorded(before: UiState, reading: nat, scanStarted: bool)
      reads this
    {
      && state.lastAttemptAt == (if scanStarted then Some(clock(reading)) else before.lastAttemptAt)
      && ticks == if scanStarted then reading + 1 else reading
    }

    // The first operation of the queue becomes the active one.
    method TakeFirst()
      requires Core(queue) && accepting && active == null && queue != []
      modifies `active, `queue, `started, `refreshQueued, `queuedRefresh
      ensures Core(queue) && active == old(queue)[0] && queue == old(queue)[1..]
      ensures started == old(started) + [active.id]
      ensures queuedRefresh == (if old(queuedRefresh) == active then null else old(queuedRefresh))
    {
      StructuredAfterTake(queue, nextId, refreshQueued, queuedRefresh);
      LoggedAfterTake(queue, nextId, started, finished);
      active := queue[0];
      queue := queue[1..];
      started := started + [active.id];
      if active == queuedRefresh {
        refreshQueued := false;
        queuedRefresh := null;
      }
    }

    method Activate()
      requires Core(queue) && accepting && active == null && queue != []
      modifies `active, `queue, `started, `finished, `refreshQueued, `queuedRefresh, `state, `published, `ticks
      ensures Core(queue) && accepting && Mirrors() && published == state
      ensures active == old(queue)[0] && queue == old(queue)[1..]
      ensures started == old(started) + [active.id] && finished == old(finished)
      ensures queuedRefresh == (if old(queuedRefresh) == active then null else old(queuedRefresh))
      ensures KeepsFailure(old(state)) && KeepsResponses(old(state))
      ensures AttemptRecorded(old(state), old(ticks), active.kind.ScanOperation?)
    {
      TakeFirst();
      if active.kind.ScanOperation? {
        var t := ReadClock();
        state := state.(lastAttemptAt := Some(t));
      }
      UpdateQueueState();
      Publish();
    }

    // The active operation is over.
    method Deactivate()
      requires Core(queue) && accepting && active != null
      modifies `active, `queue, `started, `finished, `refreshQueued, `queuedRefresh, `state, `published, `ticks
      ensures Core(queue) && accepting && active == null && Mirrors() && published == state
      ensures queue == old(queue) && queuedRefresh == old(queuedRefresh)
      ensures started == old(started) && finished == old(finished) + [old(active).id]
      ensures KeepsFailure(old(state)) && KeepsResponses(old(state))
      ensures AttemptRecorded(old(state), old(ticks), false)
    {
      LoggedAfterEnd(queue, active, nextId, started, finished);
      finished := finished + [active.id];
      active := null;
      UpdateQueueState();
      Publish();
    }

    // The first operation is offered to the transport, which takes or refuses it.
    method StartFirst() returns (taken: bool)
      requires Core(queue) && accepting && active == null && queue != []
      modifies `active, `queue, `started, `finished, `refreshQueued, `queuedRefresh, `state, `published, `ticks
      ensures Core(queue) && accepting && Mirrors() && published == state
      ensures taken == transport(old(queue)[0].id)
      ensures queue == old(queue)[1..] && active == (if taken then old(queue)[0] else null)
      ensures started == old(started) + [old(queue)[0].id] && old(finished) <= finished
      ensures queuedRefresh == (if old(queuedRefresh) == old(queue)[0] then null else old(queuedRefresh))
      ensures KeepsResponses(old(state)) && (taken ==> KeepsFailure(old(state)))
      ensures !taken ==>
                && state.lastFailureKind == "transport" && state.lastError == "helper transport is unavailable"
                && state.lastFailureOperation == Some(old(queue)[0].OperationIdentity())
      ensures AttemptRecorded(old(state), old(ticks), old(queue)[0].kind.ScanOperation?)
    {
      Activate();
      taken := transport(active.id);
      if !taken {
        state := Recorded(state, active, "transport", "helper transport is unavailable");
        Deactivate();
      }
    }

    // The interface state shows the failure of the last of the refused operations at the
    // front of a queue, or what it showed before when none was refused.
    ghost predicate FailureAfter(before: UiState, q: seq<Operation>)
      reads this
    {
      var n := LeadingRefused(transport, q);
      if n == 0 then KeepsFailure(before)
      else
        && state.lastFailureKind == "transport" && state.lastError == "helper transport is unavailable"
        && state.lastFailureOperation == Some(q[n - 1].OperationIdentity())
    }

    // The first operations are started until the transport takes one.
    method StartNext()
      requires Core(queue) && (!accepting ==> ShowsNothing() && published == state)
      requires accepting && (active != null || queue == []) ==> Mirrors() && published == state
      modifies `active, `queue, `started, `finished, `refreshQueued, `queuedRefresh, `state, `published, `ticks
      ensures Valid()
      ensures !old(accepting) || old(active) != null ==>
                && queue == old(queue) && active == old(active) && started == old(started) && finished == old(finished)
                && state == old(state) && queuedRefresh == old(queuedRefresh)
      ensures old(accepting) && old(active) == null ==> StartedFrom(transport, old(queue), old(started), old(queuedRefresh), queue, active, started, queuedRefresh)
      ensures FailureAfter(old(state), if old(accepting) && old(active) == null then old(queue) else [])
      ensures KeepsResponses(old(state)) && old(finished) <= finished && old(started) <= started
      ensures AttemptRecorded(old(state), old(ticks), old(queuedRefresh) != null && queuedRefresh == null)
      decreases |queue|
    {
      if !accepting || active != null { return; }
      if queue == [] {
        StartedFromEmpty(transport, started, queuedRefresh);
        return;
      }
      ghost var q, s0, r0 := queue, started, queuedRefresh;
      var taken := StartFirst();
      ghost var s1, r1 := started, queuedRefresh;
      if taken {
        StartedFromTaken(transport, q, s0, r0, queuedRefresh);
      } else {
        StartNext();
        StartedFromRefused(transport, q, s0, r0, queue, active, started, queuedRefresh, s1, r1);
      }
    }

    method NewOperation(kind: OperationKind, argv: seq<string>, star: Option<StarRequest>) returns (op: Operation)
      modifies `nextId, `newest
      ensures fresh(op) && op.id == old(nextId) && op.kind == kind && op.argv == argv && op.star == star
      ensures nextId == old(nextId) + 1 && newest == op
    {
      op := new Operation(nextId, kind, argv, star);
      nextId := nextId + 1;
      newest := op;
    }

    // Where an operation that was just queued has got to.
    ghost predicate Queued(op: Operation)
      reads this
    {
      if !accepting then queue != [] && queue[|queue| - 1] == op && active == null
      else if active == null then op.id in finished
      else if active == op then queue == []
      else queue != [] && queue[|queue| - 1] == op
    }

    // A new operation waits behind the others, or it is the only one and was offered to
    // the transport at once.
    ghost predicate Appended(q: seq<Operation>, was: Operation?, startedBefore: seq<nat>, next: Operation)
      reads this
    {
      if accepting && was == null then
        queue == [] && started == startedBefore + [next.id] && active == (if transport(next.id) then next else null)
      else queue == q + [next] && active == was && started == startedBefore
    }

    // What the interface state shows of a new operation besides the queue.
    ghost predicate Noted(before: UiState, reading: nat, was: Operation?, next: Operation)
      reads this
    {
      && FailureAfter(before, if accepting && was == null then [next] else [])
      && AttemptRecorded(before, reading, accepting && was == null && next.kind.ScanOperation?)
    }

    method Enqueue(next: Operation)
      requires Core(queue + [next])
      requires accepting && active == null ==> queue == []
      requires !accepting ==> ShowsNothing() && published == state
      modifies `active, `queue, `started, `finished, `refreshQueued, `queuedRefresh, `state, `published, `ticks
      ensures Valid() && Queued(next)
      ensures !accepting ==> queue == old(queue) + [next] && started == old(started) && state == old(state)
      ensures old(active) != null ==>
                && queue == old(queue) + [next] && active == old(active) && queuedRefresh == old(queuedRefresh)
                && started == old(started) && finished == old(finished)
      ensures accepting && old(active) == null ==>
                queue == [] && started == old(started) + [next.id] && active == (if transport(next.id) then next else null)
      ensures Appended(old(queue), old(active), old(started), next) && Noted(old(state), old(ticks), old(active), next)
      ensures KeepsResponses(old(state)) && old(finished) <= finished
    {
      assert queue == [] ==> queue + [next] == [next];
      queue := queue + [next];
      if active != null {
        UpdateQueueState();
        Publish();
        return;
      }
      StartQueued(next);
    }

    method StartQueued(next: Operation)
      requires Core(queue) && active == null && queue != [] && queue[|queue| - 1] == next
      requires accepting ==> queue == [next]
      requires !accepting ==> ShowsNothing() && published == state
      modifies `active, `queue, `started, `finished, `refreshQueued, `queuedRefresh, `state, `published, `ticks
      ensures Valid() && Queued(next)
      ensures !accepting ==> queue == old(queue) && started == old(started) && state == old(state)
      ensures accepting ==>
                queue == [] && started == old(started) + [next.id] && active == (if transport(next.id) then next else null)
      ensures Noted(old(state), old(ticks), null, next)
      ensures KeepsResponses(old(state)) && old(finished) <= finished
    {
      ghost var s0, r0 := started, queuedRefresh;
      StartNext();
      if accepting {
        StartedFromOne(transport, next, s0, r0, queue, active, started, queuedRefresh);
      }
    }

    // What is known while an operation is being queued, before the interface state is
    // brought up to date.
    ghost predicate Ready()
      reads this
    {
      Core(queue) && (accepting && active == null ==> queue == []) && (!accepting ==> ShowsNothing() && published == state)
    }

    method ShowState()
      requires Ready() && accepting
      modifies `state, `published
      ensures Valid() && KeepsResponses(old(state)) && KeepsFailure(old(state))
    {
      UpdateQueueState();
      Publish();
    }

    method EnqueueNew(kind: OperationKind, argv: seq<string>, star: Option<StarRequest>)
      requires Ready() && !kind.ScanOperation?
      modifies `nextId, `newest, `active, `queue, `started, `finished, `refreshQueued, `queuedRefresh, `state, `published, `ticks
      ensures Valid() && old(finished) <= finished
      ensures nextId == old(nextId) + 1 && newest != null && fresh(newest) && Queued(newest)
      ensures newest.id == old(nextId) && newest.kind == kind && newest.argv == argv && newest.star == star
      ensures Appended(old(queue), old(active), old(started), newest) && Noted(old(state), old(ticks), old(active), newest)
      ensures !accepting ==> started == old(started)
      ensures KeepsResponses(old(state))
    {
      var next := NewOperation(kind, argv, star);
      StructuredAppend(queue, active, nextId - 1, refreshQueued, queuedRefresh, next);
      LoggedAppend(queue, active, accepting, nextId - 1, started, finished, next);
      Enqueue(next);
    }

    method EnqueueScan(argv: seq<string>)
      requires Ready() && accepting && !refreshQueued
      modifies `nextId, `newest, `active, `queue, `started, `finished, `refreshQueued, `queuedRefresh, `state, `published, `ticks
      ensures Valid() && old(finished) <= finished
      ensures nextId == old(nextId) + 1 && newest != null && fresh(newest) && Queued(newest)
      ensures newest.id == old(nextId) && newest.kind.ScanOperation? && newest.argv == argv
      ensures Appended(old(queue), old(active), old(started), newest) && Noted(old(state), old(ticks), old(active), newest)
      ensures KeepsResponses(old(state))
    {
      var next := NewOperation(ScanOperation, argv, None);
      StructuredAppend(queue, active, nextId - 1, refreshQueued, queuedRefresh, next);
      LoggedAppend(queue, active, accepting, nextId - 1, started, finished, next);
      refreshQueued := true;
      queuedRefresh := next;
      Enqueue(next);
    }

    // The objects a force upgrade may change.
    function Upgradable(): set<object>
      reads this
    {
      if queuedRefresh == null then {} else {queuedRefresh}
    }

    method Refresh(force: bool) returns (queued: bool)
      requires Ready()
      modifies this, Upgradable()
      ensures queued <==> old(accepting) && !old(refreshQueued)
      ensures !queued ==> unchanged(this) && (accepting ==> refreshQueued)
      ensures !queued && accepting ==>
                queuedRefresh.argv == old(queuedRefresh.argv)
                                      + if force && "--force" !in old(queuedRefresh.argv) then ["--force"] else []
      ensures queued ==>
                && Valid() && accepting && schedules == old(schedules) && old(finished) <= finished && KeepsResponses(old(state))
                && nextId == old(nextId) + 1 && newest != null && fresh(newest) && Queued(newest)
                && newest.id == old(nextId) && newest.kind.ScanOperation?
                && newest.argv == ScanArgumentVector(force, settings(newest.id))
                && Appended(old(queue), old(active), old(started), newest)
                && Noted(old(state), old(ticks), old(active), newest)
    {
      if !accepting { return false; }
      if refreshQueued {
        if force && "--force" !in queuedRefresh.argv {
          queuedRefresh.argv := queuedRefresh.argv + ["--force"];
        }
        return false;
      }
      EnqueueScan(ScanArgumentVector(force, settings(nextId)));
      queued := true;
    }

    method ScheduleInitialScan()
      requires Ready() && accepting
      modifies `ticks, `schedules
      ensures Ready() && schedules == old(schedules).(initial := Some(clock(old(ticks)) + INITIAL_SCAN_DELAY_MS))
    {
      var t := ReadClock();
      schedules := schedules.(initial := Some(t + INITIAL_SCAN_DELAY_MS));
    }

    method Start()
      requires Valid()
      modifies this
      ensures Valid() && accepting == old(accepting) && old(finished) <= finished
      ensures !accepting ==> unchanged(this)
      ensures accepting ==>
                && schedules == old(schedules).(initial := Some(clock(old(ticks)) + INITIAL_SCAN_DELAY_MS))
                && newest != null && newest.id == old(nextId) && newest.argv == SNAPSHOT_ARGUMENTS && Queued(newest)
                && newest.kind.SnapshotOperation? && Appended(old(queue), old(active), old(started), newest)
    {
      if !accepting { return; }
      ScheduleInitialScan();
      EnqueueNew(SnapshotOperation, SNAPSHOT_ARGUMENTS, None);
      ShowState();
    }

    method RequestRefresh() returns (queued: bool)
      requires Valid()
      modifies this, Upgradable()
      ensures Valid() && accepting == old(accepting) && old(finished) <= finished
      ensures queued <==> old(accepting) && !old(refreshQueued)
      ensures !queued ==> unchanged(this)
      ensures queued ==>
                && newest != null && newest.argv == ScanArgumentVector(true, settings(newest.id)) && Queued(newest)
                && Appended(old(queue), old(active), old(started), newest)
      ensures queued ==> newest.id == old(nextId) && newest.kind.ScanOperation?
      ensures accepting && !queued ==>
                && queuedRefresh != null && "--force" in queuedRefresh.argv
                && (queuedRefresh.argv == old(queuedRefresh.argv)
                    || ("--force" !in old(queuedRefresh.argv) && queuedRefresh.argv == old(queuedRefresh.argv) + ["--force"]))
    {
      queued := Refresh(true);
    }

    method RequestInventory(request: JsValue) returns (queued: bool)
      requires Valid()
      modifies this
      ensures Valid() && accepting == old(accepting) && old(finished) <= finished && schedules == old(schedules)
      ensures queued <==> ValidInventoryRequest(request)
      ensures !queued ==> unchanged(this)
      ensures !accepting ==> started == old(started)
      ensures queued ==>
                && newest != null && newest.id == old(nextId) && newest.kind.InventoryOperation?
                && newest.argv == InventoryArguments(InventoryRequestOf(request)) && Queued(newest)
                && Appended(old(queue), old(active), old(started), newest)
    {
      if !ValidInventoryRequest(request) { return false; }
      EnqueueNew(InventoryOperation, InventoryArguments(InventoryRequestOf(request)), None);
      queued := true;
    }

    method SetStar(request: JsValue) returns (queued: bool)
      requires Valid()
      modifies this
      ensures Valid() && accepting == old(accepting) && old(finished) <= finished && schedules == old(schedules)
      ensures queued <==> ValidStarRequest(request)
      ensures !queued ==> unchanged(this)
      ensures !accepting ==> started == old(started)
      ensures queued ==>
                && newest != null && newest.id == old(nextId) && newest.kind.StarOperation?
                && newest.star == Some(StarRequestOf(request))
                && (StarRequestOf(request).security.Some? ==> StarRequestOf(request).security.value.cveIds != [])
                && newest.argv == StarArguments(StarRequestOf(request)) && Queued(newest)
                && Appended(old(queue), old(active), old(started), newest)
    {
      if !ValidStarRequest(request) { return false; }
      StarRequestShape(request);
      var r := StarRequestOf(request);
      EnqueueNew(StarOperation, StarArguments(r), Some(r));
      queued := true;
    }

    method Due(name: ScheduleName, at: int) returns (due: bool)
      modifies `schedules
      ensures due <==> IsDue(Scheduled(old(schedules), name), at)
      ensures schedules == if due then Cleared(old(schedules), name) else old(schedules)
    {
      due := IsDue(Scheduled(schedules, name), at);
      if due {
        schedules := Cleared(schedules, name);
      }
    }

    method DueNow(at: int) returns (due: bool)
      modifies `schedules
      ensures schedules == Woken(old(schedules), at)
      ensures due <==> AnyDue(old(schedules), at)
    {
      ghost var s := schedules;
      due := Due(Initial, at);
      if !due {
        due := Due(Periodic, at);
      }
      var retry := Due(Retry, at);
      due := retry || due;
      var handoff := Due(Handoff, at);
      due := handoff || due;
      assert s.initial == Dues(s)[0] && s.periodic == Dues(s)[1] && s.retry == Dues(s)[2] && s.handoff == Dues(s)[3];
    }

    // A wake makes an ordinary scan when something was due and none is waiting.
    method Wake(at: int)
      requires Valid()
      modifies this, Upgradable()
      ensures Valid() && accepting == old(accepting) && old(finished) <= finished
      ensures !accepting ==> unchanged(this)
      ensures accepting ==> schedules == Woken(old(schedules), at)
      ensures accepting && AnyDue(old(schedules), at) && !old(refreshQueued) ==>
                && newest != null && newest.id == old(nextId) && newest.kind.ScanOperation? && Queued(newest)
                && newest.argv == ["scan"] + settings(newest.id)
                && Appended(old(queue), old(active), old(started), newest)
      ensures accepting && (!AnyDue(old(schedules), at) || old(refreshQueued)) ==>
                nextId == old(nextId) && queue == old(queue) && active == old(active) && started == old(started)
      ensures old(queuedRefresh) != null ==> old(queuedRefresh).argv == old(queuedRefresh.argv)
    {
      if !accepting { return; }
      var due := DueNow(at);
      RefreshWoken(due);
    }

    method RefreshWoken(due: bool)
      requires Ready() && accepting
      modifies this, Upgradable()
      ensures Valid() && accepting && schedules == old(schedules) && old(finished) <= finished
      ensures due && !old(refreshQueued) ==>
                && newest != null && newest.id == old(nextId) && newest.kind.ScanOperation? && Queued(newest)
                && newest.argv == ["scan"] + settings(newest.id)
                && Appended(old(queue), old(active), old(started), newest)
      ensures !due || old(refreshQueued) ==>
                nextId == old(nextId) && queue == old(queue) && active == old(active) && started == old(started)
      ensures old(queuedRefresh) != null ==> old(queuedRefresh).argv == old(queuedRefresh.argv)
    {
      if due {
        var queued := Refresh(false);
      }
      ShowState();
    }

    method SchedulePostHandoffScan(at: int)
      requires Valid()
      modifies this
      ensures Valid() && accepting == old(accepting) && started == old(started) && finished == old(finished)
      ensures queue == old(queue) && active == old(active) && state.handoffAt == old(state.handoffAt)
      ensures !accepting ==> unchanged(this)
      ensures accepting ==> schedules == old(schedules).(handoff := Some(at + POST_HANDOFF_SCAN_DELAY_MS))
    {
      if !accepting { return; }
      schedules := schedules.(handoff := Some(at + POST_HANDOFF_SCAN_DELAY_MS));
      ShowState();
    }

    method RecordHandoff(at: int)
      requires Valid()
      modifies this
      ensures Valid() && accepting == old(accepting) && started == old(started) && finished == old(finished)
      ensures queue == old(queue) && active == old(active)
      ensures !accepting ==> unchanged(this)
      ensures accepting ==>
                state.handoffAt == Some(at) && schedules == old(schedules).(handoff := Some(at + POST_HANDOFF_SCAN_DELAY_MS))
    {
      if !accepting { return; }
      state := state.(handoffAt := Some(at));
      published := state;
      SchedulePostHandoffScan(at);
    }

    // What accepting a response makes of the interface state.
    function AcceptedState(before: UiState, reply: Reply): UiState {
      var clear := before.(lastError := "", lastFailureKind := "", lastFailureOperation := None);
      match reply
      case SnapshotReply(generatedAt, _) => clear.(lastSnapshot := Some(reply), lastSuccessAt := generatedAt)
      case InventoryReply(source) => clear.(inventories := before.inventories[source := reply])
      case StarReply(_) => clear.(lastStarResult := Some(reply))
      case ErrorReply(_, _) => clear
    }

    // A snapshot sets the next retry to the earliest time at which a source will no
    // longer be fresh, and a scan's snapshot also sets the next periodic scan.
    method ConfigureSnapshotSchedule(freshUntil: seq<Option<int>>)
      requires Ready() && accepting && active != null
      modifies `schedules, `ticks
      ensures Ready()
      ensures schedules.initial == old(schedules.initial) && schedules.handoff == old(schedules.handoff)
      ensures active.kind.ScanOperation? ==>
                schedules.periodic ==
                Some(clock(old(ticks) + 1) + JitteredInterval(refreshIntervalMs, random(old(ticks) + 1)))
      ensures !active.kind.ScanOperation? ==> schedules.periodic == old(schedules.periodic)
      ensures IsEarliestAfter(freshUntil, clock(old(ticks)), schedules.retry)
      ensures ticks == old(ticks) + if active.kind.ScanOperation? then 2 else 1
    {
      var current := ReadClock();
      var retry := Earliest(freshUntil, Some(current));
      schedules := schedules.(retry := retry);
      if active.kind.ScanOperation? {
        var t := ReadClock();
        schedules := schedules.(periodic := Some(t + JitteredInterval(refreshIntervalMs, random(ticks - 1))));
      }
    }

    // What a verdict makes of the schedules, given the number of the next clock reading.
    ghost predicate Rescheduled(before: Schedules, after: Schedules, kind: OperationKind, verdict: Verdict, reading: nat) {
      && after.initial == before.initial && after.handoff == before.handoff
      && if verdict.Accepted? && verdict.reply.SnapshotReply? then
           && IsEarliestAfter(verdict.reply.freshUntil, clock(reading), after.retry)
           && after.periodic == (if kind.ScanOperation?
                                 then Some(clock(reading + 1) + JitteredInterval(refreshIntervalMs, random(reading + 1)))
                                 else before.periodic)
         else after == before
    }

    // How often a verdict has the clock read.
    function Readings(kind: OperationKind, verdict: Verdict): nat {
      if verdict.Accepted? && verdict.reply.SnapshotReply? then (if kind.ScanOperation? then 2 else 1) else 0
    }

    method Accept(reply: Reply)
      requires Ready() && accepting && active != null
      modifies `state, `schedules, `ticks
      ensures Ready() && state == AcceptedState(old(state), reply)
      ensures Rescheduled(old(schedules), schedules, active.kind, Accepted(reply), old(ticks))
      ensures ticks == old(ticks) + Readings(active.kind, Accepted(reply))
    {
      state := state.(lastError := "", lastFailureKind := "", lastFailureOperation := None);
      match reply {
        case SnapshotReply(generatedAt, freshUntil) =>
          state := state.(lastSnapshot := Some(reply), lastSuccessAt := generatedAt);
          ConfigureSnapshotSchedule(freshUntil);
        case InventoryReply(source) =>
          state := state.(inventories := state.inventories[source := reply]);
        case StarReply(_) =>
          state := state.(lastStarResult := Some(reply));
        case ErrorReply(_, _) =>
      }
    }

    method RecordFailure(completed: Operation, kind: string, message: string)
      modifies `state
      ensures state == Recorded(old(state), completed, kind, message)
    {
      state := Recorded(state, completed, kind, message);
    }

    // What a verdict makes of the interface state.
    function ConcludedState(before: UiState, op: Operation, verdict: Verdict): UiState {
      match verdict
      case Refused(kind, message) => Recorded(before, op, kind, message)
      case Accepted(reply) => AcceptedState(before, reply)
    }

    // The branches by which a result is recorded as a failure or accepted.
    method Conclude(result: HelperResult)
      requires Ready() && accepting && active != null
      modifies `state, `schedules, `ticks
      ensures Ready()
      ensures state == ConcludedState(old(state), active, Judge(result, active.kind))
      ensures Rescheduled(old(schedules), schedules, active.kind, Judge(result, active.kind), old(ticks))
      ensures ticks == old(ticks) + Readings(active.kind, Judge(result, active.kind))
    {
      match result {
        case TimedOut => RecordFailure(active, "timeout", "helper operation timed out");
        case OutputTooLarge => RecordFailure(active, "output", "helper output exceeded the five MiB limit");
        case Exited(exitCode, parsed) =>
          if exitCode != 0 {
            if parsed.Ok? && parsed.value.ErrorReply? {
              RecordFailure(active, "helper", parsed.value.code + ": " + parsed.value.message);
            } else {
              RecordFailure(active, "command", "helper exited with status " + IntegerText(exitCode));
            }
          } else {
            ConcludeParsed(parsed);
          }
      }
    }

    method ConcludeParsed(parsed: Result<Reply, string>)
      requires Ready() && accepting && active != null
      modifies `state, `schedules, `ticks
      ensures Ready()
      ensures state == ConcludedState(old(state), active, Judge(Exited(0, parsed), active.kind))
      ensures Rescheduled(old(schedules), schedules, active.kind, Judge(Exited(0, parsed), active.kind), old(ticks))
      ensures ticks == old(ticks) + Readings(active.kind, Judge(Exited(0, parsed), active.kind))
    {
      if parsed.Err? {
        RecordFailure(active, "incompatible", parsed.error);
      } else if parsed.value.ErrorReply? {
        RecordFailure(active, "helper", parsed.value.code + ": " + parsed.value.message);
      } else if !Expected(parsed.value, active.kind) {
        RecordFailure(active, "incompatible", "helper response kind does not match the operation");
      } else {
        Accept(parsed.value);
      }
    }

    // The interface state shows what an operation came to; its failure can only be
    // replaced by that of a following operation that the transport refused.
    ghost predicate Shows(after: UiState, waiting: seq<Operation>)
      reads this
    {
      KeepsResponses(after) && FailureAfter(after, waiting)
    }

    method FinishActive(ghost before: UiState, ghost q: seq<Operation>, ghost startedBefore: seq<nat>,
                        ghost refreshBefore: Operation?, ghost reading: nat)
      requires Ready() && accepting && active != null
      requires state == before && queue == q && started == startedBefore && queuedRefresh == refreshBefore && ticks == reading
      modifies `active, `queue, `started, `finished, `refreshQueued, `queuedRefresh, `state, `published, `ticks
      ensures Valid() && old(finished) + [old(active).id] <= finished
      ensures StartedFrom(transport, q, startedBefore, refreshBefore, queue, active, started, queuedRefresh)
      ensures Shows(before, q)
      ensures AttemptRecorded(before, reading, refreshBefore != null && queuedRefresh == null)
    {
      Deactivate();
      StartNext();
    }

    // What finishing an operation with a verdict makes of everything: it is concluded,
    // and the queue goes on.
    ghost predicate Concluded(op: Operation, verdict: Verdict, before: UiState, schedulesBefore: Schedules,
                              q: seq<Operation>, startedBefore: seq<nat>, refreshBefore: Operation?, reading: nat)
      reads this
    {
      && StartedFrom(transport, q, startedBefore, refreshBefore, queue, active, started, queuedRefresh)
      && Shows(ConcludedState(before, op, verdict), q)
      && Rescheduled(schedulesBefore, schedules, op.kind, verdict, reading)
      && AttemptRecorded(ConcludedState(before, op, verdict), reading + Readings(op.kind, verdict),
                         refreshBefore != null && queuedRefresh == null)
    }

    method Complete(operationId: nat, result: HelperResult)
      requires Valid()
      modifies this
      ensures Valid() && accepting == old(accepting) && nextId == old(nextId)
      ensures !old(accepting) || old(active) == null || old(active).id != operationId ==> unchanged(this)
      ensures old(accepting) && old(active) != null && old(active).id == operationId ==>
                && old(finished) + [operationId] <= finished
                && Concluded(old(active), Judge(result, old(active).kind), old(state), old(schedules), old(queue),
                             old(started), old(queuedRefresh), old(ticks))
    {
      if !accepting || active == null || active.id != operationId { return; }
      FinishWith(result);
    }

    method FinishWith(result: HelperResult)
      requires Ready() && accepting && active != null
      modifies `schedules, `active, `queue, `started, `finished, `refreshQueued, `queuedRefresh, `state, `published, `ticks
      ensures Valid() && old(finished) + [old(active).id] <= finished
      ensures Concluded(old(active), Judge(result, old(active).kind), old(state), old(schedules), old(queue),
                        old(started), old(queuedRefresh), old(ticks))
    {
      ghost var verdict := Judge(result, active.kind);
      ghost var q, s0, r0, reading := queue, started, queuedRefresh, ticks + Readings(active.kind, verdict);
      ghost var after := ConcludedState(state, active, verdict);
      Conclude(result);
      FinishActive(after, q, s0, r0, reading);
    }

    method Shutdown()
      requires Valid()
      modifies this
      ensures Valid() && !accepting && queue == [] && active == null && schedules == NO_SCHEDULES
      ensures started == old(started) && finished == old(finished) && Mirrors()
    {
      accepting := false;
      queue := [];
      active := null;
      refreshQueued := false;
      queuedRefresh := null;
      schedules := NO_SCHEDULES;
      UpdateQueueState();
      Publish();
    }
  }
}
