// Dispatching notifications: for each kind in turn a batch is claimed, its command
// is run with no lock held, and it is completed, while other processes go on using
// the same ledger.
module NotificationDispatch {
  import opened Wrappers
  import opened Records
  import opened Sorting
  import opened LedgerPruning
  import opened NotificationBatch
  import opened LeaseProtocol
  import opened LeaseTheorems

  const KINDS: seq<NotificationKind> := [NotificationKind.Watch, NotificationKind.Security, NotificationKind.SecurityCondition]

  function Rank(kind: NotificationKind): nat {
    match kind case Watch => 0 case Security => 1 case SecurityCondition => 2
  }

  function OfKind(candidates: seq<Candidate>, kind: NotificationKind): seq<Candidate> {
    Filter((c: Candidate) => c.kind == kind, candidates)
  }

  // The tokens a step of another process could take from this one.
  predicate Touches(step: Step, mine: set<string>) {
    match step
    case Claim(_, _, _, token) => token in mine
    case Complete(token, _) => token in mine
    case Crash(token) => token in mine
    case _ => false
  }

  // A step of the run tried to claim candidates of a kind, and did or did not.
  ghost predicate TriedAt(worlds: seq<World>, steps: seq<Step>, i: nat, kind: NotificationKind,
                          candidates: seq<Candidate>, token: string, claimed: bool) {
    && i < |steps| && |worlds| == |steps| + 1
    && steps[i].Claim? && steps[i] == Claim(kind, candidates, steps[i].now, token)
    && (claimed <==> Succeeds(worlds[i], steps[i]))
  }

  // A step of the run completed a batch and reported these outcomes, no more and no fewer.
  ghost predicate ReportedAt(worlds: seq<World>, steps: seq<Step>, m: nat, token: string, result: CommandResult,
                             outcomes: seq<NotificationOutcome>) {
    && m < |steps| && |worlds| == |steps| + 1
    && steps[m] == Step.Complete(token, result) && Enabled(worlds[m], steps[m])
    && outcomes == Outcomes(worlds[m].state.ledger, worlds[m].issued[token], result)
  }

  // A kind's candidates were claimed, and the batch was then completed with what its
  // command came to and reported these outcomes.
  ghost predicate Ran(worlds: seq<World>, steps: seq<Step>, from: nat, kind: NotificationKind, candidates: seq<Candidate>,
                      token: string, result: CommandResult, outcomes: seq<NotificationOutcome>) {
    exists i, m :: from <= i < m && TriedAt(worlds, steps, i, kind, candidates, token, true)
                   && ReportedAt(worlds, steps, m, token, result, outcomes)
  }

  // Nothing of a kind could be claimed.
  ghost predicate Refused(worlds: seq<World>, steps: seq<Step>, from: nat, kind: NotificationKind,
                          candidates: seq<Candidate>, token: string) {
    exists i :: from <= i && TriedAt(worlds, steps, i, kind, candidates, token, false)
  }

  // What has happened stays so as the run goes on.
  lemma StillRan(w0: seq<World>, s0: seq<Step>, w1: seq<World>, s1: seq<Step>, from: nat, kind: NotificationKind,
                 candidates: seq<Candidate>, token: string, result: CommandResult, outcomes: seq<NotificationOutcome>)
    requires Ran(w0, s0, from, kind, candidates, token, result, outcomes)
    requires w0 <= w1 && s0 <= s1 && |w1| == |s1| + 1
    ensures Ran(w1, s1, from, kind, candidates, token, result, outcomes)
  {
    var i, m :| from <= i < m && TriedAt(w0, s0, i, kind, candidates, token, true)
                && ReportedAt(w0, s0, m, token, result, outcomes);
    assert TriedAt(w1, s1, i, kind, candidates, token, true) && ReportedAt(w1, s1, m, token, result, outcomes);
  }

  lemma StillTried(w0: seq<World>, s0: seq<Step>, w1: seq<World>, s1: seq<Step>, i: nat, kind: NotificationKind,
                   candidates: seq<Candidate>, token: string, claimed: bool)
    requires TriedAt(w0, s0, i, kind, candidates, token, claimed)
    requires w0 <= w1 && s0 <= s1 && |w1| == |s1| + 1
    ensures TriedAt(w1, s1, i, kind, candidates, token, claimed)
  {
  }

  lemma StillRefused(w0: seq<World>, s0: seq<Step>, w1: seq<World>, s1: seq<Step>, from: nat, kind: NotificationKind,
                     candidates: seq<Candidate>, token: string)
    requires Refused(w0, s0, from, kind, candidates, token)
    requires w0 <= w1 && s0 <= s1 && |w1| == |s1| + 1
    ensures Refused(w1, s1, from, kind, candidates, token)
  {
    var i :| from <= i && TriedAt(w0, s0, i, kind, candidates, token, false);
    assert TriedAt(w1, s1, i, kind, candidates, token, false);
  }

  // A kind's turn: it ran and reported outcomes, or nothing of it could be claimed.
  ghost predicate Turned(worlds: seq<World>, steps: seq<Step>, from: nat, kind: NotificationKind,
                         candidates: seq<Candidate>, token: string, result: CommandResult,
                         report: Option<seq<NotificationOutcome>>) {
    match report
    case Some(outcomes) => Ran(worlds, steps, from, kind, candidates, token, result, outcomes)
    case None => Refused(worlds, steps, from, kind, candidates, token)
  }

  lemma StillTurned(w0: seq<World>, s0: seq<Step>, w1: seq<World>, s1: seq<Step>, from: nat, later: nat,
                    kind: NotificationKind, candidates: seq<Candidate>, token: string, result: CommandResult,
                    report: Option<seq<NotificationOutcome>>)
    requires Turned(w0, s0, later, kind, candidates, token, result, report) && from <= later
    requires w0 <= w1 && s0 <= s1 && |w1| == |s1| + 1
    ensures Turned(w1, s1, from, kind, candidates, token, result, report)
  {
    match report {
      case Some(outcomes) => StillRan(w0, s0, w1, s1, later, kind, candidates, token, result, outcomes);
      case None => StillRefused(w0, s0, w1, s1, later, kind, candidates, token);
    }
  }

  // The first kinds have had their turns.
  ghost predicate Dispatched(worlds: seq<World>, steps: seq<Step>, from: nat, candidates: seq<Candidate>,
                             tokens: NotificationKind -> string, results: NotificationKind -> CommandResult,
                             reports: seq<Option<seq<NotificationOutcome>>>) {
    && |reports| <= |KINDS|
    && forall n :: 0 <= n < |reports| ==> TurnedAt(worlds, steps, from, candidates, tokens, results, n, reports[n])
  }

  ghost predicate TurnedAt(worlds: seq<World>, steps: seq<Step>, from: nat, candidates: seq<Candidate>,
                           tokens: NotificationKind -> string, results: NotificationKind -> CommandResult, n: nat,
                           report: Option<seq<NotificationOutcome>>)
    requires n < |KINDS|
  {
    Turned(worlds, steps, from, KINDS[n], OfKind(candidates, KINDS[n]), tokens(KINDS[n]), results(KINDS[n]), report)
  }

  // One more kind has had its turn while the run went on.
  lemma OneMore(w0: seq<World>, s0: seq<Step>, w1: seq<World>, s1: seq<Step>, from: nat, candidates: seq<Candidate>,
                tokens: NotificationKind -> string, results: NotificationKind -> CommandResult,
                reports: seq<Option<seq<NotificationOutcome>>>, report: Option<seq<NotificationOutcome>>)
    requires Dispatched(w0, s0, from, candidates, tokens, results, reports) && |reports| < |KINDS|
    requires w0 <= w1 && s0 <= s1 && |w1| == |s1| + 1
    requires TurnedAt(w1, s1, from, candidates, tokens, results, |reports|, report)
    ensures Dispatched(w1, s1, from, candidates, tokens, results, reports + [report])
  {
    forall n | 0 <= n < |reports + [report]|
      ensures TurnedAt(w1, s1, from, candidates, tokens, results, n, (reports + [report])[n])
    {
      if n < |reports| {
        StillTurned(w0, s0, w1, s1, from, from, KINDS[n], OfKind(candidates, KINDS[n]), tokens(KINDS[n]),
                    results(KINDS[n]), reports[n]);
      }
    }
  }

  // What was reported, one kind after the other.
  function Joined(reports: seq<Option<seq<NotificationOutcome>>>): seq<NotificationOutcome> {
    if reports == [] then []
    else
      var last := |reports| - 1;
      Joined(reports[..last]) + if reports[last].Some? then reports[last].value else []
  }

  // Whatever others did in between, an outcome that was reported is what the ledger
  // held for its fingerprint at that moment.
  lemma ReportedIsRecorded(worlds: seq<World>, steps: seq<Step>, m: nat, token: string, result: CommandResult,
                           outcomes: seq<NotificationOutcome>, o: NotificationOutcome)
    requires IsRun(worlds, steps) && ReportedAt(worlds, steps, m, token, result, outcomes) && o in outcomes
    ensures At(worlds[m + 1], o.fingerprint).Some? && At(worlds[m + 1], o.fingerprint).value.status == o.status
  {
    RunInv(worlds, steps, m);
    if !Owns(worlds[m], worlds[m].issued[token].kind, token) {
      NotOwnerCompletesNothing(worlds[m], steps[m]);
    } else {
      ReportsMatchLedger(worlds, steps, m);
    }
  }

  lemma RunExtended(worlds: seq<World>, steps: seq<Step>, step: Step)
    requires IsRun(worlds, steps) && Enabled(worlds[|steps|], step)
    ensures IsRun(worlds + [Apply(worlds[|steps|], step)], steps + [step])
  {
  }

  lemma MineUntouched(w: World, step: Step, mine: set<string>)
    requires Inv(w) && Enabled(w, step) && !Touches(step, mine)
    ensures forall t :: t in mine ==> (t in Apply(w, step).used <==> t in w.used) && (t in Apply(w, step).open <==> t in w.open)
    ensures forall t :: t in w.issued ==> t in Apply(w, step).issued && Apply(w, step).issued[t] == w.issued[t]
  {
    forall t | t in w.issued
      ensures t in Apply(w, step).issued && Apply(w, step).issued[t] == w.issued[t]
    {
      IssuedStep(w, step, t);
    }
  }

  // Dispatching a kind uses up the token of no other kind.
  ghost predicate OthersUnused(tokens: NotificationKind -> string, kind: NotificationKind, before: set<string>,
                               after: set<string>) {
    forall k: NotificationKind :: tokens(k) != tokens(kind) && tokens(k) !in before ==> tokens(k) !in after
  }

  // The tokens of the kinds from a position on have not been drawn.
  ghost predicate UnusedFrom(tokens: NotificationKind -> string, n: nat, used: set<string>) {
    forall k: NotificationKind :: n <= Rank(k) ==> tokens(k) !in used
  }

  lemma NextUnused(tokens: NotificationKind -> string, n: nat, kind: NotificationKind, before: set<string>,
                   after: set<string>)
    requires UnusedFrom(tokens, n, before) && Rank(kind) == n && OthersUnused(tokens, kind, before, after)
    requires forall j: NotificationKind, k: NotificationKind :: tokens(j) == tokens(k) ==> j == k
    ensures UnusedFrom(tokens, n + 1, after)
  {
  }

  lemma OfKindWellFormed(candidates: seq<Candidate>, kind: NotificationKind)
    requires forall c :: c in candidates ==> LeaseProtocol.WellFormed(c.kind, c)
    ensures forall c :: c in OfKind(candidates, kind) ==> LeaseProtocol.WellFormed(kind, c)
  {
  }

  // A locked claim of the store is the three steps prune, claim and prune of the
  // transition system, and a locked completion is prune, complete and prune.
  lemma StoreClaimIsSteps(w: World, claim: Step, loadedAt: Instant, writtenAt: Instant)
    requires claim.Claim? && Enabled(Apply(w, Prune(loadedAt)), claim)
    ensures var loaded := PruneEntries(w.state.ledger, loadedAt);
            Apply(Apply(Apply(w, Prune(loadedAt)), claim), Prune(writtenAt)).state
            == w.state.(ledger := PruneEntries(ReserveLedger(loaded, claim.kind, claim.candidates, claim.now, claim.token), writtenAt))
  {
  }

  lemma StoreCompletionIsSteps(w: World, done: Step, loadedAt: Instant, writtenAt: Instant)
    requires done.Complete? && Enabled(Apply(w, Prune(loadedAt)), done)
    ensures var loaded := PruneEntries(w.state.ledger, loadedAt);
            Apply(Apply(Apply(w, Prune(loadedAt)), done), Prune(writtenAt)).state
            == w.state.(ledger := PruneEntries(CompleteLedger(loaded, w.issued[done.done], done.result), writtenAt))
  {
  }

  // The three steps of a locked operation.
  function Locked(step: Step, loadedAt: Instant, writtenAt: Instant): seq<Step> {
    [Prune(loadedAt), step, Prune(writtenAt)]
  }

  function WorldsOf(w: World, step: Step, loadedAt: Instant, writtenAt: Instant): (r: seq<World>)
    requires Enabled(Apply(w, Prune(loadedAt)), step)
    ensures |r| == 3
  {
    var loaded := Apply(w, Prune(loadedAt));
    var changed := Apply(loaded, step);
    [loaded, changed, Apply(changed, Prune(writtenAt))]
  }

  lemma LockedExtends(worlds: seq<World>, steps: seq<Step>, step: Step, loadedAt: Instant, writtenAt: Instant)
    requires IsRun(worlds, steps) && Enabled(Apply(worlds[|steps|], Prune(loadedAt)), step)
    ensures IsRun(worlds + WorldsOf(worlds[|steps|], step, loadedAt, writtenAt), steps + Locked(step, loadedAt, writtenAt))
  {
    var more := WorldsOf(worlds[|steps|], step, loadedAt, writtenAt);
    var done := Locked(step, loadedAt, writtenAt);
    RunExtended(worlds, steps, done[0]);
    RunExtended(worlds + [more[0]], steps + [done[0]], done[1]);
    RunExtended(worlds + [more[0]] + [more[1]], steps + [done[0]] + [done[1]], done[2]);
    InThree(worlds, more);
    InThree(steps, done);
  }

  lemma InThree<T>(xs: seq<T>, more: seq<T>)
    requires |more| == 3
    ensures xs + more == xs + [more[0]] + [more[1]] + [more[2]]
  {
  }

  // What a locked claim comes to: the batch read back is what the claim step issued.
  ghost predicate ClaimedIn(w: World, claim: Step, loadedAt: Instant, writtenAt: Instant, batch: Option<Batch>)
    requires claim.Claim? && Enabled(Apply(w, Prune(loadedAt)), claim)
  {
    var more := WorldsOf(w, claim, loadedAt, writtenAt);
    && (batch.Some? <==> Succeeds(more[0], claim))
    && more[2].used == w.used + {claim.token}
    && (batch.Some? ==>
          && more[2].open == w.open + {claim.token}
          && claim.token in more[2].issued && more[2].issued[claim.token] == batch.value
          && batch.value.leaseToken == claim.token && batch.value.kind == claim.kind)
  }

  lemma LockedClaim(w: World, claim: Step, loadedAt: Instant, writtenAt: Instant)
    requires Inv(w) && claim.Claim? && Enabled(Apply(w, Prune(loadedAt)), claim)
    ensures var ledger := ReserveLedger(PruneEntries(w.state.ledger, loadedAt), claim.kind, claim.candidates, claim.now, claim.token);
            ClaimedIn(w, claim, loadedAt, writtenAt, ClaimedBatch(ledger, claim.kind, claim.candidates, claim.token))
  {
    StepKeepsInv(w, Prune(loadedAt));
    ClaimReturnsReserved(Apply(w, Prune(loadedAt)), claim);
  }

  lemma TriedHere(worlds: seq<World>, steps: seq<Step>, w: World, claim: Step, loadedAt: Instant, writtenAt: Instant)
    requires |worlds| == |steps| + 1 && claim.Claim? && Enabled(Apply(w, Prune(loadedAt)), claim)
    ensures var more := WorldsOf(w, claim, loadedAt, writtenAt);
            TriedAt(worlds + more, steps + Locked(claim, loadedAt, writtenAt), |steps| + 1, claim.kind, claim.candidates,
                    claim.token, Succeeds(more[0], claim))
  {
  }

  lemma LastOf(worlds: seq<World>, steps: seq<Step>, more: seq<World>, done: seq<Step>)
    requires |worlds| == |steps| + 1 && |more| == |done| == 3
    ensures (worlds + more)[|steps + done|] == more[2]
  {
  }

  class Coordinator {
    // The store, the tokens drawn, the clock, what the commands come to, and what
    // others do in each gap.
    const store: LedgerStore
    const tokens: NotificationKind -> string
    const clock: nat -> Instant
    const results: NotificationKind -> CommandResult
    const others: nat -> seq<Step>
    var ticks: nat
    var gaps: nat
    var world: World
    ghost var worlds: seq<World>
    ghost var steps: seq<Step>

    ghost predicate Valid()
      reads this, store
    {
      IsRun(worlds, steps) && worlds[|steps|] == world && store.state == world.state
    }

    constructor (store: LedgerStore, tokens: NotificationKind -> string, clock: nat -> Instant,
                 results: NotificationKind -> CommandResult, others: nat -> seq<Step>, world: World)
      requires Init(world) && store.state == world.state
      ensures Valid() && this.store == store && this.world == world && steps == []
      ensures this.tokens == tokens && this.results == results
    {
      this.store, this.tokens, this.clock, this.results, this.others := store, tokens, clock, results, others;
      this.world, worlds, steps := world, [world], [];
      ticks, gaps := 0, 0;
    }

    // The tokens of this process.
    function Mine(): set<string> {
      {tokens(NotificationKind.Watch), tokens(NotificationKind.Security), tokens(NotificationKind.SecurityCondition)}
    }

    method ReadClock() returns (t: Instant)
      modifies `ticks
    {
      t := clock(ticks);
      ticks := ticks + 1;
    }

    // Another process acts on the store.
    method Perform(step: Step)
      requires Valid() && Enabled(world, step)
      modifies `world, `worlds, `steps, store
      ensures Valid() && world == Apply(old(world), step)
      ensures worlds == old(worlds) + [world] && steps == old(steps) + [step]
    {
      RunExtended(worlds, steps, step);
      world := Apply(world, step);
      store.state := world.state;
      worlds := worlds + [world];
      steps := steps + [step];
    }

    // Other processes act; they neither know nor draw this one's tokens.
    method Interfere()
      requires Valid()
      modifies `world, `worlds, `steps, `gaps, store
      ensures Valid() && old(worlds) <= worlds && old(steps) <= steps
      ensures forall t :: t in Mine() ==> (t in world.used <==> t in old(world).used) && (t in world.open <==> t in old(world).open)
      ensures forall t :: t in old(world).issued ==> t in world.issued && world.issued[t] == old(world).issued[t]
    {
      var foreign := others(gaps);
      gaps := gaps + 1;
      for i := 0 to |foreign|
        invariant Valid() && old(worlds) <= worlds && old(steps) <= steps
        invariant forall t :: t in Mine() ==> (t in world.used <==> t in old(world).used) && (t in world.open <==> t in old(world).open)
        invariant forall t :: t in old(world).issued ==> t in world.issued && world.issued[t] == old(world).issued[t]
      {
        if Enabled(world, foreign[i]) && !Touches(foreign[i], Mine()) {
          RunInv(worlds, steps, |steps|);
          MineUntouched(world, foreign[i], Mine());
          Perform(foreign[i]);
        }
      }
    }

    // The store has performed a locked operation.
    ghost method Follow(step: Step, loadedAt: Instant, writtenAt: Instant)
      requires IsRun(worlds, steps) && Enabled(Apply(worlds[|steps|], Prune(loadedAt)), step)
      modifies `worlds, `steps
      ensures IsRun(worlds, steps)
      ensures worlds == old(worlds) + WorldsOf(old(worlds)[|old(steps)|], step, loadedAt, writtenAt)
      ensures steps == old(steps) + Locked(step, loadedAt, writtenAt)
    {
      LockedExtends(worlds, steps, step, loadedAt, writtenAt);
      worlds := worlds + WorldsOf(worlds[|steps|], step, loadedAt, writtenAt);
      steps := steps + Locked(step, loadedAt, writtenAt);
    }

    // One locked claim.
    method ClaimBatch(kind: NotificationKind, candidates: seq<Candidate>) returns (batch: Option<Batch>)
      requires Valid() && tokens(kind) !in world.used
      requires forall c :: c in candidates ==> LeaseProtocol.WellFormed(kind, c)
      modifies `world, `worlds, `steps, `ticks, store
      ensures Valid() && old(worlds) <= worlds && |steps| == |old(steps)| + 3 && old(steps) <= steps
      ensures world.used == old(world).used + {tokens(kind)}
      ensures TriedAt(worlds, steps, |old(steps)| + 1, kind, candidates, tokens(kind), batch.Some?)
      ensures batch.Some? ==>
                && world.open == old(world).open + {tokens(kind)}
                && tokens(kind) in world.issued && world.issued[tokens(kind)] == batch.value
                && batch.value.leaseToken == tokens(kind) && batch.value.kind == kind
    {
      var now := ReadClock();
      var loadedAt := ReadClock();
      var writtenAt := ReadClock();
      var claim := Claim(kind, candidates, now, tokens(kind));
      RunInv(worlds, steps, |steps|);
      LockedClaim(world, claim, loadedAt, writtenAt);
      StoreClaimIsSteps(world, claim, loadedAt, writtenAt);
      TriedHere(worlds, steps, world, claim, loadedAt, writtenAt);
      LastOf(worlds, steps, WorldsOf(world, claim, loadedAt, writtenAt), Locked(claim, loadedAt, writtenAt));
      batch := store.ClaimBatch(kind, candidates, now, tokens(kind), loadedAt, writtenAt);
      Follow(claim, loadedAt, writtenAt);
      world := WorldsOf(world, claim, loadedAt, writtenAt)[2];
    }

    // One locked completion of a batch that was claimed.
    method CompleteBatch(batch: Batch) returns (outcomes: seq<NotificationOutcome>)
      requires Valid() && batch.leaseToken in world.open && batch.leaseToken in world.issued
      requires world.issued[batch.leaseToken] == batch
      modifies `world, `worlds, `steps, `ticks, store
      ensures Valid() && old(worlds) <= worlds && |steps| == |old(steps)| + 3 && old(steps) <= steps
      ensures world.used == old(world).used
      ensures ReportedAt(worlds, steps, |old(steps)| + 1, batch.leaseToken, results(batch.kind), outcomes)
      ensures forall o :: o in outcomes ==> CarriesResult(o.status, results(batch.kind))
    {
      var loadedAt := ReadClock();
      var writtenAt := ReadClock();
      var done := Step.Complete(batch.leaseToken, results(batch.kind));
      StoreCompletionIsSteps(world, done, loadedAt, writtenAt);
      outcomes := store.CompleteBatch(batch, results(batch.kind), loadedAt, writtenAt);
      Follow(done, loadedAt, writtenAt);
      world := WorldsOf(world, done, loadedAt, writtenAt)[2];
    }

    // One kind: claim, let the command run while others act, complete.
    method DispatchKind(kind: NotificationKind, candidates: seq<Candidate>)
      returns (report: Option<seq<NotificationOutcome>>)
      requires Valid() && tokens(kind) !in world.used
      requires forall c :: c in candidates ==> LeaseProtocol.WellFormed(kind, c)
      modifies `world, `worlds, `steps, `ticks, `gaps, store
      ensures Valid() && old(worlds) <= worlds && old(steps) <= steps
      ensures OthersUnused(tokens, kind, old(world).used, world.used)
      ensures Turned(worlds, steps, |old(steps)|, kind, candidates, tokens(kind), results(kind), report)
    {
      AllMine();
      Interfere();
      ghost var i := |steps| + 1;
      var batch := ClaimBatch(kind, candidates);
      if batch.None? {
        return None;
      }
      ghost var w0, s0 := worlds, steps;
      var outcomes := RunClaimed(batch.value);
      StillTried(w0, s0, worlds, steps, i, kind, candidates, tokens(kind), true);
      report := Some(outcomes);
    }

    // The command of a claimed batch runs while others act; then it is completed.
    method RunClaimed(batch: Batch) returns (outcomes: seq<NotificationOutcome>)
      requires Valid() && batch.leaseToken == tokens(batch.kind)
      requires batch.leaseToken in world.open && batch.leaseToken in world.issued && world.issued[batch.leaseToken] == batch
      modifies `world, `worlds, `steps, `ticks, `gaps, store
      ensures Valid() && old(worlds) <= worlds && old(steps) <= steps
      ensures forall t :: t in Mine() ==> (t in world.used <==> t in old(world).used)
      ensures exists m :: |old(steps)| < m && ReportedAt(worlds, steps, m, batch.leaseToken, results(batch.kind), outcomes)
    {
      AllMine();
      Interfere();
      ghost var m := |steps| + 1;
      outcomes := CompleteBatch(batch);
      assert ReportedAt(worlds, steps, m, batch.leaseToken, results(batch.kind), outcomes);
    }

    lemma AllMine()
      ensures forall k: NotificationKind :: tokens(k) in Mine()
    {
      forall k: NotificationKind
        ensures tokens(k) in Mine()
      {
        match k {
          case Watch =>
          case Security =>
          case SecurityCondition =>
        }
      }
    }

    // Each kind has its turn: its candidates are claimed and the batch is completed, or
    // nothing of it can be claimed. The outcomes are exactly what those completions
    // reported, one kind after the other.
    method Dispatch(candidates: seq<Candidate>)
      returns (outcomes: seq<NotificationOutcome>, ghost reports: seq<Option<seq<NotificationOutcome>>>)
      requires Valid() && forall c :: c in candidates ==> LeaseProtocol.WellFormed(c.kind, c)
      requires UnusedFrom(tokens, 0, world.used)
      requires forall j: NotificationKind, k: NotificationKind :: tokens(j) == tokens(k) ==> j == k
      modifies `world, `worlds, `steps, `ticks, `gaps, store
      ensures Valid() && old(worlds) <= worlds && old(steps) <= steps
      ensures |reports| == |KINDS| && outcomes == Joined(reports)
      ensures Dispatched(worlds, steps, |old(steps)|, candidates, tokens, results, reports)
    {
      outcomes, reports := [], [];
      ghost var from := |steps|;
      for n := 0 to |KINDS|
        invariant Valid() && old(worlds) <= worlds && old(steps) <= steps && from == |old(steps)|
        invariant UnusedFrom(tokens, n, world.used) && outcomes == Joined(reports) && |reports| == n
        invariant Dispatched(worlds, steps, from, candidates, tokens, results, reports)
      {
        var report := Turn(n, candidates, reports, from);
        assert (reports + [report])[..n] == reports;
        reports := reports + [report];
        outcomes := outcomes + if report.Some? then report.value else [];
      }
    }

    method Turn(n: nat, candidates: seq<Candidate>, ghost reports: seq<Option<seq<NotificationOutcome>>>, ghost from: nat)
      returns (report: Option<seq<NotificationOutcome>>)
      requires Valid() && n == |reports| < |KINDS| && UnusedFrom(tokens, n, world.used) && from <= |steps|
      requires forall c :: c in candidates ==> LeaseProtocol.WellFormed(c.kind, c)
      requires forall j: NotificationKind, k: NotificationKind :: tokens(j) == tokens(k) ==> j == k
      requires Dispatched(worlds, steps, from, candidates, tokens, results, reports)
      modifies `world, `worlds, `steps, `ticks, `gaps, store
      ensures Valid() && old(worlds) <= worlds && old(steps) <= steps && UnusedFrom(tokens, n + 1, world.used)
      ensures Dispatched(worlds, steps, from, candidates, tokens, results, reports + [report])
    {
      var kind := KINDS[n];
      ghost var w0, s0, used := worlds, steps, world.used;
      OfKindWellFormed(candidates, kind);
      report := DispatchKind(kind, OfKind(candidates, kind));
      NextUnused(tokens, n, kind, used, world.used);
      StillTurned(worlds, steps, worlds, steps, from, |s0|, kind, OfKind(candidates, kind), tokens(kind), results(kind), report);
      OneMore(w0, s0, worlds, steps, from, candidates, tokens, results, reports, report);
    }
  }
}
