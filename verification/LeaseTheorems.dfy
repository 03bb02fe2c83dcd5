// What the lease protocol guarantees over every run.
module LeaseTheorems {
  import opened Wrappers
  import opened Records
  import opened Sorting
  import opened LedgerPruning
  import opened StateValidation
  import opened NotificationBatch
  import opened LeaseProtocol
  import Stars

  function ClaimedBy(w: World, step: Step): Batch
    requires step.Claim?
  {
    Batch(step.kind, ClaimableOf(w.state.ledger, step.candidates, step.now), step.token)
  }

  // One step and the owner of a kind: a claim takes it, its own completion
  // releases it, and nothing else touches it.
  lemma OwnerStep(w: World, step: Step, kind: NotificationKind)
    requires Inv(w) && Enabled(w, step)
    ensures Owner(Apply(w, step), kind) ==
            if SucceedsFor(w, step, kind) then Some(LeaseEntry(OwnerFingerprint(kind), step.now, step.token))
            else if step.Complete? && Owns(w, kind, step.done) then None
            else Owner(w, kind)
  {
    var next := Apply(w, step);
    match step
    case Claim(_, _, _, _) =>
      if Succeeds(w, step) {
        ClaimEffect(w, step);
        ClaimOwners(w, next, ClaimedBy(w, step), step.now);
      } else {
        ClaimReturnsReserved(w, step);
      }
    case Complete(token, result) =>
      if Owns(w, w.issued[token].kind, token) {
        CompleteEffect(w, step);
        CompleteOwners(w, next, w.issued[token], result);
      }
    case Crash(_) =>
    case Prune(now) => PruneEffect(w.state.ledger, now, OwnerFingerprint(kind));
    case Star(event) =>
      OwnerOutside(kind, Watch);
      StarEffect(w.state, event, OwnerFingerprint(kind));
  }

  // Exclusion

  ghost predicate NoClaimBetween(worlds: seq<World>, steps: seq<Step>, i: nat, j: nat, kind: NotificationKind)
    requires |worlds| == |steps| + 1 && j <= |steps|
  {
    forall m :: i < m < j ==> !SucceedsFor(worlds[m], steps[m], kind)
  }

  predicate NotCompletedBetween(steps: seq<Step>, i: nat, j: nat, token: string)
    requires j <= |steps|
  {
    forall m :: i < m < j ==> !(steps[m].Complete? && steps[m].done == token)
  }

  lemma OwnerAlong(worlds: seq<World>, steps: seq<Step>, m: nat, kind: NotificationKind)
    requires IsRun(worlds, steps) && m < |steps|
    ensures Owner(worlds[m + 1], kind) ==
            if SucceedsFor(worlds[m], steps[m], kind)
            then Some(LeaseEntry(OwnerFingerprint(kind), steps[m].now, steps[m].token))
            else if steps[m].Complete? && Owns(worlds[m], kind, steps[m].done) then None
            else Owner(worlds[m], kind)
  {
    RunInv(worlds, steps, m);
    OwnerStep(worlds[m], steps[m], kind);
  }

  // The owners of a kind along a run: taken by claims, released by their own completion.
  ghost predicate OwnerHistory(worlds: seq<World>, steps: seq<Step>, kind: NotificationKind) {
    && |worlds| == |steps| + 1
    && Owner(worlds[0], kind).None?
    && forall m :: 0 <= m < |steps| ==>
         Owner(worlds[m + 1], kind) ==
         if SucceedsFor(worlds[m], steps[m], kind)
         then Some(LeaseEntry(OwnerFingerprint(kind), steps[m].now, steps[m].token))
         else if steps[m].Complete? && Owns(worlds[m], kind, steps[m].done) then None
         else Owner(worlds[m], kind)
  }

  lemma RunOwnerHistory(worlds: seq<World>, steps: seq<Step>, kind: NotificationKind)
    requires IsRun(worlds, steps)
    ensures OwnerHistory(worlds, steps, kind)
  {
    forall m | 0 <= m < |steps|
      ensures Owner(worlds[m + 1], kind) ==
              if SucceedsFor(worlds[m], steps[m], kind)
              then Some(LeaseEntry(OwnerFingerprint(kind), steps[m].now, steps[m].token))
              else if steps[m].Complete? && Owns(worlds[m], kind, steps[m].done) then None
              else Owner(worlds[m], kind)
    {
      OwnerAlong(worlds, steps, m, kind);
    }
  }

  // A lease stays in place until its batch is completed or its kind is claimed again.
  lemma {:induction false} LeaseHeld(worlds: seq<World>, steps: seq<Step>, i: nat, j: nat, kind: NotificationKind)
    requires OwnerHistory(worlds, steps, kind) && i < j <= |steps|
    requires SucceedsFor(worlds[i], steps[i], kind)
    requires NoClaimBetween(worlds, steps, i, j, kind) && NotCompletedBetween(steps, i, j, steps[i].token)
    ensures Owner(worlds[j], kind) == Some(LeaseEntry(OwnerFingerprint(kind), steps[i].now, steps[i].token))
  {
    if i + 1 < j {
      LeaseHeld(worlds, steps, i, j - 1, kind);
    }
  }

  // Lease exclusion: of two consecutive successful claims of a kind, the second
  // comes at least 30 seconds after the first unless the first was completed.
  lemma LeaseExclusion(worlds: seq<World>, steps: seq<Step>, i: nat, j: nat, kind: NotificationKind)
    requires IsRun(worlds, steps) && i < j < |steps|
    requires SucceedsFor(worlds[i], steps[i], kind) && SucceedsFor(worlds[j], steps[j], kind)
    requires NoClaimBetween(worlds, steps, i, j, kind) && NotCompletedBetween(steps, i, j, steps[i].token)
    ensures steps[j].now >= steps[i].now + LEASE_DURATION
  {
    RunOwnerHistory(worlds, steps, kind);
    LeaseHeld(worlds, steps, i, j, kind);
  }

  ghost function Successes(worlds: seq<World>, steps: seq<Step>, kind: NotificationKind): (r: seq<bool>)
    requires |worlds| == |steps| + 1
    ensures |r| == |steps| && forall m :: 0 <= m < |steps| ==> r[m] == SucceedsFor(worlds[m], steps[m], kind)
  {
    seq(|steps|, m requires 0 <= m < |steps| => SucceedsFor(worlds[m], steps[m], kind))
  }

  function NextTrue(flags: seq<bool>, from: nat, last: nat): (m: nat)
    requires from <= last < |flags| && flags[last]
    ensures from <= m <= last && flags[m] && forall n :: from <= n < m ==> !flags[n]
    decreases last - from
  {
    if flags[from] then from else NextTrue(flags, from + 1, last)
  }

  // The first successful claim of a kind after another: the one that takes it over.
  ghost function TakeOver(worlds: seq<World>, steps: seq<Step>, i: nat, j: nat, kind: NotificationKind): (m: nat)
    requires |worlds| == |steps| + 1 && i < j < |steps| && SucceedsFor(worlds[j], steps[j], kind)
    ensures i < m <= j && SucceedsFor(worlds[m], steps[m], kind) && NoClaimBetween(worlds, steps, i, m, kind)
  {
    NextTrue(Successes(worlds, steps, kind), i + 1, j)
  }

  // The same holds of any two successful claims, as long as the clock has not gone
  // back since the claim that took over from the first.
  lemma LeaseExclusionAnyLater(worlds: seq<World>, steps: seq<Step>, i: nat, j: nat, kind: NotificationKind)
    requires IsRun(worlds, steps) && i < j < |steps|
    requires SucceedsFor(worlds[i], steps[i], kind) && SucceedsFor(worlds[j], steps[j], kind)
    requires NotCompletedBetween(steps, i, j, steps[i].token)
    requires steps[TakeOver(worlds, steps, i, j, kind)].now <= steps[j].now
    ensures steps[j].now >= steps[i].now + LEASE_DURATION
  {
    LeaseExclusion(worlds, steps, i, TakeOver(worlds, steps, i, j, kind), kind);
  }

  lemma ClaimOfOne(w: World, kind: NotificationKind, c: Candidate, now: Instant, token: string)
    ensures SucceedsFor(w, Claim(kind, [c], now, token), kind) <==>
            && (Owner(w, kind).None? || !LiveLease(Owner(w, kind).value, now))
            && Claimable(At(w, c.fingerprint), now)
  {
    assert [c][1..] == [];
  }

  // With a clock that goes back it does not hold of any two: a lease taken over
  // after it expired and completed by its new holder leaves the kind free, and a
  // claim timed inside the first lease then succeeds, though the first was never completed.
  lemma ClockMovedBack(w0: World, kind: NotificationKind, c: Candidate, s0: Step, s1: Step, s2: Step, s3: Step)
    requires Init(w0) && WellFormed(kind, c) && s0.Claim? && s1.Claim? && s2.Complete? && s3.Claim?
    requires s0 == Claim(kind, [c], s0.now, s0.token) && s1 == Claim(kind, [c], s0.now + LEASE_DURATION, s1.token)
    requires s2 == Step.Complete(s1.token, TimedOut) && s3 == Claim(kind, [c], s3.now, s3.token)
    requires s0.token != s1.token && s3.token !in {s0.token, s1.token} && s3.now < s0.now + LEASE_DURATION
    ensures Enabled(w0, s0) && SucceedsFor(w0, s0, kind)
    ensures Enabled(Apply(w0, s0), s1) && Enabled(Apply(Apply(w0, s0), s1), s2)
    ensures var w3 := Apply(Apply(Apply(w0, s0), s1), s2);
            Enabled(w3, s3) && SucceedsFor(w3, s3, kind)
  {
    TakenOver(w0, kind, c, s0, s1);
    var w2 := Apply(Apply(w0, s0), s1);
    assert Enabled(w2, s2);
    FreeAgain(w2, c, s2, s3);
  }

  lemma TakenOver(w0: World, kind: NotificationKind, c: Candidate, s0: Step, s1: Step)
    requires Init(w0) && WellFormed(kind, c) && s0.Claim? && s1.Claim? && s0.token != s1.token
    requires s0 == Claim(kind, [c], s0.now, s0.token) && s1 == Claim(kind, [c], s0.now + LEASE_DURATION, s1.token)
    ensures Enabled(w0, s0) && SucceedsFor(w0, s0, kind)
    ensures var w1 := Apply(w0, s0);
            && Enabled(w1, s1)
            && var w2 := Apply(w1, s1);
            && Inv(w2) && w2.used == {s0.token, s1.token} && s1.token in w2.open && s1.token in w2.issued
            && w2.issued[s1.token] == Batch(kind, [c], s1.token)
            && Owns(w2, kind, s1.token) && OwnedBy(At(w2, c.fingerprint), s1.token)
  {
    InitInv(w0);
    ClaimOfOne(w0, kind, c, s0.now, s0.token);
    SoleClaim(w0, s0, c);
    TakenAfterExpiry(Apply(w0, s0), kind, c, s0, s1);
  }

  lemma TakenAfterExpiry(w: World, kind: NotificationKind, c: Candidate, s0: Step, s1: Step)
    requires Inv(w) && WellFormed(kind, c) && s0.Claim? && s1.Claim? && w.used == {s0.token}
    requires Owner(w, kind) == Some(LeaseEntry(OwnerFingerprint(kind), s0.now, s0.token))
    requires At(w, c.fingerprint) == Some(LeaseEntry(c.fingerprint, s0.now, s0.token))
    requires s1 == Claim(kind, [c], s0.now + LEASE_DURATION, s1.token) && s0.token != s1.token
    ensures Enabled(w, s1)
    ensures var next := Apply(w, s1);
            && Inv(next) && next.used == {s0.token, s1.token} && s1.token in next.open && s1.token in next.issued
            && next.issued[s1.token] == Batch(kind, [c], s1.token)
            && Owns(next, kind, s1.token) && OwnedBy(At(next, c.fingerprint), s1.token)
  {
    ClaimOfOne(w, kind, c, s1.now, s1.token);
    SoleClaim(w, s1, c);
  }

  lemma FreeAgain(w: World, c: Candidate, s2: Step, s3: Step)
    requires Inv(w) && Enabled(w, s2) && s2.Complete? && s2.result == TimedOut && s3.Claim?
    requires w.issued[s2.done].candidates == [c] && Owns(w, w.issued[s2.done].kind, s2.done)
    requires OwnedBy(At(w, c.fingerprint), s2.done)
    requires s3 == Claim(w.issued[s2.done].kind, [c], s3.now, s3.token) && s3.token !in w.used
    ensures Enabled(Apply(w, s2), s3) && SucceedsFor(Apply(w, s2), s3, s3.kind)
  {
    FailedCompletion(w, s2, c);
    ClaimOfOne(Apply(w, s2), s3.kind, c, s3.now, s3.token);
  }

  // A failed delivery by the owner of a batch of one leaves the candidate pending
  // without a lease and the kind without an owner.
  lemma FailedCompletion(w: World, step: Step, c: Candidate)
    requires Inv(w) && Enabled(w, step) && step.Complete? && step.result == TimedOut
    requires w.issued[step.done].candidates == [c] && Owns(w, w.issued[step.done].kind, step.done)
    requires OwnedBy(At(w, c.fingerprint), step.done)
    ensures var next := Apply(w, step);
            && Owner(next, w.issued[step.done].kind).None? && next.used == w.used
            && At(next, c.fingerprint).Some?
            && At(next, c.fingerprint).value.status.Pending? && At(next, c.fingerprint).value.leaseToken.None?
  {
    var next := Apply(w, step);
    var batch := w.issued[step.done];
    assert c in batch.candidates;
    NotOwnerEntry(batch.kind, c.fingerprint);
    CompleteEffect(w, step);
    CompleteOwners(w, next, batch, TimedOut);
    assert CompletedAt(w, next, batch, TimedOut, c.fingerprint);
  }

  lemma SoleClaim(w: World, step: Step, c: Candidate)
    requires Inv(w) && Enabled(w, step) && step.Claim? && step.candidates == [c] && Succeeds(w, step)
    ensures var next := Apply(w, step);
            && Inv(next)
            && Owner(next, step.kind) == Some(LeaseEntry(OwnerFingerprint(step.kind), step.now, step.token))
            && At(next, c.fingerprint) == Some(LeaseEntry(c.fingerprint, step.now, step.token))
            && next.issued == w.issued[step.token := Batch(step.kind, [c], step.token)]
            && next.used == w.used + {step.token} && step.token in next.open
  {
    assert [c][1..] == [];
    assert ClaimableOf(w.state.ledger, [c], step.now) == [c];
    ClaimEffect(w, step);
    ClaimOwners(w, Apply(w, step), ClaimedBy(w, step), step.now);
    StepKeepsInv(w, step);
    ClaimReturnsReserved(w, step);
    assert ClaimedAt(w, Apply(w, step), ClaimedBy(w, step), step.now, c.fingerprint);
  }

  // Fencing

  // Tokens along a run: once drawn always drawn, and never drawn twice.
  ghost predicate TokenHistory(worlds: seq<World>, steps: seq<Step>) {
    && |worlds| == |steps| + 1
    && forall m :: 0 <= m < |steps| ==>
         worlds[m].used <= worlds[m + 1].used && (steps[m].Claim? ==> steps[m].token !in worlds[m].used)
  }

  lemma RunTokenHistory(worlds: seq<World>, steps: seq<Step>)
    requires IsRun(worlds, steps)
    ensures TokenHistory(worlds, steps)
  {
    forall m | 0 <= m < |steps|
      ensures worlds[m].used <= worlds[m + 1].used && (steps[m].Claim? ==> steps[m].token !in worlds[m].used)
    {
      assert Enabled(worlds[m], steps[m]) && worlds[m + 1] == Apply(worlds[m], steps[m]);
    }
  }

  // A token that was drawn and does not own a kind never owns it again.
  lemma {:induction false} OwnershipNeverReturns(worlds: seq<World>, steps: seq<Step>, i: nat, j: nat,
                                                 kind: NotificationKind, token: string)
    requires OwnerHistory(worlds, steps, kind) && TokenHistory(worlds, steps) && i <= j < |worlds|
    requires token in worlds[i].used && !Owns(worlds[i], kind, token)
    ensures token in worlds[j].used && !Owns(worlds[j], kind, token)
  {
    if i < j {
      OwnershipNeverReturns(worlds, steps, i, j - 1, kind, token);
    }
  }

  lemma NotOwnerCompletesNothing(w: World, step: Step)
    requires Inv(w) && Enabled(w, step) && step.Complete? && !Owns(w, w.issued[step.done].kind, step.done)
    ensures Apply(w, step).state == w.state
    ensures Outcomes(w.state.ledger, w.issued[step.done], step.result) == []
  {
    FilterNone((c: Candidate) => c.fingerprint in Completed(w.state.ledger, w.issued[step.done]),
               w.issued[step.done].candidates);
  }

  lemma IssuedStep(w: World, step: Step, token: string)
    requires Inv(w) && Enabled(w, step) && token in w.issued
    ensures token in Apply(w, step).issued && Apply(w, step).issued[token] == w.issued[token]
  {
    if step.Claim? {
      ClaimReturnsReserved(w, step);
    }
  }

  // An issued batch stays issued, unchanged.
  lemma {:induction false} IssuedStays(worlds: seq<World>, steps: seq<Step>, i: nat, j: nat, token: string)
    requires IsRun(worlds, steps) && i <= j < |worlds| && token in worlds[i].issued
    ensures token in worlds[j].issued && worlds[j].issued[token] == worlds[i].issued[token]
  {
    if i < j {
      IssuedStays(worlds, steps, i, j - 1, token);
      RunInv(worlds, steps, j - 1);
      IssuedStep(worlds[j - 1], steps[j - 1], token);
    }
  }

  // Fencing: once another claim has taken the kind, completing the old batch
  // changes nothing and reports nothing.
  lemma Fencing(worlds: seq<World>, steps: seq<Step>, i: nat, j: nat, m: nat, kind: NotificationKind)
    requires IsRun(worlds, steps) && i < j < m < |steps|
    requires SucceedsFor(worlds[i], steps[i], kind) && SucceedsFor(worlds[j], steps[j], kind)
    requires steps[m].Complete? && steps[m].done == steps[i].token
    ensures worlds[m + 1].state == worlds[m].state
    ensures Outcomes(worlds[m].state.ledger, worlds[m].issued[steps[m].done], steps[m].result) == []
  {
    var token := steps[i].token;
    RunInv(worlds, steps, i);
    RunInv(worlds, steps, j);
    RunInv(worlds, steps, m);
    ClaimEffect(worlds[i], steps[i]);
    IssuedStays(worlds, steps, i + 1, j, token);
    IssuedStays(worlds, steps, i + 1, m, token);
    OwnerStep(worlds[j], steps[j], kind);
    RunOwnerHistory(worlds, steps, kind);
    RunTokenHistory(worlds, steps);
    OwnershipNeverReturns(worlds, steps, j + 1, m, kind, token);
    NotOwnerCompletesNothing(worlds[m], steps[m]);
  }

  // Completion

  function Surviving(w: World, batch: Batch): seq<Candidate> {
    Filter((c: Candidate) => At(w, c.fingerprint).Some?, batch.candidates)
  }

  // A completion by the owner finalises exactly the batch's surviving entries,
  // releases the kind and leaves every other entry alone.
  lemma CompletionFinalises(worlds: seq<World>, steps: seq<Step>, m: nat, f: string)
    requires IsRun(worlds, steps) && m < |steps| && steps[m].Complete?
    requires Owns(worlds[m], worlds[m].issued[steps[m].done].kind, steps[m].done)
    ensures FinalisedAt(worlds[m], steps[m], f, worlds[m + 1])
  {
    RunInv(worlds, steps, m);
    CompletionStep(worlds[m], steps[m], f);
  }

  ghost predicate FinalisedAt(w: World, step: Step, f: string, next: World)
    requires step.Complete? && step.done in w.issued
  {
    var batch := w.issued[step.done];
    && At(next, f) == (
         if f == OwnerFingerprint(batch.kind) then None
         else if Names(batch.candidates, f) && At(w, f).Some?
         then Some(LedgerEntry(f, DeliveryStatus(step.result, First), At(w, f).value.recordedAt, None, None))
         else At(w, f))
    && (Names(batch.candidates, f) && At(w, f).Some? ==>
          At(next, f).Some? && CarriesResult(At(next, f).value.status, step.result))
    && (Names(batch.candidates, f) && At(w, f).Some? ==>
          At(w, f).value.status.Pending? && At(w, f).value.leaseToken == Some(step.done))
  }

  lemma CompletionStep(w: World, step: Step, f: string)
    requires Inv(w) && Enabled(w, step) && step.Complete? && Owns(w, w.issued[step.done].kind, step.done)
    ensures FinalisedAt(w, step, f, Apply(w, step))
  {
    var batch := w.issued[step.done];
    CompleteEffect(w, step);
    assert CompletedAt(w, Apply(w, step), batch, step.result, f);
    StatusCarriesResult(step.result, First);
    if Names(batch.candidates, f) {
      NamedInNamespace(batch.candidates, batch.kind, f);
      NotOwnerEntry(batch.kind, f);
    }
  }

  // What a completion reports is the surviving candidates, each with the status
  // the ledger then holds: delivered exactly when the command succeeded, failed
  // exactly when it was rejected, and pending otherwise.
  lemma ReportsMatchLedger(worlds: seq<World>, steps: seq<Step>, m: nat)
    requires IsRun(worlds, steps) && m < |steps| && steps[m].Complete?
    requires Owns(worlds[m], worlds[m].issued[steps[m].done].kind, steps[m].done)
    ensures ReportsSurvivors(worlds[m], steps[m], worlds[m + 1])
  {
    RunInv(worlds, steps, m);
    ReportsStep(worlds[m], steps[m]);
  }

  ghost predicate ReportsSurvivors(w: World, step: Step, next: World)
    requires step.Complete? && step.done in w.issued
  {
    var outcomes := Outcomes(w.state.ledger, w.issued[step.done], step.result);
    && Map((o: NotificationOutcome) => o.fingerprint, outcomes)
       == Map((c: Candidate) => c.fingerprint, Surviving(w, w.issued[step.done]))
    && forall o :: o in outcomes ==>
         && At(next, o.fingerprint).Some? && At(next, o.fingerprint).value.status == o.status
         && CarriesResult(o.status, step.result)
  }

  lemma ReportsStep(w: World, step: Step)
    requires Inv(w) && Enabled(w, step) && step.Complete? && Owns(w, w.issued[step.done].kind, step.done)
    ensures ReportsSurvivors(w, step, Apply(w, step))
  {
    var batch := w.issued[step.done];
    OutcomesCarryResult(w.state.ledger, batch, step.result);
    forall c | c in batch.candidates
      ensures c.fingerprint in Completed(w.state.ledger, batch) <==> At(w, c.fingerprint).Some?
    {
      CompletionStep(w, step, c.fingerprint);
      CompletedMember(w, batch, c);
    }
    var completed := Completed(w.state.ledger, batch);
    var survivors := Filter((c: Candidate) => c.fingerprint in completed, batch.candidates);
    FilterSame((c: Candidate) => c.fingerprint in completed, (c: Candidate) => At(w, c.fingerprint).Some?,
               batch.candidates);
    var outcomes := Outcomes(w.state.ledger, batch, step.result);
    assert |outcomes| == |survivors|;
    forall o | o in outcomes
      ensures At(Apply(w, step), o.fingerprint).Some? && At(Apply(w, step), o.fingerprint).value.status == o.status
    {
      var n :| 0 <= n < |outcomes| && outcomes[n] == o;
      assert survivors[n] in survivors;
      SurvivorRecorded(w, step, survivors[n]);
    }
  }

  lemma SurvivorRecorded(w: World, step: Step, c: Candidate)
    requires Inv(w) && Enabled(w, step) && step.Complete? && Owns(w, w.issued[step.done].kind, step.done)
    requires c in w.issued[step.done].candidates && At(w, c.fingerprint).Some?
    ensures At(Apply(w, step), c.fingerprint).Some?
    ensures At(Apply(w, step), c.fingerprint).value.status == DeliveryStatus(step.result, c.change)
  {
    var batch := w.issued[step.done];
    CompletionStep(w, step, c.fingerprint);
    NotOwnerEntry(batch.kind, c.fingerprint);
  }

  lemma CompletedMember(w: World, batch: Batch, c: Candidate)
    requires UniqueFingerprints(w.state.ledger) && OwnsOwner(w.state.ledger, batch.kind, batch.leaseToken)
    requires c in batch.candidates
    requires At(w, c.fingerprint).Some? ==> At(w, c.fingerprint).value.leaseToken == Some(batch.leaseToken)
    ensures c.fingerprint in Completed(w.state.ledger, batch) <==> At(w, c.fingerprint).Some?
  {
    if At(w, c.fingerprint).Some? {
      assert Finalises(batch, At(w, c.fingerprint).value);
    }
  }

  // Final entries

  // No claim, completion or star step changes a final entry; pruning keeps or drops it.
  lemma FinalStep(w: World, step: Step, f: string)
    requires Inv(w) && Enabled(w, step) && At(w, f).Some? && !At(w, f).value.IsActive()
    ensures At(Apply(w, step), f) == At(w, f) || (step.Prune? && At(Apply(w, step), f).None?)
  {
    var next := Apply(w, step);
    forall k: NotificationKind
      ensures f != OwnerFingerprint(k)
    {
      assert Owner(w, k) == At(w, OwnerFingerprint(k));
    }
    match step
    case Claim(_, _, _, _) =>
      if Succeeds(w, step) {
        ClaimEffect(w, step);
        assert ClaimedAt(w, next, ClaimedBy(w, step), step.now, f);
      } else {
        ClaimReturnsReserved(w, step);
      }
    case Complete(token, result) =>
      if Owns(w, w.issued[token].kind, token) {
        CompleteEffect(w, step);
        assert CompletedAt(w, next, w.issued[token], result, f);
      }
    case Crash(_) =>
    case Prune(now) => PruneEffect(w.state.ledger, now, f);
    case Star(event) => StarEffect(w.state, event, f);
  }

  predicate PrunedBetween(worlds: seq<World>, steps: seq<Step>, i: nat, j: nat, f: string)
    requires |worlds| == |steps| + 1 && j <= |steps|
  {
    exists m :: i <= m < j && steps[m].Prune? && At(worlds[m], f).Some? && At(worlds[m + 1], f).None?
  }

  lemma {:induction false} FinalForever(worlds: seq<World>, steps: seq<Step>, i: nat, j: nat, f: string)
    requires IsRun(worlds, steps) && i <= j <= |steps|
    requires At(worlds[i], f).Some? && !At(worlds[i], f).value.IsActive()
    ensures At(worlds[j], f) == At(worlds[i], f) || PrunedBetween(worlds, steps, i, j, f)
  {
    if i < j {
      FinalForever(worlds, steps, i, j - 1, f);
      if At(worlds[j - 1], f) == At(worlds[i], f) {
        RunInv(worlds, steps, j - 1);
        FinalStep(worlds[j - 1], steps[j - 1], f);
        assert worlds[j - 1 + 1] == Apply(worlds[j - 1], steps[j - 1]);
        assert steps[j - 1].Prune? && At(worlds[j], f).None? ==> PrunedBetween(worlds, steps, i, j, f);
      } else {
        var m :| i <= m < j - 1 && steps[m].Prune? && At(worlds[m], f).Some? && At(worlds[m + 1], f).None?;
      }
    }
  }

  predicate ReportsDelivered(w: World, step: Step, f: string) {
    && step.Complete? && step.done in w.issued
    && NotificationOutcome(f, Delivered) in Outcomes(w.state.ledger, w.issued[step.done], step.result)
  }

  // At most once: a fingerprint is reported delivered twice only if its entry was
  // pruned away in between.
  lemma DeliveredOnce(worlds: seq<World>, steps: seq<Step>, i: nat, j: nat, f: string)
    requires IsRun(worlds, steps) && i < j < |steps|
    requires ReportsDelivered(worlds[i], steps[i], f) && ReportsDelivered(worlds[j], steps[j], f)
    ensures PrunedBetween(worlds, steps, i + 1, j, f)
  {
    RunInv(worlds, steps, i);
    RunInv(worlds, steps, j);
    ReportedIsPending(worlds[i], steps[i], f);
    ReportedIsPending(worlds[j], steps[j], f);
    FinalForever(worlds, steps, i + 1, j, f);
  }

  lemma ReportedIsPending(w: World, step: Step, f: string)
    requires Inv(w) && Enabled(w, step) && ReportsDelivered(w, step, f)
    ensures At(w, f).Some? && At(w, f).value.IsActive()
    ensures At(Apply(w, step), f).Some? && At(Apply(w, step), f).value.status == Delivered
  {
    var batch := w.issued[step.done];
    var outcomes := Outcomes(w.state.ledger, batch, step.result);
    assert outcomes != [];
    assert Owns(w, batch.kind, step.done) by {
      if !Owns(w, batch.kind, step.done) {
        NotOwnerCompletesNothing(w, step);
      }
    }
    ReportsStep(w, step);
    var n :| 0 <= n < |outcomes| && outcomes[n] == NotificationOutcome(f, Delivered);
    var survivors := Surviving(w, batch);
    assert Map((o: NotificationOutcome) => o.fingerprint, outcomes)[n]
           == Map((c: Candidate) => c.fingerprint, survivors)[n];
    assert survivors[n] in survivors;
    CompletionStep(w, step, f);
  }

  // Supersession

  // Right after a successful claim the only pending entries under its references are its own.
  lemma Supersession(w: World, step: Step, f: string)
    requires Inv(w) && Enabled(w, step) && Succeeds(w, step)
    requires Refers(ClaimedBy(w, step).candidates, f)
    requires At(Apply(w, step), f).Some? && At(Apply(w, step), f).value.status.Pending?
    ensures Names(ClaimedBy(w, step).candidates, f)
  {
    ClaimEffect(w, step);
    var batch := ClaimedBy(w, step);
    assert ClaimedAt(w, Apply(w, step), batch, step.now, f);
    NamedInNamespace(batch.candidates, batch.kind, f);
    NotOwnerEntry(batch.kind, f);
  }

  lemma PrefixCancels(p: string, x: string, y: string)
    ensures p + x <= p + y <==> x <= y
  {
    if p + x <= p + y {
      assert forall i :: 0 <= i < |x| ==> x[i] == (p + x)[|p| + i] && y[i] == (p + y)[|p| + i];
    }
  }

  // A watch's reference reaches the fingerprint of another item exactly when that
  // item's identifier extends its own by a colon and more, or when its own extends
  // the other's and the rest starts the other's digests.
  lemma ReferenceReaches(a: string, b: string, installed: string, candidate: string)
    ensures Stars.WatchPrefix(a) <= WatchCandidate(b, installed, candidate, First).fingerprint
            <==> || a == b
                 || a + ":" <= b
                 || (b + ":" <= a && a[|b| + 1..] + ":" <= installed + ":" + candidate)
  {
    var tail := installed + ":" + candidate;
    assert WatchCandidate(b, installed, candidate, First).fingerprint == "watch-v1:" + (b + ":" + tail);
    assert Stars.WatchPrefix(a) == "watch-v1:" + (a + ":");
    PrefixCancels("watch-v1:", a + ":", b + ":" + tail);
    if |a| <= |b| {
      ShorterReaches(a, b, tail);
    } else {
      LongerReaches(a, b, tail);
    }
  }

  lemma ShorterReaches(a: string, b: string, tail: string)
    requires |a| <= |b|
    ensures a + ":" <= b + ":" + tail <==> a == b || a + ":" <= b
  {
    if a + ":" <= b + ":" + tail {
      assert (b + ":" + tail)[..|a|] == b[..|a|] && (a + ":")[..|a|] == a;
      if |a| < |b| {
        assert (b + ":" + tail)[..|a| + 1] == b[..|a| + 1];
      }
    }
  }

  lemma LongerReaches(a: string, b: string, tail: string)
    requires |a| > |b|
    ensures a + ":" <= b + ":" + tail <==> b + ":" <= a && a[|b| + 1..] + ":" <= tail
  {
    if a + ":" <= b + ":" + tail {
      assert (b + ":" + tail)[..|b| + 1] == b + ":";
      assert (a + ":")[..|b| + 1] == a[..|b| + 1];
      assert (b + ":" + tail)[..|b| + 1] == (a + ":")[..|b| + 1];
    }
    if b + ":" <= a {
      assert a + ":" == (b + ":") + (a[|b| + 1..] + ":");
      PrefixCancels(b + ":", a[|b| + 1..] + ":", tail);
    }
  }

  // With digests that contain no colon the rest has to be the installed digest.
  lemma DigestReaches(a: string, b: string, installed: string, candidate: string)
    requires ':' !in installed && ':' !in candidate
    ensures Stars.WatchPrefix(a) <= WatchCandidate(b, installed, candidate, First).fingerprint
            <==> a == b || a + ":" <= b || a == b + ":" + installed
  {
    ReferenceReaches(a, b, installed, candidate);
    if b + ":" <= a {
      var rest, tail := a[|b| + 1..], installed + ":" + candidate;
      assert a == b + ":" + rest;
      if rest + ":" <= tail {
        assert tail[|rest|] == (rest + ":")[|rest|] == ':';
        assert rest == tail[..|rest|] == installed;
      }
      assert rest == installed ==> rest + ":" <= tail;
      assert b + ":" + rest == b + ":" + installed ==> rest == installed by {
        PrefixCancels(b + ":", rest, installed);
        PrefixCancels(b + ":", installed, rest);
      }
    }
  }

  const NPM_WATCH := WatchCandidate("mise:npm", "0", "1", First)
  const NPM_X_WATCH := WatchCandidate("mise:npm:x", "0", "1", First)

  lemma NpmReachesX()
    ensures NPM_WATCH.reference <= NPM_X_WATCH.fingerprint && NPM_WATCH.fingerprint != NPM_X_WATCH.fingerprint
    ensures WellFormed(Watch, NPM_WATCH) && WellFormed(Watch, NPM_X_WATCH)
  {
    assert "mise:npm" + ":" <= "mise:npm:x";
    ReferenceReaches("mise:npm", "mise:npm:x", "0", "1");
    PolicyCandidatesWellFormed("mise:npm", "0", "1", First);
    PolicyCandidatesWellFormed("mise:npm:x", "0", "1", First);
  }

  // A notification of mise:npm:x whose delivery timed out is waiting; claiming one of
  // mise:npm suppresses it, so that it is never shown.
  lemma ReferenceCollision(w0: World, s0: Step, s1: Step, s2: Step)
    requires Init(w0) && s0.Claim? && s2.Claim? && s0.token != s2.token
    requires s0 == Claim(Watch, [NPM_X_WATCH], s0.now, s0.token) && s1 == Step.Complete(s0.token, TimedOut)
    requires s2 == Claim(Watch, [NPM_WATCH], s2.now, s2.token)
    ensures Enabled(w0, s0) && Enabled(Apply(w0, s0), s1) && Enabled(Apply(Apply(w0, s0), s1), s2)
    ensures var w2 := Apply(Apply(w0, s0), s1);
            && At(w2, NPM_X_WATCH.fingerprint).Some? && At(w2, NPM_X_WATCH.fingerprint).value.status.Pending?
            && At(Apply(w2, s2), NPM_X_WATCH.fingerprint).Some?
            && At(Apply(w2, s2), NPM_X_WATCH.fingerprint).value.status.Suppressed?
  {
    NpmReachesX();
    NotOwnerEntry(Watch, NPM_WATCH.fingerprint);
    NotOwnerEntry(Watch, NPM_X_WATCH.fingerprint);
    WaitingAfterTimeOut(w0, NPM_X_WATCH, s0, s1, NPM_WATCH.fingerprint);
    ClaimOfOne(Apply(Apply(w0, s0), s1), Watch, NPM_WATCH, s2.now, s2.token);
    PendingSuppressed(Apply(Apply(w0, s0), s1), s2, NPM_WATCH, NPM_X_WATCH.fingerprint);
  }

  // A claim that timed out leaves its candidate pending, no owner, and no other entry.
  lemma WaitingAfterTimeOut(w0: World, c: Candidate, s0: Step, s1: Step, other: string)
    requires Init(w0) && s0.Claim? && s0 == Claim(s0.kind, [c], s0.now, s0.token) && WellFormed(s0.kind, c)
    requires s1 == Step.Complete(s0.token, TimedOut) && other != c.fingerprint && other != OwnerFingerprint(s0.kind)
    ensures Enabled(w0, s0) && Enabled(Apply(w0, s0), s1)
    ensures var w := Apply(Apply(w0, s0), s1);
            && Inv(w) && w.used == {s0.token} && Owner(w, s0.kind).None? && At(w, other).None?
            && At(w, c.fingerprint).Some? && At(w, c.fingerprint).value.status.Pending?
  {
    InitInv(w0);
    ClaimOfOne(w0, s0.kind, c, s0.now, s0.token);
    SoleClaim(w0, s0, c);
    OtherUntouched(w0, c, s0, other);
    TimedOutLeaves(Apply(w0, s0), c, s1, other);
  }

  lemma TimedOutLeaves(w: World, c: Candidate, step: Step, other: string)
    requires Inv(w) && Enabled(w, step) && step.Complete? && step.result == TimedOut && At(w, other).None?
    requires w.issued[step.done].candidates == [c] && Owns(w, w.issued[step.done].kind, step.done)
    requires OwnedBy(At(w, c.fingerprint), step.done)
    ensures var next := Apply(w, step);
            && Inv(next) && next.used == w.used && Owner(next, w.issued[step.done].kind).None? && At(next, other).None?
            && At(next, c.fingerprint).Some? && At(next, c.fingerprint).value.status.Pending?
  {
    FailedCompletion(w, step, c);
    StepKeepsInv(w, step);
    CompletionStep(w, step, other);
  }

  lemma OtherUntouched(w: World, c: Candidate, step: Step, other: string)
    requires Inv(w) && Enabled(w, step) && Succeeds(w, step) && step == Claim(step.kind, [c], step.now, step.token)
    requires other != c.fingerprint && other != OwnerFingerprint(step.kind) && At(w, other).None?
    ensures At(Apply(w, step), other).None?
  {
    ClaimEffect(w, step);
    assert forall d :: d in ClaimableOf(w.state.ledger, [c], step.now) ==> d == c;
    assert ClaimedAt(w, Apply(w, step), ClaimedBy(w, step), step.now, other);
  }

  // A claim of one candidate suppresses whatever else is pending under its reference.
  lemma PendingSuppressed(w: World, step: Step, c: Candidate, f: string)
    requires Inv(w) && Enabled(w, step) && Succeeds(w, step) && step == Claim(step.kind, [c], step.now, step.token)
    requires c.reference <= f && f != c.fingerprint && f != OwnerFingerprint(step.kind)
    requires At(w, f).Some? && At(w, f).value.status.Pending?
    ensures At(Apply(w, step), f) == Some(At(w, f).value.(status := Suppressed))
  {
    ClaimEffect(w, step);
    var claimed := ClaimedBy(w, step).candidates;
    assert forall d :: d in claimed ==> d == c;
    assert claimed[0] in claimed;
    assert ClaimedAt(w, Apply(w, step), ClaimedBy(w, step), step.now, f);
  }

  // Likewise, un-starring mise:npm drops what is waiting for mise:npm:x.
  lemma StarCollision(s: PersistentState, inventory: seq<Stars.CachedItem>, entry: LedgerEntry)
    requires s.watches == [PermanentWatch("mise:npm"), PermanentWatch("mise:npm:x")] && s.ledger == [entry]
    requires entry.fingerprint == NPM_X_WATCH.fingerprint && entry.IsActive()
    ensures Stars.Transition(s, Stars.StarClick("mise:npm", inventory, true))
            == Ok(s.(watches := [PermanentWatch("mise:npm:x")], ledger := []))
  {
    NpmReachesX();
    var removed := PermanentWatch("mise:npm");
    var p := (w: WatchRecord) => w != removed;
    assert s.watches[1..] == [PermanentWatch("mise:npm:x")] && s.watches[1..][1..] == [];
    assert Filter(p, s.watches[1..]) == [PermanentWatch("mise:npm:x")];
    assert Filter(p, s.watches) == Filter(p, s.watches[1..]);
    assert NPM_WATCH.reference == Stars.WatchPrefix("mise:npm");
    assert [entry][1..] == [];
  }

  // Progress

  // Pending leases are those of the kind's current owner, or have expired by the clock.
  ghost predicate TimedAt(w: World, f: string, k: NotificationKind) {
    InNamespace(k, f) && At(w, f).Some? && At(w, f).value.status.Pending? && At(w, f).value.leaseToken.Some? ==>
      var e := At(w, f).value;
      && e.leaseExpiresAt.Some?
      && (e.leaseExpiresAt.value <= w.clock
          || (Owns(w, k, e.leaseToken.value) && Owner(w, k).value.leaseExpiresAt == e.leaseExpiresAt))
  }

  ghost predicate LeasesTimed(w: World) {
    forall f, k :: TimedAt(w, f, k)
  }

  ghost predicate Forward(w: World, step: Step) {
    step.Claim? ==> w.clock <= step.now
  }

  lemma TimedClaim(w: World, next: World, batch: Batch, now: Instant, f: string, k: NotificationKind)
    requires Inv(w) && TimedAt(w, f, k) && ClaimPost(w, next, batch, now)
    requires Owner(w, batch.kind).None? || !LiveLease(Owner(w, batch.kind).value, now)
    requires w.clock <= now && next.clock == now
    ensures TimedAt(next, f, k)
  {
    if InNamespace(k, f) {
      NotOwnerEntry(k, f);
      ClaimOwners(w, next, batch, now);
      assert ClaimedAt(w, next, batch, now, f);
      NamedInNamespace(batch.candidates, batch.kind, f);
    }
  }

  lemma TimedComplete(w: World, next: World, batch: Batch, result: CommandResult, f: string, k: NotificationKind)
    requires Inv(w) && TimedAt(w, f, k) && CompletePost(w, next, batch, result) && next.clock == w.clock
    requires Owns(w, batch.kind, batch.leaseToken)
    ensures TimedAt(next, f, k)
  {
    if InNamespace(k, f) {
      NotOwnerEntry(k, f);
      CompleteOwners(w, next, batch, result);
      assert CompletedAt(w, next, batch, result, f);
      if At(w, f).Some? && At(w, f).value.leaseToken == Some(batch.leaseToken) {
        assert Names(batch.candidates, f);
      }
    }
  }

  lemma TimedOther(w: World, next: World, f: string, k: NotificationKind)
    requires TimedAt(w, f, k) && w.clock <= next.clock
    requires At(next, f).Some? ==> At(next, f) == At(w, f)
    requires Owner(next, k) == Owner(w, k)
    ensures TimedAt(next, f, k)
  {
  }

  lemma TimedStep(w: World, step: Step)
    requires Inv(w) && LeasesTimed(w) && Enabled(w, step) && Forward(w, step)
    ensures LeasesTimed(Apply(w, step))
  {
    var next := Apply(w, step);
    forall f, k
      ensures TimedAt(next, f, k)
    {
      assert TimedAt(w, f, k);
      OwnerStep(w, step, k);
      match step
      case Claim(_, _, _, _) =>
        ClaimReturnsReserved(w, step);
        if Succeeds(w, step) {
          ClaimEffect(w, step);
          TimedClaim(w, next, ClaimedBy(w, step), step.now, f, k);
        } else {
          TimedOther(w, next, f, k);
        }
      case Complete(token, result) =>
        if Owns(w, w.issued[token].kind, token) {
          CompleteEffect(w, step);
          TimedComplete(w, next, w.issued[token], result, f, k);
        } else {
          NotOwnerCompletesNothing(w, step);
        }
      case Crash(_) =>
      case Prune(now) =>
        PruneEffect(w.state.ledger, now, f);
        TimedOther(w, next, f, k);
      case Star(event) =>
        StarEffect(w.state, event, f);
        TimedOther(w, next, f, k);
    }
  }

  ghost predicate ForwardRun(worlds: seq<World>, steps: seq<Step>) {
    IsRun(worlds, steps) && forall i :: 0 <= i < |steps| ==> Forward(worlds[i], steps[i])
  }

  lemma {:induction false} RunTimed(worlds: seq<World>, steps: seq<Step>, i: nat)
    requires ForwardRun(worlds, steps) && i < |worlds|
    ensures LeasesTimed(worlds[i])
  {
    if i > 0 {
      RunTimed(worlds, steps, i - 1);
      RunInv(worlds, steps, i - 1);
      TimedStep(worlds[i - 1], steps[i - 1]);
    }
  }

  // An owner entry is the lease of some earlier claim.
  lemma {:induction false} OwnerFromClaim(worlds: seq<World>, steps: seq<Step>, j: nat, kind: NotificationKind)
    requires OwnerHistory(worlds, steps, kind) && j < |worlds| && Owner(worlds[j], kind).Some?
    ensures exists i :: 0 <= i < j && SucceedsFor(worlds[i], steps[i], kind)
              && Owner(worlds[j], kind).value.leaseExpiresAt == Some(steps[i].now + LEASE_DURATION)
  {
    if !SucceedsFor(worlds[j - 1], steps[j - 1], kind) {
      OwnerFromClaim(worlds, steps, j - 1, kind);
    }
  }

  // The candidates that are still waiting: absent from the ledger or pending.
  function Waiting(w: World, candidates: seq<Candidate>): seq<Candidate> {
    Filter((c: Candidate) => At(w, c.fingerprint).None? || At(w, c.fingerprint).value.status.Pending?, candidates)
  }

  predicate Unowned(w: World, kind: NotificationKind, now: Instant) {
    Owner(w, kind).None? || !LiveLease(Owner(w, kind).value, now)
  }

  lemma WaitingIsClaimable(w: World, kind: NotificationKind, f: string, now: Instant)
    requires InNamespace(kind, f) && TimedAt(w, f, kind) && w.clock <= now && Unowned(w, kind, now)
    ensures Claimable(At(w, f), now) == (At(w, f).None? || At(w, f).value.status.Pending?)
  {
  }

  lemma WaitingAreClaimable(w: World, kind: NotificationKind, candidates: seq<Candidate>, now: Instant)
    requires LeasesTimed(w) && w.clock <= now && Unowned(w, kind, now)
    requires forall c :: c in candidates ==> WellFormed(kind, c)
    ensures ClaimableOf(w.state.ledger, candidates, now) == Waiting(w, candidates)
  {
    forall c | c in candidates
      ensures Claimable(Entry(w.state.ledger, c.fingerprint), now)
              == (At(w, c.fingerprint).None? || At(w, c.fingerprint).value.status.Pending?)
    {
      assert TimedAt(w, c.fingerprint, kind);
      WaitingIsClaimable(w, kind, c.fingerprint, now);
    }
    FilterSame((c: Candidate) => Claimable(Entry(w.state.ledger, c.fingerprint), now),
               (c: Candidate) => At(w, c.fingerprint).None? || At(w, c.fingerprint).value.status.Pending?, candidates);
  }

  // While no owner is live, every waiting candidate can be claimed.
  lemma UnownedIsClaimable(worlds: seq<World>, steps: seq<Step>, kind: NotificationKind,
                           candidates: seq<Candidate>, now: Instant)
    requires ForwardRun(worlds, steps)
    requires forall c :: c in candidates ==> WellFormed(kind, c)
    requires worlds[|steps|].clock <= now && Unowned(worlds[|steps|], kind, now)
    ensures var w := worlds[|steps|];
            && ClaimableOf(w.state.ledger, candidates, now) == Waiting(w, candidates)
            && (Reserves(w.state.ledger, kind, candidates, now) <==> Waiting(w, candidates) != [])
  {
    RunTimed(worlds, steps, |steps|);
    WaitingAreClaimable(worlds[|steps|], kind, candidates, now);
  }

  // Progress: 30 seconds after the last claim of a kind, whether or not its
  // process crashed, a claim takes every waiting candidate.
  lemma ProgressAfterExpiry(worlds: seq<World>, steps: seq<Step>, claim: Step)
    requires ForwardRun(worlds, steps) && claim.Claim? && Enabled(worlds[|steps|], claim)
    requires Forward(worlds[|steps|], claim)
    requires forall i :: 0 <= i < |steps| && SucceedsFor(worlds[i], steps[i], claim.kind) ==>
               steps[i].now + LEASE_DURATION <= claim.now
    ensures var w := worlds[|steps|];
            var next := Apply(w, claim);
            Waiting(w, claim.candidates) != [] ==>
              && claim.token in next.issued
              && next.issued[claim.token] == Batch(claim.kind, Waiting(w, claim.candidates), claim.token)
  {
    var w := worlds[|steps|];
    RunInv(worlds, steps, |steps|);
    if Owner(w, claim.kind).Some? {
      RunOwnerHistory(worlds, steps, claim.kind);
      OwnerFromClaim(worlds, steps, |steps|, claim.kind);
    }
    UnownedIsClaimable(worlds, steps, claim.kind, claim.candidates, claim.now);
    ClaimReturnsReserved(w, claim);
  }

  // Progress: right after the owner's completion, whatever its result, so does any claim.
  lemma ProgressAfterCompletion(worlds: seq<World>, steps: seq<Step>, claim: Step)
    requires ForwardRun(worlds, steps) && steps != [] && claim.Claim? && Enabled(worlds[|steps|], claim)
    requires Forward(worlds[|steps|], claim)
    requires var last := |steps| - 1;
             steps[last].Complete? && Owns(worlds[last], claim.kind, steps[last].done)
    ensures var w := worlds[|steps|];
            var next := Apply(w, claim);
            Waiting(w, claim.candidates) != [] ==>
              && claim.token in next.issued
              && next.issued[claim.token] == Batch(claim.kind, Waiting(w, claim.candidates), claim.token)
  {
    var last := |steps| - 1;
    RunInv(worlds, steps, last);
    RunInv(worlds, steps, |steps|);
    OwnerStep(worlds[last], steps[last], claim.kind);
    UnownedIsClaimable(worlds, steps, claim.kind, claim.candidates, claim.now);
    ClaimReturnsReserved(worlds[|steps|], claim);
  }
}
