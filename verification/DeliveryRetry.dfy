// What becomes of a batch's notifications after its command has run: which of them
// the next claim of the kind takes again.
module DeliveryRetry {
  import opened Wrappers
  import opened Records
  import opened Sorting
  import opened LedgerPruning
  import opened NotificationBatch
  import opened LeaseProtocol
  import opened LeaseTheorems
  import Stars

  // A fingerprint that any claim may take: absent, or pending without a lease.
  predicate Free(e: Option<LedgerEntry>) {
    e.None? || (e.value.status.Pending? && e.value.leaseToken.None?)
  }

  // A completion by the owner frees what has to be tried again and makes the rest final.
  lemma FreedByCompletion(w: World, step: Step, f: string)
    requires Inv(w) && Enabled(w, step) && step.Complete? && Owns(w, w.issued[step.done].kind, step.done)
    requires Names(w.issued[step.done].candidates, f) && At(w, f).Some?
    ensures var after := At(Apply(w, step), f);
            && after.Some?
            && (if step.result == Succeeded || step.result == Rejected then !after.value.IsActive() else Free(after))
  {
    CompletionStep(w, step, f);
    NamedInNamespace(w.issued[step.done].candidates, w.issued[step.done].kind, f);
    NotOwnerEntry(w.issued[step.done].kind, f);
  }

  // What is free stays free until its own kind is claimed.
  lemma FreeStep(w: World, step: Step, kind: NotificationKind, f: string)
    requires Inv(w) && Enabled(w, step) && InNamespace(kind, f) && Free(At(w, f)) && !SucceedsFor(w, step, kind)
    ensures Free(At(Apply(w, step), f))
  {
    var next := Apply(w, step);
    NotOwnerEntry(kind, f);
    match step
    case Claim(_, _, _, _) =>
      if Succeeds(w, step) {
        ClaimEffect(w, step);
        NamedInNamespace(ClaimedBy(w, step).candidates, step.kind, f);
        assert ClaimedAt(w, next, ClaimedBy(w, step), step.now, f);
      } else {
        ClaimReturnsReserved(w, step);
      }
    case Complete(token, result) =>
      if Owns(w, w.issued[token].kind, token) {
        CompleteEffect(w, step);
        assert CompletedAt(w, next, w.issued[token], result, f);
      } else {
        NotOwnerCompletesNothing(w, step);
      }
    case Crash(_) =>
    case Prune(now) => PruneEffect(w.state.ledger, now, f);
    case Star(event) => StarEffect(w.state, event, f);
  }

  lemma {:induction false} FreeStays(entries: seq<Option<LedgerEntry>>, i: nat, j: nat)
    requires i <= j < |entries| && Free(entries[i])
    requires forall m :: i <= m < j ==> Free(entries[m]) ==> Free(entries[m + 1])
    ensures Free(entries[j])
  {
    if i < j {
      FreeStays(entries, i, j - 1);
      assert Free(entries[j - 1]) ==> Free(entries[j - 1 + 1]);
    }
  }

  lemma FreeOneMore(worlds: seq<World>, steps: seq<Step>, m: nat, kind: NotificationKind, f: string)
    requires IsRun(worlds, steps) && m < |steps| && InNamespace(kind, f) && !SucceedsFor(worlds[m], steps[m], kind)
    ensures Free(At(worlds[m], f)) ==> Free(At(worlds[m + 1], f))
  {
    if Free(At(worlds[m], f)) {
      RunInv(worlds, steps, m);
      FreeStep(worlds[m], steps[m], kind, f);
    }
  }

  lemma FreeAlong(worlds: seq<World>, steps: seq<Step>, i: nat, j: nat, kind: NotificationKind, f: string)
    requires IsRun(worlds, steps) && i <= j <= |steps| && InNamespace(kind, f) && Free(At(worlds[i], f))
    requires forall m :: i <= m < j ==> !SucceedsFor(worlds[m], steps[m], kind)
    ensures Free(At(worlds[j], f))
  {
    var entries := seq(|worlds|, m requires 0 <= m < |worlds| => At(worlds[m], f));
    forall m | i <= m < j
      ensures Free(entries[m]) ==> Free(entries[m + 1])
    {
      FreeOneMore(worlds, steps, m, kind, f);
    }
    FreeStays(entries, i, j);
  }

  lemma FreeIsTaken(w: World, step: Step, c: Candidate)
    requires step.Claim? && c in step.candidates
    ensures Free(At(w, c.fingerprint)) ==> c in ClaimedBy(w, step).candidates
    ensures At(w, c.fingerprint).Some? && !At(w, c.fingerprint).value.IsActive() ==> c !in ClaimedBy(w, step).candidates
  {
  }

  // After a completion by its owner, the next successful claim of the kind takes a
  // surviving candidate again exactly when it was neither delivered nor rejected, or
  // its final entry has been pruned in between.
  lemma NextClaimTakes(worlds: seq<World>, steps: seq<Step>, i: nat, j: nat, c: Candidate)
    requires IsRun(worlds, steps) && i < j < |steps| && steps[i].Complete?
    requires Owns(worlds[i], worlds[i].issued[steps[i].done].kind, steps[i].done)
    requires Names(worlds[i].issued[steps[i].done].candidates, c.fingerprint) && At(worlds[i], c.fingerprint).Some?
    requires SucceedsFor(worlds[j], steps[j], worlds[i].issued[steps[i].done].kind) && c in steps[j].candidates
    requires NoClaimBetween(worlds, steps, i, j, worlds[i].issued[steps[i].done].kind)
    ensures c in ClaimedBy(worlds[j], steps[j]).candidates <==>
            || steps[i].result in {Exited, Missing, OutputExceeded, TimedOut}
            || PrunedBetween(worlds, steps, i + 1, j, c.fingerprint)
  {
    var kind, f := worlds[i].issued[steps[i].done].kind, c.fingerprint;
    RunInv(worlds, steps, i);
    NamedInNamespace(worlds[i].issued[steps[i].done].candidates, kind, f);
    FreedByCompletion(worlds[i], steps[i], f);
    FreeIsTaken(worlds[j], steps[j], c);
    if Free(At(worlds[i + 1], f)) {
      FreeAlong(worlds, steps, i + 1, j, kind, f);
    } else {
      FinalThenFree(worlds, steps, i + 1, j, kind, f);
    }
  }

  // A final fingerprint is free again once it has been pruned, and not before.
  lemma FinalThenFree(worlds: seq<World>, steps: seq<Step>, i: nat, j: nat, kind: NotificationKind, f: string)
    requires IsRun(worlds, steps) && i <= j <= |steps| && InNamespace(kind, f)
    requires At(worlds[i], f).Some? && !At(worlds[i], f).value.IsActive()
    requires forall m :: i <= m < j ==> !SucceedsFor(worlds[m], steps[m], kind)
    ensures if PrunedBetween(worlds, steps, i, j, f) then Free(At(worlds[j], f)) else At(worlds[j], f) == At(worlds[i], f)
  {
    if PrunedBetween(worlds, steps, i, j, f) {
      var m :| i <= m < j && steps[m].Prune? && At(worlds[m], f).Some? && At(worlds[m + 1], f).None?;
      FreeAlong(worlds, steps, m + 1, j, kind, f);
    } else {
      FinalForever(worlds, steps, i, j, f);
    }
  }
}
