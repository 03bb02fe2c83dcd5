// Whole runs of the notification lease protocol: helper processes claim, run,
// complete or crash while the ledger is pruned, starred and re-scanned.
module LeaseProtocol {
  import opened Wrappers
  import opened Records
  import opened Sorting
  import opened LedgerPruning
  import opened NotificationBatch
  import Stars

  // Fingerprint namespaces

  function Namespace(kind: NotificationKind): string {
    match kind
    case Watch => "watch-v1:"
    case Security => "security-v1:"
    case SecurityCondition => "security-condition-v1:"
  }

  predicate InNamespace(kind: NotificationKind, fingerprint: string) {
    Namespace(kind) <= fingerprint
  }

  predicate WellFormed(kind: NotificationKind, c: Candidate) {
    c.kind == kind && Namespace(kind) <= c.reference && c.reference <= c.fingerprint
  }

  // The three policies: references from the item, fingerprints extending them by evidence.
  function WatchCandidate(itemId: string, installed: string, candidate: string, change: NotificationChange): Candidate {
    var reference := Stars.WatchPrefix(itemId);
    Candidate(reference + installed + ":" + candidate, reference, Watch, change)
  }

  function SecurityCandidate(finding: string, evidence: string, change: NotificationChange): Candidate {
    var reference := "security-v1:" + finding + ":";
    Candidate(reference + evidence, reference, NotificationKind.Security, change)
  }

  function ConditionCandidate(itemId: string, advisoryId: string, evidence: string,
                              change: NotificationChange): Candidate {
    var reference := "security-condition-v1:" + itemId + ":" + advisoryId + ":";
    Candidate(reference + evidence, reference, SecurityCondition, change)
  }

  lemma PolicyCandidatesWellFormed(a: string, b: string, c: string, change: NotificationChange)
    ensures WellFormed(Watch, WatchCandidate(a, b, c, change))
    ensures WellFormed(NotificationKind.Security, SecurityCandidate(a, b, change))
    ensures WellFormed(SecurityCondition, ConditionCandidate(a, b, c, change))
  {
    var w := "watch-v1:" + a + ":";
    assert w == "watch-v1:" + (a + ":");
    assert w + b + ":" + c == w + (b + ":" + c);
    var s := "security-v1:" + a + ":";
    assert s == "security-v1:" + (a + ":");
    var d := "security-condition-v1:" + a + ":" + b + ":";
    assert d == "security-condition-v1:" + (a + ":" + b + ":");
  }

  lemma NamespacesDisjoint(j: NotificationKind, k: NotificationKind, fingerprint: string)
    requires InNamespace(j, fingerprint)
    ensures InNamespace(k, fingerprint) ==> j == k
    ensures fingerprint != OwnerFingerprint(k)
  {
    assert fingerprint[0] == Namespace(j)[0];
    assert InNamespace(k, fingerprint) ==> fingerprint[0] == Namespace(k)[0];
    assert |Namespace(j)| > 9 && |Namespace(k)| > 9 ==>
             fingerprint[9] == Namespace(j)[9] && (InNamespace(k, fingerprint) ==> fingerprint[9] == Namespace(k)[9]);
    assert OwnerFingerprint(k)[0] == 'n';
  }

  lemma OwnersDistinct(j: NotificationKind, k: NotificationKind)
    ensures OwnerFingerprint(j) == OwnerFingerprint(k) ==> j == k
  {
    assert |OwnerFingerprint(Watch)| == 27 && |OwnerFingerprint(NotificationKind.Security)| == 30 && |OwnerFingerprint(SecurityCondition)| == 40;
  }

  // The transition system

  datatype World = World(
    state: PersistentState,
    issued: map<string, Batch>,   // every batch ever claimed, by token
    open: set<string>,            // batches whose process has neither completed nor crashed
    used: set<string>,            // every token ever drawn
    clock: Instant)               // the time of the latest claim

  datatype Step =
    | Claim(kind: NotificationKind, candidates: seq<Candidate>, now: Instant, token: string)
    | Complete(done: string, result: CommandResult)
    | Crash(crashed: string)
    | Prune(at: Instant)
    | Star(event: Stars.WatchEvent)

  predicate Init(w: World) {
    w.state.ledger == [] && w.issued == map[] && w.open == {} && w.used == {}
  }

  predicate Enabled(w: World, step: Step) {
    match step
    case Claim(kind, candidates, _, token) =>
      token !in w.used && forall c :: c in candidates ==> WellFormed(kind, c)
    case Complete(token, _) => token in w.open && token in w.issued
    case Crash(token) => token in w.open
    case Prune(_) => true
    case Star(event) => Stars.Transition(w.state, event).Ok?
  }

  function WithLedger(w: World, ledger: seq<LedgerEntry>): World {
    w.(state := w.state.(ledger := ledger))
  }

  function Apply(w: World, step: Step): World
    requires Enabled(w, step)
  {
    match step
    case Claim(kind, candidates, now, token) =>
      var ledger := ReserveLedger(w.state.ledger, kind, candidates, now, token);
      var next := WithLedger(w, ledger).(used := w.used + {token}, clock := now);
      (match ClaimedBatch(ledger, kind, candidates, token)
       case None => next
       case Some(batch) => next.(issued := w.issued[token := batch], open := w.open + {token}))
    case Complete(token, result) =>
      WithLedger(w, CompleteLedger(w.state.ledger, w.issued[token], result)).(open := w.open - {token})
    case Crash(token) => w.(open := w.open - {token})
    case Prune(now) => w.(state := PruneLedger(w.state, now))
    case Star(event) => w.(state := Stars.Transition(w.state, event).value)
  }

  function At(w: World, fingerprint: string): Option<LedgerEntry> {
    Entry(w.state.ledger, fingerprint)
  }

  function Owner(w: World, kind: NotificationKind): Option<LedgerEntry> {
    At(w, OwnerFingerprint(kind))
  }

  predicate Owns(w: World, kind: NotificationKind, token: string) {
    OwnedBy(Owner(w, kind), token)
  }

  // A claim step that returns a batch.
  predicate Succeeds(w: World, step: Step) {
    step.Claim? && Reserves(w.state.ledger, step.kind, step.candidates, step.now)
  }

  predicate SucceedsFor(w: World, step: Step, kind: NotificationKind) {
    Succeeds(w, step) && step.kind == kind
  }

  // The invariant

  // An owner entry is a pending lease of an issued batch of its kind.
  ghost predicate OwnersIssued(w: World) {
    forall k: NotificationKind :: Owner(w, k).Some? ==>
      var o := Owner(w, k).value;
      && o.status.Pending? && o.leaseToken.Some? && o.leaseExpiresAt.Some?
      && o.leaseToken.value in w.issued && w.issued[o.leaseToken.value].kind == k
  }

  // Every lease elsewhere belongs to an issued batch that names the entry.
  ghost predicate LeasesIssued(w: World) {
    forall f: string :: At(w, f).Some? && At(w, f).value.leaseToken.Some? && !IsOwner(f) ==>
      var t := At(w, f).value.leaseToken.value;
      t in w.issued && Names(w.issued[t].candidates, f)
  }

  predicate IsOwner(f: string) {
    exists k: NotificationKind :: f == OwnerFingerprint(k)
  }

  ghost predicate BatchesWellFormed(w: World) {
    && w.issued.Keys <= w.used
    && forall t :: t in w.issued ==>
         && w.issued[t].leaseToken == t
         && w.issued[t].candidates != []
         && forall c :: c in w.issued[t].candidates ==> WellFormed(w.issued[t].kind, c)
  }

  // Lease coherence: while a batch's token owns its kind, each of its entries that
  // is still present is pending under that token.
  ghost predicate Coherent(w: World) {
    forall t, f :: t in w.issued && Names(w.issued[t].candidates, f) && Owns(w, w.issued[t].kind, t) && At(w, f).Some? ==>
      At(w, f).value.status.Pending? && At(w, f).value.leaseToken == Some(t)
  }

  ghost predicate Inv(w: World) {
    UniqueFingerprints(w.state.ledger) && OwnersIssued(w) && LeasesIssued(w) && BatchesWellFormed(w) && Coherent(w)
  }

  lemma InitInv(w: World)
    requires Init(w)
    ensures Inv(w)
  {
  }

  // A named fingerprint lies in its batch's namespace, so it is no owner entry
  // and no other kind's fingerprint.
  lemma NamedInNamespace(candidates: seq<Candidate>, kind: NotificationKind, fingerprint: string)
    requires forall c :: c in candidates ==> WellFormed(kind, c)
    ensures Names(candidates, fingerprint) ==> InNamespace(kind, fingerprint)
    ensures Refers(candidates, fingerprint) ==> InNamespace(kind, fingerprint)
  {
  }

  // A token never drawn is on no entry.
  lemma FreshToken(w: World, token: string)
    requires Inv(w) && token !in w.used
    ensures forall f :: !OwnedBy(At(w, f), token)
  {
    forall f
      ensures !OwnedBy(At(w, f), token)
    {
      if IsOwner(f) {
        var k :| f == OwnerFingerprint(k);
        assert Owner(w, k) == At(w, f);
      }
    }
  }

  // The candidates a claimant owns after a reservation are those it reserved.
  lemma OwnedAfterReserve(ledger: seq<LedgerEntry>, kind: NotificationKind, candidates: seq<Candidate>,
                          now: Instant, token: string, c: Candidate)
    requires Reserves(ledger, kind, candidates, now)
    requires c in candidates && WellFormed(kind, c) && !OwnedBy(Entry(ledger, c.fingerprint), token)
    ensures OwnedBy(Entry(ReserveLedger(ledger, kind, candidates, now, token), c.fingerprint), token)
            == Claimable(Entry(ledger, c.fingerprint), now)
  {
    var claimed := ClaimableOf(ledger, candidates, now);
    NotOwnerEntry(kind, c.fingerprint);
    ReserveEntry(ledger, kind, candidates, now, token, c.fingerprint);
    if Claimable(Entry(ledger, c.fingerprint), now) {
      assert c in claimed;
    } else {
      assert forall d :: d in claimed ==> Claimable(Entry(ledger, d.fingerprint), now);
    }
  }

  // The batch read back after a claim is exactly what was reserved, and there is
  // one exactly when the reservation went through.
  lemma ClaimReturnsReserved(w: World, step: Step)
    requires Inv(w) && step.Claim? && Enabled(w, step)
    ensures var ledger := ReserveLedger(w.state.ledger, step.kind, step.candidates, step.now, step.token);
            ClaimedBatch(ledger, step.kind, step.candidates, step.token) ==
            if Succeeds(w, step)
            then Some(Batch(step.kind, ClaimableOf(w.state.ledger, step.candidates, step.now), step.token))
            else None
  {
    FreshToken(w, step.token);
    forall f
      ensures !OwnedBy(Entry(w.state.ledger, f), step.token)
    {
      assert !OwnedBy(At(w, f), step.token);
    }
    ReservedIsReadBack(w.state.ledger, step.kind, step.candidates, step.now, step.token);
  }

  lemma ReservedIsReadBack(ledger: seq<LedgerEntry>, kind: NotificationKind, candidates: seq<Candidate>,
                           now: Instant, token: string)
    requires forall c :: c in candidates ==> WellFormed(kind, c)
    requires forall f :: !OwnedBy(Entry(ledger, f), token)
    ensures ClaimedBatch(ReserveLedger(ledger, kind, candidates, now, token), kind, candidates, token) ==
            if Reserves(ledger, kind, candidates, now)
            then Some(Batch(kind, ClaimableOf(ledger, candidates, now), token))
            else None
  {
    var reserved := ReserveLedger(ledger, kind, candidates, now, token);
    var owned := (c: Candidate) => OwnedBy(Entry(reserved, c.fingerprint), token);
    if Reserves(ledger, kind, candidates, now) {
      forall c | c in candidates
        ensures owned(c) == Claimable(Entry(ledger, c.fingerprint), now)
      {
        OwnedAfterReserve(ledger, kind, candidates, now, token, c);
      }
      FilterSame(owned, (c: Candidate) => Claimable(Entry(ledger, c.fingerprint), now), candidates);
      ReserveEntry(ledger, kind, candidates, now, token, OwnerFingerprint(kind));
    } else {
      FilterNone(owned, candidates);
    }
  }

  lemma NotOwnerEntry(kind: NotificationKind, fingerprint: string)
    requires InNamespace(kind, fingerprint)
    ensures forall k :: fingerprint != OwnerFingerprint(k)
    ensures forall k :: InNamespace(k, fingerprint) ==> k == kind
  {
    forall k
      ensures fingerprint != OwnerFingerprint(k) && (InNamespace(k, fingerprint) ==> k == kind)
    {
      NamespacesDisjoint(kind, k, fingerprint);
    }
  }

  lemma OwnerOutside(k: NotificationKind, j: NotificationKind)
    ensures !InNamespace(j, OwnerFingerprint(k))
  {
    assert OwnerFingerprint(k)[0] != Namespace(j)[0];
  }

  // What a successful claim of a batch does, fingerprint by fingerprint.
  ghost predicate ClaimPost(w: World, next: World, batch: Batch, now: Instant) {
    && next.issued == w.issued[batch.leaseToken := batch]
    && next.used == w.used + {batch.leaseToken} && batch.leaseToken !in w.used
    && batch.candidates != []
    && (forall c :: c in batch.candidates ==> WellFormed(batch.kind, c))
    && UniqueFingerprints(next.state.ledger)
    && forall f :: ClaimedAt(w, next, batch, now, f)
  }

  ghost predicate ClaimedAt(w: World, next: World, batch: Batch, now: Instant, f: string) {
    if f == OwnerFingerprint(batch.kind) || Names(batch.candidates, f)
    then At(next, f) == Some(LeaseEntry(f, now, batch.leaseToken))
    else if At(w, f).Some? && At(w, f).value.IsActive() && Refers(batch.candidates, f)
    then At(next, f) == Some(At(w, f).value.(status := Suppressed))
    else At(next, f) == At(w, f)
  }

  lemma ClaimEffect(w: World, step: Step)
    requires Inv(w) && Enabled(w, step) && Succeeds(w, step)
    ensures var claimed := ClaimableOf(w.state.ledger, step.candidates, step.now);
            ClaimPost(w, Apply(w, step), Batch(step.kind, claimed, step.token), step.now)
  {
    var next := Apply(w, step);
    var batch := Batch(step.kind, ClaimableOf(w.state.ledger, step.candidates, step.now), step.token);
    ClaimReturnsReserved(w, step);
    ReserveUnique(w.state.ledger, step.kind, step.candidates, step.now, step.token);
    forall f
      ensures ClaimedAt(w, next, batch, step.now, f)
    {
      ReserveEntry(w.state.ledger, step.kind, step.candidates, step.now, step.token, f);
    }
  }

  lemma ClaimOwners(w: World, next: World, batch: Batch, now: Instant)
    requires ClaimPost(w, next, batch, now)
    ensures forall k :: Owner(next, k) ==
                        if k == batch.kind then Some(LeaseEntry(OwnerFingerprint(k), now, batch.leaseToken)) else Owner(w, k)
  {
    forall k: NotificationKind
      ensures Owner(next, k) ==
              if k == batch.kind then Some(LeaseEntry(OwnerFingerprint(k), now, batch.leaseToken)) else Owner(w, k)
    {
      OwnersDistinct(k, batch.kind);
      OwnerOutside(k, batch.kind);
      NamedInNamespace(batch.candidates, batch.kind, OwnerFingerprint(k));
      assert ClaimedAt(w, next, batch, now, OwnerFingerprint(k));
    }
  }

  lemma ClaimLeases(w: World, next: World, batch: Batch, now: Instant)
    requires Inv(w) && ClaimPost(w, next, batch, now)
    ensures LeasesIssued(next)
  {
    forall f: string | At(next, f).Some? && At(next, f).value.leaseToken.Some? && !IsOwner(f)
      ensures var t := At(next, f).value.leaseToken.value; t in next.issued && Names(next.issued[t].candidates, f)
    {
      assert ClaimedAt(w, next, batch, now, f);
      if !Names(batch.candidates, f) {
        assert At(w, f).Some? && At(w, f).value.leaseToken == At(next, f).value.leaseToken;
      }
    }
  }

  lemma ClaimCoherent(w: World, next: World, batch: Batch, now: Instant)
    requires Inv(w) && ClaimPost(w, next, batch, now)
    ensures Coherent(next)
  {
    ClaimOwners(w, next, batch, now);
    forall t, f | t in next.issued && Names(next.issued[t].candidates, f) && Owns(next, next.issued[t].kind, t) && At(next, f).Some?
      ensures At(next, f).value.status.Pending? && At(next, f).value.leaseToken == Some(t)
    {
      assert ClaimedAt(w, next, batch, now, f);
      if t != batch.leaseToken {
        var kind := w.issued[t].kind;
        assert kind != batch.kind;
        assert Owns(w, kind, t);
        NamedInNamespace(w.issued[t].candidates, kind, f);
        NamedInNamespace(batch.candidates, batch.kind, f);
        NotOwnerEntry(kind, f);
      }
    }
  }

  lemma ClaimKeepsInv(w: World, next: World, batch: Batch, now: Instant)
    requires Inv(w) && ClaimPost(w, next, batch, now)
    ensures Inv(next)
  {
    ClaimOwners(w, next, batch, now);
    ClaimLeases(w, next, batch, now);
    ClaimCoherent(w, next, batch, now);
  }

  // What a completion by the owner of a kind does, fingerprint by fingerprint.
  ghost predicate CompletePost(w: World, next: World, batch: Batch, result: CommandResult) {
    && next.issued == w.issued && next.used == w.used
    && batch.leaseToken in w.issued && w.issued[batch.leaseToken] == batch
    && UniqueFingerprints(next.state.ledger)
    && forall f :: CompletedAt(w, next, batch, result, f)
  }

  ghost predicate CompletedAt(w: World, next: World, batch: Batch, result: CommandResult, f: string) {
    At(next, f) ==
    if f == OwnerFingerprint(batch.kind) || At(w, f).None? then None
    else if Names(batch.candidates, f) && At(w, f).value.leaseToken == Some(batch.leaseToken)
    then Some(At(w, f).value.(status := DeliveryStatus(result, First), leaseToken := None, leaseExpiresAt := None))
    else At(w, f)
  }

  lemma CompleteEffect(w: World, step: Step)
    requires Inv(w) && Enabled(w, step) && step.Complete?
    requires Owns(w, w.issued[step.done].kind, step.done)
    ensures CompletePost(w, Apply(w, step), w.issued[step.done], step.result)
  {
    var batch := w.issued[step.done];
    CompleteUnique(w.state.ledger, batch, step.result);
    forall f
      ensures CompletedAt(w, Apply(w, step), batch, step.result, f)
    {
      CompleteEntry(w.state.ledger, batch, step.result, f);
      UpdateForAny(batch.candidates, step.result, f);
    }
  }

  lemma CompleteOwners(w: World, next: World, batch: Batch, result: CommandResult)
    requires Inv(w) && CompletePost(w, next, batch, result)
    ensures forall k :: Owner(next, k) == if k == batch.kind then None else Owner(w, k)
  {
    forall k: NotificationKind
      ensures Owner(next, k) == if k == batch.kind then None else Owner(w, k)
    {
      OwnersDistinct(k, batch.kind);
      OwnerOutside(k, batch.kind);
      NamedInNamespace(batch.candidates, batch.kind, OwnerFingerprint(k));
      assert CompletedAt(w, next, batch, result, OwnerFingerprint(k));
    }
  }

  lemma CompleteCoherent(w: World, next: World, batch: Batch, result: CommandResult)
    requires Inv(w) && CompletePost(w, next, batch, result)
    ensures Coherent(next)
  {
    CompleteOwners(w, next, batch, result);
    forall t, f | t in next.issued && Names(next.issued[t].candidates, f) && Owns(next, next.issued[t].kind, t) && At(next, f).Some?
      ensures At(next, f).value.status.Pending? && At(next, f).value.leaseToken == Some(t)
    {
      var kind := w.issued[t].kind;
      assert kind != batch.kind;
      assert Owns(w, kind, t);
      NamedInNamespace(w.issued[t].candidates, kind, f);
      NamedInNamespace(batch.candidates, batch.kind, f);
      NotOwnerEntry(kind, f);
      assert CompletedAt(w, next, batch, result, f);
    }
  }

  lemma CompleteKeepsInv(w: World, next: World, batch: Batch, result: CommandResult)
    requires Inv(w) && CompletePost(w, next, batch, result)
    ensures Inv(next)
  {
    CompleteOwners(w, next, batch, result);
    CompleteCoherent(w, next, batch, result);
    forall f: string | At(next, f).Some? && At(next, f).value.leaseToken.Some?
      ensures At(w, f) == At(next, f)
    {
      assert CompletedAt(w, next, batch, result, f);
    }
  }

  // A ledger whose entries all come from an old ledger that kept its owner
  // entries keeps the invariant.
  lemma ShrinkKeepsInv(w: World, next: World)
    requires Inv(w) && UniqueFingerprints(next.state.ledger)
    requires next.issued == w.issued && w.used <= next.used
    requires forall f :: At(next, f).Some? ==> At(next, f) == At(w, f)
    ensures Inv(next)
  {
    forall k: NotificationKind | Owner(next, k).Some?
      ensures Owner(next, k) == Owner(w, k)
    {
    }
    forall t, f | t in next.issued && Names(next.issued[t].candidates, f) && Owns(next, next.issued[t].kind, t) && At(next, f).Some?
      ensures At(next, f).value.status.Pending? && At(next, f).value.leaseToken == Some(t)
    {
      assert Owns(w, w.issued[t].kind, t);
      assert At(next, f) == At(w, f);
    }
  }

  lemma PruneEffect(ledger: seq<LedgerEntry>, now: Instant, f: string)
    requires UniqueFingerprints(ledger)
    ensures var before, after := Entry(ledger, f), Entry(PruneEntries(ledger, now), f);
            && (after.Some? ==> after == before)
            && (before.Some? && before.value.IsActive() ==> after == before)
  {
    PruneMembers(ledger, now);
    var before, after := Entry(ledger, f), Entry(PruneEntries(ledger, now), f);
    if after.Some? {
      EntryOfMember(ledger, after.value);
    }
    if before.Some? && before.value.IsActive() {
      EntryOfMember(PruneEntries(ledger, now), before.value);
    }
  }

  lemma StarEffect(s: PersistentState, event: Stars.WatchEvent, f: string)
    requires UniqueFingerprints(s.ledger) && Stars.Transition(s, event).Ok?
    ensures var ledger := Stars.Transition(s, event).value.ledger;
            var before, after := Entry(s.ledger, f), Entry(ledger, f);
            && UniqueFingerprints(ledger)
            && (after.Some? ==> after == before)
            && (before.Some? && (!before.value.IsActive() || !InNamespace(Watch, f)) ==> after == before)
  {
    Stars.TransitionLedger(s, event);
    if event.StarClick? {
      var prefix := Stars.WatchPrefix(event.itemId);
      assert prefix == Namespace(Watch) + (event.itemId + ":");
      UniqueFilter(s.ledger, Stars.ActiveUnder(prefix));
      EntryFilter(s.ledger, Stars.ActiveUnder(prefix), f);
    }
  }

  lemma StepKeepsInv(w: World, step: Step)
    requires Inv(w) && Enabled(w, step)
    ensures Inv(Apply(w, step))
  {
    var next := Apply(w, step);
    match step
    case Claim(_, _, _, _) =>
      if Succeeds(w, step) {
        ClaimEffect(w, step);
        ClaimKeepsInv(w, next, Batch(step.kind, ClaimableOf(w.state.ledger, step.candidates, step.now), step.token),
                      step.now);
      } else {
        ClaimReturnsReserved(w, step);
        ShrinkKeepsInv(w, next);
      }
    case Complete(token, result) =>
      if Owns(w, w.issued[token].kind, token) {
        CompleteEffect(w, step);
        CompleteKeepsInv(w, next, w.issued[token], result);
      } else {
        ShrinkKeepsInv(w, next);
      }
    case Crash(_) => ShrinkKeepsInv(w, next);
    case Prune(now) =>
      PruneMembers(w.state.ledger, now);
      forall f
        ensures At(next, f).Some? ==> At(next, f) == At(w, f)
      {
        PruneEffect(w.state.ledger, now, f);
      }
      ShrinkKeepsInv(w, next);
    case Star(event) =>
      StarEffect(w.state, event, "");
      forall f
        ensures At(next, f).Some? ==> At(next, f) == At(w, f)
      {
        StarEffect(w.state, event, f);
      }
      ShrinkKeepsInv(w, next);
  }

  // Runs

  ghost predicate IsRun(worlds: seq<World>, steps: seq<Step>) {
    && |worlds| == |steps| + 1
    && Init(worlds[0])
    && forall i :: 0 <= i < |steps| ==> Enabled(worlds[i], steps[i]) && worlds[i + 1] == Apply(worlds[i], steps[i])
  }

  lemma {:induction false} RunInv(worlds: seq<World>, steps: seq<Step>, i: nat)
    requires IsRun(worlds, steps) && i < |worlds|
    ensures Inv(worlds[i])
  {
    if i == 0 {
      InitInv(worlds[0]);
    } else {
      RunInv(worlds, steps, i - 1);
      StepKeepsInv(worlds[i - 1], steps[i - 1]);
    }
  }
}
