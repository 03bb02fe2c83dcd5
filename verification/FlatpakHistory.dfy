// What a chain of scans reports about the two Flatpak scopes. A scope whose
// Flatpak is missing is stored as not applicable, which the next scan that does
// not collect it takes for a success.
module FlatpakHistory {
  import opened Wrappers
  import opened Records
  import opened Sorting
  import opened ScanResolution
  import opened ScanAssembly
  import opened ScanGeneration
  import opened GenerationHistory
  import opened GenerationHealth

  // The time of the first attempt that found Flatpak missing and was followed by a
  // scan that did not collect the scope.
  function MissedAt(h: History, k: nat): Option<Instant>
    requires WellFormed(h) && k < |SLICES|
  {
    if h.Start? then None
    else if MissedAt(h.earlier, k).Some? then MissedAt(h.earlier, k)
    else if h.scan.inputs[k].None? && Missing(LatestAttempt(h.earlier, k)) then
      Some(LatestAttempt(h.earlier, k).value.at)
    else None
  }

  predicate Missing(a: Option<Attempt>) {
    a.Some? && a.value.outcome.status.MissingDependency?
  }

  // Whether a scope counts as having been good once.
  predicate Known(h: History, k: nat)
    requires WellFormed(h) && k < |SLICES|
  {
    LatestSuccess(h, k).Some? || MissedAt(h, k).Some?
  }

  // The history before the latest attempt at a slice.
  function BeforeAttempt(h: History, k: nat): (r: History)
    requires WellFormed(h) && k < |SLICES|
    ensures WellFormed(r)
  {
    if h.Start? then h
    else if h.scan.inputs[k].Some? then h.earlier
    else BeforeAttempt(h.earlier, k)
  }

  // The times a scope keeps from when it was last good.
  function GoodTimes(h: History, k: nat): (Instant, Instant)
    requires WellFormed(h) && k < |SLICES| && Known(h, k)
  {
    match LatestSuccess(h, k)
    case Some(s) => (s.at, s.at + FRESHNESS)
    case None => (MissedAt(h, k).value, MissedAt(h, k).value)
  }

  // The health a Flatpak scope should report after a history.
  function ScopeAfter(h: History, k: nat): ScopeHealth
    requires WellFormed(h) && h.Then? && IsFlatpak(k)
  {
    var scope := SLICES[k].scope.value;
    match LatestAttempt(h, k)
    case None =>
      ScopeHealth(scope, Error, Live, FirstTime(h), FirstTime(h),
                  Some(ErrorInfo(SourceUnavailable, "source has no cached evidence")))
    case Some(a) =>
      if Successful(a.outcome) then
        ScopeHealth(scope, a.outcome.status, a.outcome.provenance, a.at, a.at + FRESHNESS, None)
      else if Known(BeforeAttempt(h, k), k) then
        var (observedAt, freshUntil) := GoodTimes(BeforeAttempt(h, k), k);
        ScopeHealth(scope, Stale, LastGood, observedAt, freshUntil, a.outcome.cause)
      else if a.outcome.status.MissingDependency? then ScopeHealth(scope, NotApplicable, Live, a.at, a.at, None)
      else ScopeHealth(scope, a.outcome.status, Live, a.at, a.at, a.outcome.cause)
  }

  ghost predicate ScopeAgrees(h: History, previous: Option<GenerationBundle>, k: nat)
    requires WellFormed(h) && IsFlatpak(k)
  {
    if h.Start? then previous.None?
    else
      && previous.Some? && previous.value.snapshot == previous.value.lastGood
      && StoredScope(previous.value, k) == Some(ScopeAfter(h, k))
      && (SliceKey(k) in previous.value.lastGoodKeys <==> Known(h, k))
  }

  // The Flatpak source reports both scopes as their histories call for.
  ghost predicate ReportsScopes(h: History, b: GenerationBundle)
    requires WellFormed(h) && h.Then?
  {
    FindSource(b.snapshot.payload.sources, SourceName.Flatpak)
    == Some(FlatpakHealth(ScopeAfter(h, 3), ScopeAfter(h, 4), h.scan.now))
  }

  // The health of a scope that a generation holds.
  function StoredScope(b: GenerationBundle, k: nat): Option<ScopeHealth>
    requires IsFlatpak(k)
  {
    var flatpak := FindSource(b.snapshot.payload.sources, SourceName.Flatpak);
    if flatpak.None? then None else FindScope(flatpak.value.scopes, SLICES[k].scope.value)
  }

  // What a scan makes of a scope, given what was stored and whether it was known.
  function NextScope(current: Option<SourceOutcome>, stored: Option<ScopeHealth>, known: bool, scope: SourceScope,
                     now: Instant): ScopeHealth
  {
    match current
    case None =>
      if stored.Some? then stored.value
      else ScopeHealth(scope, Error, Live, now, now,
                       Some(ErrorInfo(SourceUnavailable, "source has no cached evidence")))
    case Some(o) =>
      if Successful(o) then ScopeHealth(scope, o.status, o.provenance, now, now + FRESHNESS, None)
      else if stored.Some? && known then
        ScopeHealth(scope, Stale, LastGood, stored.value.observedAt, stored.value.freshUntil, o.cause)
      else if o.status.MissingDependency? then ScopeHealth(scope, NotApplicable, Live, now, now, None)
      else ScopeHealth(scope, o.status, Live, now, now, o.cause)
  }

  lemma ScopeResolved(current: Option<SourceOutcome>, previous: Option<GenerationBundle>, k: nat, now: Instant)
    requires IsFlatpak(k) && Usable(previous)
    requires previous.Some? ==>
               && previous.value.snapshot == previous.value.lastGood
               && StoredScope(previous.value, k).Some? && !StoredScope(previous.value, k).value.status.MissingDependency?
    requires current.Some? ==> WellFormedOutcome(current.value, k)
    ensures var r := Resolve(current, SLICES[k], previous, now);
            var stored := if previous.None? then None else StoredScope(previous.value, k);
            var known := previous.Some? && SliceKey(k) in previous.value.lastGoodKeys;
            && ScopeOf(r) == Ok(NextScope(current, stored, known, SLICES[k].scope.value, now))
            && (Successful(r.outcome) <==>
                  if current.Some? then Successful(current.value)
                  else stored.Some? && SuccessStatus(stored.value.status))
  {
  }

  // A scope that the generation before does not list counts as failed at the time of the
  // scan, or as stale since then when its key is recorded all the same.
  lemma UnlistedScope(current: Option<SourceOutcome>, previous: GenerationBundle, k: nat, now: Instant)
    requires IsFlatpak(k) && Usable(Some(previous)) && previous.snapshot == previous.lastGood
    requires StoredScope(previous, k).None?
    requires current.Some? ==> WellFormedOutcome(current.value, k) && !Successful(current.value)
    requires current.Some? ==> SliceKey(k) in previous.lastGoodKeys
    ensures ScopeOf(Resolve(current, SLICES[k], Some(previous), now)) == Ok(
              if current.None? then
                ScopeHealth(SLICES[k].scope.value, Error, Live, now, now,
                            Some(ErrorInfo(SourceUnavailable, "source scope has no cached evidence")))
              else ScopeHealth(SLICES[k].scope.value, Stale, LastGood, now, now, current.value.cause))
  {
  }

  // One more scan of a scope

  lemma {:induction false} KnownBefore(h: History, k: nat)
    requires WellFormed(h) && k < |SLICES|
    ensures LatestAttempt(h, k).None? ==> !Known(h, k)
    ensures LatestAttempt(h, k).Some? && !Successful(LatestAttempt(h, k).value.outcome)
        ==> LatestSuccess(h, k) == LatestSuccess(BeforeAttempt(h, k), k)
    ensures LatestAttempt(h, k).Some? && Successful(LatestAttempt(h, k).value.outcome)
        ==> LatestSuccess(h, k) == LatestAttempt(h, k)
    ensures MissedAt(BeforeAttempt(h, k), k).Some? ==> MissedAt(h, k) == MissedAt(BeforeAttempt(h, k), k)
    ensures MissedAt(BeforeAttempt(h, k), k).None? && MissedAt(h, k).Some?
        ==> Missing(LatestAttempt(h, k)) && MissedAt(h, k) == Some(LatestAttempt(h, k).value.at)
  {
    if h.Then? {
      KnownBefore(h.earlier, k);
    }
  }

  // Where a scope is known its reported times are the ones it keeps.
  lemma KnownTimes(h: History, k: nat)
    requires WellFormed(h) && h.Then? && IsFlatpak(k) && Known(h, k)
    ensures (ScopeAfter(h, k).observedAt, ScopeAfter(h, k).freshUntil) == GoodTimes(h, k)
  {
    KnownBefore(h, k);
  }

  lemma NeverStoredMissing(h: History, k: nat)
    requires WellFormed(h) && h.Then? && IsFlatpak(k)
    ensures !ScopeAfter(h, k).status.MissingDependency?
    ensures ScopeAfter(h, k).scope == SLICES[k].scope.value
    ensures SuccessStatus(ScopeAfter(h, k).status) <==>
            LatestAttempt(h, k).Some?
            && (Successful(LatestAttempt(h, k).value.outcome)
                || (Missing(LatestAttempt(h, k)) && !Known(BeforeAttempt(h, k), k)))
  {
  }

  lemma ScopeOneMore(h: History, k: nat)
    requires WellFormed(h) && h.Then? && IsFlatpak(k)
    ensures var stored := if h.earlier.Start? then None else Some(ScopeAfter(h.earlier, k));
            ScopeAfter(h, k) == NextScope(h.scan.inputs[k], stored, Known(h.earlier, k), SLICES[k].scope.value, h.scan.now)
  {
    if h.scan.inputs[k].None? {
      assert LatestAttempt(h, k) == LatestAttempt(h.earlier, k);
      if h.earlier.Then? {
        assert BeforeAttempt(h, k) == BeforeAttempt(h.earlier, k) && FirstTime(h) == FirstTime(h.earlier);
      }
    } else {
      assert LatestAttempt(h, k) == Some(Attempt(h.scan.inputs[k].value, h.scan.now));
      assert BeforeAttempt(h, k) == h.earlier;
      if h.earlier.Start? {
        assert !Known(h.earlier, k);
      } else if Known(h.earlier, k) {
        KnownTimes(h.earlier, k);
      }
    }
  }

  lemma KnownOneMore(h: History, k: nat)
    requires WellFormed(h) && h.Then? && IsFlatpak(k)
    ensures Known(h, k) <==>
            || Known(h.earlier, k)
            || (if h.scan.inputs[k].Some? then Successful(h.scan.inputs[k].value)
                else h.earlier.Then? && SuccessStatus(ScopeAfter(h.earlier, k).status))
  {
    KnownBefore(h.earlier, k);
    if h.earlier.Then? {
      NeverStoredMissing(h.earlier, k);
    }
  }

  lemma ScopeStep(h: History, previous: Option<GenerationBundle>, k: nat, resolved: seq<ResolvedOutcome>,
                  b: GenerationBundle)
    requires WellFormed(h) && h.Then? && IsFlatpak(k)
    requires Usable(previous) && ScopeAgrees(h.earlier, previous, k)
    requires AllShaped(resolved) && resolved[k] == Resolve(h.scan.inputs[k], SLICES[k], previous, h.scan.now)
    requires BuiltFrom(h.scan, previous, resolved, b)
    ensures ScopeOf(resolved[k]) == Ok(ScopeAfter(h, k))
    ensures SliceKey(k) in b.lastGoodKeys <==> Known(h, k)
  {
    if h.earlier.Then? {
      NeverStoredMissing(h.earlier, k);
    }
    ScopeResolved(h.scan.inputs[k], previous, k, h.scan.now);
    ScopeOneMore(h, k);
    KnownOneMore(h, k);
    KeyRecorded(previous, resolved, k);
  }

  lemma ScopesStored(scan: Scan, previous: Option<GenerationBundle>, resolved: seq<ResolvedOutcome>,
                     b: GenerationBundle, user: ScopeHealth, system: ScopeHealth)
    requires AllShaped(resolved) && BuiltFrom(scan, previous, resolved, b)
    requires ScopeOf(resolved[3]) == Ok(user) && ScopeOf(resolved[4]) == Ok(system)
    requires user.scope == User && system.scope == System
    ensures FindSource(b.snapshot.payload.sources, SourceName.Flatpak) == Some(FlatpakHealth(user, system, scan.now))
    ensures StoredScope(b, 3) == Some(user) && StoredScope(b, 4) == Some(system)
  {
    SourcesReported(resolved, scan.now);
    assert FindScope([user, system], User) == Some(user) && FindScope([user, system], System) == Some(system);
  }

  lemma ScopesStep(h: History, previous: Option<GenerationBundle>, resolved: seq<ResolvedOutcome>, b: GenerationBundle)
    requires WellFormed(h) && h.Then?
    requires Usable(previous) && ScopeAgrees(h.earlier, previous, 3) && ScopeAgrees(h.earlier, previous, 4)
    requires AllShaped(resolved) && BuiltFrom(h.scan, previous, resolved, b)
    requires resolved[3] == Resolve(h.scan.inputs[3], SLICES[3], previous, h.scan.now)
    requires resolved[4] == Resolve(h.scan.inputs[4], SLICES[4], previous, h.scan.now)
    ensures ScopeAgrees(h, Some(b), 3) && ScopeAgrees(h, Some(b), 4) && ReportsScopes(h, b)
  {
    ScopeStep(h, previous, 3, resolved, b);
    ScopeStep(h, previous, 4, resolved, b);
    NeverStoredMissing(h, 3);
    NeverStoredMissing(h, 4);
    ScopesStored(h.scan, previous, resolved, b, ScopeAfter(h, 3), ScopeAfter(h, 4));
  }

  // After any sequence of scans each scope reports the health that its attempts call
  // for, the source reports both together, and a scope's key is recorded exactly when
  // it has succeeded or has been missing and then not collected.
  lemma {:induction false} ScopesOfHistory(sha: Sha256, h: History)
    requires WellFormed(h)
    ensures Chain(sha, h).Ok?
    ensures ScopeAgrees(h, Chain(sha, h).value, 3) && ScopeAgrees(h, Chain(sha, h).value, 4)
    ensures h.Then? ==> ReportsScopes(h, Chain(sha, h).value.value)
  {
    GenerationRefines(sha, h);
    if h.Then? {
      ScopesOfHistory(sha, h.earlier);
      ChainStep(sha, h);
      var previous := Chain(sha, h.earlier).value;
      ScopesStep(h, previous, ResolvedScan(h.scan, previous), Chain(sha, h).value.value);
    }
  }

  // A scope's key means that it has succeeded exactly as long as it has succeeded, or
  // has never been missing in one scan and left out of the next.
  lemma KeyMeansSuccessIff(sha: Sha256, h: History, k: nat)
    requires WellFormed(h) && h.Then? && IsFlatpak(k)
    ensures Chain(sha, h).Ok? && Chain(sha, h).value.Some?
    ensures (SliceKey(k) in Chain(sha, h).value.value.lastGoodKeys <==> LatestSuccess(h, k).Some?)
       <==> LatestSuccess(h, k).Some? || MissedAt(h, k).None?
  {
    ScopesOfHistory(sha, h);
  }

  // Collectors that never report STALE see a scope stale exactly when its latest
  // attempt failed although it was known before.
  lemma ScopeStaleIff(sha: Sha256, h: History, k: nat)
    requires WellFormed(h) && h.Then? && NeverStale(h) && IsFlatpak(k)
    ensures Chain(sha, h).Ok? && Chain(sha, h).value.Some? && StoredScope(Chain(sha, h).value.value, k).Some?
    ensures StoredScope(Chain(sha, h).value.value, k).value.status.Stale? <==>
            && LatestAttempt(h, k).Some? && !Successful(LatestAttempt(h, k).value.outcome)
            && Known(BeforeAttempt(h, k), k)
  {
    ScopesOfHistory(sha, h);
    AttemptsNeverStale(h, k);
  }

  // Two scans are enough: the first finds Flatpak missing, the second skips it.
  lemma FlatpakMissingIsRecorded(sha: Sha256, first: Scan, second: Scan, k: nat)
    requires IsFlatpak(k) && WellFormedScan(first) && WellFormedScan(second)
    requires first.inputs[k].Some? && first.inputs[k].value.status.MissingDependency?
    requires second.inputs[k].None?
    ensures LatestSuccess(TwoScans(first, second), k).None?
    ensures Chain(sha, TwoScans(first, second)).Ok? && Chain(sha, TwoScans(first, second)).value.Some?
    ensures SliceKey(k) in Chain(sha, TwoScans(first, second)).value.value.lastGoodKeys
  {
    MissedInTwo(first, second, k);
    ScopesOfHistory(sha, TwoScans(first, second));
  }

  lemma MissedInTwo(first: Scan, second: Scan, k: nat)
    requires IsFlatpak(k) && WellFormedScan(first) && WellFormedScan(second)
    requires first.inputs[k].Some? && first.inputs[k].value.status.MissingDependency?
    requires second.inputs[k].None?
    ensures LatestSuccess(TwoScans(first, second), k).None? && MissedAt(TwoScans(first, second), k) == Some(first.now)
  {
    var h := TwoScans(first, second);
    assert LatestAttempt(h.earlier, k) == Some(Attempt(first.inputs[k].value, first.now));
    assert LatestSuccess(Start, k).None? && LatestSuccess(h.earlier, k).None?;
    assert MissedAt(Start, k).None? && MissedAt(h.earlier, k).None?;
  }

  function TwoScans(first: Scan, second: Scan): (h: History)
    requires WellFormedScan(first) && WellFormedScan(second)
    ensures h == Then(Then(Start, first), second) && WellFormed(h) && WellFormed(h.earlier)
  {
    var h := Then(Start, first);
    assert WellFormed(h);
    Then(h, second)
  }
}
