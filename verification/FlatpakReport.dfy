// The one health that is reported for Flatpak, from what the collectors of its two
// scopes have returned since the first scan.
module FlatpakReport {
  import opened Wrappers
  import opened Records
  import opened Sorting
  import opened ScanResolution
  import opened ScanAssembly
  import opened ScanGeneration
  import opened GenerationHistory
  import opened GenerationHealth
  import opened FlatpakHistory
  import opened ScanStates

  const USER_SLICE := 3
  const SYSTEM_SLICE := 4

  // Whether the latest attempt at a scope failed after it had been good, or reported
  // old evidence itself.
  predicate StandsStale(h: History, k: nat)
    requires WellFormed(h) && k < |SLICES|
  {
    var last := LatestAttempt(h, k);
    && last.Some? && !Successful(last.value.outcome)
    && (last.value.outcome.status.Stale? || Known(BeforeAttempt(h, k), k))
  }

  // Whether a scope neither succeeded nor turned out not to apply.
  predicate StandsFailed(h: History, k: nat)
    requires WellFormed(h) && k < |SLICES|
  {
    !StandsOk(h, k) && !StoodInapplicable(h, k)
  }

  lemma ScopeStatusAfter(h: History, k: nat)
    requires WellFormed(h) && h.Then? && IsFlatpak(k)
    ensures ScopeAfter(h, k).status.OK? <==> StandsOk(h, k)
    ensures ScopeAfter(h, k).status.NotApplicable? <==> StoodInapplicable(h, k)
    ensures ScopeAfter(h, k).status.Stale? <==> StandsStale(h, k)
    ensures SuccessStatus(ScopeAfter(h, k).status) <==> !StandsFailed(h, k)
    ensures ScopeAfter(h, k).cause.Some? ==> StandsFailed(h, k)
  {
    LatestStatus(h, k);
  }

  // After any sequence of scans Flatpak is stale exactly when one of its scopes is, and
  // not applicable exactly when both are. It is OK exactly when nothing is stale and
  // the user's scope is OK, or the system's is and the user's does not apply.
  // Otherwise it has the status of a scope that failed.
  lemma FlatpakOfHistory(sha: Sha256, h: History)
    requires WellFormed(h) && h.Then?
    ensures Chain(sha, h).Ok? && Chain(sha, h).value.Some?
    ensures var found := FindSource(Chain(sha, h).value.value.snapshot.payload.sources, SourceName.Flatpak);
            && found.Some?
            && (found.value.status.Stale? <==> StandsStale(h, USER_SLICE) || StandsStale(h, SYSTEM_SLICE))
            && (found.value.status.NotApplicable? <==> StoodInapplicable(h, USER_SLICE) && StoodInapplicable(h, SYSTEM_SLICE))
            && (found.value.status.OK? <==>
                  && !StandsStale(h, SYSTEM_SLICE)
                  && (StandsOk(h, USER_SLICE) || (StoodInapplicable(h, USER_SLICE) && StandsOk(h, SYSTEM_SLICE))))
            && (found.value.provenance == if found.value.status.Stale? then LastGood else Live)
            && found.value.observedAt == h.scan.now
            && (SuccessStatus(found.value.status)
                || (StandsFailed(h, USER_SLICE) && found.value.status == ScopeAfter(h, USER_SLICE).status)
                || (StandsFailed(h, SYSTEM_SLICE) && found.value.status == ScopeAfter(h, SYSTEM_SLICE).status))
  {
    ScopesOfHistory(sha, h);
    ScopeStatusAfter(h, USER_SLICE);
    ScopeStatusAfter(h, SYSTEM_SLICE);
  }

  // A scope that failed is left out of the status exactly when it is the
  // system's, was never good, and the user's is OK.
  lemma FailureHiddenIff(sha: Sha256, h: History)
    requires WellFormed(h) && h.Then? && (StandsFailed(h, USER_SLICE) || StandsFailed(h, SYSTEM_SLICE))
    ensures Chain(sha, h).Ok? && Chain(sha, h).value.Some?
    ensures var found := FindSource(Chain(sha, h).value.value.snapshot.payload.sources, SourceName.Flatpak);
            && found.Some?
            && (SuccessStatus(found.value.status) <==> StandsOk(h, USER_SLICE) && !StandsStale(h, SYSTEM_SLICE))
  {
    ScopesOfHistory(sha, h);
    ScopeStatusAfter(h, USER_SLICE);
    ScopeStatusAfter(h, SYSTEM_SLICE);
  }

  // The cause is that of the first scope that has one, and the source stays fresh as
  // long as both of its scopes do.
  lemma FlatpakDetails(sha: Sha256, h: History)
    requires WellFormed(h) && h.Then?
    ensures Chain(sha, h).Ok? && Chain(sha, h).value.Some?
    ensures var found := FindSource(Chain(sha, h).value.value.snapshot.payload.sources, SourceName.Flatpak);
            var user, system := ScopeAfter(h, USER_SLICE), ScopeAfter(h, SYSTEM_SLICE);
            && found.Some? && found.value.scopes == [user, system]
            && found.value.cause == (if user.cause.Some? then user.cause else system.cause)
            && found.value.freshUntil in {user.freshUntil, system.freshUntil}
            && found.value.freshUntil <= user.freshUntil && found.value.freshUntil <= system.freshUntil
  {
    ScopesOfHistory(sha, h);
  }

  // One scan is enough: the user's scope is OK, the system's fails for the first time.
  lemma SystemFailureHidden(sha: Sha256, scan: Scan)
    requires WellFormedScan(scan)
    requires scan.inputs[USER_SLICE].Some? && scan.inputs[USER_SLICE].value.status.OK?
    requires scan.inputs[SYSTEM_SLICE].Some? && scan.inputs[SYSTEM_SLICE].value.status.Timeout?
    ensures WellFormed(Start) && WellFormed(Then(Start, scan)) && StandsFailed(Then(Start, scan), SYSTEM_SLICE)
    ensures Chain(sha, Then(Start, scan)).Ok? && Chain(sha, Then(Start, scan)).value.Some?
    ensures var found := FindSource(Chain(sha, Then(Start, scan)).value.value.snapshot.payload.sources, SourceName.Flatpak);
            found.Some? && found.value.status.OK?
  {
    assert WellFormed(Start);
    var h := Then(Start, scan);
    assert WellFormed(h);
    assert LatestAttempt(h, USER_SLICE) == Some(Attempt(scan.inputs[USER_SLICE].value, scan.now));
    assert LatestAttempt(h, SYSTEM_SLICE) == Some(Attempt(scan.inputs[SYSTEM_SLICE].value, scan.now));
    assert BeforeAttempt(h, SYSTEM_SLICE) == Start;
    FlatpakOfHistory(sha, h);
  }
}
