// What a chain of scans reports about the health of each source, and what a
// COMPLETE scan says about degraded sources.
module GenerationHealth {
  import opened Wrappers
  import opened Records
  import opened Sorting
  import opened ScanResolution
  import opened ScanAssembly
  import opened ScanGeneration
  import opened GenerationHistory

  // Health history

  function FirstTime(h: History): Instant
    requires h.Then?
  {
    if h.earlier.Start? then h.scan.now else FirstTime(h.earlier)
  }

  // The health a source other than Flatpak should report after a history.
  function HealthAfter(h: History, k: nat): SourceHealth
    requires WellFormed(h) && h.Then? && k < |SLICES|
  {
    var source := SLICES[k].source;
    match LatestAttempt(h, k)
    case None =>
      SourceHealth(source, Error, Live, FirstTime(h), FirstTime(h),
                   Some(ErrorInfo(SourceUnavailable, "source has no cached evidence")), [])
    case Some(a) =>
      if Successful(a.outcome) then
        SourceHealth(source, a.outcome.status, a.outcome.provenance, a.at, a.at + FRESHNESS, None, [])
      else
        match LatestSuccess(h, k)
        case None => SourceHealth(source, a.outcome.status, Live, a.at, a.at, a.outcome.cause, [])
        case Some(s) => SourceHealth(source, Stale, LastGood, s.at, s.at + FRESHNESS, a.outcome.cause, [])
  }

  ghost predicate HealthAgrees(h: History, previous: Option<GenerationBundle>, k: nat)
    requires WellFormed(h) && k < |SLICES|
  {
    if h.Start? then previous.None?
    else
      && previous.Some? && previous.value.snapshot == previous.value.lastGood
      && FindSource(previous.value.snapshot.payload.sources, SLICES[k].source) == Some(HealthAfter(h, k))
      && (SliceKey(k) in previous.value.lastGoodKeys <==> LatestSuccess(h, k).Some?)
  }

  lemma {:induction false} SuccessIsAttempt(h: History, k: nat)
    requires WellFormed(h) && k < |SLICES|
    ensures LatestAttempt(h, k).None? ==> LatestSuccess(h, k).None?
    ensures LatestAttempt(h, k).Some? && Successful(LatestAttempt(h, k).value.outcome)
        ==> LatestSuccess(h, k) == LatestAttempt(h, k)
  {
    if h.Then? {
      SuccessIsAttempt(h.earlier, k);
    }
  }

  // What resolution makes of a slice without a scope.
  lemma ResolveUnscoped(current: Option<SourceOutcome>, slice: Slice, previous: Option<GenerationBundle>, now: Instant)
    requires slice.scope.None? && Usable(previous)
    requires previous.Some? ==> previous.value.snapshot == previous.value.lastGood
    requires current.Some? ==> current.value.source == slice.source && current.value.scope.None?
    ensures var r := Resolve(current, slice, previous, now);
            var before := if previous.None? then None else FindSource(previous.value.snapshot.payload.sources, slice.source);
            && r.health.OfSource?
            && match current
               case None =>
                 && r.health.source == (if before.Some? then before.value else
                                          SourceHealth(slice.source, Error, Live, now, now,
                                                       Some(ErrorInfo(SourceUnavailable, "source has no cached evidence")), []))
                 && (Successful(r.outcome) <==> before.Some? && SuccessStatus(before.value.status))
               case Some(o) =>
                 && r.outcome == o
                 && r.health.source ==
                    if Successful(o) then SourceHealth(slice.source, o.status, o.provenance, now, now + FRESHNESS, None, [])
                    else if previous.Some? && KeyOf(slice.source, None) in previous.value.lastGoodKeys then
                      SourceHealth(slice.source, Stale, LastGood, before.value.observedAt, before.value.freshUntil, o.cause, [])
                    else SourceHealth(slice.source, o.status, Live, now, now, o.cause, [])
  {
  }

  lemma Unscoped(k: nat)
    requires k < |SLICES| && !IsFlatpak(k)
    ensures SLICES[k].scope.None? && SliceKey(k) == KeyOf(SLICES[k].source, None)
  {
  }

  lemma ResolvedHealth(h: History, previous: Option<GenerationBundle>, k: nat, r: ResolvedOutcome)
    requires WellFormed(h) && h.Then? && k < |SLICES| && !IsFlatpak(k)
    requires Usable(previous) && HealthAgrees(h.earlier, previous, k)
    requires r == Resolve(h.scan.inputs[k], SLICES[k], previous, h.scan.now)
    ensures r.health == OfSource(HealthAfter(h, k))
    ensures Successful(r.outcome) ==> LatestSuccess(h, k).Some?
    ensures LatestSuccess(h, k).Some? ==> Successful(r.outcome) || LatestSuccess(h.earlier, k).Some?
  {
    Unscoped(k);
    ResolveUnscoped(h.scan.inputs[k], SLICES[k], previous, h.scan.now);
    SuccessIsAttempt(h.earlier, k);
    SuccessOrLater(h.earlier, k);
    if h.scan.inputs[k].None? {
      assert h.earlier.Then? ==> HealthAfter(h, k) == HealthAfter(h.earlier, k);
    } else if !Successful(h.scan.inputs[k].value) {
      assert LatestSuccess(h, k) == LatestSuccess(h.earlier, k);
    }
  }

  lemma {:induction false} SuccessOrLater(h: History, k: nat)
    requires WellFormed(h) && k < |SLICES|
    ensures LatestSuccess(h, k).Some? ==> LatestAttempt(h, k).Some?
  {
    if h.Then? {
      SuccessOrLater(h.earlier, k);
    }
  }

  lemma AllAreShaped(scan: Scan, previous: Option<GenerationBundle>)
    requires WellFormedScan(scan) && Usable(previous)
    ensures AllShaped(ResolvedScan(scan, previous))
  {
    forall k | 0 <= k < |SLICES|
      ensures Shaped(ResolvedScan(scan, previous)[k], SLICES[k])
    {
      ResolvedShaped(scan, previous, k);
    }
  }

  // What a built bundle holds, part by part.
  lemma Built(sha: Sha256, scan: Scan, previous: Option<GenerationBundle>)
    requires WellFormedScan(scan) && Usable(previous) && Build(sha, scan, previous).Ok?
    ensures BuiltFrom(scan, previous, ResolvedScan(scan, previous), Build(sha, scan, previous).value)
  {
  }

  ghost predicate BuiltFrom(scan: Scan, previous: Option<GenerationBundle>, resolved: seq<ResolvedOutcome>,
                            b: GenerationBundle)
  {
    && |resolved| == |SLICES|
    && b.snapshot == b.lastGood
    && SourceHealths(resolved, scan.now) == Ok(b.snapshot.payload.sources)
    && b.snapshot.payload.scanState == ScanStateOf(resolved)
    && b.snapshot.payload.summary
       == Summarise(b.snapshot.payload.items, b.snapshot.payload.findings, b.snapshot.payload.sources)
    && b.lastGoodKeys == LastGoodKeys(previous, resolved)
  }

  lemma HealthStep(h: History, previous: Option<GenerationBundle>, k: nat, resolved: seq<ResolvedOutcome>,
                   b: GenerationBundle)
    requires WellFormed(h) && h.Then? && k < |SLICES| && !IsFlatpak(k)
    requires Usable(previous) && HealthAgrees(h.earlier, previous, k)
    requires AllShaped(resolved) && resolved[k] == Resolve(h.scan.inputs[k], SLICES[k], previous, h.scan.now)
    requires BuiltFrom(h.scan, previous, resolved, b)
    ensures HealthAgrees(h, Some(b), k)
  {
    SourcesReported(resolved, h.scan.now);
    KeyRecorded(previous, resolved, k);
    ResolvedHealth(h, previous, k, resolved[k]);
  }

  // After any sequence of scans the reported health of a source is the one its
  // attempts call for, and its key is recorded exactly when it has ever succeeded.
  lemma {:induction false} HealthOfHistory(sha: Sha256, h: History, k: nat)
    requires WellFormed(h) && k < |SLICES| && !IsFlatpak(k)
    ensures Chain(sha, h).Ok? && HealthAgrees(h, Chain(sha, h).value, k)
  {
    GenerationRefines(sha, h);
    if h.Then? {
      HealthOfHistory(sha, h.earlier, k);
      ChainStep(sha, h);
      var previous := Chain(sha, h.earlier).value;
      HealthStep(h, previous, k, ResolvedScan(h.scan, previous), Chain(sha, h).value.value);
    }
  }

  predicate NeverStale(h: History)
    requires WellFormed(h)
  {
    h.Then? ==>
      && NeverStale(h.earlier)
      && forall k :: 0 <= k < |SLICES| && h.scan.inputs[k].Some? ==> !h.scan.inputs[k].value.status.Stale?
  }

  lemma {:induction false} AttemptsNeverStale(h: History, k: nat)
    requires WellFormed(h) && NeverStale(h) && k < |SLICES|
    ensures LatestAttempt(h, k).Some? ==> !LatestAttempt(h, k).value.outcome.status.Stale?
  {
    if h.Then? {
      AttemptsNeverStale(h.earlier, k);
    }
  }

  // With collectors that never report STALE themselves, a source is stale exactly
  // when its latest attempt failed after some success, and its times are then
  // those of its latest success.
  lemma StaleAfterSuccess(sha: Sha256, h: History, k: nat)
    requires WellFormed(h) && h.Then? && NeverStale(h) && k < |SLICES| && !IsFlatpak(k)
    ensures Chain(sha, h).Ok? && Chain(sha, h).value.Some?
    ensures var found := FindSource(Chain(sha, h).value.value.snapshot.payload.sources, SLICES[k].source);
            && found.Some?
            && (found.value.status.Stale? <==>
                  && LatestSuccess(h, k).Some? && LatestAttempt(h, k).Some?
                  && !Successful(LatestAttempt(h, k).value.outcome))
            && (LatestSuccess(h, k).Some? ==>
                  && found.value.observedAt == LatestSuccess(h, k).value.at
                  && found.value.freshUntil == LatestSuccess(h, k).value.at + FRESHNESS)
  {
    HealthOfHistory(sha, h, k);
    AttemptsNeverStale(h, k);
    SuccessIsAttempt(h, k);
    SuccessOrLater(h, k);
  }

  lemma ChainStep(sha: Sha256, h: History)
    requires WellFormed(h) && h.Then?
    ensures Chain(sha, h.earlier).Ok? && Chain(sha, h).Ok? && Chain(sha, h).value.Some?
    ensures var previous := Chain(sha, h.earlier).value;
            && AllShaped(ResolvedScan(h.scan, previous))
            && BuiltFrom(h.scan, previous, ResolvedScan(h.scan, previous), Chain(sha, h).value.value)
  {
    GenerationRefines(sha, h.earlier);
    GenerationRefines(sha, h);
    Built(sha, h.scan, Chain(sha, h.earlier).value);
    AllAreShaped(h.scan, Chain(sha, h.earlier).value);
  }

  // Complete scans

  // How the collectors set the applicable flag: an outcome that does not apply says
  // so, except that CISA KEV is marked inapplicable when the security evidence it
  // depends on failed. The two Flatpak scopes are collected together.
  predicate Produced(inputs: ScanInputs)
    requires |inputs| == |SLICES|
  {
    && (forall k :: 0 <= k < |SLICES| && inputs[k].Some? && !inputs[k].value.applicable ==>
          || inputs[k].value.status.NotApplicable?
          || (k == 7 && inputs[6].Some? && inputs[6].value.applicable && !Successful(inputs[6].value)))
    && (inputs[3].Some? <==> inputs[4].Some?)
  }

  // No degradation is hidden from the scan state: every slice was collected or has
  // a previous generation to read, and no Flatpak scope that is known went missing.
  predicate NothingHidden(inputs: ScanInputs, previous: Option<GenerationBundle>)
    requires |inputs| == |SLICES|
  {
    && (previous.Some? || forall k :: 0 <= k < |SLICES| ==> inputs[k].Some?)
    && forall k :: 0 <= k < |SLICES| && IsFlatpak(k) && inputs[k].Some? && inputs[k].value.status.MissingDependency? ==>
         previous.Some? ==> SliceKey(k) !in previous.value.lastGoodKeys
  }

  // The status a slice shows in the sources list (its scope's, for Flatpak).
  function ShownStatus(r: ResolvedOutcome): SourceStatus {
    if r.health.OfScope? && r.health.Status().MissingDependency? then NotApplicable else r.health.Status()
  }

  lemma CompleteConsidered(resolved: seq<ResolvedOutcome>, k: nat)
    requires ScanStateOf(resolved).Complete? && k < |resolved| && Applicable(resolved[k])
    ensures Successful(resolved[k].outcome) && resolved[k].health.Status().OK?
  {
    assert resolved[k] in resolved;
  }

  lemma CachedNotApplicable(slice: Slice, bundle: GenerationBundle, now: Instant)
    requires Usable(Some(bundle)) && (slice.source.Flatpak? ==> slice.scope.Some?)
    ensures !Applicable(Cached(slice, Some(bundle), now)) ==> SuccessStatus(ShownStatus(Cached(slice, Some(bundle), now)))
  {
  }

  lemma CurrentStatus(o: SourceOutcome, slice: Slice, previous: Option<GenerationBundle>, now: Instant)
    requires Usable(previous)
    ensures Resolve(Some(o), slice, previous, now).outcome == o
    ensures Successful(o) ==> Resolve(Some(o), slice, previous, now).health.Status() == o.status
    ensures o.status.MissingDependency? && o.scope.Some? && (previous.None? || Key(o) !in previous.value.lastGoodKeys)
        ==> ShownStatus(Resolve(Some(o), slice, previous, now)).NotApplicable?
  {
  }

  lemma CompleteSlice(scan: Scan, previous: Option<GenerationBundle>, k: nat, resolved: seq<ResolvedOutcome>)
    requires WellFormedScan(scan) && Usable(previous) && Produced(scan.inputs) && k < |SLICES| == |resolved|
    requires resolved[k] == Resolve(scan.inputs[k], SLICES[k], previous, scan.now)
    requires resolved[6] == Resolve(scan.inputs[6], SLICES[6], previous, scan.now)
    requires ScanStateOf(resolved).Complete?
    requires NothingHidden(scan.inputs, previous)
    ensures SuccessStatus(ShownStatus(resolved[k]))
  {
    if Applicable(resolved[k]) {
      CompleteConsidered(resolved, k);
    } else if scan.inputs[k].None? {
      CachedNotApplicable(SLICES[k], previous.value, scan.now);
    } else {
      var o := scan.inputs[k].value;
      CurrentStatus(o, SLICES[k], previous, scan.now);
      if scan.inputs[6].Some? {
        CurrentStatus(scan.inputs[6].value, SLICES[6], previous, scan.now);
        if Applicable(resolved[6]) {
          CompleteConsidered(resolved, 6);
        }
      }
    }
  }

  // A slice that the scan state does not consider although it is degraded.
  predicate Hidden(scan: Scan, previous: Option<GenerationBundle>, k: nat)
    requires k < |SLICES| == |scan.inputs|
  {
    if previous.None? then scan.inputs[k].None?
    else
      && IsFlatpak(k) && scan.inputs[k].Some? && scan.inputs[k].value.status.MissingDependency?
      && SliceKey(k) in previous.value.lastGoodKeys
  }

  lemma HiddenStatus(scan: Scan, previous: Option<GenerationBundle>, k: nat, r: ResolvedOutcome)
    requires WellFormedScan(scan) && Usable(previous) && k < |SLICES|
    requires r == Resolve(scan.inputs[k], SLICES[k], previous, scan.now) && Hidden(scan, previous, k)
    ensures r.health.Status() == if previous.None? then Error else Stale
  {
  }

  lemma FlatpakShown(user: ScopeHealth, system: ScopeHealth)
    ensures SuccessStatus(user.status) && SuccessStatus(system.status) ==> SuccessStatus(FlatpakStatus(user.status, system.status))
    ensures user.status.Stale? || system.status.Stale? ==> FlatpakStatus(user.status, system.status).Stale?
    ensures user.status.Error? && system.status.Error? ==> FlatpakStatus(user.status, system.status).Error?
  {
  }

  lemma Degraded(items: seq<NormalizedItem>, findings: seq<SecurityFindingGroup>, sources: seq<SourceHealth>)
    ensures Summarise(items, findings, sources).degradedSources == 0 <==>
            forall h :: h in sources ==> SuccessStatus(h.status)
  {
    var p := (h: SourceHealth) => !SuccessStatus(h.status);
    if forall h :: h in sources ==> SuccessStatus(h.status) {
      FilterNone(p, sources);
    } else {
      var h :| h in sources && !SuccessStatus(h.status);
      assert h in Filter(p, sources);
    }
  }

  lemma ShownHealths(resolved: seq<ResolvedOutcome>, now: Instant)
    requires AllShaped(resolved) && SourceHealths(resolved, now).Ok?
    requires forall k :: 0 <= k < |SLICES| ==> SuccessStatus(ShownStatus(resolved[k]))
    ensures forall h :: h in SourceHealths(resolved, now).value ==> SuccessStatus(h.status)
  {
    SourcesReported(resolved, now);
    FlatpakShown(ScopeOf(resolved[3]).value, ScopeOf(resolved[4]).value);
    assert SuccessStatus(ShownStatus(resolved[3])) && SuccessStatus(ShownStatus(resolved[4]));
    forall h | h in SourceHealths(resolved, now).value
      ensures SuccessStatus(h.status)
    {
      if k :| 0 <= k < |SLICES| && !IsFlatpak(k) && resolved[k].health == OfSource(h) {
        assert SuccessStatus(ShownStatus(resolved[k]));
      }
    }
  }

  lemma HiddenFlatpak(scan: Scan, previous: Option<GenerationBundle>, k: nat, resolved: seq<ResolvedOutcome>)
    requires WellFormedScan(scan) && Usable(previous) && Produced(scan.inputs)
    requires IsFlatpak(k) && Hidden(scan, previous, k)
    requires |resolved| == |SLICES| && Shaped(resolved[3], SLICES[3]) && Shaped(resolved[4], SLICES[4])
    requires resolved[3] == Resolve(scan.inputs[3], SLICES[3], previous, scan.now)
    requires resolved[4] == Resolve(scan.inputs[4], SLICES[4], previous, scan.now)
    ensures ScopeOf(resolved[3]).Ok? && ScopeOf(resolved[4]).Ok?
    ensures !SuccessStatus(FlatpakStatus(ScopeOf(resolved[3]).value.status, ScopeOf(resolved[4]).value.status))
  {
    HiddenStatus(scan, previous, k, resolved[k]);
    if previous.None? {
      HiddenStatus(scan, previous, 3, resolved[3]);
      HiddenStatus(scan, previous, 4, resolved[4]);
    }
    FlatpakShown(ScopeOf(resolved[3]).value, ScopeOf(resolved[4]).value);
  }

  lemma HiddenHealths(scan: Scan, previous: Option<GenerationBundle>, k: nat, resolved: seq<ResolvedOutcome>,
                      sources: seq<SourceHealth>)
    requires WellFormedScan(scan) && Usable(previous) && Produced(scan.inputs)
    requires k < |SLICES| && Hidden(scan, previous, k)
    requires AllShaped(resolved)
    requires forall j :: 0 <= j < |SLICES| ==> resolved[j] == Resolve(scan.inputs[j], SLICES[j], previous, scan.now)
    requires SourceHealths(resolved, scan.now) == Ok(sources)
    ensures exists h :: h in sources && !SuccessStatus(h.status)
  {
    SourcesReported(resolved, scan.now);
    if IsFlatpak(k) {
      HiddenFlatpak(scan, previous, k, resolved);
      assert FindSource(sources, SourceName.Flatpak).value in sources;
    } else {
      HiddenStatus(scan, previous, k, resolved[k]);
      Unscoped(k);
      assert FindSource(sources, SLICES[k].source).value in sources;
    }
  }

  lemma HiddenOrNot(scan: Scan, previous: Option<GenerationBundle>)
    requires |scan.inputs| == |SLICES|
    ensures NothingHidden(scan.inputs, previous) <==> forall k :: 0 <= k < |SLICES| ==> !Hidden(scan, previous, k)
  {
    if forall k :: 0 <= k < |SLICES| ==> !Hidden(scan, previous, k) {
      forall k | 0 <= k < |SLICES| && previous.None?
        ensures scan.inputs[k].Some?
      {
        assert !Hidden(scan, previous, k);
      }
      forall k | 0 <= k < |SLICES| && IsFlatpak(k) && scan.inputs[k].Some? && previous.Some?
        ensures scan.inputs[k].value.status.MissingDependency? ==> SliceKey(k) !in previous.value.lastGoodKeys
      {
        assert !Hidden(scan, previous, k);
      }
    }
  }

  // A COMPLETE generation reports no degraded source exactly when nothing is hidden
  // from the scan state; then every source is OK or NOT_APPLICABLE.
  lemma CompleteMeansHealthy(sha: Sha256, scan: Scan, previous: Option<GenerationBundle>)
    requires WellFormedScan(scan) && Usable(previous) && Produced(scan.inputs)
    requires Build(sha, scan, previous).Ok?
    requires Build(sha, scan, previous).value.snapshot.payload.scanState.Complete?
    ensures var payload := Build(sha, scan, previous).value.snapshot.payload;
            && (payload.summary.degradedSources == 0 <==> NothingHidden(scan.inputs, previous))
            && (NothingHidden(scan.inputs, previous) ==> forall h :: h in payload.sources ==> SuccessStatus(h.status))
  {
    Built(sha, scan, previous);
    AllAreShaped(scan, previous);
    HealthyFrom(scan, previous, ResolvedScan(scan, previous), Build(sha, scan, previous).value);
  }

  lemma HealthyFrom(scan: Scan, previous: Option<GenerationBundle>, resolved: seq<ResolvedOutcome>, b: GenerationBundle)
    requires WellFormedScan(scan) && Usable(previous) && Produced(scan.inputs)
    requires AllShaped(resolved) && BuiltFrom(scan, previous, resolved, b)
    requires forall j :: 0 <= j < |SLICES| ==> resolved[j] == Resolve(scan.inputs[j], SLICES[j], previous, scan.now)
    requires b.snapshot.payload.scanState.Complete?
    ensures b.snapshot.payload.summary.degradedSources == 0 <==> NothingHidden(scan.inputs, previous)
    ensures NothingHidden(scan.inputs, previous) ==> forall h :: h in b.snapshot.payload.sources ==> SuccessStatus(h.status)
  {
    var payload := b.snapshot.payload;
    Degraded(payload.items, payload.findings, payload.sources);
    HiddenOrNot(scan, previous);
    if NothingHidden(scan.inputs, previous) {
      CompleteSlices(scan, previous, resolved);
      ShownHealths(resolved, scan.now);
    } else {
      var k :| 0 <= k < |SLICES| && Hidden(scan, previous, k);
      HiddenHealths(scan, previous, k, resolved, payload.sources);
    }
  }

  lemma CompleteSlices(scan: Scan, previous: Option<GenerationBundle>, resolved: seq<ResolvedOutcome>)
    requires WellFormedScan(scan) && Usable(previous) && Produced(scan.inputs) && |resolved| == |SLICES|
    requires forall j :: 0 <= j < |SLICES| ==> resolved[j] == Resolve(scan.inputs[j], SLICES[j], previous, scan.now)
    requires ScanStateOf(resolved).Complete? && NothingHidden(scan.inputs, previous)
    ensures forall k :: 0 <= k < |SLICES| ==> SuccessStatus(ShownStatus(resolved[k]))
  {
    forall k | 0 <= k < |SLICES|
      ensures SuccessStatus(ShownStatus(resolved[k]))
    {
      CompleteSlice(scan, previous, k, resolved);
    }
  }
}
