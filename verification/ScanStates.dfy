// When a scan is COMPLETE, PARTIAL or FAILED, read off what the collectors have
// returned since the first scan.
module ScanStates {
  import opened Wrappers
  import opened Records
  import opened Sorting
  import opened ScanResolution
  import opened ScanAssembly
  import opened ScanGeneration
  import opened GenerationHistory
  import opened GenerationHealth
  import opened FlatpakHistory

  // Whether a slice counts as having been good once.
  predicate EverGood(h: History, k: nat)
    requires WellFormed(h) && k < |SLICES|
  {
    if IsFlatpak(k) then Known(h, k) else LatestSuccess(h, k).Some?
  }

  // Whether a scan has evidence of a slice, fresh or from before.
  predicate HasEvidence(h: History, k: nat)
    requires WellFormed(h) && h.Then? && k < |SLICES|
  {
    CollectedNow(h.scan, k) || EverGood(h.earlier, k)
  }

  const AUR_SLICE := 2

  // Whether a slice is asked for: its collector says so, or, when it was not collected,
  // it did not last stand at not applicable. A missing Flatpak is not asked for. Before
  // anything was collected only AUR is.
  predicate Considered(h: History, k: nat)
    requires WellFormed(h) && h.Then? && k < |SLICES|
  {
    match h.scan.inputs[k]
    case Some(o) => o.applicable && !(IsFlatpak(k) && o.status.MissingDependency?)
    case None => if h.earlier.Start? then k == AUR_SLICE else !StoodInapplicable(h.earlier, k)
  }

  predicate StoodInapplicable(h: History, k: nat)
    requires WellFormed(h) && k < |SLICES|
  {
    var last := LatestAttempt(h, k);
    && last.Some?
    && (last.value.outcome.status.NotApplicable?
        || (IsFlatpak(k) && Missing(last) && !Known(BeforeAttempt(h, k), k)))
  }

  // Whether the latest attempt at a slice was plainly successful.
  predicate StandsOk(h: History, k: nat)
    requires WellFormed(h) && k < |SLICES|
  {
    LatestAttempt(h, k).Some? && LatestAttempt(h, k).value.outcome.status.OK?
  }

  // Some mandatory source has evidence: Omarchy, Arch, security, or AUR if it is asked for.
  predicate Backed(h: History)
    requires WellFormed(h) && h.Then?
  {
    || HasEvidence(h, 0) || HasEvidence(h, 1) || HasEvidence(h, SECURITY_SLICE)
    || (Considered(h, AUR_SLICE) && HasEvidence(h, AUR_SLICE))
  }

  predicate AllStandOk(h: History)
    requires WellFormed(h) && h.Then?
  {
    forall k :: 0 <= k < |SLICES| && Considered(h, k) ==> StandsOk(h, k)
  }

  predicate SomeEvidence(h: History)
    requires WellFormed(h) && h.Then?
  {
    exists k :: 0 <= k < |SLICES| && Considered(h, k) && HasEvidence(h, k)
  }

  // What a resolved slice says of each of these.
  ghost predicate SliceAgrees(h: History, k: nat, r: ResolvedOutcome)
    requires WellFormed(h) && h.Then? && k < |SLICES|
  {
    && r.outcome.source == SLICES[k].source
    && (r.usable <==> HasEvidence(h, k))
    && (Applicable(r) <==> Considered(h, k))
    && (Successful(r.outcome) && r.health.Status().OK? <==> StandsOk(h, k))
    && (k == AUR_SLICE ==> (r.outcome.applicable <==> Considered(h, k)))
  }

  lemma {:induction false} LatestStatus(h: History, k: nat)
    requires WellFormed(h) && h.Then? && k < |SLICES|
    ensures !IsFlatpak(k) ==>
              && (HealthAfter(h, k).status.NotApplicable? <==> StoodInapplicable(h, k))
              && (HealthAfter(h, k).status.OK? <==> StandsOk(h, k))
    ensures IsFlatpak(k) ==>
              && (ScopeAfter(h, k).status.NotApplicable? <==> StoodInapplicable(h, k))
              && (ScopeAfter(h, k).status.OK? <==> StandsOk(h, k))
  {
  }

  lemma NotCollected(h: History, k: nat)
    requires WellFormed(h) && h.Then? && k < |SLICES| && h.scan.inputs[k].None?
    ensures LatestAttempt(h, k) == LatestAttempt(h.earlier, k)
    ensures HasEvidence(h, k) <==> EverGood(h.earlier, k)
    ensures h.earlier.Start? ==> !EverGood(h.earlier, k) && LatestAttempt(h, k).None?
  {
  }

  // A slice that was collected now.
  lemma CollectedAgrees(h: History, previous: Option<GenerationBundle>, k: nat)
    requires WellFormed(h) && h.Then? && k < |SLICES| && h.scan.inputs[k].Some? && Usable(previous)
    requires previous.Some? ==> (SliceKey(k) in previous.value.lastGoodKeys <==> EverGood(h.earlier, k))
    requires previous.None? ==> !EverGood(h.earlier, k)
    ensures SliceAgrees(h, k, Resolve(h.scan.inputs[k], SLICES[k], previous, h.scan.now))
  {
    var o := h.scan.inputs[k].value;
    assert WellFormedOutcome(o, k);
    assert Key(o) == SliceKey(k);
    assert o.source.Flatpak? <==> IsFlatpak(k);
    assert LatestAttempt(h, k) == Some(Attempt(o, h.scan.now));
  }

  // A slice that was not.
  lemma CachedAgrees(h: History, previous: Option<GenerationBundle>, k: nat, status: SourceStatus)
    requires WellFormed(h) && h.Then? && k < |SLICES| && h.scan.inputs[k].None? && Usable(previous)
    requires previous.Some? <==> h.earlier.Then?
    requires previous.Some? ==>
               && (SliceKey(k) in previous.value.lastGoodKeys <==> EverGood(h.earlier, k))
               && PreviousHealth(previous.value.snapshot, SLICES[k], h.scan.now).Status() == status
               && (status.NotApplicable? <==> StoodInapplicable(h.earlier, k))
               && (status.OK? <==> StandsOk(h.earlier, k)) && !(IsFlatpak(k) && status.MissingDependency?)
    ensures SliceAgrees(h, k, Resolve(h.scan.inputs[k], SLICES[k], previous, h.scan.now))
  {
    NotCollected(h, k);
    assert SLICES[k].source.Aur? <==> k == AUR_SLICE;
    assert SLICES[k].source.Flatpak? <==> IsFlatpak(k);
  }

  lemma UnscopedAgrees(h: History, previous: Option<GenerationBundle>, k: nat)
    requires WellFormed(h) && h.Then? && k < |SLICES| && !IsFlatpak(k)
    requires Usable(previous) && HealthAgrees(h.earlier, previous, k)
    ensures SliceAgrees(h, k, Resolve(h.scan.inputs[k], SLICES[k], previous, h.scan.now))
  {
    Unscoped(k);
    if h.scan.inputs[k].Some? {
      NeverAtStart(h, k);
      CollectedAgrees(h, previous, k);
    } else if h.earlier.Start? {
      CachedAgrees(h, previous, k, Error);
    } else {
      LatestStatus(h.earlier, k);
      CachedAgrees(h, previous, k, HealthAfter(h.earlier, k).status);
    }
  }

  lemma NeverAtStart(h: History, k: nat)
    requires WellFormed(h) && h.Then? && k < |SLICES|
    ensures h.earlier.Start? ==> !EverGood(h.earlier, k)
  {
  }

  lemma ScopeAgreesNow(h: History, previous: Option<GenerationBundle>, k: nat)
    requires WellFormed(h) && h.Then? && IsFlatpak(k)
    requires Usable(previous) && ScopeAgrees(h.earlier, previous, k)
    ensures SliceAgrees(h, k, Resolve(h.scan.inputs[k], SLICES[k], previous, h.scan.now))
  {
    if h.scan.inputs[k].Some? {
      NeverAtStart(h, k);
      CollectedAgrees(h, previous, k);
    } else if h.earlier.Start? {
      CachedAgrees(h, previous, k, Error);
    } else {
      LatestStatus(h.earlier, k);
      NeverStoredMissing(h.earlier, k);
      CachedAgrees(h, previous, k, ScopeAfter(h.earlier, k).status);
    }
  }

  // The state is that of the slices.
  lemma StateOfSlices(h: History, resolved: seq<ResolvedOutcome>)
    requires WellFormed(h) && h.Then? && |resolved| == |SLICES|
    requires forall k :: 0 <= k < |SLICES| ==> SliceAgrees(h, k, resolved[k])
    ensures ScanStateOf(resolved) ==
            if !Backed(h) then ScanState.Failed
            else if AllStandOk(h) then Complete
            else if SomeEvidence(h) then Partial
            else ScanState.Failed
  {
    MandatoryOfSlices(h, resolved);
    ConsideredOfSlices(h, resolved);
    EvidenceOfSlices(h, resolved);
  }

  lemma ConsideredOfSlices(h: History, resolved: seq<ResolvedOutcome>)
    requires WellFormed(h) && h.Then? && |resolved| == |SLICES|
    requires forall k :: 0 <= k < |SLICES| ==> SliceAgrees(h, k, resolved[k])
    ensures (forall r :: r in resolved && Applicable(r) ==> Successful(r.outcome) && r.health.Status().OK?) <==> AllStandOk(h)
  {
    if AllStandOk(h) {
      forall r | r in resolved && Applicable(r)
        ensures Successful(r.outcome) && r.health.Status().OK?
      {
        var k :| 0 <= k < |resolved| && resolved[k] == r;
        assert SliceAgrees(h, k, resolved[k]);
      }
    } else {
      var k :| 0 <= k < |SLICES| && Considered(h, k) && !StandsOk(h, k);
      assert SliceAgrees(h, k, resolved[k]) && resolved[k] in resolved;
    }
  }

  lemma EvidenceOfSlices(h: History, resolved: seq<ResolvedOutcome>)
    requires WellFormed(h) && h.Then? && |resolved| == |SLICES|
    requires forall k :: 0 <= k < |SLICES| ==> SliceAgrees(h, k, resolved[k])
    ensures (exists r :: r in resolved && Applicable(r) && r.usable) <==> SomeEvidence(h)
  {
    if r :| r in resolved && Applicable(r) && r.usable {
      var k :| 0 <= k < |resolved| && resolved[k] == r;
      assert SliceAgrees(h, k, resolved[k]);
    }
    if k :| 0 <= k < |SLICES| && Considered(h, k) && HasEvidence(h, k) {
      assert SliceAgrees(h, k, resolved[k]) && resolved[k] in resolved;
    }
  }

  lemma MandatoryOfSlices(h: History, resolved: seq<ResolvedOutcome>)
    requires WellFormed(h) && h.Then? && |resolved| == |SLICES|
    requires forall k :: 0 <= k < |SLICES| ==> SliceAgrees(h, k, resolved[k])
    ensures (exists r :: r in resolved && Mandatory(r) && r.usable) <==> Backed(h)
  {
    assert SliceAgrees(h, 0, resolved[0]) && SliceAgrees(h, 1, resolved[1]);
    assert SliceAgrees(h, AUR_SLICE, resolved[AUR_SLICE]) && SliceAgrees(h, SECURITY_SLICE, resolved[SECURITY_SLICE]);
    assert resolved[0] in resolved && resolved[1] in resolved;
    assert resolved[AUR_SLICE] in resolved && resolved[SECURITY_SLICE] in resolved;
    if r :| r in resolved && Mandatory(r) && r.usable {
      var k :| 0 <= k < |resolved| && resolved[k] == r;
      assert SliceAgrees(h, k, resolved[k]);
      MandatorySlice(k);
    }
  }

  lemma MandatorySlice(k: nat)
    requires k < |SLICES|
    ensures SLICES[k].source.Omarchy? ==> k == 0
    ensures SLICES[k].source.Arch? ==> k == 1
    ensures SLICES[k].source.Aur? ==> k == AUR_SLICE
    ensures SLICES[k].source.Security? ==> k == SECURITY_SLICE
  {
  }

  // In every generation of a chain the state is COMPLETE exactly when a mandatory
  // source has evidence and every slice that is asked for stands at OK, PARTIAL
  // exactly when only the latter fails but some slice that is asked for has evidence,
  // and FAILED otherwise.
  lemma ScanStateIff(sha: Sha256, h: History)
    requires WellFormed(h) && h.Then?
    ensures Chain(sha, h).Ok? && Chain(sha, h).value.Some?
    ensures var state := Chain(sha, h).value.value.snapshot.payload.scanState;
            && (state.Complete? <==> Backed(h) && AllStandOk(h))
            && (state.Partial? <==> Backed(h) && !AllStandOk(h) && SomeEvidence(h))
            && (state.Failed? <==> !Backed(h) || (!AllStandOk(h) && !SomeEvidence(h)))
  {
    ChainStep(sha, h);
    ScopesOfHistory(sha, h.earlier);
    var previous := Chain(sha, h.earlier).value;
    forall k | 0 <= k < |SLICES| && !IsFlatpak(k)
      ensures HealthAgrees(h.earlier, previous, k)
    {
      HealthOfHistory(sha, h.earlier, k);
    }
    StateOfChain(h, previous, ResolvedScan(h.scan, previous));
  }

  lemma StateOfChain(h: History, previous: Option<GenerationBundle>, resolved: seq<ResolvedOutcome>)
    requires WellFormed(h) && h.Then? && Usable(previous) && |resolved| == |SLICES|
    requires ScopeAgrees(h.earlier, previous, 3) && ScopeAgrees(h.earlier, previous, 4)
    requires forall k :: 0 <= k < |SLICES| && !IsFlatpak(k) ==> HealthAgrees(h.earlier, previous, k)
    requires forall k :: 0 <= k < |SLICES| ==> resolved[k] == Resolve(h.scan.inputs[k], SLICES[k], previous, h.scan.now)
    ensures ScanStateOf(resolved) ==
            if !Backed(h) then ScanState.Failed
            else if AllStandOk(h) then Complete
            else if SomeEvidence(h) then Partial
            else ScanState.Failed
  {
    forall k | 0 <= k < |SLICES|
      ensures SliceAgrees(h, k, resolved[k])
    {
      if IsFlatpak(k) {
        ScopeAgreesNow(h, previous, k);
      } else {
        UnscopedAgrees(h, previous, k);
      }
    }
    StateOfSlices(h, resolved);
  }

  // Evidence of a mandatory source is not enough: when all there is is that Omarchy does
  // not apply, and everything else fails, the scan is FAILED.
  lemma FailedThoughBacked(sha: Sha256, scan: Scan)
    requires WellFormedScan(scan)
    requires scan.inputs[0].Some? && scan.inputs[0].value.status.NotApplicable? && !scan.inputs[0].value.applicable
    requires forall k :: 0 < k < |SLICES| ==>
               && scan.inputs[k].Some? && !Successful(scan.inputs[k].value) && scan.inputs[k].value.applicable
               && !scan.inputs[k].value.status.MissingDependency?
    ensures WellFormed(Start) && WellFormed(Then(Start, scan)) && Backed(Then(Start, scan))
    ensures Chain(sha, Then(Start, scan)).Ok? && Chain(sha, Then(Start, scan)).value.Some?
    ensures Chain(sha, Then(Start, scan)).value.value.snapshot.payload.scanState.Failed?
  {
    assert WellFormed(Start);
    var h := Then(Start, scan);
    assert WellFormed(h);
    forall k | 0 <= k < |SLICES|
      ensures HasEvidence(h, k) <==> k == 0
      ensures Considered(h, k) <==> k > 0
      ensures k > 0 ==> !StandsOk(h, k)
    {
      NeverAtStart(h, k);
      assert LatestAttempt(h, k) == Some(Attempt(scan.inputs[k].value, scan.now));
    }
    assert Considered(h, 1) && !StandsOk(h, 1);
    ScanStateIff(sha, h);
  }
}
