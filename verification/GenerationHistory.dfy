// Sequences of scans. The generation after the last of them is compared with
// what the scans collected, without looking at any earlier generation.
module GenerationHistory {
  import opened Wrappers
  import opened Records
  import opened Sorting
  import opened ScanResolution
  import opened ScanAssembly
  import opened ScanGeneration
  import opened GenerationItems

  datatype Scan = Scan(generationId: string, order: int, inputs: ScanInputs, state: PersistentState, now: Instant)

  datatype History = Start | Then(earlier: History, scan: Scan)

  datatype Attempt = Attempt(outcome: SourceOutcome, at: Instant)

  const SECURITY_SLICE := 6

  // What the collectors promise of an outcome: it names its slice, and a
  // successful one lists the slice's own items once each. Only the security
  // slice has findings.
  predicate WellFormedOutcome(o: SourceOutcome, k: nat)
    requires k < |SLICES|
  {
    && o.source == SLICES[k].source && o.scope == SLICES[k].scope
    && (Successful(o) ==> Part(o.items, k) && (k != SECURITY_SLICE ==> o.findings == []))
  }

  predicate WellFormedScan(s: Scan) {
    && |s.inputs| == |SLICES| && CountsValid(s.state.sources)
    && forall k :: 0 <= k < |SLICES| && s.inputs[k].Some? ==> WellFormedOutcome(s.inputs[k].value, k)
  }

  predicate WellFormed(h: History) {
    h.Then? ==> WellFormed(h.earlier) && WellFormedScan(h.scan)
  }

  // What the collectors saw

  function LatestAttempt(h: History, k: nat): Option<Attempt>
    requires WellFormed(h) && k < |SLICES|
  {
    if h.Start? then None
    else if h.scan.inputs[k].Some? then Some(Attempt(h.scan.inputs[k].value, h.scan.now))
    else LatestAttempt(h.earlier, k)
  }

  function LatestSuccess(h: History, k: nat): (r: Option<Attempt>)
    requires WellFormed(h) && k < |SLICES|
    ensures r.Some? ==> Successful(r.value.outcome) && WellFormedOutcome(r.value.outcome, k)
  {
    if h.Start? then None
    else if CollectedNow(h.scan, k) then Some(Attempt(h.scan.inputs[k].value, h.scan.now))
    else LatestSuccess(h.earlier, k)
  }

  predicate CollectedNow(s: Scan, k: nat)
    requires k < |SLICES| == |s.inputs|
  {
    s.inputs[k].Some? && Successful(s.inputs[k].value)
  }

  // The items a slice should have after a history.
  function Expected(sha: Sha256, h: History, k: nat): seq<NormalizedItem>
    requires WellFormed(h) && h.Then? && k < |SLICES|
  {
    match LatestSuccess(h, k)
    case None => []
    case Some(a) =>
      Refresh(sha, if CollectedNow(h.scan, k) then a.outcome.items else Marked(a.outcome.items))
  }

  function SortedFindings(groups: seq<SecurityFindingGroup>): seq<SecurityFindingGroup> {
    Sort(groups, ByGroup)
  }

  function ExpectedFindings(h: History): seq<SecurityFindingGroup>
    requires WellFormed(h)
  {
    match LatestSuccess(h, SECURITY_SLICE)
    case None => []
    case Some(a) => SortedFindings(a.outcome.findings)
  }

  // The chain of generations

  function Chain(sha: Sha256, h: History): (r: Result<Option<GenerationBundle>, ErrorCode>)
    requires WellFormed(h)
    ensures r.Ok? ==> Usable(r.value)
  {
    match h
    case Start => Ok(None)
    case Then(earlier, scan) =>
      var previous :- Chain(sha, earlier);
      BuildUsable(sha, scan, previous);
      var bundle :- Build(sha, scan, previous);
      Ok(Some(bundle))
  }

  function Build(sha: Sha256, scan: Scan, previous: Option<GenerationBundle>): Result<GenerationBundle, ErrorCode>
    requires WellFormedScan(scan) && Usable(previous)
  {
    BuildGeneration(sha, scan.generationId, scan.order, scan.inputs, previous, scan.state, scan.now)
  }

  function ResolvedScan(scan: Scan, previous: Option<GenerationBundle>): (r: seq<ResolvedOutcome>)
    requires WellFormedScan(scan) && Usable(previous)
    ensures |r| == |SLICES|
  {
    ResolveAll(scan.inputs, previous, scan.now)
  }

  // Source healths

  predicate Shaped(r: ResolvedOutcome, slice: Slice) {
    && r.outcome.source == slice.source && r.outcome.scope == slice.scope
    && match slice.scope
       case None => r.health.OfSource? && r.health.source.source == slice.source
       case Some(scope) => r.health.OfScope? && r.health.scope.scope == scope
  }

  lemma ResolvedShaped(scan: Scan, previous: Option<GenerationBundle>, k: nat)
    requires WellFormedScan(scan) && Usable(previous) && k < |SLICES|
    ensures Shaped(ResolvedScan(scan, previous)[k], SLICES[k])
  {
  }

  ghost predicate AllShaped(resolved: seq<ResolvedOutcome>) {
    |resolved| == |SLICES| && forall k :: 0 <= k < |SLICES| ==> Shaped(resolved[k], SLICES[k])
  }

  lemma {:induction false} BasicHealthsMembers(resolved: seq<ResolvedOutcome>)
    requires forall r :: r in resolved && !r.outcome.source.Flatpak? ==> r.health.OfSource?
    ensures BasicHealths(resolved).Ok?
    ensures forall h :: h in BasicHealths(resolved).value <==>
                        exists r :: r in resolved && !r.outcome.source.Flatpak? && r.health == OfSource(h)
  {
    if resolved != [] {
      var first, rest := resolved[0], resolved[1..];
      assert resolved == [first] + rest;
      BasicHealthsMembers(rest);
    }
  }

  predicate IsFlatpak(k: nat) {
    k == 3 || k == 4
  }

  lemma SourceMembers(resolved: seq<ResolvedOutcome>, now: Instant)
    requires AllShaped(resolved)
    ensures SourceHealths(resolved, now).Ok? && ScopeOf(resolved[3]).Ok? && ScopeOf(resolved[4]).Ok?
    ensures forall h :: h in SourceHealths(resolved, now).value <==>
              || h == FlatpakHealth(ScopeOf(resolved[3]).value, ScopeOf(resolved[4]).value, now)
              || exists k :: 0 <= k < |SLICES| && !IsFlatpak(k) && resolved[k].health == OfSource(h)
  {
    assert Shaped(resolved[3], SLICES[3]) && Shaped(resolved[4], SLICES[4]);
    forall r | r in resolved
      ensures r.outcome.source.Flatpak? || r.health.OfSource?
    {
      var k :| 0 <= k < |resolved| && resolved[k] == r;
      assert Shaped(resolved[k], SLICES[k]);
    }
    BasicHealthsMembers(resolved);
    var basic := BasicHealths(resolved).value;
    SortMembers(basic + [FlatpakHealth(ScopeOf(resolved[3]).value, ScopeOf(resolved[4]).value, now)], BySource);
    forall h
      ensures h in basic <==> exists k :: 0 <= k < |SLICES| && !IsFlatpak(k) && resolved[k].health == OfSource(h)
    {
      BasicOrigin(resolved, h);
    }
  }

  lemma BasicOrigin(resolved: seq<ResolvedOutcome>, h: SourceHealth)
    requires AllShaped(resolved)
    ensures (exists r :: r in resolved && !r.outcome.source.Flatpak? && r.health == OfSource(h))
       <==> exists k :: 0 <= k < |SLICES| && !IsFlatpak(k) && resolved[k].health == OfSource(h)
  {
    if r :| r in resolved && !r.outcome.source.Flatpak? && r.health == OfSource(h) {
      var k :| 0 <= k < |resolved| && resolved[k] == r;
      assert Shaped(resolved[k], SLICES[k]);
      assert !IsFlatpak(k);
    }
    if k :| 0 <= k < |SLICES| && !IsFlatpak(k) && resolved[k].health == OfSource(h) {
      assert Shaped(resolved[k], SLICES[k]);
      assert resolved[k] in resolved;
    }
  }

  lemma UniqueBasic(resolved: seq<ResolvedOutcome>, sources: seq<SourceHealth>, flatpak: SourceHealth, k: nat)
    requires AllShaped(resolved) && k < |SLICES| && !IsFlatpak(k) && flatpak.source.Flatpak?
    requires forall h :: h in sources ==>
               h == flatpak || exists j :: 0 <= j < |SLICES| && !IsFlatpak(j) && resolved[j].health == OfSource(h)
    requires resolved[k].health.OfSource? && resolved[k].health.source in sources
    ensures FindSource(sources, SLICES[k].source) == Some(resolved[k].health.source)
  {
    assert Shaped(resolved[k], SLICES[k]);
    var found := FindSource(sources, SLICES[k].source);
    assert found.Some?;
    var j :| 0 <= j < |SLICES| && !IsFlatpak(j) && resolved[j].health == OfSource(found.value);
    assert Shaped(resolved[j], SLICES[j]);
    assert SLICES[j].source == SLICES[k].source;
    assert j == k;
  }

  lemma UniqueFlatpak(resolved: seq<ResolvedOutcome>, sources: seq<SourceHealth>, flatpak: SourceHealth)
    requires AllShaped(resolved) && flatpak.source.Flatpak? && flatpak in sources
    requires forall h :: h in sources ==>
               h == flatpak || exists j :: 0 <= j < |SLICES| && !IsFlatpak(j) && resolved[j].health == OfSource(h)
    ensures FindSource(sources, SourceName.Flatpak) == Some(flatpak)
  {
    var found := FindSource(sources, SourceName.Flatpak);
    assert found.Some?;
    forall j | 0 <= j < |SLICES| && !IsFlatpak(j)
      ensures resolved[j].health != OfSource(found.value)
    {
      assert Shaped(resolved[j], SLICES[j]);
    }
  }

  // Every source is reported once: by its own slice, or by the two Flatpak scopes together.
  lemma SourcesReported(resolved: seq<ResolvedOutcome>, now: Instant)
    requires AllShaped(resolved)
    ensures SourceHealths(resolved, now).Ok? && ScopeOf(resolved[3]).Ok? && ScopeOf(resolved[4]).Ok?
    ensures forall k :: 0 <= k < |SLICES| && !IsFlatpak(k) ==>
              FindSource(SourceHealths(resolved, now).value, SLICES[k].source) == Some(resolved[k].health.source)
    ensures FindSource(SourceHealths(resolved, now).value, SourceName.Flatpak)
         == Some(FlatpakHealth(ScopeOf(resolved[3]).value, ScopeOf(resolved[4]).value, now))
    ensures forall h :: h in SourceHealths(resolved, now).value ==>
              || h == FlatpakHealth(ScopeOf(resolved[3]).value, ScopeOf(resolved[4]).value, now)
              || exists k :: 0 <= k < |SLICES| && !IsFlatpak(k) && resolved[k].health == OfSource(h)
  {
    SourceMembers(resolved, now);
    var sources := SourceHealths(resolved, now).value;
    var flatpak := FlatpakHealth(ScopeOf(resolved[3]).value, ScopeOf(resolved[4]).value, now);
    forall k | 0 <= k < |SLICES| && !IsFlatpak(k)
      ensures FindSource(sources, SLICES[k].source) == Some(resolved[k].health.source)
    {
      assert Shaped(resolved[k], SLICES[k]);
      UniqueBasic(resolved, sources, flatpak, k);
    }
    UniqueFlatpak(resolved, sources, flatpak);
  }

  lemma BuildUsable(sha: Sha256, scan: Scan, previous: Option<GenerationBundle>)
    requires WellFormedScan(scan) && Usable(previous)
    ensures Build(sha, scan, previous).Ok? ==> Usable(Some(Build(sha, scan, previous).value))
  {
    var resolved := ResolvedScan(scan, previous);
    forall k | 0 <= k < |SLICES|
      ensures Shaped(resolved[k], SLICES[k])
    {
      ResolvedShaped(scan, previous, k);
    }
    SourcesReported(resolved, scan.now);
    var sources := SourceHealths(resolved, scan.now).value;
    forall source: SourceName
      ensures FindSource(sources, source).Some?
    {
      SliceOfSource(source);
    }
  }

  lemma SliceOfSource(source: SourceName)
    ensures source.Flatpak? || exists k :: 0 <= k < |SLICES| && !IsFlatpak(k) && SLICES[k].source == source
  {
    match source {
      case Omarchy => assert SLICES[0].source == source;
      case Arch => assert SLICES[1].source == source;
      case Aur => assert SLICES[2].source == source;
      case Flatpak =>
      case Mise => assert SLICES[5].source == source;
      case Security => assert SLICES[6].source == source;
      case CisaKev => assert SLICES[7].source == source;
    }
  }

  // Last good keys

  function SliceKey(k: nat): string
    requires k < |SLICES|
  {
    KeyOf(SLICES[k].source, SLICES[k].scope)
  }

  lemma KeysDiffer(j: nat, k: nat)
    requires j < k < |SLICES|
    ensures SliceKey(j) != SliceKey(k)
  {
    assert SliceKey(3) == "flatpak:user" && SliceKey(4) == "flatpak:system";
    assert |SliceKey(0)| == 7 && |SliceKey(1)| == 4 && |SliceKey(2)| == 3 && |SliceKey(3)| == 12;
    assert |SliceKey(4)| == 14 && |SliceKey(5)| == 4 && |SliceKey(6)| == 8 && |SliceKey(7)| == 8;
    assert SliceKey(1)[0] == 'a' && SliceKey(5)[0] == 'm' && SliceKey(6)[0] == 's' && SliceKey(7)[0] == 'c';
  }

  // A slice's key is kept once it is there, and added by a success.
  lemma KeyRecorded(previous: Option<GenerationBundle>, resolved: seq<ResolvedOutcome>, k: nat)
    requires AllShaped(resolved) && k < |SLICES|
    ensures SliceKey(k) in LastGoodKeys(previous, resolved) <==>
            || (previous.Some? && SliceKey(k) in previous.value.lastGoodKeys)
            || Successful(resolved[k].outcome)
  {
    var retained := if previous.None? then [] else previous.value.lastGoodKeys;
    SortMembers(Dedup(retained + SuccessKeys(resolved)), ByText);
    assert Shaped(resolved[k], SLICES[k]);
    var good := Filter(SuccessfulOutcome, resolved);
    if Successful(resolved[k].outcome) {
      assert resolved[k] in good;
      var i :| 0 <= i < |good| && good[i] == resolved[k];
      assert SuccessKeys(resolved)[i] == SliceKey(k);
    }
    if SliceKey(k) in SuccessKeys(resolved) {
      var i :| 0 <= i < |good| && SuccessKeys(resolved)[i] == SliceKey(k);
      assert good[i] in good && good[i] in resolved;
      var j :| 0 <= j < |resolved| && resolved[j] == good[i];
      assert Shaped(resolved[j], SLICES[j]);
      assert SliceKey(j) == SliceKey(k);
      if j < k {
        KeysDiffer(j, k);
      } else if k < j {
        KeysDiffer(k, j);
      }
      assert j == k;
    }
  }

  // Items

  // What is known of the generation after a history.
  ghost predicate Agrees(sha: Sha256, h: History, b: GenerationBundle)
    requires WellFormed(h) && h.Then?
  {
    && b.snapshot == b.lastGood
    && StrictlySorted(b.snapshot.payload.items) && AllInSlices(b.snapshot.payload.items)
    && (forall k :: 0 <= k < |SLICES| ==>
          && Filter(Belonging(SLICES[k]), b.snapshot.payload.items) == Expected(sha, h, k)
          && (LatestSuccess(h, k).Some? ==> SliceKey(k) in b.lastGoodKeys))
    && b.snapshot.payload.findings == ExpectedFindings(h)
  }

  ghost predicate AgreesBefore(sha: Sha256, h: History, previous: Option<GenerationBundle>)
    requires WellFormed(h)
  {
    if h.Start? then previous.None? else previous.Some? && Agrees(sha, h, previous.value)
  }

  lemma LastGoodPart(sha: Sha256, h: History, b: GenerationBundle, k: nat)
    requires WellFormed(h) && h.Then? && Agrees(sha, h, b) && k < |SLICES|
    ensures Part(LastGoodItems(b.snapshot, SLICES[k]), k)
  {
    var p := Belonging(SLICES[k]);
    var items := b.snapshot.payload.items;
    UniqueIdsFilter(p, items);
    var own := Filter(p, items);
    forall i | 0 <= i < |own|
      ensures InSlice(own[i], k)
    {
      assert own[i] in own && own[i] in items;
      var j :| 0 <= j < |SLICES| && InSlice(own[i], j);
      BelongsToOne(own[i], j, k);
    }
    var marked := Marked(own);
    forall item | item in marked
      ensures InSlice(item, k)
    {
      var i :| 0 <= i < |marked| && marked[i] == item;
      assert InSlice(own[i], k);
    }
  }

  // Reading last good items and normalising them again gives the items of the
  // latest success, marked as last good.
  lemma LastGoodRefreshes(sha: Sha256, h: History, b: GenerationBundle, k: nat)
    requires WellFormed(h) && h.Then? && Agrees(sha, h, b) && k < |SLICES|
    ensures Refresh(sha, LastGoodItems(b.snapshot, SLICES[k])) ==
            match LatestSuccess(h, k) case None => [] case Some(a) => Refresh(sha, Marked(a.outcome.items))
  {
    match LatestSuccess(h, k) {
      case None =>
      case Some(a) =>
        MarkedTwice(a.outcome.items);
        RefreshAgain(sha, a.outcome.items);
        RefreshAgain(sha, Marked(a.outcome.items));
    }
  }

  lemma RefreshNone(sha: Sha256)
    ensures Refresh(sha, []) == []
  {
  }

  // Whether a slice that was not collected successfully falls back on its last good evidence.
  predicate FallsBack(s: Scan, previous: Option<GenerationBundle>, k: nat)
    requires k < |SLICES| == |s.inputs|
  {
    previous.Some? && (s.inputs[k].None? || SliceKey(k) in previous.value.lastGoodKeys)
  }

  lemma ResolvedFrom(s: Scan, previous: Option<GenerationBundle>, k: nat)
    requires WellFormedScan(s) && Usable(previous) && k < |SLICES|
    requires previous.Some? ==> previous.value.snapshot == previous.value.lastGood
    ensures ResolvedScan(s, previous)[k].items ==
            if CollectedNow(s, k) then s.inputs[k].value.items
            else if FallsBack(s, previous, k) then LastGoodItems(previous.value.snapshot, SLICES[k])
            else []
    ensures ResolvedScan(s, previous)[k].findings ==
            if CollectedNow(s, k) then s.inputs[k].value.findings
            else if FallsBack(s, previous, k) then LastGoodFindings(previous.value.snapshot, SLICES[k])
            else []
  {
  }

  lemma ResolvedItems(sha: Sha256, h: History, previous: Option<GenerationBundle>, k: nat)
    requires WellFormed(h) && h.Then? && k < |SLICES|
    requires Usable(previous) && AgreesBefore(sha, h.earlier, previous)
    ensures Part(ResolvedScan(h.scan, previous)[k].items, k)
    ensures Refresh(sha, ResolvedScan(h.scan, previous)[k].items) == Expected(sha, h, k)
  {
    ResolvedFrom(h.scan, previous, k);
    var items := ResolvedScan(h.scan, previous)[k].items;
    RefreshNone(sha);
    if CollectedNow(h.scan, k) {
      assert items == LatestSuccess(h, k).value.outcome.items;
    } else if FallsBack(h.scan, previous, k) {
      LastGoodPart(sha, h.earlier, previous.value, k);
      LastGoodRefreshes(sha, h.earlier, previous.value, k);
    } else {
      assert LatestSuccess(h, k).None?;
    }
  }

  // Findings

  lemma {:induction false} FindingsOfOne(resolved: seq<ResolvedOutcome>, k: nat)
    requires k < |resolved|
    requires forall j :: 0 <= j < |resolved| && j != k ==> resolved[j].findings == []
    ensures AllFindings(resolved) == resolved[k].findings
  {
    if k > 0 {
      FindingsOfOne(resolved[1..], k - 1);
    } else {
      NoFindings(resolved[1..]);
    }
  }

  lemma {:induction false} NoFindings(resolved: seq<ResolvedOutcome>)
    requires forall j :: 0 <= j < |resolved| ==> resolved[j].findings == []
    ensures AllFindings(resolved) == []
  {
    if resolved != [] {
      NoFindings(resolved[1..]);
    }
  }

  lemma ByGroupPreorder()
    ensures TotalPreorder(ByGroup)
  {
    forall a: SecurityFindingGroup, b: SecurityFindingGroup
      ensures ByGroup(a, b) || ByGroup(b, a)
    {
      StringLeTotal(a.itemId, b.itemId);
    }
    forall a: SecurityFindingGroup, b: SecurityFindingGroup, c: SecurityFindingGroup | ByGroup(a, b) && ByGroup(b, c)
      ensures ByGroup(a, c)
    {
      StringLeTransitive(a.itemId, b.itemId, c.itemId);
    }
  }

  lemma SortedFindingsAgain(groups: seq<SecurityFindingGroup>)
    ensures SortedFindings(SortedFindings(groups)) == SortedFindings(groups)
  {
    ByGroupPreorder();
    SortSorted(groups, ByGroup);
    SortOfSorted(SortedFindings(groups), ByGroup);
  }

  lemma ResolvedSecurityFindings(sha: Sha256, h: History, previous: Option<GenerationBundle>)
    requires WellFormed(h) && h.Then?
    requires Usable(previous) && AgreesBefore(sha, h.earlier, previous)
    ensures SortedFindings(ResolvedScan(h.scan, previous)[SECURITY_SLICE].findings) == ExpectedFindings(h)
  {
    ResolvedFrom(h.scan, previous, SECURITY_SLICE);
    if CollectedNow(h.scan, SECURITY_SLICE) {
      assert LatestSuccess(h, SECURITY_SLICE).value.outcome == h.scan.inputs[SECURITY_SLICE].value;
    } else {
      assert LatestSuccess(h, SECURITY_SLICE) == LatestSuccess(h.earlier, SECURITY_SLICE);
      if LatestSuccess(h, SECURITY_SLICE).Some? {
        SortedFindingsAgain(LatestSuccess(h, SECURITY_SLICE).value.outcome.findings);
      }
    }
  }

  lemma OthersFindNothing(s: Scan, previous: Option<GenerationBundle>, k: nat)
    requires WellFormedScan(s) && Usable(previous) && k < |SLICES| && k != SECURITY_SLICE
    requires previous.Some? ==> previous.value.snapshot == previous.value.lastGood
    ensures ResolvedScan(s, previous)[k].findings == []
  {
    ResolvedFrom(s, previous, k);
    assert !SLICES[k].source.Security?;
  }

  lemma ResolvedFindings(sha: Sha256, h: History, previous: Option<GenerationBundle>)
    requires WellFormed(h) && h.Then?
    requires Usable(previous) && AgreesBefore(sha, h.earlier, previous)
    ensures NormalizedFindings(ResolvedScan(h.scan, previous)) == ExpectedFindings(h)
  {
    var resolved := ResolvedScan(h.scan, previous);
    forall k | 0 <= k < |SLICES| && k != SECURITY_SLICE
      ensures resolved[k].findings == []
    {
      OthersFindNothing(h.scan, previous, k);
    }
    assert NormalizedFindings(resolved) == SortedFindings(resolved[SECURITY_SLICE].findings) by {
      FindingsOfOne(resolved, SECURITY_SLICE);
    }
    ResolvedSecurityFindings(sha, h, previous);
  }

  // One more scan keeps the agreement, and never fails.
  lemma GenerationStep(sha: Sha256, h: History, previous: Option<GenerationBundle>)
    requires WellFormed(h) && h.Then?
    requires Usable(previous) && AgreesBefore(sha, h.earlier, previous)
    ensures Build(sha, h.scan, previous).Ok?
    ensures Agrees(sha, h, Build(sha, h.scan, previous).value)
  {
    var resolved := ResolvedScan(h.scan, previous);
    forall k | 0 <= k < |SLICES|
      ensures Shaped(resolved[k], SLICES[k])
      ensures Part(resolved[k].items, k)
      ensures Refresh(sha, resolved[k].items) == Expected(sha, h, k)
    {
      ResolvedShaped(h.scan, previous, k);
      ResolvedItems(sha, h, previous, k);
    }
    SourcesReported(resolved, h.scan.now);
    NormalizedBySlice(sha, resolved);
    ResolvedFindings(sha, h, previous);
    var b := Build(sha, h.scan, previous).value;
    forall k | 0 <= k < |SLICES| && LatestSuccess(h, k).Some?
      ensures SliceKey(k) in b.lastGoodKeys
    {
      KeyRecorded(previous, resolved, k);
      assert CollectedNow(h.scan, k) ==> resolved[k].outcome == h.scan.inputs[k].value;
      assert !CollectedNow(h.scan, k) ==> LatestSuccess(h.earlier, k).Some?;
    }
  }

  // After any sequence of scans the build has succeeded each time, and each
  // slice holds the items of its own latest success: whatever happened in between.
  lemma {:induction false} GenerationRefines(sha: Sha256, h: History)
    requires WellFormed(h)
    ensures Chain(sha, h).Ok?
    ensures AgreesBefore(sha, h, Chain(sha, h).value)
  {
    if h.Then? {
      GenerationRefines(sha, h.earlier);
      GenerationStep(sha, h, Chain(sha, h.earlier).value);
    }
  }

  lemma RefreshedMarks(sha: Sha256, items: seq<NormalizedItem>)
    ensures forall item :: item in Refresh(sha, Marked(items)) ==> item.provenance == LastGood
  {
    SortMembers(Collected(sha, Marked(items)), ById);
    forall item | item in Collected(sha, Marked(items))
      ensures item.provenance == LastGood
    {
      CollectedOrigin(sha, Marked(items), item);
    }
  }

  // The same, read off the bundle: the list is strictly sorted by identifier, nothing
  // in it is outside the slices, and what was not collected now is marked as last good.
  lemma ItemsOfLatestSuccess(sha: Sha256, h: History, k: nat)
    requires WellFormed(h) && h.Then? && k < |SLICES|
    ensures Chain(sha, h).Ok? && Chain(sha, h).value.Some?
    ensures StrictlySorted(Items(sha, h)) && AllInSlices(Items(sha, h))
    ensures Filter(Belonging(SLICES[k]), Items(sha, h)) == Expected(sha, h, k)
    ensures !CollectedNow(h.scan, k) ==>
              forall item :: item in Items(sha, h) && BelongsTo(item, SLICES[k]) ==> item.provenance == LastGood
  {
    GenerationRefines(sha, h);
    if !CollectedNow(h.scan, k) {
      var own := Filter(Belonging(SLICES[k]), Items(sha, h));
      assert forall item :: item in Items(sha, h) && BelongsTo(item, SLICES[k]) ==> item in own;
      if LatestSuccess(h, k).Some? {
        RefreshedMarks(sha, LatestSuccess(h, k).value.outcome.items);
      }
    }
  }

  function Items(sha: Sha256, h: History): seq<NormalizedItem>
    requires WellFormed(h)
  {
    var last := Chain(sha, h);
    if last.Ok? && last.value.Some? then last.value.value.snapshot.payload.items else []
  }
}
