// Every generation that a sequence of scans builds passes the checks that stand
// before it is stored.
module GenerationValidity {
  import opened Wrappers
  import opened Records
  import opened Sorting
  import opened ScanResolution
  import opened ScanAssembly
  import opened ScanGeneration
  import opened GenerationItems
  import opened GenerationHistory
  import opened GenerationHealth
  import opened ResponseValidation
  import EnumText
  import StateValidation
  import GenerationCodec
  import ReachableStates

  // What the checks ask of the parts that the collectors supply.
  predicate SoundItem(item: NormalizedItem) {
    && (item.watchArmed ==> item.watchMode.Temporary?)
    && 1 <= |item.itemId| <= MAX_IDENTIFIER_LENGTH && 1 <= |item.itemLabel| <= MAX_IDENTIFIER_LENGTH
  }

  // The items of an outcome that a generation keeps.
  predicate KeptSound(items: seq<NormalizedItem>) {
    forall item :: item in items && NotSystem(item) ==> SoundItem(item)
  }

  predicate GroupsSound(groups: seq<SecurityFindingGroup>) {
    UniqueGroups(groups) && forall g :: g in groups ==> GroupCheck([])(g).None?
  }

  predicate SoundScan(s: Scan) {
    && WellFormedScan(s)
    && s.order >= 0 && 1 <= |s.generationId| <= MAX_IDENTIFIER_LENGTH
    && StateValidation.ValidState(s.state)
    && forall o :: o in s.inputs && o.Some? ==> CauseCheck(o.value.cause).None?
  }

  predicate Sound(h: History) {
    h.Then? ==> Sound(h.earlier) && SoundScan(h.scan)
  }

  // A failed outcome, whose diagnostic is cut to 512 characters and never empty. Every
  // outcome of the collectors is one of these or has no cause.
  function Failure(source: SourceName, status: SourceStatus, detail: string, permanent: bool, applicable: bool,
                   scope: Option<SourceScope>, items: seq<NormalizedItem>): SourceOutcome
  {
    var cut := if |detail| <= 512 then detail else detail[..512];
    SourceOutcome(source, scope, status, Live, items, [],
                  Some(ErrorInfo(if status.Invalid? then SourceInvalid else SourceUnavailable,
                                 if cut == "" then EnumText.StatusText(status) else cut)),
                  permanent, applicable)
  }

  lemma FailureBounded(source: SourceName, status: SourceStatus, detail: string, permanent: bool, applicable: bool,
                       scope: Option<SourceScope>, items: seq<NormalizedItem>)
    ensures CauseCheck(Failure(source, status, detail, permanent, applicable, scope, items).cause).None?
  {
    match status {
      case OK =>
      case NotApplicable =>
      case MissingDependency =>
      case Offline =>
      case Timeout =>
      case Error =>
      case Invalid =>
      case Stale =>
    }
  }

  // A digest is 64 hexadecimal digits; any bounded text will do.
  ghost predicate SoundDigest(sha: Sha256) {
    forall text: string :: 1 <= |sha(text)| <= MAX_IDENTIFIER_LENGTH
  }

  lemma {:induction false} SoundIsWellFormed(h: History)
    requires Sound(h)
    ensures WellFormed(h)
  {
    if h.Then? {
      SoundIsWellFormed(h.earlier);
    }
  }

  // What the latest successes of a history list passes the checks.
  predicate LatestSound(h: History)
    requires WellFormed(h)
  {
    && (forall k :: 0 <= k < |SLICES| ==> SliceSound(h, k))
    && (LatestSuccess(h, SECURITY_SLICE).Some? ==> GroupsSound(LatestSuccess(h, SECURITY_SLICE).value.outcome.findings))
  }

  predicate SliceSound(h: History, k: nat)
    requires WellFormed(h) && k < |SLICES|
  {
    LatestSuccess(h, k).Some? ==> KeptSound(LatestSuccess(h, k).value.outcome.items)
  }

  // Items

  lemma FingerprintedPasses(sha: Sha256, item: NormalizedItem)
    requires SoundDigest(sha)
    ensures ItemCheck(Fingerprinted(sha, item)).None? <==> SoundItem(item)
  {
    var stamped := Fingerprinted(sha, item);
    FiveInOrder(Require(stamped.watchArmed ==> stamped.watchMode.Temporary?, InvalidEnvelope),
                Identifier(stamped.itemId), Identifier(stamped.itemLabel),
                OptionalIdentifier(stamped.installedFingerprint), OptionalIdentifier(stamped.candidateFingerprint));
  }

  ghost predicate AllPass(items: seq<NormalizedItem>) {
    forall item :: item in items ==> ItemCheck(item).None?
  }

  lemma RefreshedPass(sha: Sha256, items: seq<NormalizedItem>)
    requires SoundDigest(sha)
    ensures AllPass(Refresh(sha, items)) <==> KeptSound(items)
  {
    var kept, collected := Filter(NotSystem, items), Collected(sha, items);
    SortMembers(collected, ById);
    forall i | 0 <= i < |kept|
      ensures ItemCheck(collected[i]).None? <==> SoundItem(kept[i])
    {
      FingerprintedPasses(sha, kept[i]);
    }
    if AllPass(Refresh(sha, items)) {
      forall item | item in items && NotSystem(item)
        ensures SoundItem(item)
      {
        assert item in kept;
        var i :| 0 <= i < |kept| && kept[i] == item;
        assert collected[i] in collected;
      }
    }
    if KeptSound(items) {
      forall item | item in collected
        ensures ItemCheck(item).None?
      {
        var i :| 0 <= i < |collected| && collected[i] == item;
        assert kept[i] in kept;
      }
    }
  }

  lemma MarkedSound(items: seq<NormalizedItem>)
    ensures KeptSound(Marked(items)) <==> KeptSound(items)
  {
    forall i | 0 <= i < |items|
      ensures items[i] in items && Marked(items)[i] in Marked(items)
      ensures NotSystem(Marked(items)[i]) == NotSystem(items[i]) && SoundItem(Marked(items)[i]) == SoundItem(items[i])
    {
    }
  }

  lemma ExpectedPass(sha: Sha256, h: History, k: nat)
    requires SoundDigest(sha) && WellFormed(h) && h.Then? && k < |SLICES|
    ensures AllPass(Expected(sha, h, k)) <==> SliceSound(h, k)
  {
    if LatestSuccess(h, k).Some? {
      var items := LatestSuccess(h, k).value.outcome.items;
      MarkedSound(items);
      RefreshedPass(sha, items);
      RefreshedPass(sha, Marked(items));
    }
  }

  ghost predicate SlicePasses(items: seq<NormalizedItem>, k: nat)
    requires k < |SLICES|
  {
    AllPass(Filter(Belonging(SLICES[k]), items))
  }

  lemma PassBySlice(items: seq<NormalizedItem>)
    requires AllInSlices(items)
    ensures AllPass(items) <==> forall k :: 0 <= k < |SLICES| ==> SlicePasses(items, k)
  {
    if forall k :: 0 <= k < |SLICES| ==> SlicePasses(items, k) {
      forall item | item in items
        ensures ItemCheck(item).None?
      {
        var k :| 0 <= k < |SLICES| && InSlice(item, k);
        BelongsToOwn(item, k);
        assert SlicePasses(items, k);
      }
    }
  }

  // The items of a generation pass exactly when those of each slice do.
  lemma ItemsBySlice(sha: Sha256, h: History, b: GenerationBundle)
    requires WellFormed(h) && h.Then? && Agrees(sha, h, b)
    ensures AllPass(b.snapshot.payload.items) <==> forall k :: 0 <= k < |SLICES| ==> AllPass(Expected(sha, h, k))
  {
    var items := b.snapshot.payload.items;
    PassBySlice(items);
    assert forall k :: 0 <= k < |SLICES| ==> SlicePasses(items, k) == AllPass(Expected(sha, h, k));
  }

  lemma ItemsPass(sha: Sha256, h: History, b: GenerationBundle)
    requires SoundDigest(sha) && WellFormed(h) && h.Then? && Agrees(sha, h, b)
    ensures UniqueIds(b.snapshot.payload.items)
    ensures AllPass(b.snapshot.payload.items) <==> forall k :: 0 <= k < |SLICES| ==> SliceSound(h, k)
  {
    ItemsBySlice(sha, h, b);
    forall k | 0 <= k < |SLICES|
      ensures AllPass(Expected(sha, h, k)) <==> SliceSound(h, k)
    {
      ExpectedPass(sha, h, k);
    }
  }

  // Findings

  lemma GroupKeepsPassing(items: seq<NormalizedItem>, g: SecurityFindingGroup)
    requires AllInSlices(items)
    ensures GroupCheck([])(g).None? <==> GroupCheck(items)(g).None?
  {
    var item := FindItem(items, g.itemId);
    GroupParts([], g);
    if item.Some? && "arch:" <= g.itemId {
      FoundItem(items, g.itemId);
      var k :| 0 <= k < |SLICES| && InSlice(item.value, k);
      ArchPrefix(item.value, k);
    }
    GroupParts(items, g);
  }

  lemma {:induction false} FoundItem(items: seq<NormalizedItem>, itemId: string)
    ensures FindItem(items, itemId).Some? ==> FindItem(items, itemId).value in items && FindItem(items, itemId).value.itemId == itemId
  {
    if items != [] {
      FoundItem(items[1..], itemId);
    }
  }

  // An item whose identifier starts with arch: is an Arch item.
  lemma ArchPrefix(item: NormalizedItem, k: nat)
    requires k < |SLICES| && InSlice(item, k) && "arch:" <= item.itemId
    ensures item.source.Arch?
  {
    assert item.itemId[0] == Prefix(k)[0] && item.itemId[1] == Prefix(k)[1];
    assert item.itemId[0] == "arch:"[0] && item.itemId[1] == "arch:"[1];
  }

  lemma GroupParts(items: seq<NormalizedItem>, g: SecurityFindingGroup)
    ensures GroupCheck(items)(g).None? <==>
            && (FindItem(items, g.itemId).Some? ==> FindItem(items, g.itemId).value.source.Arch?)
            && "arch:" <= g.itemId && g.findings != [] && UniqueFindingIds(g.findings)
            && EachOf(FindingCheck(g), g.findings).None?
  {
    var item := FindItem(items, g.itemId);
    FiveInOrder(Require(item.Some? ==> item.value.source.Arch?, InvalidEnvelope),
                Require("arch:" <= g.itemId, InvalidEnvelope),
                Require(g.findings != [], InvalidEnvelope),
                Require(UniqueFindingIds(g.findings), DuplicateFindingId),
                EachOf(FindingCheck(g), g.findings));
  }

  lemma FiveInOrder(a: Check, b: Check, c: Check, d: Check, e: Check)
    ensures InOrder([a, b, c, d, e]).None? <==> a.None? && b.None? && c.None? && d.None? && e.None?
  {
    var checks := [a, b, c, d, e];
    assert checks[0] == a && checks[1] == b && checks[2] == c && checks[3] == d && checks[4] == e;
    assert forall x :: x in checks ==> x == a || x == b || x == c || x == d || x == e;
  }

  lemma SortKeepsUniqueGroups(groups: seq<SecurityFindingGroup>)
    ensures UniqueGroups(SortedFindings(groups)) <==> UniqueGroups(groups)
  {
    var idOf := (g: SecurityFindingGroup) => g.itemId;
    var ids, sorted := Map(idOf, groups), SortedFindings(groups);
    SortMap(idOf, groups, ByGroup, ByText);
    assert UniqueGroups(groups) <==> Distinct(ids);
    assert forall i :: 0 <= i < |sorted| ==> Map(idOf, sorted)[i] == sorted[i].itemId;
    assert UniqueGroups(sorted) <==> Distinct(Sort(ids, ByText));
    SortDistinct(ids, ByText);
  }

  lemma FindingsPass(sha: Sha256, h: History, b: GenerationBundle)
    requires WellFormed(h) && h.Then? && Agrees(sha, h, b)
    ensures GroupsCheck(b.snapshot.payload.findings, b.snapshot.payload.items).None? <==>
            LatestSuccess(h, SECURITY_SLICE).Some? ==> GroupsSound(LatestSuccess(h, SECURITY_SLICE).value.outcome.findings)
  {
    if LatestSuccess(h, SECURITY_SLICE).Some? {
      GroupsPass(LatestSuccess(h, SECURITY_SLICE).value.outcome.findings, b.snapshot.payload.items);
    }
  }

  lemma GroupsPass(groups: seq<SecurityFindingGroup>, items: seq<NormalizedItem>)
    requires AllInSlices(items)
    ensures GroupsCheck(SortedFindings(groups), items).None? <==> GroupsSound(groups)
  {
    SortKeepsUniqueGroups(groups);
    SortMembers(groups, ByGroup);
    forall g | g in groups
      ensures GroupCheck([])(g).None? <==> GroupCheck(items)(g).None?
    {
      GroupKeepsPassing(items, g);
    }
  }

  // Sources

  ghost predicate SourcesPass(sources: seq<SourceHealth>) {
    forall h :: h in sources ==> CauseCheck(h.cause).None? && ScopesCheck(h).None?
  }

  lemma ScopeCausesPass(h: SourceHealth, scope: SourceScope)
    requires ScopesCheck(h).None? && FindScope(h.scopes, scope).Some?
    ensures CauseCheck(FindScope(h.scopes, scope).value.cause).None?
  {
    assert ScopeCheck(FindScope(h.scopes, scope).value).None?;
  }

  // The cause of a resolved slice is bounded, and an unscoped health has no scopes.
  lemma ResolvedPasses(current: Option<SourceOutcome>, slice: Slice, previous: Option<GenerationBundle>, now: Instant)
    requires Usable(previous) && (current.Some? ==> CauseCheck(current.value.cause).None?)
    requires current.Some? ==> current.value.source == slice.source && current.value.scope == slice.scope
    requires previous.Some? ==> SourcesPass(previous.value.snapshot.payload.sources)
    ensures CauseCheck(HealthCause(Resolve(current, slice, previous, now).health)).None?
    ensures var r := Resolve(current, slice, previous, now); r.health.OfSource? ==> ScopesCheck(r.health.source).None?
  {
    if current.None? && previous.Some? && slice.scope.Some? {
      var h := FindSource(previous.value.snapshot.payload.sources, slice.source).value;
      if FindScope(h.scopes, slice.scope.value).Some? {
        ScopeCausesPass(h, slice.scope.value);
      }
    }
  }

  lemma ScopeOfPasses(r: ResolvedOutcome, scope: SourceScope)
    requires r.health.OfScope? && r.health.scope.scope == scope && CauseCheck(HealthCause(r.health)).None?
    ensures ScopeOf(r).Ok? && ScopeOf(r).value.scope == scope && CauseCheck(ScopeOf(r).value.cause).None?
  {
  }

  lemma FlatpakPasses(user: ScopeHealth, system: ScopeHealth, now: Instant)
    requires user.scope.User? && system.scope.System?
    requires CauseCheck(user.cause).None? && CauseCheck(system.cause).None?
    ensures CauseCheck(FlatpakHealth(user, system, now).cause).None?
    ensures ScopesCheck(FlatpakHealth(user, system, now)).None?
  {
    var h := FlatpakHealth(user, system, now);
    assert ScopeCheck(user).None? && ScopeCheck(system).None?;
    assert h.scopes == [user, system];
  }

  ghost predicate HealthsPass(resolved: seq<ResolvedOutcome>) {
    forall r :: r in resolved ==>
      CauseCheck(HealthCause(r.health)).None? && (r.health.OfSource? ==> ScopesCheck(r.health.source).None?)
  }

  lemma {:induction false} ResolvedPass(scan: Scan, previous: Option<GenerationBundle>, resolved: seq<ResolvedOutcome>)
    requires SoundScan(scan) && Usable(previous) && |resolved| == |SLICES|
    requires previous.Some? ==> SourcesPass(previous.value.snapshot.payload.sources)
    requires forall k :: 0 <= k < |SLICES| ==> resolved[k] == Resolve(scan.inputs[k], SLICES[k], previous, scan.now)
    ensures HealthsPass(resolved)
  {
    forall r | r in resolved
      ensures CauseCheck(HealthCause(r.health)).None? && (r.health.OfSource? ==> ScopesCheck(r.health.source).None?)
    {
      var k :| 0 <= k < |resolved| && resolved[k] == r;
      SoundInput(scan, k);
      ResolvedPasses(scan.inputs[k], SLICES[k], previous, scan.now);
    }
  }

  lemma {:induction false} ReportedPass(resolved: seq<ResolvedOutcome>, now: Instant, sources: seq<SourceHealth>)
    requires AllShaped(resolved) && HealthsPass(resolved) && SourceHealths(resolved, now) == Ok(sources)
    ensures SourcesPass(sources)
  {
    SourcesReported(resolved, now);
    assert Shaped(resolved[3], SLICES[3]) && Shaped(resolved[4], SLICES[4]);
    assert resolved[3] in resolved && resolved[4] in resolved;
    ScopeOfPasses(resolved[3], User);
    ScopeOfPasses(resolved[4], System);
    FlatpakPasses(ScopeOf(resolved[3]).value, ScopeOf(resolved[4]).value, now);
    forall h | h in sources
      ensures CauseCheck(h.cause).None? && ScopesCheck(h).None?
    {
      if k :| 0 <= k < |SLICES| && !IsFlatpak(k) && resolved[k].health == OfSource(h) {
        assert resolved[k] in resolved;
      }
    }
  }

  lemma SoundInput(scan: Scan, k: nat)
    requires SoundScan(scan) && k < |SLICES|
    ensures scan.inputs[k].Some? ==>
              && CauseCheck(scan.inputs[k].value.cause).None?
              && scan.inputs[k].value.source == SLICES[k].source && scan.inputs[k].value.scope == SLICES[k].scope
  {
    assert scan.inputs[k] in scan.inputs;
    assert scan.inputs[k].Some? ==> WellFormedOutcome(scan.inputs[k].value, k);
  }

  const NameOf: SourceHealth -> SourceName := (h: SourceHealth) => h.source

  const NameLe: (SourceName, SourceName) -> bool :=
    (a: SourceName, b: SourceName) => StringLe(EnumText.SourceText(a), EnumText.SourceText(b))

  // Every source is reported once.
  lemma {:induction false} ReportedOnce(resolved: seq<ResolvedOutcome>, now: Instant)
    requires AllShaped(resolved)
    ensures SourceHealths(resolved, now).Ok? && EachSourceOnce(SourceHealths(resolved, now).value)
  {
    SourcesReported(resolved, now);
    var sources := SourceHealths(resolved, now).value;
    forall name: SourceName
      ensures Reports(sources, name)
    {
      SliceOfSource(name);
      assert FindSource(sources, name).Some?;
      assert FindSource(sources, name).value in sources;
    }
    NamesOnce(resolved, now);
  }

  lemma {:induction false} NamesOnce(resolved: seq<ResolvedOutcome>, now: Instant)
    requires AllShaped(resolved)
    ensures SourceHealths(resolved, now).Ok?
    ensures var sources := SourceHealths(resolved, now).value;
            forall i, j :: 0 <= i < j < |sources| ==> sources[i].source != sources[j].source
  {
    BasicNames(resolved);
    SourcesAre(resolved, now);
    NamesWithFlatpak(BasicHealths(resolved).value, FlatpakHealth(ScopeOf(resolved[3]).value,
                     ScopeOf(resolved[4]).value, now));
  }

  lemma {:induction false} SourcesAre(resolved: seq<ResolvedOutcome>, now: Instant)
    requires |resolved| == |SLICES| && Shaped(resolved[3], SLICES[3]) && Shaped(resolved[4], SLICES[4])
    requires BasicHealths(resolved).Ok?
    ensures ScopeOf(resolved[3]).Ok? && ScopeOf(resolved[4]).Ok?
    ensures SourceHealths(resolved, now) ==
            Ok(Sort(BasicHealths(resolved).value
                    + [FlatpakHealth(ScopeOf(resolved[3]).value, ScopeOf(resolved[4]).value, now)], BySource))
  {
  }

  lemma NamesWithFlatpak(basic: seq<SourceHealth>, flatpak: SourceHealth)
    requires Map(NameOf, basic) == BASIC_NAMES && flatpak.source.Flatpak?
    ensures var sources := Sort(basic + [flatpak], BySource);
            forall i, j :: 0 <= i < j < |sources| ==> sources[i].source != sources[j].source
  {
    assert Map(NameOf, basic + [flatpak]) == BASIC_NAMES + [SourceName.Flatpak];
    SortedNames(basic + [flatpak]);
  }

  lemma SortedNames(all: seq<SourceHealth>)
    requires Distinct(Map(NameOf, all))
    ensures var sources := Sort(all, BySource);
            forall i, j :: 0 <= i < j < |sources| ==> sources[i].source != sources[j].source
  {
    SortMap(NameOf, all, BySource, NameLe);
    SortDistinct(Map(NameOf, all), NameLe);
    var sources := Sort(all, BySource);
    assert forall i :: 0 <= i < |sources| ==> Map(NameOf, sources)[i] == sources[i].source;
  }

  const BASIC_NAMES: seq<SourceName> := [
    SourceName.Omarchy, SourceName.Arch, SourceName.Aur, SourceName.Mise, SourceName.Security, SourceName.CisaKev]

  // The names of the slices from a position on, without the Flatpak scopes.
  function NamesFrom(k: nat): seq<SourceName>
    requires k <= |SLICES|
    decreases |SLICES| - k
  {
    if k == |SLICES| then [] else (if IsFlatpak(k) then [] else [SLICES[k].source]) + NamesFrom(k + 1)
  }

  lemma {:induction false} BasicNamesFrom(resolved: seq<ResolvedOutcome>, k: nat)
    requires k + |resolved| == |SLICES| && forall i :: 0 <= i < |resolved| ==> Shaped(resolved[i], SLICES[k + i])
    ensures BasicHealths(resolved).Ok? && Map(NameOf, BasicHealths(resolved).value) == NamesFrom(k)
    decreases |resolved|
  {
    if resolved != [] {
      assert Shaped(resolved[0], SLICES[k + 0]);
      forall i | 0 <= i < |resolved| - 1
        ensures Shaped(resolved[1..][i], SLICES[k + 1 + i])
      {
        assert Shaped(resolved[i + 1], SLICES[k + (i + 1)]);
      }
      BasicNamesFrom(resolved[1..], k + 1);
      var rest := BasicHealths(resolved[1..]).value;
      if !IsFlatpak(k) {
        assert Map(NameOf, [resolved[0].health.source] + rest) == [resolved[0].health.source.source] + Map(NameOf, rest);
      }
    }
  }

  lemma {:induction false} BasicNames(resolved: seq<ResolvedOutcome>)
    requires AllShaped(resolved)
    ensures BasicHealths(resolved).Ok? && Map(NameOf, BasicHealths(resolved).value) == BASIC_NAMES
  {
    BasicNamesFrom(resolved, 0);
    AllNames();
  }

  lemma AllNames()
    ensures NamesFrom(0) == BASIC_NAMES
  {
    NameAt(7);
    NameAt(6);
    assert NamesFrom(6) == [SourceName.Security, SourceName.CisaKev];
    NameAt(5);
    NameAt(4);
    NameAt(3);
    assert NamesFrom(3) == [SourceName.Mise, SourceName.Security, SourceName.CisaKev];
    NameAt(2);
    NameAt(1);
    NameAt(0);
  }

  lemma {:induction false} NameAt(k: nat)
    requires k < |SLICES|
    ensures NamesFrom(k) == (if IsFlatpak(k) then [] else [SLICES[k].source]) + NamesFrom(k + 1)
  {
  }

  // Inventories

  lemma InventoryOrder()
    ensures StringLe("arch", "aur") && StringLe("arch", "flatpak") && StringLe("arch", "mise")
    ensures StringLe("aur", "flatpak") && StringLe("aur", "mise") && StringLe("flatpak", "mise")
  {
    assert "arch"[1..] == "rch" && "aur"[1..] == "ur";
    assert StringLe("rch", "ur");
  }

  lemma InventoriesOrdered(envelope: Envelope, items: seq<NormalizedItem>)
    ensures GenerationCodec.OrderedInventories(Inventories(envelope, items))
  {
    InventoryOrder();
    var all := Inventories(envelope, items);
    assert all[0].payload.source.Arch? && all[1].payload.source.Aur?;
    assert all[2].payload.source.Flatpak? && all[3].payload.source.Mise?;
  }

  // An inventory lists exactly the generation's items of its source.
  lemma InventoryPasses(envelope: Envelope, items: seq<NormalizedItem>, i: Inventory)
    requires MetadataCheck(envelope).None? && UniqueIds(items) && forall item :: item in items ==> ItemCheck(item).None?
    requires i in Inventories(envelope, items)
    ensures GenerationCodec.ValidResponse(InventoryResponse(i))
    ensures forall item :: item in i.payload.items <==> item in items && item.source == i.payload.source
  {
    var source := i.payload.source;
    var own := (item: NormalizedItem) => item.source == source;
    UniqueIdsFilter(own, items);
    assert i == Inventory(envelope, InventoryPayload(source, |Filter(own, items)|, Filter(own, items)));
    FiveInOrder(Require(!source.Omarchy?, InvalidEnvelope), Nonnegative(i.payload.total),
                Require(i.payload.total >= |i.payload.items|, InvalidEnvelope), ItemsCheck(i.payload.items),
                Require(forall item :: item in i.payload.items ==> item.source == source, InvalidEnvelope));
    ResponsePasses(InventoryResponse(i));
  }

  lemma ResponsePasses(r: Response)
    requires MetadataCheck(EnvelopeOf(r)).None?
    ensures GenerationCodec.ValidResponse(r) <==> PayloadCheck(r).None?
  {
    var checks := [MetadataCheck(EnvelopeOf(r)), PayloadCheck(r)];
    assert checks[1] in checks;
    assert forall c :: c in checks ==> c == checks[0] || c == checks[1];
  }

  lemma EnvelopePasses(generationId: string, now: Instant)
    requires 1 <= |generationId| <= MAX_IDENTIFIER_LENGTH
    ensures MetadataCheck(Envelope(now, generationId, PROTOCOL_VERSION)).None?
  {
  }

  // Keys

  lemma SliceKeyKnown(k: nat)
    requires k < |SLICES|
    ensures SliceKey(k) in GenerationCodec.LAST_GOOD_KEYS
  {
    assert SliceKey(3) == "flatpak:user" && SliceKey(4) == "flatpak:system";
  }

  lemma KeysStayValid(previous: Option<GenerationBundle>, resolved: seq<ResolvedOutcome>)
    requires AllShaped(resolved) && (previous.Some? ==> GenerationCodec.ValidKeys(previous.value.lastGoodKeys))
    ensures GenerationCodec.ValidKeys(LastGoodKeys(previous, resolved))
  {
    var retained := if previous.None? then [] else previous.value.lastGoodKeys;
    var dedup := Dedup(retained + SuccessKeys(resolved));
    SortMembers(dedup, ByText);
    SortDistinct(dedup, ByText);
    var good := Filter(SuccessfulOutcome, resolved);
    forall key | key in SuccessKeys(resolved)
      ensures key in GenerationCodec.LAST_GOOD_KEYS
    {
      var i :| 0 <= i < |good| && SuccessKeys(resolved)[i] == key;
      assert good[i] in good && good[i] in resolved;
      var k :| 0 <= k < |resolved| && resolved[k] == good[i];
      assert Shaped(resolved[k], SLICES[k]);
      SliceKeyKnown(k);
    }
  }

  // The whole bundle

  lemma SnapshotPasses(payload: SnapshotPayload)
    requires SourcesCheck(payload.sources).None? && UniqueIds(payload.items)
    requires payload.summary == Summarise(payload.items, payload.findings, payload.sources)
    ensures SnapshotCheck(payload).None? <==>
            AllPass(payload.items) && GroupsCheck(payload.findings, payload.items).None?
  {
    var checks := [SourcesCheck(payload.sources), ItemsCheck(payload.items), GroupsCheck(payload.findings, payload.items),
                   Nonnegative(payload.summary.totalUpdates), Nonnegative(payload.summary.watchedUpdates),
                   Nonnegative(payload.summary.securityFindings), Nonnegative(payload.summary.degradedSources)];
    assert checks[1] in checks && checks[2] in checks;
    assert forall c :: c in checks ==> c.None? || c == checks[1] || c == checks[2];
  }

  lemma SourcesCheckPasses(sources: seq<SourceHealth>)
    requires EachSourceOnce(sources) && SourcesPass(sources)
    ensures SourcesCheck(sources).None?
  {
    forall h | h in sources
      ensures SourceCheck(h).None?
    {
      var checks := [CauseCheck(h.cause), ScopesCheck(h)];
      assert forall c :: c in checks ==> c == checks[0] || c == checks[1];
    }
  }

  // The parts of a built bundle besides its snapshot's payload.
  lemma BuiltParts(sha: Sha256, scan: Scan, previous: Option<GenerationBundle>)
    requires WellFormedScan(scan) && Usable(previous) && Build(sha, scan, previous).Ok?
    ensures var b := Build(sha, scan, previous).value;
            && b.order == scan.order
            && b.snapshot.envelope == Envelope(scan.now, scan.generationId, PROTOCOL_VERSION)
            && b.inventories == Inventories(b.snapshot.envelope, b.snapshot.payload.items)
            && b.state == scan.state.(sources := Metadata(scan.state.sources, scan.inputs, scan.now))
  {
  }

  // What every generation passes on to the next.
  ghost predicate Carries(previous: Option<GenerationBundle>) {
    previous.Some? ==>
      && SourcesPass(previous.value.snapshot.payload.sources)
      && GenerationCodec.ValidKeys(previous.value.lastGoodKeys)
  }

  lemma StepCarries(h: History, previous: Option<GenerationBundle>, resolved: seq<ResolvedOutcome>, b: GenerationBundle)
    requires WellFormed(h) && Sound(h) && h.Then? && Usable(previous) && Carries(previous)
    requires AllShaped(resolved) && BuiltFrom(h.scan, previous, resolved, b)
    requires forall k :: 0 <= k < |SLICES| ==> resolved[k] == Resolve(h.scan.inputs[k], SLICES[k], previous, h.scan.now)
    ensures SourcesPass(b.snapshot.payload.sources) && SourcesCheck(b.snapshot.payload.sources).None?
    ensures GenerationCodec.ValidKeys(b.lastGoodKeys)
  {
    ResolvedPass(h.scan, previous, resolved);
    ReportedPass(resolved, h.scan.now, b.snapshot.payload.sources);
    ReportedOnce(resolved, h.scan.now);
    SourcesCheckPasses(b.snapshot.payload.sources);
    KeysStayValid(previous, resolved);
  }

  // A built bundle is valid exactly when its items and findings pass.
  lemma BundlePasses(scan: Scan, b: GenerationBundle)
    requires SoundScan(scan)
    requires b.order == scan.order && b.snapshot == b.lastGood
    requires b.snapshot.envelope == Envelope(scan.now, scan.generationId, PROTOCOL_VERSION)
    requires b.inventories == Inventories(b.snapshot.envelope, b.snapshot.payload.items)
    requires b.state == scan.state.(sources := Metadata(scan.state.sources, scan.inputs, scan.now))
    requires SourcesCheck(b.snapshot.payload.sources).None? && GenerationCodec.ValidKeys(b.lastGoodKeys)
    requires b.snapshot.payload.summary
          == Summarise(b.snapshot.payload.items, b.snapshot.payload.findings, b.snapshot.payload.sources)
    requires UniqueIds(b.snapshot.payload.items)
    ensures GenerationCodec.ValidBundle(b) <==>
            AllPass(b.snapshot.payload.items) && GroupsCheck(b.snapshot.payload.findings, b.snapshot.payload.items).None?
  {
    EnvelopePasses(scan.generationId, scan.now);
    SnapshotPasses(b.snapshot.payload);
    ResponsePasses(SnapshotResponse(b.snapshot));
    if AllPass(b.snapshot.payload.items) {
      InventoriesOrdered(b.snapshot.envelope, b.snapshot.payload.items);
      forall i | i in b.inventories
        ensures GenerationCodec.ValidResponse(InventoryResponse(i))
      {
        InventoryPasses(b.snapshot.envelope, b.snapshot.payload.items, i);
      }
    }
    ReachableStates.MetadataValid(scan.state.sources, scan.inputs, scan.now);
  }

  lemma {:induction false} EveryGenerationCarries(sha: Sha256, h: History)
    requires WellFormed(h) && Sound(h)
    ensures Chain(sha, h).Ok? && Carries(Chain(sha, h).value)
  {
    GenerationRefines(sha, h);
    if h.Then? {
      EveryGenerationCarries(sha, h.earlier);
      ChainStep(sha, h);
      var previous := Chain(sha, h.earlier).value;
      StepCarries(h, previous, ResolvedScan(h.scan, previous), Chain(sha, h).value.value);
    }
  }

  // The generation after a sequence of scans is one that the storage agrees to write
  // exactly when what the latest successes list passes: an item with too long an
  // identifier or label stands in the way until its slice succeeds without it.
  lemma {:induction false} ValidIff(sha: Sha256, h: History)
    requires SoundDigest(sha) && WellFormed(h) && Sound(h) && h.Then?
    ensures Chain(sha, h).Ok? && Chain(sha, h).value.Some?
    ensures GenerationCodec.ValidBundle(Chain(sha, h).value.value) <==> LatestSound(h)
  {
    GenerationRefines(sha, h);
    EveryGenerationCarries(sha, h.earlier);
    ChainStep(sha, h);
    var previous, b := Chain(sha, h.earlier).value, Chain(sha, h).value.value;
    BuiltParts(sha, h.scan, previous);
    StepCarries(h, previous, ResolvedScan(h.scan, previous), b);
    BundlePasses(h.scan, b);
    PartsPass(sha, h, b);
  }

  lemma PartsPass(sha: Sha256, h: History, b: GenerationBundle)
    requires SoundDigest(sha) && WellFormed(h) && h.Then? && Agrees(sha, h, b)
    ensures UniqueIds(b.snapshot.payload.items)
    ensures AllPass(b.snapshot.payload.items) && GroupsCheck(b.snapshot.payload.findings, b.snapshot.payload.items).None?
            <==> LatestSound(h)
  {
    ItemsPass(sha, h, b);
    FindingsPass(sha, h, b);
  }

  // One unsound item that a slice keeps is enough for the bundle to be refused.
  lemma UnsoundItemRefused(sha: Sha256, h: History, k: nat, item: NormalizedItem)
    requires SoundDigest(sha) && WellFormed(h) && Sound(h) && h.Then? && k < |SLICES|
    requires CollectedNow(h.scan, k) && item in h.scan.inputs[k].value.items && NotSystem(item) && !SoundItem(item)
    ensures Chain(sha, h).Ok? && Chain(sha, h).value.Some?
    ensures !GenerationCodec.ValidBundle(Chain(sha, h).value.value)
  {
    ValidIff(sha, h);
    UnsoundLatest(h, k, item);
  }

  lemma UnsoundLatest(h: History, k: nat, item: NormalizedItem)
    requires WellFormed(h) && h.Then? && k < |SLICES|
    requires CollectedNow(h.scan, k) && item in h.scan.inputs[k].value.items && NotSystem(item) && !SoundItem(item)
    ensures !LatestSound(h)
  {
    assert LatestSuccess(h, k) == Some(Attempt(h.scan.inputs[k].value, h.scan.now));
    assert !KeptSound(h.scan.inputs[k].value.items);
    assert !SliceSound(h, k);
  }

  // What the mise adapter makes of a key of any length.
  predicate FromMiseKey(item: NormalizedItem, key: string) {
    item.itemId == "mise:" + key && item.itemLabel == key && !item.watchArmed
  }

  lemma MiseKeyIff(item: NormalizedItem, key: string)
    requires FromMiseKey(item, key)
    ensures SoundItem(item) <==> 1 <= |key| <= 123
  {
    assert |item.itemId| == 5 + |key|;
  }

  // An empty key, or one of more than 123 characters, makes the whole scan refused,
  // although every promise of the collectors is kept.
  lemma MiseKeyRefused(sha: Sha256, h: History, key: string, item: NormalizedItem)
    requires SoundDigest(sha) && WellFormed(h) && Sound(h) && h.Then? && !(1 <= |key| <= 123)
    requires CollectedNow(h.scan, 5) && item in h.scan.inputs[5].value.items && FromMiseKey(item, key)
    ensures Chain(sha, h).Ok? && Chain(sha, h).value.Some?
    ensures !GenerationCodec.ValidBundle(Chain(sha, h).value.value)
  {
    MiseKeyIff(item, key);
    assert item.itemId[0] == 'm';
    UnsoundItemRefused(sha, h, 5, item);
  }

  // Counts

  function FromSource(source: ItemSource): NormalizedItem -> bool {
    (item: NormalizedItem) => item.source == source
  }

  function Share(items: seq<NormalizedItem>, source: ItemSource): nat {
    |Filter(FromSource(source), items)|
  }

  lemma {:induction false} SharesAddUp(items: seq<NormalizedItem>)
    ensures Share(items, ItemSource.Omarchy) + Share(items, ItemSource.Arch) + Share(items, ItemSource.Aur)
            + Share(items, ItemSource.Flatpak) + Share(items, ItemSource.Mise) == |items|
  {
    if items != [] {
      SharesAddUp(items[1..]);
    }
  }

  lemma InventoryTotals(envelope: Envelope, items: seq<NormalizedItem>)
    ensures var all := Inventories(envelope, items);
            && |all| == 4
            && all[0].payload.total == Share(items, ItemSource.Arch) && all[1].payload.total == Share(items, ItemSource.Aur)
            && all[2].payload.total == Share(items, ItemSource.Flatpak) && all[3].payload.total == Share(items, ItemSource.Mise)
  {
    SameShare(items, ItemSource.Arch);
    SameShare(items, ItemSource.Aur);
    SameShare(items, ItemSource.Flatpak);
    SameShare(items, ItemSource.Mise);
  }

  lemma SameShare(items: seq<NormalizedItem>, source: ItemSource)
    ensures |Filter((item: NormalizedItem) => item.source == source, items)| == Share(items, source)
  {
    FilterSame((item: NormalizedItem) => item.source == source, FromSource(source), items);
  }

  // In every generation of a chain the summary's total is what the four inventories
  // list together with the Omarchy items: nothing is lost or counted twice.
  lemma SummaryConserves(sha: Sha256, h: History)
    requires WellFormed(h) && h.Then?
    ensures Chain(sha, h).Ok? && Chain(sha, h).value.Some?
    ensures var b := Chain(sha, h).value.value;
            && |b.inventories| == 4
            && b.snapshot.payload.summary.totalUpdates ==
               b.inventories[0].payload.total + b.inventories[1].payload.total + b.inventories[2].payload.total
               + b.inventories[3].payload.total + Share(b.snapshot.payload.items, ItemSource.Omarchy)
  {
    ChainStep(sha, h);
    var b := Chain(sha, h).value.value;
    BuiltParts(sha, h.scan, Chain(sha, h.earlier).value);
    InventoryTotals(b.snapshot.envelope, b.snapshot.payload.items);
    SharesAddUp(b.snapshot.payload.items);
  }
}
