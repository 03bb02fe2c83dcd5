// Assembling resolved slices into the parts of a generation.
module ScanAssembly {
  import opened Wrappers
  import opened Records
  import opened Sorting
  import EnumText
  import opened ScanResolution

  type Sha256 = string -> string

  // Source healths

  function ScopeOf(r: ResolvedOutcome): Result<ScopeHealth, ErrorCode> {
    match r.health
    case OfSource(_) => Err(InvalidEnvelope)
    case OfScope(h) =>
      Ok(if h.status.MissingDependency? then h.(status := NotApplicable, cause := None) else h)
  }

  function SourceOf(r: ResolvedOutcome): Result<SourceHealth, ErrorCode> {
    match r.health case OfSource(h) => Ok(h) case OfScope(_) => Err(InvalidEnvelope)
  }

  function FlatpakStatus(user: SourceStatus, system: SourceStatus): SourceStatus {
    if user.Stale? || system.Stale? then Stale
    else if (user.OK? || system.OK?) && SuccessStatus(user) && SuccessStatus(system) then OK
    else if user.NotApplicable? && system.NotApplicable? then NotApplicable
    else if !user.NotApplicable? then user
    else system
  }

  function FlatpakHealth(user: ScopeHealth, system: ScopeHealth, now: Instant): SourceHealth {
    SourceHealth(
      SourceName.Flatpak,
      FlatpakStatus(user.status, system.status),
      if user.status.Stale? || system.status.Stale? then LastGood else Live,
      now,
      if user.freshUntil <= system.freshUntil then user.freshUntil else system.freshUntil,
      if user.cause.Some? then user.cause else system.cause,
      [user, system])
  }

  function BasicHealths(resolved: seq<ResolvedOutcome>): Result<seq<SourceHealth>, ErrorCode> {
    if resolved == [] then Ok([])
    else if resolved[0].outcome.source.Flatpak? then BasicHealths(resolved[1..])
    else
      var first :- SourceOf(resolved[0]);
      var rest :- BasicHealths(resolved[1..]);
      Ok([first] + rest)
  }

  const BySource: (SourceHealth, SourceHealth) -> bool :=
    (a: SourceHealth, b: SourceHealth) => StringLe(EnumText.SourceText(a.source), EnumText.SourceText(b.source))

  function SourceHealths(resolved: seq<ResolvedOutcome>, now: Instant): Result<seq<SourceHealth>, ErrorCode>
    requires |resolved| == |SLICES|
  {
    var basic :- BasicHealths(resolved);
    var user :- ScopeOf(resolved[3]);
    var system :- ScopeOf(resolved[4]);
    Ok(Sort(basic + [FlatpakHealth(user, system, now)], BySource))
  }

  // Items and findings

  function Fingerprint(sha: Sha256, item: NormalizedItem, value: Option<string>): Option<string> {
    if value.None? then None
    else Some(sha(EnumText.ItemSourceText(item.source) + "\0" + item.itemId + "\0" + value.value))
  }

  function Fingerprinted(sha: Sha256, item: NormalizedItem): NormalizedItem {
    item.(installedFingerprint := Fingerprint(sha, item, item.installed),
          candidateFingerprint := Fingerprint(sha, item, item.candidate))
  }

  function Stamp(sha: Sha256): NormalizedItem -> NormalizedItem {
    (item: NormalizedItem) => Fingerprinted(sha, item)
  }

  const NotSystem: NormalizedItem -> bool :=
    (item: NormalizedItem) => item.itemId != "arch:omarchy" && item.itemId != "arch:omarchy-dev"

  const ById: (NormalizedItem, NormalizedItem) -> bool :=
    (a: NormalizedItem, b: NormalizedItem) => StringLe(a.itemId, b.itemId)

  function AllItems(resolved: seq<ResolvedOutcome>): seq<NormalizedItem> {
    if resolved == [] then [] else resolved[0].items + AllItems(resolved[1..])
  }

  function Collected(sha: Sha256, items: seq<NormalizedItem>): (r: seq<NormalizedItem>)
    ensures |r| == |Filter(NotSystem, items)|
  {
    Map(Stamp(sha), Filter(NotSystem, items))
  }

  function NormalizedItems(sha: Sha256, resolved: seq<ResolvedOutcome>): Result<seq<NormalizedItem>, ErrorCode> {
    var items := Collected(sha, AllItems(resolved));
    if !UniqueIds(items) then Err(DuplicateItemId) else Ok(Sort(items, ById))
  }

  function AllFindings(resolved: seq<ResolvedOutcome>): seq<SecurityFindingGroup> {
    if resolved == [] then [] else resolved[0].findings + AllFindings(resolved[1..])
  }

  const ByGroup: (SecurityFindingGroup, SecurityFindingGroup) -> bool :=
    (a: SecurityFindingGroup, b: SecurityFindingGroup) => StringLe(a.itemId, b.itemId)

  function NormalizedFindings(resolved: seq<ResolvedOutcome>): seq<SecurityFindingGroup> {
    Sort(AllFindings(resolved), ByGroup)
  }

  // Summary and scan state

  function FindingCount(groups: seq<SecurityFindingGroup>): nat {
    if groups == [] then 0 else |groups[0].findings| + FindingCount(groups[1..])
  }

  function Summarise(items: seq<NormalizedItem>, findings: seq<SecurityFindingGroup>,
                     sources: seq<SourceHealth>): Summary {
    Summary(|items|,
            |Filter((item: NormalizedItem) => !item.watchMode.Off?, items)|,
            FindingCount(findings),
            |Filter((h: SourceHealth) => !SuccessStatus(h.status), sources)|)
  }

  predicate Mandatory(r: ResolvedOutcome) {
    || r.outcome.source.Omarchy? || r.outcome.source.Arch? || r.outcome.source.Security?
    || (r.outcome.source.Aur? && r.outcome.applicable)
  }

  predicate Applicable(r: ResolvedOutcome) {
    r.outcome.applicable && !(r.outcome.source.Flatpak? && r.outcome.status.MissingDependency?)
  }

  function ScanStateOf(resolved: seq<ResolvedOutcome>): ScanState {
    if !(exists r :: r in resolved && Mandatory(r) && r.usable) then ScanState.Failed
    else if forall r :: r in resolved && Applicable(r) ==> Successful(r.outcome) && r.health.Status().OK? then Complete
    else if exists r :: r in resolved && Applicable(r) && r.usable then Partial
    else ScanState.Failed
  }

  function Inventories(envelope: Envelope, items: seq<NormalizedItem>): seq<Inventory> {
    Map((source: ItemSource) =>
          var own := Filter((item: NormalizedItem) => item.source == source, items);
          Inventory(envelope, InventoryPayload(source, |own|, own)),
        [ItemSource.Arch, ItemSource.Aur, ItemSource.Flatpak, ItemSource.Mise])
  }

  // Last good keys

  function Dedup(keys: seq<string>): (r: seq<string>)
    ensures forall k :: k in r <==> k in keys
    ensures Distinct(r)
  {
    if keys == [] then []
    else
      var rest := Dedup(keys[1..]);
      if keys[0] in rest then rest else [keys[0]] + rest
  }

  const SuccessfulOutcome: ResolvedOutcome -> bool := (r: ResolvedOutcome) => Successful(r.outcome)

  function SuccessKeys(resolved: seq<ResolvedOutcome>): seq<string> {
    Map((r: ResolvedOutcome) => Key(r.outcome), Filter(SuccessfulOutcome, resolved))
  }

  const ByText: (string, string) -> bool := (a: string, b: string) => StringLe(a, b)

  function LastGoodKeys(previous: Option<GenerationBundle>, resolved: seq<ResolvedOutcome>): seq<string> {
    Sort(Dedup((if previous.None? then [] else previous.value.lastGoodKeys) + SuccessKeys(resolved)), ByText)
  }

  // Retry metadata

  const RETRY_DELAYS: seq<int> := [5 * MINUTE, 15 * MINUTE, HOUR, 6 * HOUR]

  function RetryDelay(count: int): (d: int)
    requires count >= 1
    ensures 5 * MINUTE <= d <= 6 * HOUR
  {
    RETRY_DELAYS[(if count < |RETRY_DELAYS| then count else |RETRY_DELAYS|) - 1]
  }

  // The outcomes of a source that were collected in a scan.
  function Attempted(current: seq<Option<SourceOutcome>>): seq<SourceOutcome> {
    if current == [] then []
    else (if current[0].Some? then [current[0].value] else []) + Attempted(current[1..])
  }

  function FirstFailure(outcomes: seq<SourceOutcome>): Option<SourceOutcome> {
    if outcomes == [] then None
    else if !Successful(outcomes[0]) then Some(outcomes[0])
    else FirstFailure(outcomes[1..])
  }

  function NextMetadata(source: SourceName, current: seq<Option<SourceOutcome>>, previous: Option<SourceMetadata>,
                        now: Instant): (m: SourceMetadata)
    requires previous.Some? ==> previous.value.failureCount >= 0
    ensures m.failureCount >= 0
    ensures (previous.Some? ==> previous.value.source == source) ==> m.source == source
  {
    var prior := if previous.None? then SourceMetadata(source, None, None, 0, false) else previous.value;
    var attempted := Attempted(current);
    var failure := FirstFailure(attempted);
    if attempted == [] then prior
    else if failure.None? then SourceMetadata(source, Some(now), None, 0, false)
    else
      var count := prior.failureCount + 1;
      if failure.value.permanent then
        SourceMetadata(source, prior.lastSuccess, Some(now + RETRY_DELAYS[|RETRY_DELAYS| - 1]), count, true)
      else SourceMetadata(source, prior.lastSuccess, Some(now + RetryDelay(count)), count, false)
  }

  function FindMetadata(sources: seq<SourceMetadata>, source: SourceName): (r: Option<SourceMetadata>)
    ensures r.Some? ==> r.value in sources && r.value.source == source
  {
    if sources == [] then None
    else if sources[0].source == source then Some(sources[0])
    else FindMetadata(sources[1..], source)
  }

  const SOURCES: seq<SourceName> := [
    SourceName.Omarchy, SourceName.Arch, SourceName.Aur, SourceName.Flatpak,
    SourceName.Mise, SourceName.Security, SourceName.CisaKev]

  // The inputs that belong to a source: two for Flatpak, one for the others.
  function InputsOf(inputs: seq<Option<SourceOutcome>>, source: SourceName): seq<Option<SourceOutcome>>
    requires |inputs| == |SLICES|
  {
    match source
    case Omarchy => [inputs[0]]
    case Arch => [inputs[1]]
    case Aur => [inputs[2]]
    case Flatpak => [inputs[3], inputs[4]]
    case Mise => [inputs[5]]
    case Security => [inputs[6]]
    case CisaKev => [inputs[7]]
  }

  predicate CountsValid(sources: seq<SourceMetadata>) {
    forall m :: m in sources ==> m.failureCount >= 0
  }

  function Metadata(previous: seq<SourceMetadata>, inputs: seq<Option<SourceOutcome>>,
                    now: Instant): (r: seq<SourceMetadata>)
    requires |inputs| == |SLICES| && CountsValid(previous)
    ensures |r| == |SOURCES|
    ensures forall i :: 0 <= i < |r| ==> r[i].source == SOURCES[i] && r[i].failureCount >= 0
    ensures forall i :: 0 <= i < |SOURCES| ==>
              r[i] == NextMetadata(SOURCES[i], InputsOf(inputs, SOURCES[i]), FindMetadata(previous, SOURCES[i]), now)
  {
    seq(|SOURCES|, i requires 0 <= i < |SOURCES| =>
          NextMetadata(SOURCES[i], InputsOf(inputs, SOURCES[i]), FindMetadata(previous, SOURCES[i]), now))
  }
}
